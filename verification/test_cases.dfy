/**
 * The cases of the repository's test suite, stated for every key, value and surrounding text
 * of the same shape rather than for the one string each test uses.
 */
module TestCases {
  import opened Wrappers
  import opened Tokens
  import opened Appenders
  import opened Parser
  import opened ParserProperties
  import opened Grammar
  import opened OpenLevels
  import opened TemplateStrings

  /** The options the positive tests create their templates with. */
  const Preserve := TemplateStringOptions(true)

  /** A key as the tests write them: non-empty, with no bracket and no colon. */
  predicate IsKey(key: string) {
    key != [] && PlainText(key) && ':' !in key
  }

  /** `{key}`, the text of a placeholder. */
  function Braced(key: string): string {
    "{" + key + "}"
  }

  function Property0(key: string, options: TemplateStringOptions): Appender {
    Property(key, None, Braced(key), options)
  }

  function ValueToken(value: string): ContentToken {
    ContentToken(PropertyValue, value)
  }

  function TextToken(text: string): ContentToken {
    ContentToken(ConstantValue, text)
  }

  lemma PlaceholderOf(key: string, options: TemplateStringOptions)
    requires IsKey(key)
    ensures WellFormed(Placeholder(key)) && Spell(Placeholder(key)) == Braced(key)
    ensures Compile(Placeholder(key), options) == Property0(key, options)
  {
    PlaceholderCompiles(key, [], options);
    assert key + [] == key;
  }

  /** A grammar template that does not start with white space is created as its compilation. */
  lemma CreatedOf(ps: seq<Piece>, options: TemplateStringOptions, template: string, appenders: seq<Appender>)
    requires WellFormedSeq(ps) && ps != [] && (ps[0].Group? || (ps[0].text != [] && !IsWhiteSpace(ps[0].text[0])))
    requires SpellAll(ps) == template && CompileAll(ps, options) == appenders
    ensures Created(Some(template), Some(options)) == Ok(TemplateString(appenders))
  {
    FirstChar(ps);
    CreateOfPieces(ps, options);
  }

  /** A template that does not start with white space and parses is created as what it parses to. */
  lemma CreatedFromParse(template: string, options: TemplateStringOptions, appenders: seq<Appender>)
    requires template != [] && !IsWhiteSpace(template[0]) && ParseUnits(template, options) == Ok(appenders)
    ensures Created(Some(template), Some(options)) == Ok(TemplateString(appenders))
  {
  }

  lemma RenderAll1(a: Appender, properties: Properties, optionalContext: bool, format: Formatter)
    ensures RenderAll([a], properties, optionalContext, format) == Render(a, properties, optionalContext, format)
  {
    RenderAllSnoc([], a, properties, optionalContext, format);
    assert [] + [a] == [a];
    var r := Render(a, properties, optionalContext, format);
    if r.Ok? {
      assert [] + r.value == r.value;
    }
  }

  lemma RenderAll2(a: Appender, b: Appender, properties: Properties, optionalContext: bool, format: Formatter)
    ensures RenderAll([a, b], properties, optionalContext, format)
            == (var x :- Render(a, properties, optionalContext, format);
                var y :- Render(b, properties, optionalContext, format);
                Ok(x + y))
  {
    RenderAll1(a, properties, optionalContext, format);
    RenderAllSnoc([a], b, properties, optionalContext, format);
    assert [a] + [b] == [a, b];
  }

  lemma RenderAll3(a: Appender, b: Appender, c: Appender, properties: Properties,
                   optionalContext: bool, format: Formatter)
    ensures RenderAll([a, b, c], properties, optionalContext, format)
            == (var x :- Render(a, properties, optionalContext, format);
                var y :- Render(b, properties, optionalContext, format);
                var z :- Render(c, properties, optionalContext, format);
                Ok(x + y + z))
  {
    RenderAll2(a, b, properties, optionalContext, format);
    RenderAllSnoc([a, b], c, properties, optionalContext, format);
    assert [a, b] + [c] == [a, b, c];
  }

  lemma Concat1(t: ContentToken)
    ensures Concat([t]) == t.value
  {
    assert [t][..0] == [];
    assert [] + t.value == t.value;
  }

  lemma Concat2(t: ContentToken, u: ContentToken)
    ensures Concat([t, u]) == t.value + u.value
  {
    Concat1(t);
    assert [t, u][..1] == [t];
  }

  lemma Concat3(t: ContentToken, u: ContentToken, v: ContentToken)
    ensures Concat([t, u, v]) == t.value + u.value + v.value
  {
    Concat2(t, u);
    assert [t, u, v][..2] == [t, u];
  }

  lemma Concat4(t: ContentToken, u: ContentToken, v: ContentToken, w: ContentToken)
    ensures Concat([t, u, v, w]) == t.value + u.value + v.value + w.value
  {
    Concat3(t, u, v);
    assert [t, u, v, w][..3] == [t, u, v];
  }

  /** Three appenders that each render to one token replace to the three token texts in order. */
  lemma ReplacedThree(a: Appender, b: Appender, c: Appender, properties: Properties, format: Formatter,
                      t: ContentToken, u: ContentToken, v: ContentToken)
    requires Render(a, properties, false, format) == Ok([t])
    requires Render(b, properties, false, format) == Ok([u])
    requires Render(c, properties, false, format) == Ok([v])
    ensures Replaced(TemplateString([a, b, c]), properties, format) == Ok(t.value + u.value + v.value)
  {
    RenderAll3(a, b, c, properties, false, format);
    assert [t] + [u] + [v] == [t, u, v];
    Concat3(t, u, v);
  }

  /** `{property}` with the property bound replaces to its value. */
  lemma SinglePlaceholder(key: string, value: string, format: Formatter)
    requires IsKey(key)
    ensures Created(Some(Braced(key)), Some(Preserve)) == Ok(TemplateString([Property0(key, Preserve)]))
    ensures Replaced(TemplateString([Property0(key, Preserve)]), map[key := Some(value)], format) == Ok(value)
  {
    var p := Placeholder(key);
    PlaceholderOf(key, Preserve);
    SpellAllCons(p, []);
    CompileAllCons(p, [], Preserve);
    WellFormedSeqCons(p, []);
    assert [p] + [] == [p];
    assert Spell(p) + [] == Spell(p);
    CreatedOf([p], Preserve, Braced(key), [Property0(key, Preserve)]);
    RenderAll1(Property0(key, Preserve), map[key := Some(value)], false, format);
    Concat1(ValueToken(value));
  }

  /** The pieces of three units in a row, spelled and compiled unit by unit. */
  lemma ThreePieces(a: Piece, b: Piece, c: Piece, options: TemplateStringOptions)
    requires WellFormed(a) && WellFormed(b) && WellFormed(c)
    requires !(a.Text? && b.Text?) && !(b.Text? && c.Text?)
    ensures WellFormedSeq([a, b, c])
    ensures SpellAll([a, b, c]) == Spell(a) + Spell(b) + Spell(c)
    ensures CompileAll([a, b, c], options) == [Compile(a, options), Compile(b, options), Compile(c, options)]
  {
    SpellAllCons(c, []);
    SpellAllCons(b, [c]);
    SpellAllCons(a, [b, c]);
    CompileAllCons(c, [], options);
    CompileAllCons(b, [c], options);
    CompileAllCons(a, [b, c], options);
    WellFormedSeqCons(c, []);
    WellFormedSeqCons(b, [c]);
    WellFormedSeqCons(a, [b, c]);
    assert [c] + [] == [c] && [b] + [c] == [b, c] && [a] + [b, c] == [a, b, c];
    assert Spell(c) + [] == Spell(c);
  }

  /** `{size}_{color}`: both bound, or either one absent and preserved as written. */
  lemma TwoPlaceholders(k1: string, sep: string, k2: string, v1: string, v2: string, format: Formatter)
    requires IsKey(k1) && IsKey(k2) && k1 != k2 && sep != [] && PlainText(sep)
    ensures Created(Some(Braced(k1) + sep + Braced(k2)), Some(Preserve))
            == Ok(TemplateString([Property0(k1, Preserve), Constant(sep), Property0(k2, Preserve)]))
    ensures Replaced(TemplateString([Property0(k1, Preserve), Constant(sep), Property0(k2, Preserve)]),
                     map[k2 := Some(v2), k1 := Some(v1)], format) == Ok(v1 + sep + v2)
    ensures Replaced(TemplateString([Property0(k1, Preserve), Constant(sep), Property0(k2, Preserve)]),
                     map[k2 := Some(v2)], format) == Ok(Braced(k1) + sep + v2)
    ensures Replaced(TemplateString([Property0(k1, Preserve), Constant(sep), Property0(k2, Preserve)]),
                     map[k1 := Some(v1)], format) == Ok(v1 + sep + Braced(k2))
  {
    PlaceholderOf(k1, Preserve);
    PlaceholderOf(k2, Preserve);
    ThreePieces(Placeholder(k1), Text(sep), Placeholder(k2), Preserve);
    CreatedOf([Placeholder(k1), Text(sep), Placeholder(k2)], Preserve, Braced(k1) + sep + Braced(k2),
              [Property0(k1, Preserve), Constant(sep), Property0(k2, Preserve)]);
    var both := map[k2 := Some(v2), k1 := Some(v1)];
    var second := map[k2 := Some(v2)];
    var first := map[k1 := Some(v1)];
    ReplacedThree(Property0(k1, Preserve), Constant(sep), Property0(k2, Preserve), both, format,
                  ValueToken(v1), TextToken(sep), ValueToken(v2));
    ReplacedThree(Property0(k1, Preserve), Constant(sep), Property0(k2, Preserve), second, format,
                  TextToken(Braced(k1)), TextToken(sep), ValueToken(v2));
    ReplacedThree(Property0(k1, Preserve), Constant(sep), Property0(k2, Preserve), first, format,
                  ValueToken(v1), TextToken(sep), TextToken(Braced(k2)));
  }

  /** `{count:D4}`: the value goes through the composite format `{0:D4}`. */
  lemma FormattedPlaceholder(key: string, suffix: string, value: string, format: Formatter)
    requires IsKey(key) && PlainText(key + suffix) && suffix != [] && suffix[0] == ':'
    ensures Created(Some(Braced(key + suffix)), Some(Preserve))
            == Ok(TemplateString([Property(key, Some(CompositeFormat(suffix)), Braced(key + suffix), Preserve)]))
    ensures Replaced(TemplateString([Property(key, Some(CompositeFormat(suffix)), Braced(key + suffix), Preserve)]),
                     map[key := Some(value)], format) == Ok(format(CompositeFormat(suffix), value))
  {
    var a := Property(key, Some(CompositeFormat(suffix)), Braced(key + suffix), Preserve);
    assert Created(Some(Braced(key + suffix)), Some(Preserve)) == Ok(TemplateString([a])) by {
      var p := Placeholder(key + suffix);
      PlaceholderCompiles(key, suffix, Preserve);
      assert Spell(p) == Braced(key + suffix);
      SpellAllCons(p, []);
      CompileAllCons(p, [], Preserve);
      WellFormedSeqCons(p, []);
      assert [p] + [] == [p];
      assert Spell(p) + [] == Spell(p);
      CreatedOf([p], Preserve, Braced(key + suffix), [a]);
    }
    RenderAll1(a, map[key := Some(value)], false, format);
    Concat1(ValueToken(format(CompositeFormat(suffix), value)));
  }

  lemma TwoPieces(a: Piece, b: Piece, options: TemplateStringOptions)
    requires WellFormed(a) && WellFormed(b) && !(a.Text? && b.Text?)
    ensures WellFormedSeq([a, b])
    ensures SpellAll([a, b]) == Spell(a) + Spell(b)
    ensures CompileAll([a, b], options) == [Compile(a, options), Compile(b, options)]
  {
    SpellAllCons(b, []);
    SpellAllCons(a, [b]);
    CompileAllCons(b, [], options);
    CompileAllCons(a, [b], options);
    WellFormedSeqCons(b, []);
    WellFormedSeqCons(a, [b]);
    assert [b] + [] == [b] && [a] + [b] == [a, b];
    assert Spell(b) + [] == Spell(b);
  }

  /** `[` + text + `{key}` + `]`: an optional segment around one placeholder. */
  function Segment(dot: string, key: string): Piece {
    Group(Square, [Text(dot), Placeholder(key)])
  }

  function SegmentText(dot: string, key: string): string {
    "[" + dot + Braced(key) + "]"
  }

  function SegmentAppender(dot: string, key: string, options: TemplateStringOptions): Appender {
    Optional(SegmentText(dot, key), [Constant(dot), Property0(key, options)])
  }

  lemma SegmentOf(dot: string, key: string, options: TemplateStringOptions)
    requires dot != [] && PlainText(dot) && IsKey(key)
    ensures WellFormed(Segment(dot, key)) && Spell(Segment(dot, key)) == SegmentText(dot, key)
    ensures Compile(Segment(dot, key), options) == SegmentAppender(dot, key, options)
  {
    PlaceholderOf(key, options);
    var body := [Text(dot), Placeholder(key)];
    TwoPieces(Text(dot), Placeholder(key), options);
    var inner := dot + Braced(key);
    assert SpellAll(body) == inner;
    assert Spell(Segment(dot, key)) == "[" + inner + "]";
    assert "[" + inner + "]" == SegmentText(dot, key);
    var children := [Constant(dot), Property0(key, options)];
    assert CompileAll(body, options) == children;
    assert HasMappedProperties(children[1]);
    assert AnyMapped(children);
  }

  /**
   * An optional segment around one placeholder, in optional context: the text and the value
   * when the key is bound, nothing when it is bound to null.
   */
  lemma SegmentRenders(dot: string, key: string, value: string, properties: Properties, format: Formatter)
    requires key in properties
    ensures properties[key] == Some(value) ==>
              Render(SegmentAppender(dot, key, Preserve), properties, false, format)
              == Ok([TextToken(dot), ValueToken(value)])
    ensures properties[key] == None ==>
              Render(SegmentAppender(dot, key, Preserve), properties, false, format) == Ok([])
  {
    RenderAll2(Constant(dot), Property0(key, Preserve), properties, true, format);
    assert [TextToken(dot)] + [ValueToken(value)] == [TextToken(dot), ValueToken(value)];
    assert !AllConstant([TextToken(dot), ValueToken(value)]) by {
      assert [TextToken(dot), ValueToken(value)][1].kind == PropertyValue;
    }
    assert [TextToken(dot)] + [] == [TextToken(dot)];
  }

  /** `.json[.{compression}]`: the suffix appears only when the key is bound to a value. */
  lemma OptionalSuffix(prefix: string, dot: string, key: string, value: string, format: Formatter)
    requires prefix != [] && PlainText(prefix) && !IsWhiteSpace(prefix[0])
    requires dot != [] && PlainText(dot) && IsKey(key)
    ensures Created(Some(prefix + SegmentText(dot, key)), Some(Preserve))
            == Ok(TemplateString([Constant(prefix), SegmentAppender(dot, key, Preserve)]))
    ensures Replaced(TemplateString([Constant(prefix), SegmentAppender(dot, key, Preserve)]),
                     map[key := Some(value)], format) == Ok(prefix + dot + value)
    ensures Replaced(TemplateString([Constant(prefix), SegmentAppender(dot, key, Preserve)]),
                     map[key := None], format) == Ok(prefix)
  {
    SegmentOf(dot, key, Preserve);
    TwoPieces(Text(prefix), Segment(dot, key), Preserve);
    CreatedOf([Text(prefix), Segment(dot, key)], Preserve, prefix + SegmentText(dot, key),
              [Constant(prefix), SegmentAppender(dot, key, Preserve)]);
    var bound := map[key := Some(value)];
    var unset := map[key := None];
    SegmentRenders(dot, key, value, bound, format);
    SegmentRenders(dot, key, value, unset, format);
    RenderAll2(Constant(prefix), SegmentAppender(dot, key, Preserve), bound, false, format);
    RenderAll2(Constant(prefix), SegmentAppender(dot, key, Preserve), unset, false, format);
    assert [TextToken(prefix)] + [TextToken(dot), ValueToken(value)]
        == [TextToken(prefix), TextToken(dot), ValueToken(value)];
    Concat3(TextToken(prefix), TextToken(dot), ValueToken(value));
    assert [TextToken(prefix)] + [] == [TextToken(prefix)];
    Concat1(TextToken(prefix));
  }

  /** `[.{format}[.{compression}]]`: a segment nested in a segment. */
  function Nested(dot: string, f: string, c: string): Piece {
    Group(Square, [Text(dot), Placeholder(f), Segment(dot, c)])
  }

  function NestedText(dot: string, f: string, c: string): string {
    "[" + dot + Braced(f) + SegmentText(dot, c) + "]"
  }

  function NestedAppender(dot: string, f: string, c: string, options: TemplateStringOptions): Appender {
    Optional(NestedText(dot, f, c), [Constant(dot), Property0(f, options), SegmentAppender(dot, c, options)])
  }

  lemma NestedOf(dot: string, f: string, c: string, options: TemplateStringOptions)
    requires dot != [] && PlainText(dot) && IsKey(f) && IsKey(c)
    ensures WellFormed(Nested(dot, f, c)) && Spell(Nested(dot, f, c)) == NestedText(dot, f, c)
    ensures Compile(Nested(dot, f, c), options) == NestedAppender(dot, f, c, options)
  {
    PlaceholderOf(f, options);
    SegmentOf(dot, c, options);
    var body := [Text(dot), Placeholder(f), Segment(dot, c)];
    ThreePieces(Text(dot), Placeholder(f), Segment(dot, c), options);
    var inner := dot + Braced(f) + SegmentText(dot, c);
    assert SpellAll(body) == inner;
    assert Spell(Nested(dot, f, c)) == "[" + inner + "]";
    assert "[" + inner + "]" == NestedText(dot, f, c);
    var children := [Constant(dot), Property0(f, options), SegmentAppender(dot, c, options)];
    assert CompileAll(body, options) == children;
    assert HasMappedProperties(children[1]);
    assert AnyMapped(children);
  }

  lemma NestedRenders(dot: string, f: string, c: string, vf: Option<string>, vc: Option<string>, format: Formatter)
    requires f != c
    ensures vf.None? && vc.None? ==>
              Render(NestedAppender(dot, f, c, Preserve), map[f := vf, c := vc], false, format) == Ok([])
    ensures vf.Some? && vc.None? ==>
              Render(NestedAppender(dot, f, c, Preserve), map[f := vf, c := vc], false, format)
              == Ok([TextToken(dot), ValueToken(vf.value)])
    ensures vf.None? && vc.Some? ==>
              Render(NestedAppender(dot, f, c, Preserve), map[f := vf, c := vc], false, format)
              == Ok([TextToken(dot), TextToken(dot), ValueToken(vc.value)])
    ensures vf.Some? && vc.Some? ==>
              Render(NestedAppender(dot, f, c, Preserve), map[f := vf, c := vc], false, format)
              == Ok([TextToken(dot), ValueToken(vf.value), TextToken(dot), ValueToken(vc.value)])
  {
    var props := map[f := vf, c := vc];
    var cValue := if vc.Some? then vc.value else "";
    SegmentRenders(dot, c, cValue, props, format);
    RenderAll3(Constant(dot), Property0(f, Preserve), SegmentAppender(dot, c, Preserve), props, true, format);
    var mine: seq<ContentToken> := if vf.Some? then [ValueToken(vf.value)] else [];
    var inner: seq<ContentToken> := if vc.Some? then [TextToken(dot), ValueToken(cValue)] else [];
    var tokens := [TextToken(dot)] + mine + inner;
    assert Render(Property0(f, Preserve), props, true, format) == Ok(mine);
    assert RenderAll([Constant(dot), Property0(f, Preserve), SegmentAppender(dot, c, Preserve)], props, true, format)
        == Ok(tokens);
    if vf.None? && vc.None? {
      assert tokens == [TextToken(dot)];
      assert AllConstant(tokens);
    } else if vf.Some? && vc.None? {
      assert tokens == [TextToken(dot), ValueToken(vf.value)];
      assert tokens[1].kind == PropertyValue;
    } else if vf.None? {
      assert tokens == [TextToken(dot), TextToken(dot), ValueToken(cValue)];
      assert tokens[2].kind == PropertyValue;
    } else {
      assert tokens == [TextToken(dot), ValueToken(vf.value), TextToken(dot), ValueToken(cValue)];
      assert tokens[1].kind == PropertyValue;
    }
  }

  /** The four cases of the nested segment: each segment appears only around a bound value. */
  lemma NestedOptional(dot: string, f: string, c: string, vf: string, vc: string, format: Formatter)
    requires dot != [] && PlainText(dot) && IsKey(f) && IsKey(c) && f != c
    ensures Created(Some(NestedText(dot, f, c)), Some(Preserve))
            == Ok(TemplateString([NestedAppender(dot, f, c, Preserve)]))
    ensures Replaced(TemplateString([NestedAppender(dot, f, c, Preserve)]), map[f := None, c := None], format)
            == Ok([])
    ensures Replaced(TemplateString([NestedAppender(dot, f, c, Preserve)]), map[f := Some(vf), c := None], format)
            == Ok(dot + vf)
    ensures Replaced(TemplateString([NestedAppender(dot, f, c, Preserve)]), map[f := None, c := Some(vc)], format)
            == Ok(dot + dot + vc)
    ensures Replaced(TemplateString([NestedAppender(dot, f, c, Preserve)]), map[f := Some(vf), c := Some(vc)], format)
            == Ok(dot + vf + dot + vc)
  {
    var p := Nested(dot, f, c);
    var a := NestedAppender(dot, f, c, Preserve);
    NestedOf(dot, f, c, Preserve);
    SpellAllCons(p, []);
    CompileAllCons(p, [], Preserve);
    WellFormedSeqCons(p, []);
    assert [p] + [] == [p];
    assert Spell(p) + [] == Spell(p);
    CreatedOf([p], Preserve, NestedText(dot, f, c), [a]);
    NestedRenders(dot, f, c, None, None, format);
    NestedRenders(dot, f, c, Some(vf), None, format);
    NestedRenders(dot, f, c, None, Some(vc), format);
    NestedRenders(dot, f, c, Some(vf), Some(vc), format);
    RenderAll1(a, map[f := None, c := None], false, format);
    RenderAll1(a, map[f := Some(vf), c := None], false, format);
    RenderAll1(a, map[f := None, c := Some(vc)], false, format);
    RenderAll1(a, map[f := Some(vf), c := Some(vc)], false, format);
    Concat2(TextToken(dot), ValueToken(vf));
    Concat3(TextToken(dot), TextToken(dot), ValueToken(vc));
    Concat4(TextToken(dot), ValueToken(vf), TextToken(dot), ValueToken(vc));
  }

  /** `{key}` on its own parses to one placeholder. */
  lemma ParseOnePlaceholder(key: string, options: TemplateStringOptions)
    requires IsKey(key)
    ensures ParseUnits(Braced(key), options) == Ok([Property0(key, options)])
  {
    var p := Placeholder(key);
    PlaceholderOf(key, options);
    SpellAllCons(p, []);
    CompileAllCons(p, [], options);
    WellFormedSeqCons(p, []);
    assert [p] + [] == [p];
    assert Spell(p) + [] == Spell(p);
    assert SpellAll([p]) == Braced(key);
    assert CompileAll([p], options) == [Property0(key, options)];
    ParseOfPieces([p], options);
  }

  /** `{key}` holds no `}}` and does not start with `}`, so an escape may precede it. */
  lemma BracedHasNoDoubleClose(key: string)
    requires IsKey(key)
    ensures forall e :: 0 < e < |Braced(key)| ==> !(Braced(key)[e - 1] == '}' && Braced(key)[e] == '}')
    ensures Braced(key)[0] != '}'
  {
    var b := Braced(key);
    forall e | 0 < e < |b| ensures !(b[e - 1] == '}' && b[e] == '}') {
      assert b[e - 1] == if e == 1 then '{' else key[e - 2];
    }
  }

  /** An escape followed by a placeholder parses to two units, the escape as a constant. */
  lemma ParseEscapeThenPlaceholder(x: string, key: string, options: TemplateStringOptions)
    requires IsKey(key)
    ensures ParseUnits("{{" + x + "}}" + Braced(key), options)
            == Ok([Constant("{" + x + "}"), Property0(key, options)])
  {
    var span := "{{" + x + "}}" + Braced(key);
    BracedHasNoDoubleClose(key);
    EscapeUnit(x, Braced(key), options);
    ParseUnitsStep(span, options);
    ParseOnePlaceholder(key, options);
    assert [Constant("{" + x + "}")] + [Property0(key, options)] == [Constant("{" + x + "}"), Property0(key, options)];
  }

  /** A placeholder in front of a parsed rest adds one unit in front of the rest's units. */
  lemma ParsePlaceholderThen(key: string, rest: string, options: TemplateStringOptions)
    requires IsKey(key)
    ensures ParseUnits(Braced(key) + rest, options) == Prepended([Property0(key, options)], ParseUnits(rest, options))
  {
    PlaceholderOf(key, options);
    UnitOfGroup(Placeholder(key), rest, options);
    ParseUnitsStep(Braced(key) + rest, options);
  }

  /** A placeholder, an escape and a placeholder parse to three units, the escape as a constant. */
  lemma ParseEscapeBetween(k1: string, x: string, k2: string, options: TemplateStringOptions)
    requires IsKey(k1) && IsKey(k2)
    ensures ParseUnits(Braced(k1) + "{{" + x + "}}" + Braced(k2), options)
            == Ok([Property0(k1, options), Constant("{" + x + "}"), Property0(k2, options)])
  {
    var rest := "{{" + x + "}}" + Braced(k2);
    var tail := [Constant("{" + x + "}"), Property0(k2, options)];
    ParseEscapeThenPlaceholder(x, k2, options);
    var whole := Braced(k1) + "{{" + x + "}}" + Braced(k2);
    assert whole == Braced(k1) + rest;
    ParsePlaceholderBefore(k1, rest, whole, tail, options);
    assert [Property0(k1, options)] + tail
        == [Property0(k1, options), Constant("{" + x + "}"), Property0(k2, options)];
  }

  /** A placeholder in front of a rest that parses adds one unit in front of its units. */
  lemma ParsePlaceholderBefore(key: string, rest: string, whole: string, tail: seq<Appender>,
                               options: TemplateStringOptions)
    requires IsKey(key) && whole == Braced(key) + rest && ParseUnits(rest, options) == Ok(tail)
    ensures ParseUnits(whole, options) == Ok([Property0(key, options)] + tail)
  {
    ParsePlaceholderThen(key, rest, options);
  }

  /** `{red}{{green}}{blue}`: the escape between two placeholders replaces to `{green}`. */
  lemma EscapeBetween(k1: string, x: string, k2: string, v1: string, v2: string, format: Formatter)
    requires IsKey(k1) && IsKey(k2) && k1 != k2
    ensures Created(Some(Braced(k1) + "{{" + x + "}}" + Braced(k2)), Some(Preserve))
            == Ok(TemplateString([Property0(k1, Preserve), Constant("{" + x + "}"), Property0(k2, Preserve)]))
    ensures Replaced(TemplateString([Property0(k1, Preserve), Constant("{" + x + "}"), Property0(k2, Preserve)]),
                     map[k1 := Some(v1), k2 := Some(v2)], format) == Ok(v1 + "{" + x + "}" + v2)
  {
    var template := Braced(k1) + "{{" + x + "}}" + Braced(k2);
    var appenders := [Property0(k1, Preserve), Constant("{" + x + "}"), Property0(k2, Preserve)];
    assert Created(Some(template), Some(Preserve)) == Ok(TemplateString(appenders)) by {
      ParseEscapeBetween(k1, x, k2, Preserve);
      assert template[0] == '{';
      CreatedFromParse(template, Preserve, appenders);
    }
    var props := map[k1 := Some(v1), k2 := Some(v2)];
    assert Replaced(TemplateString(appenders), props, format) == Ok(v1 + "{" + x + "}" + v2) by {
      ReplacedThree(Property0(k1, Preserve), Constant("{" + x + "}"), Property0(k2, Preserve), props, format,
                    ValueToken(v1), TextToken("{" + x + "}"), ValueToken(v2));
      assert v1 + ("{" + x + "}") + v2 == v1 + "{" + x + "}" + v2;
    }
  }

  /** An escape on its own parses to one constant. */
  lemma ParseOneEscape(x: string, options: TemplateStringOptions)
    ensures ParseUnits("{{" + x + "}}", options) == Ok([Constant("{" + x + "}")])
  {
    var escape := "{{" + x + "}}";
    EscapeUnit(x, [], options);
    assert escape + [] == escape;
    ParseUnitsStep(escape, options);
    assert [Constant("{" + x + "}")] + [] == [Constant("{" + x + "}")];
  }

  /** Two placeholders in front of a rest that parses add two units in front of its units. */
  lemma ParseTwoPlaceholdersThen(k1: string, k2: string, rest: string, whole: string, tail: seq<Appender>,
                                 options: TemplateStringOptions)
    requires IsKey(k1) && IsKey(k2) && whole == Braced(k1) + Braced(k2) + rest
    requires ParseUnits(rest, options) == Ok(tail)
    ensures ParseUnits(whole, options) == Ok([Property0(k1, options), Property0(k2, options)] + tail)
  {
    var middle := Braced(k2) + rest;
    ParsePlaceholderBefore(k2, rest, middle, tail, options);
    ConcatAssoc(Braced(k1), Braced(k2), rest);
    ParsePlaceholderBefore(k1, middle, whole, [Property0(k2, options)] + tail, options);
    ConsTwo(Property0(k1, options), Property0(k2, options), tail);
  }

  /**
   * Sequence step for the proofs above (associativity of `+`), stated on its own so that the
   * facts about `ParseUnits` in the caller stay out of its proof.
   */
  lemma ConcatAssoc(a: string, b: string, c: string)
    ensures a + b + c == a + (b + c)
  {
  }

  /** Sequence step for the proofs above: two units put in front one at a time, or together. */
  lemma ConsTwo(x: Appender, y: Appender, tail: seq<Appender>)
    ensures [x] + ([y] + tail) == [x, y] + tail
  {
  }

  /** Two placeholders and an escape at the end parse to three units. */
  lemma ParseEscapeAtEnd(k1: string, k2: string, x: string, options: TemplateStringOptions)
    requires IsKey(k1) && IsKey(k2)
    ensures ParseUnits(Braced(k1) + Braced(k2) + "{{" + x + "}}", options)
            == Ok([Property0(k1, options), Property0(k2, options), Constant("{" + x + "}")])
  {
    var escape := "{{" + x + "}}";
    ParseOneEscape(x, options);
    var whole := Braced(k1) + Braced(k2) + "{{" + x + "}}";
    assert whole == Braced(k1) + Braced(k2) + escape;
    ParseTwoPlaceholdersThen(k1, k2, escape, whole, [Constant("{" + x + "}")], options);
    assert [Property0(k1, options), Property0(k2, options)] + [Constant("{" + x + "}")]
        == [Property0(k1, options), Property0(k2, options), Constant("{" + x + "}")];
  }

  /** `{red}{green}{{blue}}`: an escape at the end replaces to `{blue}`. */
  lemma EscapeAtEnd(k1: string, k2: string, x: string, v1: string, v2: string, format: Formatter)
    requires IsKey(k1) && IsKey(k2) && k1 != k2
    ensures Created(Some(Braced(k1) + Braced(k2) + "{{" + x + "}}"), Some(Preserve))
            == Ok(TemplateString([Property0(k1, Preserve), Property0(k2, Preserve), Constant("{" + x + "}")]))
    ensures Replaced(TemplateString([Property0(k1, Preserve), Property0(k2, Preserve), Constant("{" + x + "}")]),
                     map[k1 := Some(v1), k2 := Some(v2)], format) == Ok(v1 + v2 + "{" + x + "}")
  {
    var template := Braced(k1) + Braced(k2) + "{{" + x + "}}";
    var appenders := [Property0(k1, Preserve), Property0(k2, Preserve), Constant("{" + x + "}")];
    assert Created(Some(template), Some(Preserve)) == Ok(TemplateString(appenders)) by {
      ParseEscapeAtEnd(k1, k2, x, Preserve);
      assert template[0] == '{';
      CreatedFromParse(template, Preserve, appenders);
    }
    var props := map[k1 := Some(v1), k2 := Some(v2)];
    assert Replaced(TemplateString(appenders), props, format) == Ok(v1 + v2 + "{" + x + "}") by {
      ReplacedThree(Property0(k1, Preserve), Property0(k2, Preserve), Constant("{" + x + "}"), props, format,
                    ValueToken(v1), ValueToken(v2), TextToken("{" + x + "}"));
      assert v1 + v2 + ("{" + x + "}") == v1 + v2 + "{" + x + "}";
    }
  }

  /** `{unclosed`, `[unclosed`: a format error. */
  lemma CreateRejectsUnclosed(opener: char, text: string, options: Option<TemplateStringOptions>)
    requires IsOpener(opener) && PlainText(text)
    ensures Created(Some([opener] + text), options) == Err(FormatError)
  {
    var span := [opener] + text;
    var level := Level(if opener == '[' then Square else Curly, if text == [] then [] else [Text(text)]);
    assert SpellAll(level.body) == text by {
      if text != [] {
        assert [Text(text)][1..] == [];
        assert text + [] == text;
      }
    }
    assert [level][1..] == [];
    assert SpellOpen([level]) == span;
    assert WellFormedSeq(level.body) by {
      if text != [] {
        assert WellFormedSeq([Text(text)][1..]);
      }
    }
    assert WellFormedLevels([level][1..]);
    UnclosedIsFormatError([level]);
    assert span[0] == opener;
    assert TokenAt(span) == Err(FormatError);
    assert UnitAt(span, OptionsOrDefault(options)) == Err(FormatError);
  }

  /** `unopened}`, `unopened]`: a format error. */
  lemma CreateRejectsUnopened(text: string, closer: char, options: Option<TemplateStringOptions>)
    requires text != [] && PlainText(text) && !IsWhiteSpace(text[0]) && (closer == ']' || closer == '}')
    ensures Created(Some(text + [closer]), options) == Err(FormatError)
  {
    var o := OptionsOrDefault(options);
    PlainUnit(text, [closer], o);
    ParseUnitsStep(text + [closer], o);
    assert (text + [closer])[0] == text[0];
  }

  /** `{property}` without preservation: an absent key, or a key bound to null, throws. */
  lemma UnmatchedOrNullThrows(key: string, format: Formatter)
    requires IsKey(key)
    ensures Created(Some(Braced(key)), None) == Ok(TemplateString([Property0(key, DefaultOptions)]))
    ensures Replaced(TemplateString([Property0(key, DefaultOptions)]), map[], format) == Err(FormatError)
    ensures Replaced(TemplateString([Property0(key, DefaultOptions)]), map[key := None], format) == Err(FormatError)
  {
    ParseOnePlaceholder(key, DefaultOptions);
    assert Braced(key)[0] == '{';
    RenderAll1(Property0(key, DefaultOptions), map[], false, format);
    RenderAll1(Property0(key, DefaultOptions), map[key := None], false, format);
  }

  /** A null, empty or blank template is an argument error, whatever the options. */
  lemma CreateRejectsBlank(options: Option<TemplateStringOptions>)
    ensures Created(None, options) == Err(ArgumentError)
    ensures Created(Some(""), options) == Err(ArgumentError)
    ensures Created(Some("  "), options) == Err(ArgumentError)
  {
    assert IsNullOrWhiteSpace(Some("  "));
  }
}
