/**
 * The public surface of TemplateString.cs: create (compile) a template once, then replace
 * its placeholders with values from a dictionary as many times as needed.
 */
module TemplateStrings {
  import opened Wrappers
  import opened Tokens
  import opened Collections
  import opened Appenders
  import opened Parser
  import opened ParserProperties
  import opened Grammar

  /** A compiled template: the appenders the parser built, in template order. */
  datatype TemplateString = TemplateString(appenders: seq<Appender>)

  /** `char.IsWhiteSpace`: the Unicode space, line and paragraph separators, and the controls 9-13 and 0x85. */
  predicate IsWhiteSpace(c: char) {
    || ('\U{0009}' <= c <= '\U{000D}')
    || c == '\U{0020}' || c == '\U{0085}' || c == '\U{00A0}' || c == '\U{1680}'
    || ('\U{2000}' <= c <= '\U{200A}')
    || c == '\U{2028}' || c == '\U{2029}' || c == '\U{202F}' || c == '\U{205F}' || c == '\U{3000}'
  }

  /** `string.IsNullOrWhiteSpace`; a `null` string is `None`. */
  predicate IsNullOrWhiteSpace(s: Option<string>) {
    s.None? || forall i :: 0 <= i < |s.value| ==> IsWhiteSpace(s.value[i])
  }

  /** `options ?? new TemplateStringOptions()`. */
  function OptionsOrDefault(options: Option<TemplateStringOptions>): TemplateStringOptions {
    if options.Some? then options.value else DefaultOptions
  }

  /**
   * What `Create` returns or throws: an argument error for a null or blank template, the
   * parser's format error for a malformed one, and otherwise the parsed appenders.
   */
  function Created(template: Option<string>, options: Option<TemplateStringOptions>): (r: Result<TemplateString>)
    ensures r.Err? && r.error == ArgumentError <==> IsNullOrWhiteSpace(template)
    ensures r.Err? && r.error == FormatError <==>
              !IsNullOrWhiteSpace(template) && ParseUnits(template.value, OptionsOrDefault(options)).Err?
    ensures r.Ok? ==>
              forall i :: 0 <= i < |r.value.appenders| ==> Compiled(r.value.appenders[i], OptionsOrDefault(options))
  {
    if IsNullOrWhiteSpace(template) then Err(ArgumentError)
    else
      ParseIsCompiled(template.value, OptionsOrDefault(options));
      var appenders :- ParseUnits(template.value, OptionsOrDefault(options));
      Ok(TemplateString(appenders))
  }

  /** `TemplateString.Create`. */
  method Create(template: Option<string>, options: Option<TemplateStringOptions>) returns (r: Result<TemplateString>)
    ensures r == Created(template, options)
  {
    if IsNullOrWhiteSpace(template) {
      return Err(ArgumentError);
    }
    var parser := new TemplateParser(template.value, if options.Some? then options.value else DefaultOptions);
    var built := parser.Build();
    if built.Err? {
      return Err(built.error);
    }
    r := Ok(TemplateString(built.value));
  }

  /** `TemplateString.Parse`: `Create` with the default options. */
  method Parse(str: Option<string>) returns (r: Result<TemplateString>)
    ensures r == Created(str, None)
  {
    r := Create(str, None);
  }

  /** `TemplateString.TryParse`: `false` and no template wherever `Parse` would throw. */
  method TryParse(str: Option<string>) returns (ok: bool, obj: Option<TemplateString>)
    ensures ok <==> Created(str, None).Ok?
    ensures ok ==> obj == Some(Created(str, None).value)
    ensures !ok ==> obj.None?
  {
    obj := None;
    if IsNullOrWhiteSpace(str) {
      return false, obj;
    }
    var created := Create(str, None);
    if created.Err? {
      return false, obj;
    }
    ok, obj := true, Some(created.value);
  }

  /** The text of a token list: the concatenation of the token values, in order. */
  function Concat(tokens: seq<ContentToken>): string
    decreases tokens
  {
    if tokens == [] then [] else Concat(tokens[..|tokens| - 1]) + tokens[|tokens| - 1].value
  }

  /** What `Replace` returns or throws: the template rendered outside any optional segment, as text. */
  function Replaced(t: TemplateString, properties: Properties, format: Formatter): (r: Result<string>)
    ensures r.Err? ==> r.error == FormatError
  {
    var tokens :- RenderAll(t.appenders, properties, false, format);
    Ok(Concat(tokens))
  }

  /**
   * `TemplateString.Replace`: every appender appends to one token list, outside optional
   * context; then the token values are concatenated.
   */
  method Replace(t: TemplateString, properties: Properties, format: Formatter) returns (r: Result<string>)
    ensures r == Replaced(t, properties, format)
  {
    var tokens := new List<ContentToken>();
    var i := 0;
    while i < |t.appenders|
      invariant 0 <= i <= |t.appenders|
      invariant RenderAll(t.appenders[..i], properties, false, format) == Ok(tokens.items)
    {
      var outcome := Append(t.appenders[i], tokens, properties, false, format);
      assert t.appenders[..i + 1][..i] == t.appenders[..i];
      if outcome.Fail? {
        RenderAllPrefixFails(t.appenders, i + 1, properties, false, format);
        return Err(outcome.error);
      }
      i := i + 1;
    }
    assert t.appenders[..i] == t.appenders;
    var sb := "";
    var j := 0;
    while j < |tokens.items|
      invariant 0 <= j <= |tokens.items|
      invariant sb == Concat(tokens.items[..j])
    {
      sb := sb + tokens.items[j].value;
      assert tokens.items[..j + 1][..j] == tokens.items[..j];
      j := j + 1;
    }
    assert tokens.items[..j] == tokens.items;
    r := Ok(sb);
  }

  /** A template of one constant replaces to that constant. */
  lemma ReplaceOneConstant(text: string, properties: Properties, format: Formatter)
    ensures Replaced(TemplateString([Constant(text)]), properties, format) == Ok(text)
  {
    var tokens := [ContentToken(ConstantValue, text)];
    assert [Constant(text)][..0] == [];
    assert [] + tokens == tokens;
    assert RenderAll([Constant(text)], properties, false, format) == Ok(tokens);
    assert tokens[..0] == [];
    assert Concat(tokens) == [] + text;
    assert [] + text == text;
  }

  /** A template without brackets compiles to one constant and replaces to itself, whatever the values. */
  lemma PlainTemplateRoundTrip(text: string, properties: Properties, format: Formatter)
    requires PlainText(text) && !IsNullOrWhiteSpace(Some(text))
    ensures Created(Some(text), None) == Ok(TemplateString([Constant(text)]))
    ensures Replaced(Created(Some(text), None).value, properties, format) == Ok(text)
  {
    PlainUnit(text, [], DefaultOptions);
    assert text + [] == text;
    assert UnitAt(text, DefaultOptions) == Ok((Constant(text), []));
    ParseUnitsStep(text, DefaultOptions);
    assert [Constant(text)] + [] == [Constant(text)];
    ReplaceOneConstant(text, properties, format);
  }

  /**
   * An escape unit replaces to its inner text with one brace stripped from each side, the
   * braces inside left as written; a single escape is the whole template.
   */
  lemma EscapeRoundTrip(x: string, properties: Properties, format: Formatter)
    ensures Created(Some("{{" + x + "}}"), None) == Ok(TemplateString([Constant("{" + x + "}")]))
    ensures Replaced(Created(Some("{{" + x + "}}"), None).value, properties, format) == Ok("{" + x + "}")
  {
    var template := "{{" + x + "}}";
    assert !IsWhiteSpace(template[0]);
    EscapeUnit(x, [], DefaultOptions);
    assert template + [] == template;
    assert UnitAt(template, DefaultOptions) == Ok((Constant("{" + x + "}"), []));
    ParseUnitsStep(template, DefaultOptions);
    assert [Constant("{" + x + "}")] + [] == [Constant("{" + x + "}")];
    ReplaceOneConstant("{" + x + "}", properties, format);
  }

  /** A template written from the grammar is created as the grammar's compilation of it. */
  lemma CreateOfPieces(ps: seq<Piece>, options: TemplateStringOptions)
    requires WellFormedSeq(ps) && !IsNullOrWhiteSpace(Some(SpellAll(ps)))
    ensures Created(Some(SpellAll(ps)), Some(options)) == Ok(TemplateString(CompileAll(ps, options)))
  {
    ParseOfPieces(ps, options);
  }

  /** The dictionary is read only at the keys of the template's placeholders. */
  lemma ReplaceReadsOnlyKeys(t: TemplateString, p: Properties, q: Properties, format: Formatter)
    requires AgreeOn(KeysOf(t.appenders), p, q)
    ensures Replaced(t, p, format) == Replaced(t, q, format)
  {
    RenderAllReadsOnlyKeys(t.appenders, p, q, false, format);
  }

  /** A dictionary binding every key of the template to a non-null value never makes `Replace` throw. */
  lemma CompleteDictionaryNeverThrows(t: TemplateString, properties: Properties, format: Formatter)
    requires forall k :: k in KeysOf(t.appenders) ==> IsBound(k, properties)
    ensures Replaced(t, properties, format).Ok?
  {
    BoundAllRenderSucceed(t.appenders, properties, false, format);
  }

  /** The text of two token lists one after the other is the two texts one after the other. */
  lemma {:induction false} ConcatAppend(s: seq<ContentToken>, t: seq<ContentToken>)
    ensures Concat(s + t) == Concat(s) + Concat(t)
    decreases t
  {
    if t == [] {
      assert s + t == s;
    } else {
      var n := |t| - 1;
      assert (s + t)[..|s + t| - 1] == s + t[..n];
      ConcatAppend(s, t[..n]);
    }
  }
}
