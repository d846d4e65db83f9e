/**
 * The compiled form of a template and its render-time evaluator: the three
 * appenders of IAppender.cs (constant text, property placeholder, optional
 * segment), each appending content tokens to a caller's token list.
 */
module Appenders {
  import opened Wrappers
  import opened Tokens
  import opened Collections

  /** The property dictionary; a key mapped to `None` is present with a `null` value. */
  type Properties = map<string, Option<string>>

  /**
   * .NET composite formatting, `string.Format(specifier, value)`: culture-aware
   * and outside the model, so it is supplied by the caller.
   */
  type Formatter = (string, string) -> string

  datatype Appender =
    | Constant(value: string)
      // `format` is the composite format string "{0:...}" the constructor stores
    | Property(key: string, format: Option<string>, templatePart: string, options: TemplateStringOptions)
    | Optional(templatePart: string, children: seq<Appender>)

  /** The composite format string that wraps a format suffix such as ":D4" into "{0:D4}". */
  function CompositeFormat(format: string): string {
    "{0" + format + "}"
  }

  /** The `PropertyValueAppender` constructor: the format suffix, when there is one, is wrapped. */
  function NewPropertyAppender(key: string, format: Option<string>, templatePart: string,
                               options: TemplateStringOptions): (a: Appender)
    ensures a.Property? && a.key == key && a.templatePart == templatePart && a.options == options
    ensures a.format.Some? <==> format.Some?
    ensures format.Some? ==> a.format == Some(CompositeFormat(format.value))
  {
    Property(key, if format.Some? then Some(CompositeFormat(format.value)) else None, templatePart, options)
  }

  /** `HasMappedProperties`: false for a constant, true for a placeholder, any child's for a segment. */
  predicate HasMappedProperties(a: Appender)
    decreases a
  {
    match a
    case Constant(_) => false
    case Property(_, _, _, _) => true
    case Optional(_, children) => exists i :: 0 <= i < |children| && HasMappedProperties(children[i])
  }

  /** LINQ `Any(a => a.HasMappedProperties)` over a sequence of appenders. */
  predicate AnyMapped(xs: seq<Appender>) {
    exists i :: 0 <= i < |xs| && HasMappedProperties(xs[i])
  }

  /** The property keys a compiled appender refers to (an independent view of `HasMappedProperties`). */
  function Keys(a: Appender): set<string>
    decreases a
  {
    match a
    case Constant(_) => {}
    case Property(key, _, _, _) => {key}
    case Optional(_, children) => KeysOf(children)
  }

  function KeysOf(xs: seq<Appender>): set<string>
    decreases xs
  {
    if xs == [] then {} else KeysOf(xs[..|xs| - 1]) + Keys(xs[|xs| - 1])
  }

  /** Every placeholder in `a` carries the options `options`. */
  predicate OptionsAre(a: Appender, options: TemplateStringOptions)
    decreases a
  {
    match a
    case Constant(_) => true
    case Property(_, _, _, o) => o == options
    case Optional(_, children) => forall i :: 0 <= i < |children| ==> OptionsAre(children[i], options)
  }

  /** `key` is present in `properties` with a non-null value. */
  predicate IsBound(key: string, properties: Properties) {
    key in properties && properties[key].Some?
  }

  /** The throw helper for an absent key: it throws unless unmatched placeholders are preserved. */
  function TryThrowUnmatchedTemplateProperty(options: TemplateStringOptions): (r: Outcome)
    ensures r.Pass? <==> options.preserveUnmatchedTemplates
    ensures r.Fail? ==> r.error == FormatError
  {
    if options.preserveUnmatchedTemplates then Pass else Fail(FormatError)
  }

  /** The throw helper for a null value: it throws unless inside an optional segment. */
  function TryThrowNonOptionalContext(optionalContext: bool): (r: Outcome)
    ensures r.Pass? <==> optionalContext
    ensures r.Fail? ==> r.error == FormatError
  {
    if optionalContext then Pass else Fail(FormatError)
  }

  /** The text of a resolved value: formatted through the stored composite format when there is one. */
  function Formatted(compositeFormat: Option<string>, value: string, format: Formatter): string {
    if compositeFormat.Some? then format(compositeFormat.value, value) else value
  }

  /**
   * The tokens one `Append` call adds to the caller's list, or the exception it throws.
   * A render-time error is always a format error.
   */
  function Render(a: Appender, properties: Properties, optionalContext: bool, format: Formatter)
    : (r: Result<seq<ContentToken>>)
    ensures r.Err? ==> r.error == FormatError
    decreases a
  {
    match a
    case Constant(value) => Ok([ContentToken(ConstantValue, value)])
    case Property(key, compositeFormat, templatePart, options) =>
      if key !in properties then
        (match TryThrowUnmatchedTemplateProperty(options)
         case Fail(e) => Err(e)
         case Pass => Ok([ContentToken(ConstantValue, templatePart)]))
      else if properties[key].Some? then
        Ok([ContentToken(PropertyValue, Formatted(compositeFormat, properties[key].value, format))])
      else
        (match TryThrowNonOptionalContext(optionalContext)
         case Fail(e) => Err(e)
         case Pass => Ok([]))
    case Optional(_, children) =>
      var subTokens :- RenderAll(children, properties, true, format);
      if AllConstant(subTokens) then Ok([]) else Ok(subTokens)
  }

  /** Rendering a sequence of appenders in order into one list; the first failure aborts. */
  function RenderAll(xs: seq<Appender>, properties: Properties, optionalContext: bool, format: Formatter)
    : (r: Result<seq<ContentToken>>)
    ensures r.Err? ==> r.error == FormatError
    decreases xs
  {
    if xs == [] then Ok([])
    else
      var init :- RenderAll(xs[..|xs| - 1], properties, optionalContext, format);
      var last :- Render(xs[|xs| - 1], properties, optionalContext, format);
      Ok(init + last)
  }

  /** What an `Append` call does to a token list, given the tokens `Render` says it adds. */
  ghost predicate Appended(rendered: Result<seq<ContentToken>>, before: seq<ContentToken>,
                           after: seq<ContentToken>, r: Outcome)
  {
    match rendered
    case Ok(tokens) => r == Pass && after == before + tokens
    case Err(e) => r == Fail(e) && after == before
  }

  /** `ConstantValueAppender.Append`: one constant token, whatever the properties and context. */
  method AppendConstant(a: Appender, tokenList: List<ContentToken>, properties: Properties, optionalContext: bool)
    requires a.Constant?
    modifies tokenList
    ensures tokenList.items == old(tokenList.items) + [ContentToken(ConstantValue, a.value)]
  {
    tokenList.Add(ContentToken(ConstantValue, a.value));
  }

  /** `PropertyValueAppender.Append`: resolve the key, then append one token, nothing, or throw. */
  method AppendProperty(a: Appender, tokenList: List<ContentToken>, properties: Properties,
                        optionalContext: bool, format: Formatter) returns (r: Outcome)
    requires a.Property?
    modifies tokenList
    ensures a.key !in properties ==>
      if a.options.preserveUnmatchedTemplates
      then r == Pass && tokenList.items == old(tokenList.items) + [ContentToken(ConstantValue, a.templatePart)]
      else r == Fail(FormatError) && tokenList.items == old(tokenList.items)
    ensures IsBound(a.key, properties) ==>
      r == Pass && tokenList.items == old(tokenList.items) +
        [ContentToken(PropertyValue, Formatted(a.format, properties[a.key].value, format))]
    ensures a.key in properties && properties[a.key].None? ==>
      tokenList.items == old(tokenList.items) && (if optionalContext then r == Pass else r == Fail(FormatError))
  {
    if a.key !in properties {
      r := TryThrowUnmatchedTemplateProperty(a.options);
      if r.Pass? {
        tokenList.Add(ContentToken(ConstantValue, a.templatePart));
      }
      return;
    }
    var value := properties[a.key];
    if value.Some? {
      var formattedValue := if a.format.Some? then format(a.format.value, value.value) else value.value;
      tokenList.Add(ContentToken(PropertyValue, formattedValue));
      return Pass;
    }
    r := TryThrowNonOptionalContext(optionalContext);
  }

  /**
   * `OptionalSegmentAppender.Append`: render the children, in optional context, into a
   * fresh list; append all of it unless every token is a constant. Never a partial append.
   */
  method AppendOptional(a: Appender, tokenList: List<ContentToken>, properties: Properties,
                        optionalContext: bool, format: Formatter) returns (r: Outcome)
    requires a.Optional?
    modifies tokenList
    decreases a, 0
    ensures Appended(Render(a, properties, optionalContext, format), old(tokenList.items), tokenList.items, r)
    ensures r.Pass? ==>
              || tokenList.items == old(tokenList.items)
              || tokenList.items == old(tokenList.items) + RenderAll(a.children, properties, true, format).value
  {
    var subTokens := new List<ContentToken>();
    var i := 0;
    while i < |a.children|
      invariant 0 <= i <= |a.children|
      invariant RenderAll(a.children[..i], properties, true, format) == Ok(subTokens.items)
      invariant tokenList.items == old(tokenList.items)
    {
      var sub := Append(a.children[i], subTokens, properties, true, format);
      assert a.children[..i + 1][..i] == a.children[..i];
      if sub.Fail? {
        RenderAllPrefixFails(a.children, i + 1, properties, true, format);
        return sub;
      }
      i := i + 1;
    }
    assert a.children[..i] == a.children;
    if forall j :: 0 <= j < |subTokens.items| ==> subTokens.items[j].kind == ConstantValue {
      return Pass;
    }
    tokenList.AddRange(subTokens.items);
    r := Pass;
  }

  /** `IAppender.Append`: dispatch on the kind of appender. */
  method Append(a: Appender, tokenList: List<ContentToken>, properties: Properties,
                optionalContext: bool, format: Formatter) returns (r: Outcome)
    modifies tokenList
    decreases a, 1
    ensures Appended(Render(a, properties, optionalContext, format), old(tokenList.items), tokenList.items, r)
  {
    match a
    case Constant(_) =>
      AppendConstant(a, tokenList, properties, optionalContext);
      r := Pass;
    case Property(_, _, _, _) =>
      r := AppendProperty(a, tokenList, properties, optionalContext, format);
    case Optional(_, _) =>
      r := AppendOptional(a, tokenList, properties, optionalContext, format);
  }

  /** A failure in a prefix of the children is the failure of the whole sequence. */
  lemma {:induction false} RenderAllPrefixFails(xs: seq<Appender>, n: nat, properties: Properties,
                                                optionalContext: bool, format: Formatter)
    requires n <= |xs|
    requires RenderAll(xs[..n], properties, optionalContext, format).Err?
    ensures RenderAll(xs, properties, optionalContext, format) == RenderAll(xs[..n], properties, optionalContext, format)
    decreases |xs| - n
  {
    if n < |xs| {
      var m := n + 1;
      assert xs[..m][..m - 1] == xs[..n];
      RenderAllPrefixFails(xs, m, properties, optionalContext, format);
    } else {
      assert xs[..n] == xs;
    }
  }

  /** Rendering a sequence succeeds exactly when every element renders, and yields their tokens in order. */
  lemma {:induction false} RenderAllOkIff(xs: seq<Appender>, properties: Properties,
                                          optionalContext: bool, format: Formatter)
    ensures RenderAll(xs, properties, optionalContext, format).Ok?
        <==> forall i :: 0 <= i < |xs| ==> Render(xs[i], properties, optionalContext, format).Ok?
    ensures RenderAll(xs, properties, optionalContext, format).Ok? && xs != [] ==>
      RenderAll(xs, properties, optionalContext, format).value ==
        RenderAll(xs[..|xs| - 1], properties, optionalContext, format).value
        + Render(xs[|xs| - 1], properties, optionalContext, format).value
    decreases xs
  {
    if xs != [] {
      var n := |xs| - 1;
      RenderAllOkIff(xs[..n], properties, optionalContext, format);
      forall i | 0 <= i < n ensures xs[..n][i] == xs[i] { }
    }
  }

  /** `HasMappedProperties` holds exactly when the appender refers to some property key. */
  lemma {:induction false} MappedIffHasKeys(a: Appender)
    ensures HasMappedProperties(a) <==> Keys(a) != {}
    decreases a
  {
    match a
    case Constant(_) =>
    case Property(_, _, _, _) =>
    case Optional(_, children) => MappedAnyIffHasKeys(children);
  }

  lemma {:induction false} MappedAnyIffHasKeys(xs: seq<Appender>)
    ensures (exists i :: 0 <= i < |xs| && HasMappedProperties(xs[i])) <==> KeysOf(xs) != {}
    decreases xs
  {
    if xs != [] {
      var n := |xs| - 1;
      MappedAnyIffHasKeys(xs[..n]);
      MappedIffHasKeys(xs[n]);
      if i :| 0 <= i < |xs| && HasMappedProperties(xs[i]) {
        if i < n { assert xs[..n][i] == xs[i]; }
      }
      if i :| 0 <= i < n && HasMappedProperties(xs[..n][i]) {
        assert xs[i] == xs[..n][i];
      }
    }
  }

  /** An appender with no mapped property always renders, and only to constant tokens. */
  lemma {:induction false} UnmappedRendersConstants(a: Appender, properties: Properties,
                                                    optionalContext: bool, format: Formatter)
    requires !HasMappedProperties(a)
    ensures Render(a, properties, optionalContext, format).Ok?
    ensures AllConstant(Render(a, properties, optionalContext, format).value)
    decreases a
  {
    match a
    case Constant(_) =>
    case Optional(_, children) =>
      UnmappedAllRenderConstants(children, properties, true, format);
  }

  lemma {:induction false} UnmappedAllRenderConstants(xs: seq<Appender>, properties: Properties,
                                                      optionalContext: bool, format: Formatter)
    requires forall i :: 0 <= i < |xs| ==> !HasMappedProperties(xs[i])
    ensures RenderAll(xs, properties, optionalContext, format).Ok?
    ensures AllConstant(RenderAll(xs, properties, optionalContext, format).value)
    decreases xs
  {
    if xs != [] {
      var n := |xs| - 1;
      forall i | 0 <= i < n ensures !HasMappedProperties(xs[..n][i]) { assert xs[..n][i] == xs[i]; }
      UnmappedAllRenderConstants(xs[..n], properties, optionalContext, format);
      UnmappedRendersConstants(xs[n], properties, optionalContext, format);
    }
  }

  /**
   * A value token in an appender's output comes from one of its keys being bound to a
   * non-null value.
   */
  lemma {:induction false} ValueTokenNeedsBoundKey(a: Appender, properties: Properties,
                                                   optionalContext: bool, format: Formatter)
    requires Render(a, properties, optionalContext, format).Ok?
    requires !AllConstant(Render(a, properties, optionalContext, format).value)
    ensures exists k :: k in Keys(a) && IsBound(k, properties)
    decreases a
  {
    match a
    case Property(key, _, _, _) =>
      assert key in Keys(a) && IsBound(key, properties);
    case Optional(_, children) =>
      ValueTokensNeedBoundKey(children, properties, true, format);
  }

  lemma {:induction false} ValueTokensNeedBoundKey(xs: seq<Appender>, properties: Properties,
                                                   optionalContext: bool, format: Formatter)
    requires RenderAll(xs, properties, optionalContext, format).Ok?
    requires !AllConstant(RenderAll(xs, properties, optionalContext, format).value)
    ensures exists k :: k in KeysOf(xs) && IsBound(k, properties)
    decreases xs
  {
    var n := |xs| - 1;
    var init: seq<ContentToken> := RenderAll(xs[..n], properties, optionalContext, format).value;
    var last: seq<ContentToken> := Render(xs[n], properties, optionalContext, format).value;
    assert RenderAll(xs, properties, optionalContext, format).value == init + last;
    var j :| 0 <= j < |init + last| && (init + last)[j].kind != ConstantValue;
    if j < |init| {
      assert init[j] == (init + last)[j];
      ValueTokensNeedBoundKey(xs[..n], properties, optionalContext, format);
    } else {
      assert last[j - |init|] == (init + last)[j];
      ValueTokenNeedsBoundKey(xs[n], properties, optionalContext, format);
    }
  }

  /**
   * With unmatched placeholders preserved, an appender none of whose keys is bound renders,
   * in optional context, to constant tokens only.
   */
  lemma {:induction false} UnboundRendersConstants(a: Appender, options: TemplateStringOptions,
                                                   properties: Properties, format: Formatter)
    requires OptionsAre(a, options) && options.preserveUnmatchedTemplates
    requires forall k :: k in Keys(a) ==> !IsBound(k, properties)
    ensures Render(a, properties, true, format).Ok?
    ensures AllConstant(Render(a, properties, true, format).value)
    decreases a
  {
    match a
    case Constant(_) =>
    case Property(key, _, _, _) =>
      assert key in Keys(a);
    case Optional(_, children) =>
      UnboundAllRenderConstants(children, options, properties, format);
  }

  lemma {:induction false} UnboundAllRenderConstants(xs: seq<Appender>, options: TemplateStringOptions,
                                                     properties: Properties, format: Formatter)
    requires forall i :: 0 <= i < |xs| ==> OptionsAre(xs[i], options)
    requires options.preserveUnmatchedTemplates
    requires forall k :: k in KeysOf(xs) ==> !IsBound(k, properties)
    ensures RenderAll(xs, properties, true, format).Ok?
    ensures AllConstant(RenderAll(xs, properties, true, format).value)
    decreases xs
  {
    if xs != [] {
      var n := |xs| - 1;
      forall i | 0 <= i < n ensures OptionsAre(xs[..n][i], options) { assert xs[..n][i] == xs[i]; }
      UnboundAllRenderConstants(xs[..n], options, properties, format);
      UnboundRendersConstants(xs[n], options, properties, format);
    }
  }

  /**
   * The collapse rule of an optional segment, both ways: it emits nothing when no key inside
   * is bound (unmatched placeholders being preserved, so that nothing throws), and whatever
   * it does emit contains the value of some bound key. The context it is rendered in makes no
   * difference: its children are always rendered in optional context.
   */
  lemma OptionalEmitsOnlyIfBound(a: Appender, properties: Properties, optionalContext: bool, format: Formatter)
    requires a.Optional?
    ensures Render(a, properties, optionalContext, format) == Render(a, properties, !optionalContext, format)
    ensures forall options :: OptionsAre(a, options) && options.preserveUnmatchedTemplates
              && (forall k :: k in Keys(a) ==> !IsBound(k, properties))
              ==> Render(a, properties, optionalContext, format) == Ok([])
    ensures (Render(a, properties, optionalContext, format).Ok? && Render(a, properties, optionalContext, format).value != []) ==>
              && !AllConstant(Render(a, properties, optionalContext, format).value)
              && exists k :: k in Keys(a) && IsBound(k, properties)
  {
    forall options | OptionsAre(a, options) && options.preserveUnmatchedTemplates
                     && (forall k :: k in Keys(a) ==> !IsBound(k, properties))
      ensures Render(a, properties, optionalContext, format) == Ok([])
    {
      UnboundAllRenderConstants(a.children, options, properties, format);
    }
    var r := Render(a, properties, optionalContext, format);
    if r.Ok? && r.value != [] {
      ValueTokenNeedsBoundKey(a, properties, optionalContext, format);
    }
  }

  /** Two dictionaries that agree, presence and value, on every key in `keys`. */
  predicate AgreeOn(keys: set<string>, p: Properties, q: Properties) {
    forall k :: k in keys ==> (k in p <==> k in q) && (k in p && k in q ==> p[k] == q[k])
  }

  /** Rendering reads the dictionary only at the keys the appender refers to. */
  lemma {:induction false} RenderReadsOnlyKeys(a: Appender, p: Properties, q: Properties,
                                               optionalContext: bool, format: Formatter)
    requires AgreeOn(Keys(a), p, q)
    ensures Render(a, p, optionalContext, format) == Render(a, q, optionalContext, format)
    decreases a
  {
    if a.Optional? {
      RenderAllReadsOnlyKeys(a.children, p, q, true, format);
    }
  }

  lemma {:induction false} RenderAllReadsOnlyKeys(xs: seq<Appender>, p: Properties, q: Properties,
                                                  optionalContext: bool, format: Formatter)
    requires AgreeOn(KeysOf(xs), p, q)
    ensures RenderAll(xs, p, optionalContext, format) == RenderAll(xs, q, optionalContext, format)
    decreases xs
  {
    if xs != [] {
      var n := |xs| - 1;
      RenderAllReadsOnlyKeys(xs[..n], p, q, optionalContext, format);
      RenderReadsOnlyKeys(xs[n], p, q, optionalContext, format);
    }
  }

  /** When every key an appender refers to is bound to a non-null value, rendering never throws. */
  lemma {:induction false} BoundRenderSucceeds(a: Appender, properties: Properties,
                                               optionalContext: bool, format: Formatter)
    requires forall k :: k in Keys(a) ==> IsBound(k, properties)
    ensures Render(a, properties, optionalContext, format).Ok?
    decreases a
  {
    if a.Optional? {
      BoundAllRenderSucceed(a.children, properties, true, format);
    } else if a.Property? {
      assert a.key in Keys(a);
    }
  }

  lemma {:induction false} BoundAllRenderSucceed(xs: seq<Appender>, properties: Properties,
                                                 optionalContext: bool, format: Formatter)
    requires forall k :: k in KeysOf(xs) ==> IsBound(k, properties)
    ensures RenderAll(xs, properties, optionalContext, format).Ok?
    decreases xs
  {
    if xs != [] {
      var n := |xs| - 1;
      BoundAllRenderSucceed(xs[..n], properties, optionalContext, format);
      BoundRenderSucceeds(xs[n], properties, optionalContext, format);
    }
  }

  /** Rendering a sequence extended by one appender: the sequence's tokens, then the appender's. */
  lemma RenderAllSnoc(xs: seq<Appender>, x: Appender, properties: Properties,
                      optionalContext: bool, format: Formatter)
    ensures RenderAll(xs + [x], properties, optionalContext, format)
            == (var init :- RenderAll(xs, properties, optionalContext, format);
                var last :- Render(x, properties, optionalContext, format);
                Ok(init + last))
  {
    assert (xs + [x])[..|xs|] == xs;
  }
}
