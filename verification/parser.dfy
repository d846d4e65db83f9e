/**
 * The template compiler (TemplateParser.cs): a scanner that matches brackets with an
 * explicit stack of expected closers, and a builder that turns each scanned unit into an
 * appender, parsing optional segments recursively.
 */
module Parser {
  import opened Wrappers
  import opened Tokens
  import opened Collections
  import opened Appenders

  /**
   * A scanned unit. For a bracketed or escape unit `template` is its full text and `inner`
   * the text between its outer characters; for a plain-text run `template` is empty and
   * `inner` is the run.
   */
  datatype TokenSpan = TokenSpan(template: string, inner: string) {
    /** How many characters of the span the unit accounts for: the longer of its two parts. */
    function Length(): (n: nat)
      ensures n >= |template| && n >= |inner|
      ensures n == |template| || n == |inner|
    {
      if |template| >= |inner| then |template| else |inner|
    }

    /** A bracketed or escape unit, as opposed to a plain-text run. */
    predicate IsTemplate() {
      |template| > 0
    }

    /** An escape unit: `{{` ... `}}`, at least four characters. */
    predicate IsEscapedTemplate() {
      && |template| >= 4
      && template[0] == '{' && template[1] == '{'
      && template[|template| - 2] == '}' && template[|template| - 1] == '}'
    }
  }

  const Brackets: set<char> := {'[', ']', '{', '}'}

  predicate IsOpener(c: char) {
    c == '[' || c == '{'
  }

  /** The closer each opener expects: `[` expects `]`, `{` expects `}`. */
  function Closer(c: char): char
    requires IsOpener(c)
  {
    if c == '[' then ']' else '}'
  }

  /** The index of the first character of `s` that is in `chars`, or `|s|` when there is none. */
  function FirstIndexIn(s: string, chars: set<char>): (i: nat)
    ensures i <= |s|
    ensures forall j :: 0 <= j < i ==> s[j] !in chars
    ensures i < |s| ==> s[i] in chars
  {
    if s == [] || s[0] in chars then 0 else 1 + FirstIndexIn(s[1..], chars)
  }

  /** `}}` ends at index `d` of `span`. */
  predicate DoubleCloseAt(span: string, d: int)
    requires 0 < d < |span|
  {
    span[d - 1] == '}' && span[d] == '}'
  }

  /**
   * The backward search for the closing `}}` of an escape unit opened at `c`: the largest
   * `d` in `(c, top]` at which `}}` ends, or `None`.
   */
  function LastDoubleClose(span: string, c: nat, top: int): (r: Option<nat>)
    requires c < |span| && top < |span|
    ensures r.Some? ==> c < r.value <= top
    decreases top - c
  {
    if top <= c then None
    else if DoubleCloseAt(span, top) then Some(top)
    else LastDoubleClose(span, c, top - 1)
  }

  /** The backward search answers the last `}}` ending in `(c, top]`, and `None` when there is none. */
  lemma {:induction false} LastDoubleCloseSound(span: string, c: nat, top: int)
    requires c < |span| && top < |span|
    ensures LastDoubleClose(span, c, top).Some? ==>
              && DoubleCloseAt(span, LastDoubleClose(span, c, top).value)
              && forall e :: LastDoubleClose(span, c, top).value < e <= top ==> !DoubleCloseAt(span, e)
    ensures LastDoubleClose(span, c, top).None? ==> forall e :: c < e <= top ==> !DoubleCloseAt(span, e)
    decreases top - c
  {
    if c < top && !DoubleCloseAt(span, top) {
      LastDoubleCloseSound(span, c, top - 1);
    }
  }

  /**
   * What the scanner promises of a unit it returns: a bracketed unit is a prefix of the span
   * that opens with the span's first character and ends with the closer that one expects; an
   * escape unit is a `{{ ... }}` text; either way the inner part is the unit without its outer
   * characters.
   */
  ghost predicate Scanned(span: string, ts: TokenSpan) {
    && 2 <= |ts.template| <= |span|
    && ts.inner == ts.template[1..|ts.template| - 1]
    && (!ts.IsEscapedTemplate() ==>
          && ts.template == span[..|ts.template|]
          && IsOpener(span[0])
          && ts.template[|ts.template| - 1] == Closer(span[0]))
  }

  /** What one character does to the scan: push or pop a closer and go on, or stop with an answer. */
  datatype ScanStep = Continue(stack: seq<char>) | Stop(answer: Result<Option<TokenSpan>>)

  /**
   * One iteration of the loop of `TryReadTemplateSpan` at index `c`, with `stack` the expected
   * closers still open (top at the end). It goes on only with a bracket still open at the front.
   */
  function StepAt(span: string, c: nat, stack: seq<char>): (r: ScanStep)
    requires c < |span|
    requires c == 0 <==> stack == []
    requires stack != [] ==> IsOpener(span[0]) && stack[0] == Closer(span[0])
    ensures r.Continue? ==> r.stack != [] && IsOpener(span[0]) && r.stack[0] == Closer(span[0])
  {
    var chr := span[c];
    if chr == '[' then Continue(stack + [']'])
    else if chr == '{' && c < |span| - 1 && span[c + 1] == '{' then
      match LastDoubleClose(span, c, |span| - 1)
      case None => Stop(Err(FormatError))
      case Some(d) => Stop(Ok(Some(TokenSpan(span[c..d + 1], span[c + 1..d]))))
    else if chr == '{' then Continue(stack + ['}'])
    else if chr == ']' || chr == '}' then
      if stack == [] || stack[|stack| - 1] != chr then Stop(Err(FormatError))
      else if |stack| > 1 then Continue(stack[..|stack| - 1])
      else Stop(Ok(Some(TokenSpan(span[..c + 1], span[1..c]))))
    else if c == 0 then Stop(Ok(None))
    else Continue(stack)
  }

  /**
   * The scan of `TryReadTemplateSpan` from index `c`. `Ok(None)` means the span does not start
   * with a bracket, `Ok(Some(unit))` is the first complete unit, `Err` a format error; running
   * off the end with a bracket open is a format error.
   */
  function ScanFrom(span: string, c: nat, stack: seq<char>): Result<Option<TokenSpan>>
    requires c <= |span|
    requires c == 0 <==> stack == []
    requires stack != [] ==> IsOpener(span[0]) && stack[0] == Closer(span[0])
    decreases |span| - c
  {
    if c == |span| then Err(FormatError)
    else
      match StepAt(span, c, stack)
      case Stop(answer) => answer
      case Continue(next) => ScanFrom(span, c + 1, next)
  }

  /** What the scan promises of its answer: a unit it returns is `Scanned`, an error is a format error. */
  ghost predicate ScanSound(span: string, r: Result<Option<TokenSpan>>) {
    && (r.Ok? && r.value.Some? ==> Scanned(span, r.value.value))
    && (r.Err? ==> r.error == FormatError)
  }

  /**
   * The scan's answer is sound; with brackets open it never answers "not a unit"; from the
   * start it answers "not a unit" exactly when the span does not start with a bracket.
   */
  lemma {:induction false} ScanFromSound(span: string, c: nat, stack: seq<char>)
    requires c <= |span|
    requires c == 0 <==> stack == []
    requires stack != [] ==> IsOpener(span[0]) && stack[0] == Closer(span[0])
    ensures ScanSound(span, ScanFrom(span, c, stack))
    ensures c > 0 ==> ScanFrom(span, c, stack) != Ok(None)
    ensures c == 0 && |span| > 0 ==> (ScanFrom(span, c, stack) == Ok(None) <==> span[0] !in Brackets)
    decreases |span| - c
  {
    if c < |span| {
      match StepAt(span, c, stack)
      case Continue(next) =>
        ScanFromSound(span, c + 1, next);
      case Stop(answer) =>
        StopSound(span, c, stack);
    }
  }

  /** A scan that stops at `c` answers soundly, and answers "not a unit" only at the front, on a non-bracket. */
  lemma StopSound(span: string, c: nat, stack: seq<char>)
    requires c < |span|
    requires c == 0 <==> stack == []
    requires stack != [] ==> IsOpener(span[0]) && stack[0] == Closer(span[0])
    requires StepAt(span, c, stack).Stop?
    ensures ScanSound(span, StepAt(span, c, stack).answer)
    ensures StepAt(span, c, stack).answer == Ok(None) <==> c == 0 && span[0] !in Brackets
  {
    var chr := span[c];
    if chr == '{' && c < |span| - 1 && span[c + 1] == '{' {
      var d := LastDoubleClose(span, c, |span| - 1);
      if d.Some? {
        LastDoubleCloseSound(span, c, |span| - 1);
        EscapeUnitScanned(span, c, d.value);
        assert StepAt(span, c, stack).answer == Ok(Some(TokenSpan(span[c..d.value + 1], span[c + 1..d.value])));
      } else {
        assert StepAt(span, c, stack).answer == Err(FormatError);
      }
    } else if (chr == ']' || chr == '}') && stack != [] && stack[|stack| - 1] == chr && |stack| == 1 {
      CloseUnitScanned(span, c);
      assert StepAt(span, c, stack).answer == Ok(Some(TokenSpan(span[..c + 1], span[1..c])));
    }
  }

  /** An escape unit from `c` to a `}}` ending at `d` is `Scanned`. */
  lemma EscapeUnitScanned(span: string, c: nat, d: nat)
    requires c < d < |span| && span[c] == '{' && span[c + 1] == '{' && DoubleCloseAt(span, d)
    ensures Scanned(span, TokenSpan(span[c..d + 1], span[c + 1..d]))
  {
    var t := span[c..d + 1];
    assert t[0] == '{' && t[1] == '{' && t[|t| - 2] == '}' && t[|t| - 1] == '}';
    SliceOfSlice(span, c, d + 1, 1, d - c);
  }

  /** A group opened at index 0 and closed at `c` by the closer it expects is `Scanned`. */
  lemma CloseUnitScanned(span: string, c: nat)
    requires 0 < c < |span| && IsOpener(span[0]) && span[c] == Closer(span[0])
    ensures Scanned(span, TokenSpan(span[..c + 1], span[1..c]))
  {
    SliceOfSlice(span, 0, c + 1, 1, c);
  }

  /**
   * `TryReadTemplateSpan` on a span, starting from an empty stack: not a unit exactly when the
   * span does not start with a bracket; a format error when it starts with a closer.
   */
  function ScanTemplate(span: string): (r: Result<Option<TokenSpan>>)
    requires |span| > 0
    ensures r.Ok? && r.value.Some? ==> Scanned(span, r.value.value)
    ensures r == Ok(None) <==> span[0] !in Brackets
    ensures span[0] == ']' || span[0] == '}' ==> r == Err(FormatError)
    ensures r.Err? ==> r.error == FormatError
  {
    ScanFromSound(span, 0, []);
    ScanFrom(span, 0, [])
  }

  /** `ReadValueSpan`: the plain-text run up to the first bracket character. */
  function ValueSpan(span: string): (ts: TokenSpan)
    ensures !ts.IsTemplate() && ts.inner <= span
    ensures forall j :: 0 <= j < |ts.inner| ==> ts.inner[j] !in Brackets
    ensures |ts.inner| < |span| ==> span[|ts.inner|] in Brackets
  {
    TokenSpan([], span[..FirstIndexIn(span, Brackets)])
  }

  /** `ReadToken`: a bracketed or escape unit when the scan finds one, else a plain run. */
  function TokenAt(span: string): (r: Result<TokenSpan>)
    requires |span| > 0
    ensures r.Ok? && r.value.IsTemplate() ==> Scanned(span, r.value)
    ensures r.Ok? && !r.value.IsTemplate() ==>
              && 0 < |r.value.inner| && r.value.inner <= span
              && forall j :: 0 <= j < |r.value.inner| ==> r.value.inner[j] !in Brackets
    ensures r.Err? ==> r.error == FormatError
  {
    match ScanTemplate(span)
    case Err(e) => Err(e)
    case Ok(None) => Ok(ValueSpan(span))
    case Ok(Some(ts)) => Ok(ts)
  }

  /**
   * `AddPropertyValueAppender`: the key is the inner text up to its first `:`, the format
   * the rest from that colon on, and the whole braced text is kept for preservation.
   */
  function PropertyAppenderOf(ts: TokenSpan, options: TemplateStringOptions): (a: Appender)
    ensures a.Property? && a.templatePart == ts.template && a.options == options
    ensures ':' !in a.key && a.key <= ts.inner
    ensures ':' !in ts.inner ==> a.key == ts.inner
    ensures a.format.None? <==> ':' !in ts.inner
    ensures a.format.Some? ==>
              exists format :: a.format == Some(CompositeFormat(format)) && ts.inner == a.key + format && format[0] == ':'
  {
    var colon := FirstIndexIn(ts.inner, {':'});
    var format := if colon == |ts.inner| then None else Some(ts.inner[colon..]);
    assert format.Some? ==> ts.inner == ts.inner[..colon] + format.value;
    NewPropertyAppender(ts.inner[..colon], format, ts.template, options)
  }

  /**
   * `AddOptionalSegmentAppender`: the inner text is parsed on its own; a segment with no
   * mapped property is folded into a constant of its whole text, brackets included.
   */
  function OptionalAppenderOf(ts: TokenSpan, options: TemplateStringOptions): (r: Result<Appender>)
    requires |ts.inner| < |ts.template|
    ensures r.Ok? ==> !r.value.Property?
    ensures r.Ok? && r.value.Optional? ==> r.value.templatePart == ts.template && AnyMapped(r.value.children)
    ensures r.Ok? && r.value.Constant? ==> r.value.value == ts.template
    ensures r.Err? ==> r.error == FormatError
    ensures r.Ok? <==> ParseUnits(ts.inner, options).Ok?
    ensures r.Ok? ==> (r.value.Optional? <==> AnyMapped(ParseUnits(ts.inner, options).value))
    decreases |ts.template|, 0
  {
    var children :- ParseUnits(ts.inner, options);
    if AnyMapped(children)
    then Ok(Optional(ts.template, children))
    else Ok(Constant(ts.template))
  }

  /**
   * `AddTemplateAppender`: an escape unit becomes a constant with one brace stripped from each
   * side; otherwise a `{` unit is a placeholder and a `[` unit an optional segment. The rest of
   * the span starts `Length()` characters in.
   */
  function TemplateUnitAt(span: string, ts: TokenSpan, options: TemplateStringOptions)
    : (r: Result<(Appender, string)>)
    requires Scanned(span, ts)
    ensures r.Ok? ==> r.value.1 == span[ts.Length()..]
    ensures r.Err? ==> r.error == FormatError
    decreases |span|, 1
  {
    if !ts.IsEscapedTemplate() then
      if span[0] == '{' then Ok((PropertyAppenderOf(ts, options), span[ts.Length()..]))
      else
        var a :- OptionalAppenderOf(ts, options);
        Ok((a, span[ts.Length()..]))
    else
      Ok((Constant(ts.template[1..|ts.template| - 1]), span[ts.Length()..]))
  }

  /**
   * `ReadSpan`: the appender for the unit at the front of `span` and the rest of the span.
   * The rest is a proper suffix, so parsing terminates.
   */
  function UnitAt(span: string, options: TemplateStringOptions): (r: Result<(Appender, string)>)
    requires |span| > 0
    ensures r.Ok? ==> |r.value.1| < |span| && r.value.1 == span[|span| - |r.value.1|..]
    ensures r.Err? ==> r.error == FormatError
    decreases |span|, 2
  {
    var ts :- TokenAt(span);
    if ts.IsTemplate() then TemplateUnitAt(span, ts, options)
    else Ok((Constant(ts.inner), span[|ts.inner|..]))
  }

  /** `Parse`: the appenders of the units of `span`, left to right; the first error aborts. */
  function ParseUnits(span: string, options: TemplateStringOptions): (r: Result<seq<Appender>>)
    ensures r.Err? ==> r.error == FormatError
    decreases |span|, 3
  {
    if span == [] then Ok([])
    else
      var unit :- UnitAt(span, options);
      var tail :- ParseUnits(unit.1, options);
      Ok([unit.0] + tail)
  }

  lemma SliceOfSlice(s: string, lo: nat, hi: nat, i: nat, j: nat)
    requires lo <= hi <= |s| && i <= j <= hi - lo
    ensures s[lo..hi][i..j] == s[lo + i..lo + j]
  {
    forall k | 0 <= k < j - i
      ensures s[lo..hi][i..j][k] == s[lo + i..lo + j][k]
    {
    }
  }

  /** `xs` followed by the appenders of `rest`, or the error of `rest`. */
  function Prepended(xs: seq<Appender>, rest: Result<seq<Appender>>): Result<seq<Appender>> {
    match rest
    case Ok(ys) => Ok(xs + ys)
    case Err(e) => Err(e)
  }

  lemma PrependedAssoc(xs: seq<Appender>, ys: seq<Appender>, rest: Result<seq<Appender>>)
    ensures Prepended(xs, Prepended(ys, rest)) == Prepended(xs + ys, rest)
  {
    if rest.Ok? {
      assert xs + (ys + rest.value) == (xs + ys) + rest.value;
    }
  }

  /** The parser object: the template, its options, and the bracket stack it reuses across scans. */
  class TemplateParser {
    const template: string
    const options: TemplateStringOptions
    /** Expected closers, top at the end. */
    var stack: seq<char>

    constructor (template: string, options: TemplateStringOptions)
      ensures this.template == template && this.options == options && stack == []
    {
      this.template := template;
      this.options := options;
      stack := [];
    }

    /** `Build`: the appenders of the whole template, or the format error it contains. */
    method Build() returns (r: Result<seq<Appender>>)
      modifies this
      ensures r == ParseUnits(template, options)
    {
      var appenders := new List<Appender>();
      var outcome := Parse(template, appenders);
      assert ParseUnits(template, options).Ok? ==> appenders.items == ParseUnits(template, options).value;
      if outcome.Fail? {
        return Err(outcome.error);
      }
      r := Ok(appenders.items);
    }

    /** `Parse`: read units off the front of the span until it is empty, adding their appenders. */
    method Parse(span: string, appenders: List<Appender>) returns (r: Outcome)
      modifies this, appenders
      decreases |span|, 3
      ensures ParseUnits(span, options).Ok? ==>
                r == Pass && appenders.items == old(appenders.items) + ParseUnits(span, options).value
      ensures ParseUnits(span, options).Err? ==>
                r == Fail(ParseUnits(span, options).error) && old(appenders.items) <= appenders.items
    {
      var rest := span;
      assert appenders.items[|old(appenders.items)|..] == [];
      if ParseUnits(rest, options).Ok? {
        assert [] + ParseUnits(rest, options).value == ParseUnits(rest, options).value;
      }
      while |rest| > 0
        invariant |rest| <= |span|
        invariant old(appenders.items) <= appenders.items
        invariant ParseUnits(span, options)
                  == Prepended(appenders.items[|old(appenders.items)|..], ParseUnits(rest, options))
        decreases |rest|
      {
        ghost var done := appenders.items[|old(appenders.items)|..];
        var next := ReadSpan(rest, appenders);
        if next.Err? {
          return Fail(next.error);
        }
        ghost var unit := UnitAt(rest, options).value;
        assert appenders.items[|old(appenders.items)|..] == done + [unit.0];
        PrependedAssoc(done, [unit.0], ParseUnits(unit.1, options));
        rest := next.value;
      }
      assert appenders.items == old(appenders.items) + appenders.items[|old(appenders.items)|..];
      r := Pass;
    }

    /** `ReadSpan`: read one unit, add its appender, and return the rest of the span. */
    method ReadSpan(span: string, appenders: List<Appender>) returns (r: Result<string>)
      requires |span| > 0
      modifies this, appenders
      decreases |span|, 2
      ensures UnitAt(span, options).Ok? ==>
                r == Ok(UnitAt(span, options).value.1)
                && appenders.items == old(appenders.items) + [UnitAt(span, options).value.0]
      ensures UnitAt(span, options).Err? ==>
                r == Err(UnitAt(span, options).error) && appenders.items == old(appenders.items)
    {
      var token := ReadToken(span);
      if token.Err? {
        return Err(token.error);
      }
      var tokenSpan := token.value;
      if tokenSpan.IsTemplate() {
        r := AddTemplateAppender(span, tokenSpan, appenders);
      } else {
        var rest := AddConstantAppender(span, tokenSpan, appenders);
        r := Ok(rest);
      }
    }

    /** `AddTemplateAppender`: an escape unit becomes a constant; other units are dispatched. */
    method AddTemplateAppender(span: string, tokenSpan: TokenSpan, appenders: List<Appender>)
      returns (r: Result<string>)
      requires Scanned(span, tokenSpan)
      modifies this, appenders
      decreases |span|, 1
      ensures TemplateUnitAt(span, tokenSpan, options).Ok? ==>
                r == Ok(TemplateUnitAt(span, tokenSpan, options).value.1)
                && appenders.items == old(appenders.items) + [TemplateUnitAt(span, tokenSpan, options).value.0]
      ensures TemplateUnitAt(span, tokenSpan, options).Err? ==>
                r == Err(TemplateUnitAt(span, tokenSpan, options).error) && appenders.items == old(appenders.items)
    {
      if !tokenSpan.IsEscapedTemplate() {
        if span[0] == '{' {
          var rest := AddPropertyValueAppender(span, tokenSpan, appenders);
          return Ok(rest);
        }
        r := AddOptionalSegmentAppender(span, tokenSpan, appenders);
        return;
      }
      var t := tokenSpan.template;
      appenders.Add(Constant(t[1..|t| - 1]));
      r := Ok(span[tokenSpan.Length()..]);
    }

    /** `AddOptionalSegmentAppender`: parse the inner text into a fresh list, then fold or keep. */
    method AddOptionalSegmentAppender(span: string, tokenSpan: TokenSpan, appenders: List<Appender>)
      returns (r: Result<string>)
      requires Scanned(span, tokenSpan)
      modifies this, appenders
      decreases |span|, 0
      ensures OptionalAppenderOf(tokenSpan, options).Ok? ==>
                r == Ok(span[tokenSpan.Length()..])
                && appenders.items == old(appenders.items) + [OptionalAppenderOf(tokenSpan, options).value]
      ensures OptionalAppenderOf(tokenSpan, options).Err? ==>
                r == Err(OptionalAppenderOf(tokenSpan, options).error) && appenders.items == old(appenders.items)
    {
      var subAppenders := new List<Appender>();
      var outcome := Parse(tokenSpan.inner, subAppenders);
      if outcome.Fail? {
        return Err(outcome.error);
      }
      var children := subAppenders.items;
      assert children == [] + ParseUnits(tokenSpan.inner, options).value;
      assert [] + ParseUnits(tokenSpan.inner, options).value == ParseUnits(tokenSpan.inner, options).value;
      var appender := if AnyMapped(children)
                      then Optional(tokenSpan.template, children)
                      else Constant(tokenSpan.template);
      assert ParseUnits(tokenSpan.inner, options) == Ok(children);
      assert OptionalAppenderOf(tokenSpan, options) == Ok(appender);
      appenders.Add(appender);
      r := Ok(span[tokenSpan.Length()..]);
    }

    /** `AddPropertyValueAppender`: split the inner text at its first colon. */
    method AddPropertyValueAppender(span: string, tokenSpan: TokenSpan, appenders: List<Appender>)
      returns (rest: string)
      requires Scanned(span, tokenSpan)
      modifies appenders
      ensures appenders.items == old(appenders.items) + [PropertyAppenderOf(tokenSpan, options)]
      ensures rest == span[tokenSpan.Length()..]
    {
      var colonIndex := -1;
      var inner := tokenSpan.inner;
      var c := 0;
      while c < |inner|
        invariant 0 <= c <= |inner|
        invariant forall j :: 0 <= j < c ==> inner[j] != ':'
      {
        if inner[c] == ':' {
          colonIndex := c;
          break;
        }
        c := c + 1;
      }
      assert colonIndex == -1 ==> FirstIndexIn(inner, {':'}) == |inner|;
      assert colonIndex != -1 ==> FirstIndexIn(inner, {':'}) == colonIndex;
      assert inner[..|inner|] == inner;
      var propertyKey := if colonIndex == -1 then inner else inner[..colonIndex];
      var format := if colonIndex == -1 then None else Some(inner[colonIndex..]);
      appenders.Add(NewPropertyAppender(propertyKey, format, tokenSpan.template, options));
      rest := span[tokenSpan.Length()..];
    }

    /** `AddConstantAppender`: a plain run becomes a constant. */
    static method AddConstantAppender(span: string, tokenSpan: TokenSpan, appenders: List<Appender>)
      returns (rest: string)
      requires |tokenSpan.inner| <= |span|
      modifies appenders
      ensures appenders.items == old(appenders.items) + [Constant(tokenSpan.inner)]
      ensures rest == span[|tokenSpan.inner|..]
    {
      appenders.Add(Constant(tokenSpan.inner));
      rest := span[|tokenSpan.inner|..];
    }

    /** `ReadToken`: a bracketed or escape unit if the scan finds one, else the plain run. */
    method ReadToken(span: string) returns (r: Result<TokenSpan>)
      requires |span| > 0
      modifies this
      ensures r == TokenAt(span)
    {
      var scan := TryReadTemplateSpan(span);
      if scan.Err? {
        return Err(scan.error);
      }
      if scan.value.Some? {
        return Ok(scan.value.value);
      }
      var plain := ReadValueSpan(span);
      r := Ok(plain);
    }

    /**
     * `TryReadTemplateSpan`: scan with the bracket stack, which is cleared first. The result
     * is a function of the span alone, whatever the stack held before.
     */
    method TryReadTemplateSpan(span: string) returns (r: Result<Option<TokenSpan>>)
      requires |span| > 0
      modifies this
      ensures r == ScanTemplate(span)
    {
      stack := [];
      var c := 0;
      while c < |span|
        invariant 0 <= c <= |span|
        invariant c == 0 <==> stack == []
        invariant stack != [] ==> IsOpener(span[0]) && stack[0] == Closer(span[0])
        invariant ScanFrom(span, c, stack) == ScanTemplate(span)
      {
        var chr := span[c];
        if chr == '[' {
          stack := stack + [']'];
        } else if chr == '{' && c < |span| - 1 && span[c + 1] == '{' {
          var d := |span| - 1;
          while d > c
            invariant c <= d < |span|
            invariant LastDoubleClose(span, c, d) == LastDoubleClose(span, c, |span| - 1)
          {
            if span[d] == '}' && span[d - 1] == '}' {
              return Ok(Some(TokenSpan(span[c..d + 1], span[c + 1..d])));
            }
            d := d - 1;
          }
          return Err(FormatError);
        } else if chr == '{' {
          stack := stack + ['}'];
        } else if chr == ']' || chr == '}' {
          if stack == [] || stack[|stack| - 1] != chr {
            return Err(FormatError);
          }
          stack := stack[..|stack| - 1];
          if stack != [] {
            c := c + 1;
            continue;
          }
          return Ok(Some(TokenSpan(span[..c + 1], span[1..c])));
        } else if c == 0 {
          return Ok(None);
        }
        c := c + 1;
      }
      return Err(FormatError);
    }

    /** `ReadValueSpan`: scan forward to the first bracket character. */
    static method ReadValueSpan(span: string) returns (ts: TokenSpan)
      ensures ts == ValueSpan(span)
    {
      var c := 0;
      while c < |span|
        invariant 0 <= c <= |span|
        invariant forall j :: 0 <= j < c ==> span[j] !in Brackets
      {
        if span[c] in Brackets {
          return TokenSpan([], span[..c]);
        }
        c := c + 1;
      }
      ts := TokenSpan([], span);
    }
  }
}

/** Properties of the compiler, proved about the functions that specify it. */
module ParserProperties {
  import opened Wrappers
  import opened Tokens
  import opened Appenders
  import opened Parser

  /** A plain run inside an open bracket does not change the scan. */
  lemma {:induction false} ScanSkipsPlain(span: string, c: nat, n: nat, stack: seq<char>)
    requires 0 < c && c + n <= |span|
    requires stack != [] && IsOpener(span[0]) && stack[0] == Closer(span[0])
    requires forall j :: c <= j < c + n ==> span[j] !in Brackets
    ensures ScanFrom(span, c, stack) == ScanFrom(span, c + n, stack)
    decreases n
  {
    if n > 0 {
      ScanSkipsPlain(span, c + 1, n - 1, stack);
    }
  }

  /** An opener at the front that does not start an escape opens a bracketed unit. */
  lemma ScanStarts(span: string)
    requires |span| > 0 && IsOpener(span[0])
    requires !(span[0] == '{' && |span| > 1 && span[1] == '{')
    ensures ScanTemplate(span) == ScanFrom(span, 1, [Closer(span[0])])
  {
    assert [] + [Closer(span[0])] == [Closer(span[0])];
  }

  /** The closer of the outermost bracket ends the unit. */
  lemma ScanEnds(span: string, c: nat, stack: seq<char>)
    requires 0 < c < |span| && stack == [span[c]]
    requires IsOpener(span[0]) && stack[0] == Closer(span[0])
    ensures ScanFrom(span, c, stack) == Ok(Some(TokenSpan(span[..c + 1], span[1..c])))
  {
  }

  /** Inside an open bracket, an opener that does not start an escape pushes its closer. */
  lemma ScanOpens(span: string, c: nat, stack: seq<char>)
    requires 0 < c < |span| && IsOpener(span[c])
    requires !(span[c] == '{' && c < |span| - 1 && span[c + 1] == '{')
    requires stack != [] && IsOpener(span[0]) && stack[0] == Closer(span[0])
    ensures ScanFrom(span, c, stack) == ScanFrom(span, c + 1, stack + [Closer(span[c])])
  {
  }

  /** A closer matching an inner open bracket pops it. */
  lemma ScanCloses(span: string, c: nat, stack: seq<char>)
    requires 0 < c < |span| && (span[c] == ']' || span[c] == '}')
    requires |stack| > 1 && span[c] == stack[|stack| - 1]
    requires IsOpener(span[0]) && stack[0] == Closer(span[0])
    ensures ScanFrom(span, c, stack) == ScanFrom(span, c + 1, stack[..|stack| - 1])
  {
  }

  /** A closer that is not the one on top of the stack is a format error. */
  lemma ScanRejectsCloser(span: string, c: nat, stack: seq<char>)
    requires 0 < c < |span| && (span[c] == ']' || span[c] == '}')
    requires stack != [] && IsOpener(span[0]) && stack[0] == Closer(span[0])
    requires stack[|stack| - 1] != span[c]
    ensures ScanFrom(span, c, stack) == Err(FormatError)
  {
  }

  /** An escape opener `{{` with no `}}` anywhere after it is a format error. */
  lemma UnterminatedEscapeIsFormatError(x: string)
    requires forall e :: 0 < e < |x| ==> !(x[e - 1] == '}' && x[e] == '}')
    ensures ScanTemplate("{{" + x) == Err(FormatError)
  {
    var span := "{{" + x;
    LastDoubleCloseSound(span, 0, |span| - 1);
    assert StepAt(span, 0, []) == Stop(Err(FormatError));
  }

  /** The backward search stops at the last `}}` of the span. */
  lemma LastDoubleCloseIs(span: string, c: nat, d: nat)
    requires c < d < |span| && DoubleCloseAt(span, d)
    requires forall e :: d < e < |span| ==> !DoubleCloseAt(span, e)
    ensures LastDoubleClose(span, c, |span| - 1) == Some(d)
  {
    LastDoubleCloseSound(span, c, |span| - 1);
  }

  /**
   * An escape unit `{{x}}` followed by text with no `}}` (and not starting with `}`) is one
   * constant `{x}`: one brace is stripped from each side and the inside is not parsed.
   */
  lemma EscapeUnit(x: string, rest: string, options: TemplateStringOptions)
    requires forall e :: 0 < e < |rest| ==> !(rest[e - 1] == '}' && rest[e] == '}')
    requires rest != [] ==> rest[0] != '}'
    ensures UnitAt("{{" + x + "}}" + rest, options) == Ok((Constant("{" + x + "}"), rest))
  {
    var u := "{{" + x + "}}";
    var span := u + rest;
    var d := |x| + 3;
    assert span[..d + 1] == u && span[d + 1..] == rest;
    assert span[0] == '{' && span[1] == '{' && span[d - 1] == '}' && span[d] == '}';
    forall e | d < e < |span| ensures !DoubleCloseAt(span, e) {
      assert span[e] == rest[e - d - 1];
      if e - 1 > d { assert span[e - 1] == rest[e - d - 2]; }
    }
    LastDoubleCloseIs(span, 0, d);
    var ts := TokenSpan(span[0..d + 1], span[1..d]);
    assert ScanTemplate(span) == Ok(Some(ts));
    assert ts.template == u && ts.IsEscapedTemplate() && ts.Length() == d + 1;
    assert u[1..|u| - 1] == "{" + x + "}";
  }

  /**
   * An escape inside an optional segment is read as written: the scan takes `{{x}}` as an
   * escape unit, and the rest is taken from the unit's length counted from the start of the
   * segment, so it begins with the stray `}` and the template is malformed, whatever `x` is.
   */
  lemma EscapeInSegmentIsMisread(x: string, options: TemplateStringOptions)
    ensures UnitAt("[{{" + x + "}}]", options) == Ok((Constant("{" + x + "}"), "}]"))
    ensures ParseUnits("[{{" + x + "}}]", options) == Err(FormatError)
  {
    var span := "[{{" + x + "}}]";
    var d := |x| + 4;
    assert span[0] == '[' && span[1] == '{' && span[2] == '{';
    assert span[d - 1] == '}' && span[d] == '}' && span[d + 1] == ']';
    LastDoubleCloseIs(span, 1, d);
    assert ScanFrom(span, 0, []) == ScanFrom(span, 1, [']']);
    var ts := TokenSpan(span[1..d + 1], span[2..d]);
    assert ScanTemplate(span) == Ok(Some(ts));
    assert ts.template == "{{" + x + "}}" && ts.IsEscapedTemplate() && ts.Length() == d;
    assert ts.template[1..|ts.template| - 1] == "{" + x + "}";
    assert span[d..] == "}]";
    assert UnitAt("}]", options) == Err(FormatError);
  }

  /** A non-empty run with no bracket character, up to a bracket or the end, is one constant. */
  lemma PlainUnit(text: string, rest: string, options: TemplateStringOptions)
    requires text != [] && forall j :: 0 <= j < |text| ==> text[j] !in Brackets
    requires rest != [] ==> rest[0] in Brackets
    ensures UnitAt(text + rest, options) == Ok((Constant(text), rest))
  {
    var span := text + rest;
    assert span[0] == text[0];
    assert FirstIndexIn(span, Brackets) == |text| by {
      forall j | 0 <= j < |text| ensures span[j] !in Brackets { assert span[j] == text[j]; }
      if |text| < |span| { assert span[|text|] == rest[0]; }
    }
    assert span[..|text|] == text && span[|text|..] == rest;
  }

  /** `Parse` emits the unit at the front, then the units of the rest, in order. */
  lemma ParseUnitsStep(span: string, options: TemplateStringOptions)
    requires |span| > 0 && UnitAt(span, options).Ok?
    ensures ParseUnits(span, options)
            == Prepended([UnitAt(span, options).value.0], ParseUnits(UnitAt(span, options).value.1, options))
  {
  }

  /**
   * Every unit consumes at least one character, so a span compiles to at most as many
   * appenders as it has characters, and a non-empty span to at least one.
   */
  lemma {:induction false} ParseUnitsLength(span: string, options: TemplateStringOptions)
    ensures ParseUnits(span, options).Ok? ==> |ParseUnits(span, options).value| <= |span|
    ensures ParseUnits(span, options).Ok? && span != [] ==> ParseUnits(span, options).value != []
    decreases |span|
  {
    if span != [] && ParseUnits(span, options).Ok? {
      ParseUnitsLength(UnitAt(span, options).value.1, options);
    }
  }

  /**
   * What the compiler guarantees of its output: every optional segment has a child with a
   * mapped property (the others were folded into constants), recursively, and every
   * placeholder carries the template's options.
   */
  predicate Compiled(a: Appender, options: TemplateStringOptions)
    decreases a
  {
    match a
    case Constant(_) => true
    case Property(_, _, _, o) => o == options
    case Optional(_, children) =>
      AnyMapped(children) && forall i :: 0 <= i < |children| ==> Compiled(children[i], options)
  }

  lemma {:induction false} ParseIsCompiled(span: string, options: TemplateStringOptions)
    ensures ParseUnits(span, options).Ok? ==>
              forall i :: 0 <= i < |ParseUnits(span, options).value| ==> Compiled(ParseUnits(span, options).value[i], options)
    decreases |span|, 3
  {
    if span != [] && ParseUnits(span, options).Ok? {
      UnitIsCompiled(span, options);
      var unit := UnitAt(span, options).value;
      ParseIsCompiled(unit.1, options);
    }
  }

  lemma {:induction false} UnitIsCompiled(span: string, options: TemplateStringOptions)
    requires |span| > 0
    ensures UnitAt(span, options).Ok? ==> Compiled(UnitAt(span, options).value.0, options)
    decreases |span|, 2
  {
    var token := TokenAt(span);
    if token.Ok? && token.value.IsTemplate() {
      var ts := token.value;
      if !ts.IsEscapedTemplate() && span[0] != '{' {
        OptionalIsCompiled(ts, options);
      }
    }
  }

  lemma {:induction false} OptionalIsCompiled(ts: TokenSpan, options: TemplateStringOptions)
    requires |ts.inner| < |ts.template|
    ensures OptionalAppenderOf(ts, options).Ok? ==> Compiled(OptionalAppenderOf(ts, options).value, options)
    decreases |ts.template|, 0
  {
    ParseIsCompiled(ts.inner, options);
  }

  /** Hence every optional segment in a compiled template refers to at least one property key. */
  lemma CompiledOptionalHasKeys(a: Appender, options: TemplateStringOptions)
    requires Compiled(a, options) && a.Optional?
    ensures Keys(a) != {}
  {
    var i :| 0 <= i < |a.children| && HasMappedProperties(a.children[i]);
    MappedIffHasKeys(a);
  }
}
