/**
 * The template language as a grammar: text runs, `{...}` placeholders and `[...]` optional
 * segments, nested freely. A template written from this grammar is compiled by the
 * stack-based scanner exactly as the grammar says, which ties the character-by-character
 * parser to an independent, structural definition of what it should produce.
 */
module Grammar {
  import opened Wrappers
  import opened Tokens
  import opened Appenders
  import opened Parser
  import opened ParserProperties

  datatype Bracket = Square | Curly

  function OpenChar(b: Bracket): char {
    if b == Square then '[' else '{'
  }

  function CloseChar(b: Bracket): char {
    if b == Square then ']' else '}'
  }

  /** A piece of template text: a run of plain characters, or a bracketed group of pieces. */
  datatype Piece = Text(text: string) | Group(bracket: Bracket, body: seq<Piece>)

  /** The characters a piece is written as. */
  function Spell(p: Piece): string
    decreases p
  {
    match p
    case Text(t) => t
    case Group(b, body) => [OpenChar(b)] + SpellAll(body) + [CloseChar(b)]
  }

  function SpellAll(ps: seq<Piece>): string
    decreases ps
  {
    if ps == [] then [] else Spell(ps[0]) + SpellAll(ps[1..])
  }

  predicate PlainText(t: string) {
    forall j :: 0 <= j < |t| ==> t[j] !in Brackets
  }

  predicate StartsWithCurly(ps: seq<Piece>) {
    ps != [] && ps[0].Group? && ps[0].bracket == Curly
  }

  /**
   * A piece the grammar allows: text runs are non-empty and bracket-free, and a placeholder
   * does not start with a nested placeholder (that would spell `{{`, an escape).
   */
  predicate WellFormed(p: Piece)
    decreases p
  {
    match p
    case Text(t) => t != [] && PlainText(t)
    case Group(b, body) => WellFormedSeq(body) && !(b == Curly && StartsWithCurly(body))
  }

  /** Well-formed pieces, with no two text runs side by side (they would read as one run). */
  predicate WellFormedSeq(ps: seq<Piece>)
    decreases ps
  {
    ps == []
    || (&& WellFormed(ps[0])
        && WellFormedSeq(ps[1..])
        && (ps[0].Text? && |ps| > 1 ==> ps[1].Group?))
  }

  /**
   * The appender a piece stands for: a text run is a constant, a placeholder a property value
   * appender, and an optional segment keeps its compiled children unless none of them maps a
   * property, in which case it is a constant of its own text.
   */
  function Compile(p: Piece, options: TemplateStringOptions): Appender
    decreases p
  {
    match p
    case Text(t) => Constant(t)
    case Group(Curly, body) => PropertyAppenderOf(TokenSpan(Spell(p), SpellAll(body)), options)
    case Group(Square, body) =>
      var children := CompileAll(body, options);
      if AnyMapped(children) then Optional(Spell(p), children) else Constant(Spell(p))
  }

  function CompileAll(ps: seq<Piece>, options: TemplateStringOptions): seq<Appender>
    decreases ps
  {
    if ps == [] then [] else [Compile(ps[0], options)] + CompileAll(ps[1..], options)
  }

  /** The first character of a well-formed sequence of pieces. */
  lemma {:induction false} FirstChar(ps: seq<Piece>)
    requires WellFormedSeq(ps) && ps != []
    ensures |SpellAll(ps)| > 0
    ensures ps[0].Text? ==> |ps[0].text| > 0 && SpellAll(ps)[0] == ps[0].text[0] && SpellAll(ps)[0] !in Brackets
    ensures ps[0].Group? ==> SpellAll(ps)[0] == OpenChar(ps[0].bracket)
  {
    var first := Spell(ps[0]);
    assert SpellAll(ps) == first + SpellAll(ps[1..]);
    assert |first| > 0 && SpellAll(ps)[0] == first[0];
  }

  /** What follows an opener inside a group is never a second `{`. */
  lemma SecondCharNotCurly(p: Piece)
    requires WellFormed(p) && p.Group?
    ensures |Spell(p)| >= 2 && Spell(p)[0] == OpenChar(p.bracket)
    ensures Spell(p)[|Spell(p)| - 1] == CloseChar(p.bracket)
    ensures p.bracket == Curly ==> Spell(p)[1] != '{'
  {
    var inner := SpellAll(p.body);
    assert Spell(p)[1] == if inner == [] then CloseChar(p.bracket) else inner[0];
    if p.body != [] {
      FirstChar(p.body);
    }
  }

  lemma SliceOfConcat(span: string, c: nat, a: string, b: string)
    requires c + |a + b| <= |span| && span[c..c + |a + b|] == a + b
    ensures span[c..c + |a|] == a
    ensures span[c + |a|..c + |a| + |b|] == b
  {
    var w := span[c..c + |a + b|];
    assert w[..|a|] == a && w[|a|..] == b;
    SliceOfSlice(span, c, c + |a + b|, 0, |a|);
    SliceOfSlice(span, c, c + |a + b|, |a|, |a + b|);
  }

  /**
   * Inside an open bracket, a well-formed piece is skipped by the scanner as a whole:
   * its brackets open and close among themselves and leave the outer stack as it was.
   */
  lemma {:induction false} ScanSkipsPiece(span: string, c: nat, stack: seq<char>, p: Piece)
    requires WellFormed(p)
    requires 0 < c && c + |Spell(p)| <= |span| && span[c..c + |Spell(p)|] == Spell(p)
    requires stack != [] && IsOpener(span[0]) && stack[0] == Closer(span[0])
    ensures ScanFrom(span, c, stack) == ScanFrom(span, c + |Spell(p)|, stack)
    decreases p, 2
  {
    match p
    case Text(t) =>
      forall j | c <= j < c + |t| ensures span[j] !in Brackets {
        assert span[j] == t[j - c];
      }
      ScanSkipsPlain(span, c, |t|, stack);
    case Group(_, _) =>
      ScanSkipsGroup(span, c, stack, p);
  }

  lemma {:induction false} ScanSkipsGroup(span: string, c: nat, stack: seq<char>, p: Piece)
    requires WellFormed(p) && p.Group?
    requires 0 < c && c + |Spell(p)| <= |span| && span[c..c + |Spell(p)|] == Spell(p)
    requires stack != [] && IsOpener(span[0]) && stack[0] == Closer(span[0])
    ensures ScanFrom(span, c, stack) == ScanFrom(span, c + |Spell(p)|, stack)
    decreases p, 1
  {
    GroupLayout(span, c, p);
    var inside := stack + [CloseChar(p.bracket)];
    ScanOpens(span, c, stack);
    ScanSkipsPieces(span, c + 1, inside, p.body);
    ScanCloses(span, c + 1 + |SpellAll(p.body)|, inside);
    assert inside[..|inside| - 1] == stack;
  }

  /** A group written at `c`: its opener (not an escape), its body, then its closer. */
  lemma GroupLayout(span: string, c: nat, p: Piece)
    requires WellFormed(p) && p.Group?
    requires c + |Spell(p)| <= |span| && span[c..c + |Spell(p)|] == Spell(p)
    ensures IsOpener(span[c]) && Closer(span[c]) == CloseChar(p.bracket)
    ensures !(span[c] == '{' && c < |span| - 1 && span[c + 1] == '{')
    ensures |Spell(p)| == |SpellAll(p.body)| + 2
    ensures span[c + 1..c + 1 + |SpellAll(p.body)|] == SpellAll(p.body)
    ensures span[c + 1 + |SpellAll(p.body)|] == CloseChar(p.bracket)
  {
    var s := Spell(p);
    var inner := SpellAll(p.body);
    var close := CloseChar(p.bracket);
    var tail := inner + [close];
    assert s == [OpenChar(p.bracket)] + tail;
    SecondCharNotCurly(p);
    assert span[c] == s[0] && span[c + 1] == s[1];
    SliceOfConcat(span, c, [OpenChar(p.bracket)], tail);
    SliceOfConcat(span, c + 1, inner, [close]);
    var e := c + 1 + |inner|;
    assert span[e] == s[e - c] == close;
  }

  lemma {:induction false} ScanSkipsPieces(span: string, c: nat, stack: seq<char>, ps: seq<Piece>)
    requires WellFormedSeq(ps)
    requires 0 < c && c + |SpellAll(ps)| <= |span| && span[c..c + |SpellAll(ps)|] == SpellAll(ps)
    requires stack != [] && IsOpener(span[0]) && stack[0] == Closer(span[0])
    ensures ScanFrom(span, c, stack) == ScanFrom(span, c + |SpellAll(ps)|, stack)
    decreases ps, 0
  {
    if ps != [] {
      PiecesSplit(span, c, ps);
      ScanSkipsPiece(span, c, stack, ps[0]);
      ScanSkipsPieces(span, c + |Spell(ps[0])|, stack, ps[1..]);
    }
  }

  /** A well-formed sequence written at `c` is its first piece followed by the others. */
  lemma PiecesSplit(span: string, c: nat, ps: seq<Piece>)
    requires WellFormedSeq(ps) && ps != []
    requires c + |SpellAll(ps)| <= |span| && span[c..c + |SpellAll(ps)|] == SpellAll(ps)
    ensures WellFormed(ps[0]) && WellFormedSeq(ps[1..])
    ensures |SpellAll(ps)| == |Spell(ps[0])| + |SpellAll(ps[1..])|
    ensures span[c..c + |Spell(ps[0])|] == Spell(ps[0])
    ensures span[c + |Spell(ps[0])|..c + |Spell(ps[0])| + |SpellAll(ps[1..])|] == SpellAll(ps[1..])
  {
    assert SpellAll(ps) == Spell(ps[0]) + SpellAll(ps[1..]);
    SliceOfConcat(span, c, Spell(ps[0]), SpellAll(ps[1..]));
  }

  /** Once a group is opened at the front of a span, the scan ends at the group's closer. */
  lemma ScanGroupBody(span: string, p: Piece)
    requires WellFormed(p) && p.Group?
    requires |Spell(p)| <= |span| && span[..|Spell(p)|] == Spell(p)
    ensures IsOpener(span[0]) && [CloseChar(p.bracket)] == [Closer(span[0])]
    ensures ScanFrom(span, 1, [CloseChar(p.bracket)]) == Ok(Some(TokenSpan(Spell(p), SpellAll(p.body))))
  {
    GroupAtFront(span, p);
    var close := CloseChar(p.bracket);
    var e := 1 + |SpellAll(p.body)|;
    ScanSkipsPieces(span, 1, [close], p.body);
    ScanEnds(span, e, [close]);
  }

  /** A group at the front of a span: its opener, its body, its closer, and the group as a prefix. */
  lemma GroupAtFront(span: string, p: Piece)
    requires WellFormed(p) && p.Group?
    requires |Spell(p)| <= |span| && span[..|Spell(p)|] == Spell(p)
    ensures IsOpener(span[0]) && Closer(span[0]) == CloseChar(p.bracket)
    ensures |Spell(p)| == |SpellAll(p.body)| + 2
    ensures span[1..1 + |SpellAll(p.body)|] == SpellAll(p.body)
    ensures span[1 + |SpellAll(p.body)|] == CloseChar(p.bracket)
    ensures span[..1 + |SpellAll(p.body)| + 1] == Spell(p)
  {
    assert span[0..|Spell(p)|] == Spell(p);
    GroupLayout(span, 0, p);
  }

  /** At the front of a span, a well-formed group is recognised as exactly one unit. */
  lemma ScanGroup(p: Piece, rest: string)
    requires WellFormed(p) && p.Group?
    ensures ScanTemplate(Spell(p) + rest) == Ok(Some(TokenSpan(Spell(p), SpellAll(p.body))))
  {
    var s := Spell(p);
    var span := s + rest;
    SecondCharNotCurly(p);
    assert span[0] == s[0] && span[1] == s[1];
    ScanStarts(span);
    assert span[..|s|] == s;
    ScanGroupBody(span, p);
  }

  /** The unit at the front of a span starting with a well-formed piece is that piece, compiled. */
  lemma {:induction false} UnitOfPiece(p: Piece, rest: string, options: TemplateStringOptions)
    requires WellFormed(p)
    requires p.Text? && rest != [] ==> rest[0] in Brackets
    ensures UnitAt(Spell(p) + rest, options) == Ok((Compile(p, options), rest))
    decreases p, 1
  {
    var s := Spell(p);
    var span := s + rest;
    match p
    case Text(t) =>
      PlainUnit(t, rest, options);
    case Group(_, _) =>
      UnitOfGroup(p, rest, options);
  }

  lemma {:induction false} UnitOfGroup(p: Piece, rest: string, options: TemplateStringOptions)
    requires WellFormed(p) && p.Group?
    ensures UnitAt(Spell(p) + rest, options) == Ok((Compile(p, options), rest))
    decreases p, 0
  {
    var s := Spell(p);
    var span := s + rest;
    var ts := TokenSpan(s, SpellAll(p.body));
    ScanGroup(p, rest);
    SecondCharNotCurly(p);
    assert TokenAt(span) == Ok(ts);
    assert ts.IsTemplate() && !ts.IsEscapedTemplate();
    assert span[0] == s[0];
    assert ts.Length() == |s|;
    assert span[|s|..] == rest;
    if p.bracket == Square {
      ParseOfPieces(p.body, options);
      assert OptionalAppenderOf(ts, options) == Ok(Compile(p, options));
    } else {
      assert PropertyAppenderOf(ts, options) == Compile(p, options);
    }
  }

  /**
   * Parsing a template written from the grammar succeeds and yields exactly the grammar's
   * compilation of it.
   */
  lemma {:induction false} ParseOfPieces(ps: seq<Piece>, options: TemplateStringOptions)
    requires WellFormedSeq(ps)
    ensures ParseUnits(SpellAll(ps), options) == Ok(CompileAll(ps, options))
    decreases ps, 0
  {
    if ps != [] {
      var rest := SpellAll(ps[1..]);
      if ps[0].Text? && rest != [] {
        FirstChar(ps[1..]);
      }
      UnitOfPiece(ps[0], rest, options);
      FirstChar(ps);
      ParseOfPieces(ps[1..], options);
    }
  }

  lemma SpellAllCons(p: Piece, ps: seq<Piece>)
    ensures SpellAll([p] + ps) == Spell(p) + SpellAll(ps)
  {
    assert ([p] + ps)[1..] == ps;
  }

  lemma CompileAllCons(p: Piece, ps: seq<Piece>, options: TemplateStringOptions)
    ensures CompileAll([p] + ps, options) == [Compile(p, options)] + CompileAll(ps, options)
  {
    assert ([p] + ps)[1..] == ps;
  }

  lemma WellFormedSeqCons(p: Piece, ps: seq<Piece>)
    requires WellFormed(p) && WellFormedSeq(ps)
    requires p.Text? && ps != [] ==> ps[0].Group?
    ensures WellFormedSeq([p] + ps)
  {
    assert ([p] + ps)[1..] == ps;
  }

  /** A placeholder `{key}` or `{key:format}`, written as one text run between braces. */
  function Placeholder(inner: string): Piece {
    Group(Curly, [Text(inner)])
  }

  /**
   * A placeholder's key is the text up to the first colon, and a format suffix from that
   * colon on is stored wrapped as a composite format.
   */
  lemma PlaceholderCompiles(key: string, format: string, options: TemplateStringOptions)
    requires key != [] && PlainText(key + format) && ':' !in key && (format != [] ==> format[0] == ':')
    ensures WellFormed(Placeholder(key + format))
    ensures Spell(Placeholder(key + format)) == "{" + key + format + "}"
    ensures Compile(Placeholder(key + format), options)
            == Property(key, if format == [] then None else Some(CompositeFormat(format)), "{" + key + format + "}", options)
  {
    var inner := key + format;
    assert [Text(inner)][1..] == [];
    assert SpellAll([Text(inner)]) == inner + [] == inner;
    assert |inner| >= |key| > 0;
    assert WellFormed(Text(inner)) && WellFormedSeq([]);
    assert WellFormedSeq([Text(inner)]);
    assert FirstIndexIn(inner, {':'}) == |key| by {
      forall j | 0 <= j < |key| ensures inner[j] !in {':'} {
        assert inner[j] == key[j];
      }
      if format != [] {
        assert inner[|key|] == format[0];
      }
    }
    assert inner[..|key|] == key && inner[|key|..] == format;
  }
}
