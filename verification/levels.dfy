/**
 * Templates left open: brackets opened one inside the other, each followed by well-formed
 * pieces, and never closed. The scanner keeps one closer per open bracket on its stack, so a
 * template that ends inside them, or closes the innermost with the wrong bracket, is a
 * format error at any depth.
 */
module OpenLevels {
  import opened Wrappers
  import opened Parser
  import opened ParserProperties
  import opened Grammar

  /** A bracket still open: its opener and the well-formed pieces written after it. */
  datatype Level = Level(bracket: Bracket, body: seq<Piece>)

  /** The text of brackets opened one inside the other and never closed. */
  function SpellOpen(ls: seq<Level>): string
    decreases ls
  {
    if ls == [] then [] else [OpenChar(ls[0].bracket)] + SpellAll(ls[0].body) + SpellOpen(ls[1..])
  }

  /** The closers the open levels expect, outermost first (the scanner's stack, bottom first). */
  function Closers(ls: seq<Level>): seq<char>
    decreases ls
  {
    if ls == [] then [] else [CloseChar(ls[0].bracket)] + Closers(ls[1..])
  }

  /**
   * Open levels the grammar allows: each body is well formed, and no `{` opener is directly
   * followed by a second `{` (that would spell an escape).
   */
  predicate WellFormedLevels(ls: seq<Level>)
    decreases ls
  {
    ls == []
    || (&& WellFormedSeq(ls[0].body)
        && (ls[0].bracket == Curly ==> !StartsWithCurly(ls[0].body))
        && (ls[0].bracket == Curly && ls[0].body == [] && |ls| > 1 ==> ls[1].bracket != Curly)
        && WellFormedLevels(ls[1..]))
  }

  /** Open levels start with the outer opener, and a `{` opener is never followed by a second `{`. */
  lemma OpenNotEscape(ls: seq<Level>)
    requires WellFormedLevels(ls) && ls != []
    ensures |SpellOpen(ls)| == 1 + |SpellAll(ls[0].body)| + |SpellOpen(ls[1..])|
    ensures SpellOpen(ls)[0] == OpenChar(ls[0].bracket)
    ensures ls[0].bracket == Curly && |SpellOpen(ls)| > 1 ==> SpellOpen(ls)[1] != '{'
  {
    var body := SpellAll(ls[0].body);
    var deeper := SpellOpen(ls[1..]);
    assert SpellOpen(ls) == [OpenChar(ls[0].bracket)] + body + deeper;
    if ls[0].body != [] {
      FirstChar(ls[0].body);
      assert SpellOpen(ls)[1] == body[0];
    } else if |ls| > 1 {
      assert deeper[0] == OpenChar(ls[1].bracket);
      assert SpellOpen(ls)[1] == deeper[0];
    }
  }

  /** The first open level written at `c` starts with its opener, and that opener is not half of an escape. */
  lemma LevelFront(span: string, c: nat, ls: seq<Level>)
    requires WellFormedLevels(ls) && ls != []
    requires c + |SpellOpen(ls)| <= |span| && span[c..c + |SpellOpen(ls)|] == SpellOpen(ls)
    requires c + |SpellOpen(ls)| < |span| ==> span[c + |SpellOpen(ls)|] != '{'
    ensures span[c] == OpenChar(ls[0].bracket)
    ensures !(span[c] == '{' && c < |span| - 1 && span[c + 1] == '{')
  {
    var open := SpellOpen(ls);
    OpenNotEscape(ls);
    SliceAt(span, c, open, 0);
    if |open| > 1 {
      SliceAt(span, c, open, 1);
    }
  }

  /** A character followed by two runs, written at `c`: where each run sits. */
  lemma ThreePartSlices(span: string, c: nat, end: nat, x: char, b: string, d: string)
    requires end == c + 1 + |b| + |d| <= |span| && span[c..end] == [x] + b + d
    ensures span[c + 1..c + 1 + |b|] == b && span[c + 1 + |b|..end] == d
  {
    SliceOfConcat(span, c, [x], b + d);
    SliceOfConcat(span, c + 1, b, d);
  }

  lemma SliceAt(span: string, c: nat, w: string, i: nat)
    requires c + |w| <= |span| && span[c..c + |w|] == w && i < |w|
    ensures span[c + i] == w[i]
  {
    assert span[c..c + |w|][i] == span[c + i];
  }

  /** Inside an open bracket, one open level pushes its closer and skips its body. */
  lemma ScanThroughLevel(span: string, c: nat, stack: seq<char>, level: Level)
    requires WellFormedSeq(level.body)
    requires 0 < c && c + 1 + |SpellAll(level.body)| <= |span|
    requires span[c] == OpenChar(level.bracket) && !(span[c] == '{' && c < |span| - 1 && span[c + 1] == '{')
    requires span[c + 1..c + 1 + |SpellAll(level.body)|] == SpellAll(level.body)
    requires stack != [] && IsOpener(span[0]) && stack[0] == Closer(span[0])
    ensures ScanFrom(span, c, stack)
            == ScanFrom(span, c + 1 + |SpellAll(level.body)|, stack + [CloseChar(level.bracket)])
  {
    ScanOpens(span, c, stack);
    ScanSkipsPieces(span, c + 1, stack + [CloseChar(level.bracket)], level.body);
  }

  /** The outermost of the open levels at `c` is its opener, its body, then the deeper levels. */
  lemma LevelTail(span: string, c: nat, end: nat, ls: seq<Level>)
    requires WellFormedLevels(ls) && ls != []
    requires end == c + |SpellOpen(ls)| <= |span| && span[c..end] == SpellOpen(ls)
    ensures var e := c + 1 + |SpellAll(ls[0].body)|;
            && WellFormedSeq(ls[0].body) && WellFormedLevels(ls[1..])
            && end == e + |SpellOpen(ls[1..])|
            && span[c + 1..e] == SpellAll(ls[0].body) && span[e..end] == SpellOpen(ls[1..])
  {
    var body := SpellAll(ls[0].body);
    var deeper := SpellOpen(ls[1..]);
    assert SpellOpen(ls) == [OpenChar(ls[0].bracket)] + body + deeper;
    ThreePartSlices(span, c, end, OpenChar(ls[0].bracket), body, deeper);
  }

  /** Scanning the outermost of the open levels at `c` pushes its closer and skips its body. */
  lemma ScanFirstLevel(span: string, c: nat, end: nat, stack: seq<char>, ls: seq<Level>)
    requires WellFormedLevels(ls) && ls != []
    requires 0 < c && end == c + |SpellOpen(ls)| <= |span| && span[c..end] == SpellOpen(ls)
    requires end < |span| ==> span[end] != '{'
    requires stack != [] && IsOpener(span[0]) && stack[0] == Closer(span[0])
    ensures ScanFrom(span, c, stack)
            == ScanFrom(span, c + 1 + |SpellAll(ls[0].body)|, stack + [CloseChar(ls[0].bracket)])
  {
    LevelTail(span, c, end, ls);
    LevelFront(span, c, ls);
    ScanThroughLevel(span, c, stack, ls[0]);
  }

  /**
   * Inside an open bracket, open levels push their closers in order: the scan reaches their
   * end with the levels' closers on top of the stack, `final`.
   */
  lemma {:induction false} ScanThroughLevels(span: string, c: nat, end: nat, stack: seq<char>, ls: seq<Level>, final: seq<char>)
    requires WellFormedLevels(ls)
    requires 0 < c && end == c + |SpellOpen(ls)| <= |span| && span[c..end] == SpellOpen(ls)
    requires end < |span| ==> span[end] != '{'
    requires stack != [] && IsOpener(span[0]) && stack[0] == Closer(span[0])
    requires final == stack + Closers(ls)
    ensures ScanFrom(span, c, stack) == ScanFrom(span, end, final)
    decreases ls
  {
    if ls == [] {
      assert final == stack;
    } else {
      var inside := stack + [CloseChar(ls[0].bracket)];
      LevelTail(span, c, end, ls);
      assert inside + Closers(ls[1..]) == final by {
        assert Closers(ls) == [CloseChar(ls[0].bracket)] + Closers(ls[1..]);
      }
      ScanThroughLevels(span, c + 1 + |SpellAll(ls[0].body)|, end, inside, ls[1..], final);
      ScanFirstLevel(span, c, end, stack, ls);
    }
  }

  /** From the front, open levels leave exactly their closers on the stack. */
  lemma ScanOpenLevels(span: string, ls: seq<Level>)
    requires WellFormedLevels(ls) && ls != []
    requires |SpellOpen(ls)| <= |span| && span[..|SpellOpen(ls)|] == SpellOpen(ls)
    requires |SpellOpen(ls)| < |span| ==> span[|SpellOpen(ls)|] != '{'
    ensures IsOpener(span[0]) && Closers(ls)[0] == Closer(span[0])
    ensures ScanTemplate(span) == ScanFrom(span, |SpellOpen(ls)|, Closers(ls))
  {
    var end := |SpellOpen(ls)|;
    var first := [CloseChar(ls[0].bracket)];
    var e := 1 + |SpellAll(ls[0].body)|;
    assert span[0..end] == SpellOpen(ls);
    assert ScanTemplate(span) == ScanFrom(span, 1, first) by {
      LevelFront(span, 0, ls);
      ScanStarts(span);
    }
    var body := SpellAll(ls[0].body);
    var deeper := SpellOpen(ls[1..]);
    assert SpellOpen(ls) == [OpenChar(ls[0].bracket)] + body + deeper;
    ThreePartSlices(span, 0, end, OpenChar(ls[0].bracket), body, deeper);
    ScanSkipsPieces(span, 1, first, ls[0].body);
    ScanThroughLevels(span, e, end, first, ls[1..], Closers(ls));
  }

  /** A template that ends with brackets still open, at any depth, is a format error. */
  lemma UnclosedIsFormatError(ls: seq<Level>)
    requires WellFormedLevels(ls) && ls != []
    ensures ScanTemplate(SpellOpen(ls)) == Err(FormatError)
  {
    var span := SpellOpen(ls);
    assert span[..|span|] == span;
    ScanOpenLevels(span, ls);
  }

  /**
   * A closer that is not the one the innermost open bracket expects is a format error, at any
   * depth and whatever follows it.
   */
  lemma CrossedCloserIsFormatError(ls: seq<Level>, closer: char, rest: string)
    requires WellFormedLevels(ls) && ls != []
    requires (closer == ']' || closer == '}') && closer != CloseChar(ls[|ls| - 1].bracket)
    ensures ScanTemplate(SpellOpen(ls) + [closer] + rest) == Err(FormatError)
  {
    var open := SpellOpen(ls);
    var span := open + [closer] + rest;
    assert span[..|open|] == open && span[|open|] == closer;
    ScanOpenLevels(span, ls);
    ClosersLast(ls);
    ScanRejectsCloser(span, |open|, Closers(ls));
  }

  /** The innermost open level's closer is on top of the stack. */
  lemma {:induction false} ClosersLast(ls: seq<Level>)
    requires ls != []
    ensures |Closers(ls)| == |ls| && Closers(ls)[|ls| - 1] == CloseChar(ls[|ls| - 1].bracket)
    decreases ls
  {
    if |ls| > 1 {
      ClosersLast(ls[1..]);
    }
  }
}
