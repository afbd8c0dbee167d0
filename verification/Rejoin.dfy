/** Splitting is stable: joining the statements with newlines and splitting again returns the same statements. */
module Rejoin {
  import opened Amounts
  import opened Lexer

  /** The window t[lo..hi] appears in u, moved by d. */
  ghost predicate Window(t: string, lo: nat, hi: nat, u: string, d: int) {
    && lo <= hi <= |t| && 0 <= lo + d && hi + d <= |u|
    && forall k | lo <= k < hi :: u[k + d] == t[k]
  }

  /** Nothing before position i can be read as part of a word. */
  predicate Clear(t: string, i: nat)
    requires i <= |t|
  {
    i == 0 || Space(t[i - 1]) || t[i - 1] == ';'
  }

  /** Nothing from position h on can extend the unit that ends there. */
  predicate Ends(t: string, lo: nat, h: nat)
    requires lo <= h <= |t|
  {
    h == |t| || Space(t[h]) || (lo < h && t[h - 1] == ';')
  }

  ghost predicate Moved(t: string, lo: nat, hi: nat, u: string, d: int) {
    && Window(t, lo, hi, u, d) && Clear(t, lo) && Clear(u, lo + d) && Ends(t, lo, hi) && Ends(u, lo + d, hi + d)
  }

  // ----- each unit reads the same in both texts -------------------------------------------

  lemma {:induction false} LineMoves(t: string, lo: nat, hi: nat, u: string, d: int, j: nat)
    requires Window(t, lo, hi, u, d) && lo <= j <= |t| && LineEnd(t, j) <= hi && LineEnd(t, j) > j
             && t[LineEnd(t, j) - 1] == '\n'
    ensures LineEnd(u, j + d) == LineEnd(t, j) + d
    decreases |t| - j
  {
    assert u[j + d] == t[j];
    if t[j] != '\n' {
      LineMoves(t, lo, hi, u, d, j + 1);
    }
  }

  lemma {:induction false} LineStops(t: string, j: nat)
    requires j <= |t| && LineEnd(t, j) < |t|
    ensures LineEnd(t, j) > j && t[LineEnd(t, j) - 1] == '\n'
    decreases |t| - j
  {
    if t[j] != '\n' {
      LineStops(t, j + 1);
    }
  }

  lemma {:induction false} BlockMoves(t: string, lo: nat, hi: nat, u: string, d: int, j: nat, depth: nat)
    requires Window(t, lo, hi, u, d) && lo <= j <= |t| && depth > 0
    requires BlockEnd(t, j, depth).Some? && BlockEnd(t, j, depth).value <= hi
    ensures BlockEnd(u, j + d, depth) == Some(BlockEnd(t, j, depth).value + d)
    decreases |t| - j
  {
    assert u[j + d] == t[j] && u[j + 1 + d] == t[j + 1];
    if Pair(t, j, '/', '*') {
      BlockMoves(t, lo, hi, u, d, j + 2, depth + 1);
    } else if Pair(t, j, '*', '/') {
      if depth > 1 {
        BlockMoves(t, lo, hi, u, d, j + 2, depth - 1);
      }
    } else {
      BlockMoves(t, lo, hi, u, d, j + 1, depth);
    }
  }

  lemma TagMoves(t: string, lo: nat, hi: nat, u: string, d: int, j: nat, tag: string)
    requires Window(t, lo, hi, u, d) && lo <= j && j + |tag| <= hi
    ensures TagAt(u, j + d, tag) == TagAt(t, j, tag)
  {
    assert u[j + d..j + d + |tag|] == t[j..j + |tag|];
  }

  lemma {:induction false} DollarMoves(t: string, lo: nat, hi: nat, u: string, d: int, j: nat, tag: string)
    requires Window(t, lo, hi, u, d) && lo <= j <= |t| && tag != ""
    requires DollarEnd(t, j, tag).Some? && DollarEnd(t, j, tag).value <= hi
    ensures DollarEnd(u, j + d, tag) == Some(DollarEnd(t, j, tag).value + d)
    decreases |t| - j
  {
    TagMoves(t, lo, hi, u, d, j, tag);
    if !TagAt(t, j, tag) {
      DollarMoves(t, lo, hi, u, d, j + 1, tag);
    }
  }

  /** The character after a closing quote is not another quote in either text. */
  lemma {:induction false} SingleMoves(t: string, lo: nat, hi: nat, u: string, d: int, j: nat, escapes: bool)
    requires Moved(t, lo, hi, u, d) && lo <= j <= |t|
    requires SingleEnd(t, j, escapes).Some? && SingleEnd(t, j, escapes).value <= hi
    ensures SingleEnd(u, j + d, escapes) == Some(SingleEnd(t, j, escapes).value + d)
    decreases |t| - j
  {
    assert u[j + d] == t[j];
    assert j + 1 < hi ==> u[j + 1 + d] == t[j + 1];
    if escapes && t[j] == '\\' && j + 1 < |t| {
      SingleMoves(t, lo, hi, u, d, j + 2, escapes);
    } else if Pair(t, j, '\'', '\'') {
      SingleMoves(t, lo, hi, u, d, j + 2, escapes);
    } else if t[j] != '\'' {
      SingleMoves(t, lo, hi, u, d, j + 1, escapes);
    }
  }

  lemma {:induction false} DoubleMoves(t: string, lo: nat, hi: nat, u: string, d: int, j: nat)
    requires Moved(t, lo, hi, u, d) && lo <= j <= |t|
    requires DoubleEnd(t, j).Some? && DoubleEnd(t, j).value <= hi
    ensures DoubleEnd(u, j + d) == Some(DoubleEnd(t, j).value + d)
    decreases |t| - j
  {
    assert u[j + d] == t[j];
    assert j + 1 < hi ==> u[j + 1 + d] == t[j + 1];
    if Pair(t, j, '"', '"') {
      DoubleMoves(t, lo, hi, u, d, j + 2);
    } else if t[j] != '"' {
      DoubleMoves(t, lo, hi, u, d, j + 1);
    }
  }

  lemma PrefixMoves(t: string, lo: nat, hi: nat, u: string, d: int, q: nat)
    requires Moved(t, lo, hi, u, d) && lo <= q < hi
    ensures EscapePrefix(u, q + d) == EscapePrefix(t, q)
  {
    assert u[q + d] == t[q];
    assert q - 1 >= lo ==> u[q - 1 + d] == t[q - 1];
    assert q - 2 >= lo ==> u[q - 2 + d] == t[q - 2];
    assert q - 3 >= lo ==> u[q - 3 + d] == t[q - 3];
  }

  /** A tag is found in both texts or in neither, unless it reaches beyond the window. */
  lemma {:induction false} TagEndMoves(t: string, lo: nat, hi: nat, u: string, d: int, i: nat, m: nat)
    requires Moved(t, lo, hi, u, d) && lo <= i < m <= hi && t[m - 1] != ';'
    requires TagEnd(t, i, m).Some? ==> TagEnd(t, i, m).value <= hi
    ensures TagEnd(u, i + d, m + d) == if TagEnd(t, i, m).None? then None else Some(TagEnd(t, i, m).value + d)
    decreases |t| - m
  {
    if m < hi {
      assert u[m + d] == t[m];
      if t[m] != '$' && TagChar(t[m], m > i + 1) {
        TagEndMoves(t, lo, hi, u, d, i, m + 1);
      }
    }
  }

  lemma PairMoves(t: string, lo: nat, hi: nat, u: string, d: int, i: nat, a: char, b: char)
    requires Moved(t, lo, hi, u, d) && lo <= i < hi && a != ';' && b != ';' && !Space(b)
    ensures Pair(u, i + d, a, b) == Pair(t, i, a, b)
  {
    assert u[i + d] == t[i];
    assert i + 1 < hi ==> u[i + 1 + d] == t[i + 1];
  }

  lemma DollarOpensAlike(t: string, lo: nat, hi: nat, u: string, d: int, i: nat)
    requires Moved(t, lo, hi, u, d) && lo <= i < hi
    requires OpensDollar(t, i) ==> TagEnd(t, i, i + 1).value <= hi
    requires !OpensDollar(t, i) && TagEnd(t, i, i + 1).Some? ==> t[i] != '$' || (i > 0 && IdentifierChar(t[i - 1]))
    ensures OpensDollar(u, i + d) == OpensDollar(t, i)
    ensures OpensDollar(t, i) ==> TagEnd(u, i + d, i + d + 1) == Some(TagEnd(t, i, i + 1).value + d)
  {
    assert u[i + d] == t[i];
    assert i > lo ==> u[i - 1 + d] == t[i - 1];
    if t[i] == '$' && (i == 0 || !IdentifierChar(t[i - 1])) {
      TagEndMoves(t, lo, hi, u, d, i, i + 1);
    }
  }

  /** A unit inside the window ends at the same place in both texts. */
  lemma UnitMoves(t: string, lo: nat, hi: nat, u: string, d: int, i: nat)
    requires Moved(t, lo, hi, u, d) && lo <= i < hi && t[i] != ';'
    requires UnitEnd(t, i).Some? && UnitEnd(t, i).value <= hi
    requires Pair(t, i, '-', '-') ==> LineEnd(t, i + 2) > i + 2 && t[LineEnd(t, i + 2) - 1] == '\n'
    ensures UnitEnd(u, i + d) == Some(UnitEnd(t, i).value + d)
  {
    hide LineEnd, BlockEnd, SingleEnd, DoubleEnd, DollarEnd, EscapePrefix, OpensDollar, Pair, TagEnd, Moved;
    SameChar(t, lo, hi, u, d, i);
    PairMoves(t, lo, hi, u, d, i, '-', '-');
    PairMoves(t, lo, hi, u, d, i, '/', '*');
    if Pair(t, i, '-', '-') {
      LineMoves(t, lo, hi, u, d, i + 2);
    } else if Pair(t, i, '/', '*') {
      BlockMoves(t, lo, hi, u, d, i + 2, 1);
    } else if t[i] == '\'' {
      PrefixMoves(t, lo, hi, u, d, i);
      SingleMoves(t, lo, hi, u, d, i + 1, EscapePrefix(t, i));
    } else if t[i] == '"' {
      DoubleMoves(t, lo, hi, u, d, i + 1);
    } else {
      DollarUnitMoves(t, lo, hi, u, d, i);
    }
  }

  lemma SameChar(t: string, lo: nat, hi: nat, u: string, d: int, i: nat)
    requires Moved(t, lo, hi, u, d) && lo <= i < hi
    ensures 0 <= i + d < |u| && u[i + d] == t[i] && Window(t, lo, hi, u, d)
  {
  }

  lemma DollarUnitMoves(t: string, lo: nat, hi: nat, u: string, d: int, i: nat)
    requires Moved(t, lo, hi, u, d) && lo <= i < hi
    requires OpensDollar(t, i) ==>
               var e := TagEnd(t, i, i + 1).value;
               DollarEnd(t, e, t[i..e]).Some? && DollarEnd(t, e, t[i..e]).value <= hi
    ensures OpensDollar(u, i + d) == OpensDollar(t, i)
    ensures OpensDollar(t, i) ==>
              var e, f := TagEnd(t, i, i + 1).value, TagEnd(u, i + d, i + d + 1).value;
              DollarEnd(u, f, u[i + d..f]) == Some(DollarEnd(t, e, t[i..e]).value + d)
  {
    hide DollarEnd, TagEnd, Moved;
    SameChar(t, lo, hi, u, d, i);
    DollarOpensAlike(t, lo, hi, u, d, i);
    if OpensDollar(t, i) {
      var e := TagEnd(t, i, i + 1).value;
      assert u[i + d..e + d] == t[i..e];
      DollarMoves(t, lo, hi, u, d, e, t[i..e]);
    }
  }

  /** A statement that ends with a semicolon is cut there wherever it is placed. */
  lemma {:induction false} CutMoves(t: string, lo: nat, u: string, d: int, i: nat)
    requires lo <= i <= |t| && FirstCut(t, i).Cut? && Moved(t, lo, FirstCut(t, i).at + 1, u, d)
    ensures FirstCut(u, i + d) == Cut(FirstCut(t, i).at + d)
    decreases |t| - i
  {
    hide UnitEnd, Moved, LineEnd, Pair;
    var p := FirstCut(t, i).at;
    SameChar(t, lo, p + 1, u, d, i);
    if t[i] != ';' {
      var e := UnitEnd(t, i).value;
      LineUnit(t, i);
      CutMoves(t, lo, u, d, e);
      UnitMoves(t, lo, p + 1, u, d, i);
    }
  }

  lemma LineUnit(t: string, i: nat)
    requires i < |t|
    ensures Pair(t, i, '-', '-') ==> UnitEnd(t, i) == Some(LineEnd(t, i + 2))
    ensures Pair(t, i, '-', '-') && LineEnd(t, i + 2) < |t| ==>
              LineEnd(t, i + 2) > i + 2 && t[LineEnd(t, i + 2) - 1] == '\n'
  {
    hide LineEnd;
    if Pair(t, i, '-', '-') && LineEnd(t, i + 2) < |t| {
      LineStops(t, i + 2);
    }
  }

  // ----- units end with a visible character --------------------------------------------------

  lemma {:induction false} BlockEndsVisibly(t: string, j: nat, depth: nat)
    requires j <= |t| && depth > 0 && BlockEnd(t, j, depth).Some?
    ensures t[BlockEnd(t, j, depth).value - 1] == '/'
    decreases |t| - j
  {
    if Pair(t, j, '/', '*') {
      BlockEndsVisibly(t, j + 2, depth + 1);
    } else if Pair(t, j, '*', '/') {
      if depth > 1 {
        BlockEndsVisibly(t, j + 2, depth - 1);
      }
    } else {
      BlockEndsVisibly(t, j + 1, depth);
    }
  }

  lemma {:induction false} SingleEndsVisibly(t: string, j: nat, escapes: bool)
    requires j <= |t| && SingleEnd(t, j, escapes).Some?
    ensures t[SingleEnd(t, j, escapes).value - 1] == '\''
    decreases |t| - j
  {
    if escapes && t[j] == '\\' && j + 1 < |t| {
      SingleEndsVisibly(t, j + 2, escapes);
    } else if Pair(t, j, '\'', '\'') {
      SingleEndsVisibly(t, j + 2, escapes);
    } else if t[j] != '\'' {
      SingleEndsVisibly(t, j + 1, escapes);
    }
  }

  lemma {:induction false} DoubleEndsVisibly(t: string, j: nat)
    requires j <= |t| && DoubleEnd(t, j).Some?
    ensures t[DoubleEnd(t, j).value - 1] == '"'
    decreases |t| - j
  {
    if Pair(t, j, '"', '"') {
      DoubleEndsVisibly(t, j + 2);
    } else if t[j] != '"' {
      DoubleEndsVisibly(t, j + 1);
    }
  }

  lemma {:induction false} TagEndsVisibly(t: string, i: nat, m: nat)
    requires i < m <= |t| && TagEnd(t, i, m).Some?
    ensures t[TagEnd(t, i, m).value - 1] == '$'
    decreases |t| - m
  {
    if t[m] != '$' {
      TagEndsVisibly(t, i, m + 1);
    }
  }

  lemma {:induction false} DollarEndsVisibly(t: string, j: nat, tag: string)
    requires j <= |t| && tag != "" && tag[|tag| - 1] == '$' && DollarEnd(t, j, tag).Some?
    ensures t[DollarEnd(t, j, tag).value - 1] == '$'
    decreases |t| - j
  {
    if TagAt(t, j, tag) {
      assert t[j + |tag| - 1] == t[j..j + |tag|][|tag| - 1];
    } else {
      DollarEndsVisibly(t, j + 1, tag);
    }
  }

  lemma UnitEndsVisibly(t: string, i: nat)
    requires i < |t| && UnitEnd(t, i).Some? && !Pair(t, i, '-', '-')
    ensures UnitEnd(t, i).value == i + 1 || !Space(t[UnitEnd(t, i).value - 1])
  {
    hide BlockEnd, SingleEnd, DoubleEnd, DollarEnd, EscapePrefix, TagEnd;
    if Pair(t, i, '/', '*') {
      BlockEndsVisibly(t, i + 2, 1);
    } else if t[i] == '\'' {
      SingleEndsVisibly(t, i + 1, EscapePrefix(t, i));
    } else if t[i] == '"' {
      DoubleEndsVisibly(t, i + 1);
    } else if OpensDollar(t, i) {
      var e := TagEnd(t, i, i + 1).value;
      TagEndsVisibly(t, i, i + 1);
      assert t[i..e][|t[i..e]| - 1] == t[e - 1];
      DollarEndsVisibly(t, e, t[i..e]);
    }
  }

  lemma {:induction false} LineRuns(t: string, j: nat, k: nat)
    requires j <= |t| && j <= k < LineEnd(t, j) && (k < LineEnd(t, j) - 1 || t[LineEnd(t, j) - 1] != '\n')
    ensures t[k] != '\n'
    decreases |t| - j
  {
    if k > j {
      LineRuns(t, j + 1, k);
    }
  }

  lemma {:induction false} LineRunsOut(u: string, j: nat)
    requires j <= |u| && forall k | j <= k < |u| :: u[k] != '\n'
    ensures LineEnd(u, j) == |u|
    decreases |u| - j
  {
    if j < |u| {
      LineRunsOut(u, j + 1);
    }
  }

  /** A line comment that reaches the trimmed end of the text still reaches the end wherever it is placed. */
  lemma CommentMoves(t: string, lo: nat, hi: nat, u: string, d: int, i: nat)
    requires Moved(t, lo, hi, u, d) && lo <= i < hi && hi + d == |u| && Pair(t, i, '-', '-') && i + 2 <= hi
    requires LineEnd(t, i + 2) > hi || t[LineEnd(t, i + 2) - 1] != '\n'
    requires LineEnd(t, i + 2) >= hi
    ensures UnitEnd(u, i + d) == Some(|u|)
  {
    hide LineEnd;
    PairMoves(t, lo, hi, u, d, i, '-', '-');
    forall k | i + 2 + d <= k < |u| ensures u[k] != '\n' {
      LineRuns(t, i + 2, k - d);
      assert u[k] == t[k - d];
    }
    LineRunsOut(u, i + 2 + d);
  }

  /** The last statement, without a semicolon, still ends the text wherever it is placed last. */
  lemma {:induction false} EndMoves(t: string, lo: nat, hi: nat, u: string, d: int, i: nat)
    requires Moved(t, lo, hi, u, d) && lo <= i <= hi && hi + d == |u| && FirstCut(t, i) == End
    requires forall k | hi <= k < |t| :: Space(t[k])
    ensures FirstCut(u, i + d) == End
    decreases |t| - i
  {
    hide UnitEnd, Moved, LineEnd;
    if i < hi {
      SameChar(t, lo, hi, u, d, i);
      var e := UnitEnd(t, i).value;
      LineUnit(t, i);
      if !Pair(t, i, '-', '-') {
        UnitEndsVisibly(t, i);
        UnitMoves(t, lo, hi, u, d, i);
        EndMoves(t, lo, hi, u, d, e);
      } else if e <= hi && t[e - 1] == '\n' {
        NonEmptyLine(t, i, hi);
        UnitMoves(t, lo, hi, u, d, i);
        EndMoves(t, lo, hi, u, d, e);
      } else {
        CommentMoves(t, lo, hi, u, d, i);
      }
    }
  }

  lemma NonEmptyLine(t: string, i: nat, hi: nat)
    requires Pair(t, i, '-', '-') && t[LineEnd(t, i + 2) - 1] == '\n'
    ensures LineEnd(t, i + 2) > i + 2
  {
  }

  // ----- the round trip ----------------------------------------------------------------------

  function Joined(statements: seq<string>): string {
    if |statements| == 0 then ""
    else if |statements| == 1 then statements[0]
    else statements[0] + "\n" + Joined(statements[1..])
  }

  lemma SpaceUnit(t: string, i: nat)
    requires i < |t| && Space(t[i])
    ensures FirstCut(t, i) == FirstCut(t, i + 1)
  {
  }

  lemma {:induction false} SkipToLeftEdge(t: string, i: nat, j: nat)
    requires i <= j <= |t|
    ensures FirstCut(t, i) == FirstCut(t, LeftEdge(t, i, j))
    decreases j - i
  {
    hide FirstCut;
    if i < j && Space(t[i]) {
      SpaceUnit(t, i);
      SkipToLeftEdge(t, i + 1, j);
    }
  }

  lemma StatementsSkipSpace(t: string, i: nat)
    requires i < |t| && Space(t[i])
    ensures Statements(t, i) == Statements(t, i + 1)
  {
    hide FirstCut;
    SpaceUnit(t, i);
  }

  lemma ClearEdge(t: string, i: nat, j: nat)
    requires i <= j <= |t| && Clear(t, i)
    ensures Clear(t, LeftEdge(t, i, j))
  {
  }

  /** A visible slice at a is what trimming finds there. */
  lemma TrimmedVisible(u: string, a: nat, b: nat)
    requires a < b <= |u| && !Space(u[a]) && !Space(u[b - 1])
    ensures Trimmed(u, a, b) == [u[a..b]]
  {
  }

  lemma SliceWindow(t: string, lo: nat, hi: nat, u: string, a: nat)
    requires lo < hi <= |t| && a + (hi - lo) <= |u| && u[a..a + (hi - lo)] == t[lo..hi]
    ensures Window(t, lo, hi, u, a - lo) && u[a] == t[lo] && u[a + (hi - lo) - 1] == t[hi - 1]
  {
    var w := t[lo..hi];
    forall k | lo <= k < hi ensures u[k + (a - lo)] == t[k] {
      assert u[a..a + (hi - lo)][k - lo] == w[k - lo];
    }
  }

  lemma LastVisible(t: string, lo: nat, hi: nat, u: string, a: nat)
    requires lo < hi <= |t| && Clear(t, lo) && a <= |u| && Clear(u, a) && FirstCut(t, lo) == End
    requires !Space(t[lo]) && !Space(t[hi - 1]) && forall k | hi <= k < |t| :: Space(t[k])
    requires u[a..] == t[lo..hi]
    ensures Statements(u, a) == Some([t[lo..hi]])
  {
    hide FirstCut, Trimmed, Window;
    assert |u| == a + (hi - lo) && u[a..|u|] == u[a..];
    SliceWindow(t, lo, hi, u, a);
    EndMoves(t, lo, hi, u, a - lo, lo);
    TrimmedVisible(u, a, |u|);
  }

  lemma LastRejoins(t: string, i: nat, u: string, a: nat)
    requires i <= |t| && FirstCut(t, i) == End && Clear(t, i) && a <= |u| && Clear(u, a)
    requires u[a..] == Joined(Trimmed(t, i, |t|))
    ensures Statements(u, a) == Some(Trimmed(t, i, |t|))
  {
    hide FirstCut, Clear;
    var lo := LeftEdge(t, i, |t|);
    var hi := RightEdge(t, lo, |t|);
    SkipToLeftEdge(t, i, |t|);
    ClearEdge(t, i, |t|);
    if lo == hi {
      assert a == |u|;
      EndOfText(u);
      NothingLeft(u);
    } else {
      LastVisible(t, lo, hi, u, a);
    }
  }

  lemma EndOfText(u: string)
    ensures FirstCut(u, |u|) == End
  {
  }

  lemma CutVisible(t: string, lo: nat, p: nat, u: string, a: nat, b: nat)
    requires lo <= p < |t| && FirstCut(t, lo) == Cut(p) && Clear(t, lo) && a <= |u| && Clear(u, a) && !Space(t[lo])
    requires b == a + (p + 1 - lo) && b <= |u| && u[a..b] == t[lo..p + 1]
    ensures FirstCut(u, a) == Cut(b - 1) && Trimmed(u, a, b) == [u[a..b]]
  {
    hide FirstCut, Trimmed, Window, Clear;
    SliceWindow(t, lo, p + 1, u, a);
    assert t[p] == ';';
    assert Moved(t, lo, p + 1, u, a - lo);
    CutMoves(t, lo, u, a - lo, lo);
    TrimmedVisible(u, a, b);
  }

  /** The same statement, found again at a, ends with the same cut. */
  lemma CutRejoins(t: string, i: nat, u: string, a: nat, w: string)
    requires i <= |t| && FirstCut(t, i).Cut? && Clear(t, i) && a + |w| <= |u| && Clear(u, a)
    requires Trimmed(t, i, FirstCut(t, i).at + 1) == [w] && u[a..a + |w|] == w
    ensures |w| > 0 && FirstCut(u, a) == Cut(a + |w| - 1) && Trimmed(u, a, a + |w|) == [w]
  {
    hide FirstCut, Clear;
    var p := FirstCut(t, i).at;
    var lo := LeftEdge(t, i, p + 1);
    SkipToLeftEdge(t, i, p + 1);
    ClearEdge(t, i, p + 1);
    assert w == t[lo..p + 1];
    CutVisible(t, lo, p, u, a, a + |w|);
  }

  lemma VisibleCut(t: string, i: nat)
    requires i <= |t| && FirstCut(t, i).Cut?
    ensures |Trimmed(t, i, FirstCut(t, i).at + 1)| == 1 && Trimmed(t, i, FirstCut(t, i).at + 1)[0] != ""
  {
    hide FirstCut;
  }

  /** Statements found from i on are found again wherever their newline-joined text starts in the clear. */
  lemma {:induction false} Rejoins(t: string, i: nat, u: string, a: nat)
    requires i <= |t| && Clear(t, i) && Statements(t, i).Some? && a <= |u| && Clear(u, a)
    requires u[a..] == Joined(Statements(t, i).value)
    ensures Statements(u, a) == Statements(t, i)
    decreases |t| - i
  {
    hide FirstCut, Trimmed;
    match FirstCut(t, i)
    case End => LastRejoins(t, i, u, a);
    case Cut(p) =>
      VisibleCut(t, i);
      var w, rest := Trimmed(t, i, p + 1)[0], Statements(t, p + 1).value;
      var b := a + |w|;
      assert Statements(t, i).value == [w] + rest;
      assert ([w] + rest)[1..] == rest;
      assert u[a..b] == u[a..][..|w|] == w;
      CutRejoins(t, i, u, a, w);
      if rest == [] {
        assert b == |u|;
        EndOfText(u);
        NothingLeft(u);
        assert Statements(u, b) == Some(rest);
      } else {
        assert u[b] == u[a..][|w|] == '\n';
        assert u[b + 1..] == u[a..][|w| + 1..] == Joined(rest);
        Rejoins(t, p + 1, u, b + 1);
        StatementsSkipSpace(u, b);
      }
  }

  lemma NothingLeft(u: string)
    ensures Trimmed(u, |u|, |u|) == []
  {
  }

  /** Joining the statements of a file with newlines and splitting again returns the same statements. */
  lemma SplitJoinSplit(t: string)
    requires Statements(t, 0).Some?
    ensures Statements(Joined(Statements(t, 0).value), 0) == Statements(t, 0)
  {
    var u := Joined(Statements(t, 0).value);
    assert u[0..] == u;
    Rejoins(t, 0, u, 0);
  }
}
