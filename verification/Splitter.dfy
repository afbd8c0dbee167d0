/** The flag-driven loop that splits a migration file, proved against the recursive lexer. */
module Splitter {
  import opened Amounts
  import opened Lexer

  /** What the loop remembers between characters. */
  datatype Flags = Flags(single: bool, escapes: bool, double: bool, line: bool, depth: nat, tag: string)

  const TOP := Flags(false, false, false, false, 0, "")

  /** At most one construct is open, and escapes belong to a single-quoted string. */
  predicate FlagsOk(f: Flags) {
    || f == TOP
    || f == TOP.(line := true)
    || (f.depth > 0 && f == TOP.(depth := f.depth))
    || (f.tag != "" && f == TOP.(tag := f.tag))
    || f == TOP.(single := true, escapes := f.escapes)
    || f == TOP.(double := true)
  }

  function After(t: string, e: Option<nat>): Scan
    requires e.Some? ==> e.value <= |t|
  {
    if e.None? then Open else FirstCut(t, e.value)
  }

  /** How the scan goes on from the middle of whatever the flags say is open. */
  function Resume(t: string, i: nat, f: Flags): Scan
    requires i <= |t| && FlagsOk(f)
  {
    if f.line then FirstCut(t, LineEnd(t, i))
    else if f.depth > 0 then After(t, BlockEnd(t, i, f.depth))
    else if f.tag != "" then After(t, DollarEnd(t, i, f.tag))
    else if f.single then After(t, SingleEnd(t, i, f.escapes))
    else if f.double then After(t, DoubleEnd(t, i))
    else FirstCut(t, i)
  }

  /** One turn of the loop at a character that is not a top-level semicolon. */
  function Turn(t: string, i: nat, f: Flags): (r: (nat, Flags))
    requires i < |t| && FlagsOk(f) && !(f == TOP && t[i] == ';')
    ensures i < r.0 <= |t| && FlagsOk(r.1)
  {
    if f.line then (i + 1, if t[i] == '\n' then TOP else f)
    else if f.depth > 0 then
      if Pair(t, i, '/', '*') then (i + 2, TOP.(depth := f.depth + 1))
      else if Pair(t, i, '*', '/') then (i + 2, TOP.(depth := f.depth - 1))
      else (i + 1, f)
    else if f.tag != "" then
      if TagAt(t, i, f.tag) then (i + |f.tag|, TOP) else (i + 1, f)
    else if f.single then
      if f.escapes && t[i] == '\\' && i + 1 < |t| then (i + 2, f)
      else if Pair(t, i, '\'', '\'') then (i + 2, f)
      else (i + 1, if t[i] == '\'' then TOP else f)
    else if f.double then
      if Pair(t, i, '"', '"') then (i + 2, f)
      else (i + 1, if t[i] == '"' then TOP else f)
    else if Pair(t, i, '-', '-') then (i + 2, TOP.(line := true))
    else if Pair(t, i, '/', '*') then (i + 2, TOP.(depth := 1))
    else if t[i] == '\'' then (i + 1, TOP.(single := true, escapes := EscapePrefix(t, i)))
    else if t[i] == '"' then (i + 1, TOP.(double := true))
    else if OpensDollar(t, i) then (TagEnd(t, i, i + 1).value, TOP.(tag := t[i..TagEnd(t, i, i + 1).value]))
    else (i + 1, TOP)
  }

  /** A turn inside an open construct, or one that opens a construct, does not change where the scan ends up. */
  lemma TurnResumes(t: string, i: nat, f: Flags)
    requires i < |t| && FlagsOk(f) && !(f == TOP && t[i] == ';')
    ensures var (j, g) := Turn(t, i, f); Resume(t, j, g) == Resume(t, i, f)
  {
    if f.line {
    } else if f.depth > 0 {
    } else if f.tag != "" {
    } else if f.single {
    } else if f.double {
    } else {
      assert f == TOP;
    }
  }

  /** At the end of the text the scan is open exactly when a construct other than a line comment is. */
  lemma EndResumes(t: string, f: Flags)
    requires FlagsOk(f)
    ensures Resume(t, |t|, f) == if f.single || f.double || f.depth != 0 || f.tag != "" then Open else End
  {
  }

  /** The statements still to come when the current one started at s and the scan ends as given. */
  function Remaining(t: string, s: nat, scan: Scan): Option<seq<string>>
    requires s <= |t| && (scan.Cut? ==> s <= scan.at < |t|)
  {
    match scan
    case Open => None
    case End => Some(Trimmed(t, s, |t|))
    case Cut(p) =>
      var rest := Statements(t, p + 1);
      if rest.None? then None else Some(Trimmed(t, s, p + 1) + rest.value)
  }

  function Prepend(before: seq<string>, rest: Option<seq<string>>): Option<seq<string>> {
    if rest.None? then None else Some(before + rest.value)
  }

  lemma ResumeAhead(t: string, i: nat, f: Flags)
    requires i <= |t| && FlagsOk(f)
    ensures Resume(t, i, f).Cut? ==> i <= Resume(t, i, f).at < |t|
  {
  }

  datatype SplitError = Unterminated | NoStatements

  datatype Statement = Statement(ordinal: nat, contents: string)

  function Numbered(contents: seq<string>): (r: seq<Statement>)
    ensures |r| == |contents| && forall k | 0 <= k < |r| :: r[k] == Statement(k + 1, contents[k])
  {
    seq(|contents|, k requires 0 <= k < |contents| => Statement(k + 1, contents[k]))
  }

  /** Appends the trimmed slice unless nothing is left of it. */
  method AppendStatement(result: seq<string>, t: string, i: nat, j: nat) returns (longer: seq<string>)
    requires i <= j <= |t|
    ensures longer == result + Trimmed(t, i, j)
  {
    var lo := i;
    while lo < j && Space(t[lo])
      invariant i <= lo <= j && LeftEdge(t, lo, j) == LeftEdge(t, i, j)
    {
      lo := lo + 1;
    }
    var hi := j;
    while hi > lo && Space(t[hi - 1])
      invariant lo <= hi <= j && RightEdge(t, lo, hi) == RightEdge(t, lo, j)
    {
      hi := hi - 1;
    }
    if lo == hi {
      return result;
    }
    longer := result + [t[lo..hi]];
  }

  lemma PrependNothing(rest: Option<seq<string>>)
    ensures Prepend([], rest) == rest
  {
    if rest.Some? {
      assert [] + rest.value == rest.value;
    }
  }

  /** Closing a statement at a cut moves its text from what remains to what is done. */
  lemma CutMoves(t: string, result: seq<string>, start: nat, p: nat)
    requires start <= p < |t|
    ensures Prepend(result, Remaining(t, start, Cut(p))) ==
            Prepend(result + Trimmed(t, start, p + 1), Statements(t, p + 1))
  {
    hide Trimmed;
    var rest := Statements(t, p + 1);
    if rest.Some? {
      assert result + (Trimmed(t, start, p + 1) + rest.value) == result + Trimmed(t, start, p + 1) + rest.value;
    }
  }

  lemma RemainingFresh(t: string, i: nat)
    requires i <= |t|
    ensures Statements(t, i) == Remaining(t, i, FirstCut(t, i))
  {
    hide FirstCut, Trimmed;
  }

  /** One pass over the characters with a few flags decides exactly what the recursive lexer decides. */
  method Split(t: string) returns (statements: seq<Statement>, error: Option<SplitError>)
    ensures error == Some(Unterminated) <==> Statements(t, 0).None?
    ensures error == Some(NoStatements) <==> Statements(t, 0) == Some([])
    ensures error.None? ==> Statements(t, 0).Some? && statements == Numbered(Statements(t, 0).value)
  {
    hide Statements, Resume, Remaining, Trimmed, Turn, FlagsOk, EscapePrefix, OpensDollar, TagEnd, Pair, TagAt;
    var result: seq<string> := [];
    var start, i := 0, 0;
    var inSingle, backslashEscapes, inDouble, lineComment, blockDepth, dollarTag := false, false, false, false, 0, "";
    ghost var f := TOP;
    StartSplit(t);
    ResumeAhead(t, 0, TOP);
    while i < |t|
      invariant 0 <= start <= i <= |t| && FlagsOk(f)
                && f == Flags(inSingle, backslashEscapes, inDouble, lineComment, blockDepth, dollarTag)
      invariant Resume(t, i, f).Cut? ==> start <= Resume(t, i, f).at < |t|
      invariant Statements(t, 0) == Prepend(result, Remaining(t, start, Resume(t, i, f)))
      decreases |t| - i
    {
      if !lineComment && blockDepth == 0 && dollarTag == "" && !inSingle && !inDouble && t[i] == ';' {
        OnlyTop(f);
        CutHere(t, i);
        CutMoves(t, result, start, i);
        ResumeAhead(t, i + 1, TOP);
        RemainingFresh(t, i + 1);
        TopResumes(t, i + 1);
        result := AppendStatement(result, t, start, i + 1);
        start := i + 1;
        i := i + 1;
      } else {
        TurnResumes(t, i, f);
        i, inSingle, backslashEscapes, inDouble, lineComment, blockDepth, dollarTag :=
          Advance(t, i, inSingle, backslashEscapes, inDouble, lineComment, blockDepth, dollarTag);
        f := Flags(inSingle, backslashEscapes, inDouble, lineComment, blockDepth, dollarTag);
      }
    }
    EndResumes(t, f);
    EndRemaining(t, start);
    if inSingle || inDouble || blockDepth != 0 || dollarTag != "" {
      return [], Some(Unterminated);
    }
    result := AppendStatement(result, t, start, |t|);
    if result == [] {
      return [], Some(NoStatements);
    }
    return Numbered(result), None;
  }

  /** The flags after one turn, by the branches of the loop. */
  method Advance(t: string, i: nat, inSingle: bool, backslashEscapes: bool, inDouble: bool, lineComment: bool,
                 blockDepth: nat, dollarTag: string)
    returns (next: nat, single: bool, escapes: bool, double: bool, line: bool, depth: nat, tag: string)
    requires i < |t|
    requires var f := Flags(inSingle, backslashEscapes, inDouble, lineComment, blockDepth, dollarTag);
             FlagsOk(f) && !(f == TOP && t[i] == ';')
    ensures (next, Flags(single, escapes, double, line, depth, tag)) ==
            Turn(t, i, Flags(inSingle, backslashEscapes, inDouble, lineComment, blockDepth, dollarTag))
  {
    hide EscapePrefix, TagEnd, Pair, TagAt;
    next, single, escapes, double, line, depth, tag := i + 1, inSingle, backslashEscapes, inDouble, lineComment,
    blockDepth, dollarTag;
    if lineComment {
      line := t[i] != '\n';
      return;
    }
    if blockDepth > 0 {
      if Pair(t, i, '/', '*') {
        next, depth := i + 2, blockDepth + 1;
      } else if Pair(t, i, '*', '/') {
        next, depth := i + 2, blockDepth - 1;
      }
      return;
    }
    if dollarTag != "" {
      if TagAt(t, i, dollarTag) {
        next, tag := i + |dollarTag|, "";
      }
      return;
    }
    if inSingle {
      if backslashEscapes && t[i] == '\\' && i + 1 < |t| {
        next := i + 2;
      } else if Pair(t, i, '\'', '\'') {
        next := i + 2;
      } else if t[i] == '\'' {
        single, escapes := false, false;
      }
      return;
    }
    if inDouble {
      if Pair(t, i, '"', '"') {
        next := i + 2;
      } else if t[i] == '"' {
        double := false;
      }
      return;
    }
    if Pair(t, i, '-', '-') {
      next, line := i + 2, true;
      return;
    }
    if Pair(t, i, '/', '*') {
      next, depth := i + 2, 1;
      return;
    }
    if t[i] == '\'' {
      single, escapes := true, EscapePrefix(t, i);
    } else if t[i] == '"' {
      double := true;
    } else if t[i] == '$' && (i == 0 || !IdentifierChar(t[i - 1])) {
      var found, end := ReadDollarTag(t, i);
      if found {
        next, tag := end, t[i..end];
      }
    }
  }

  /** Reads a dollar tag that starts at i, if one does. */
  method ReadDollarTag(t: string, i: nat) returns (found: bool, end: nat)
    requires i < |t| && t[i] == '$'
    ensures TagEnd(t, i, i + 1) == if found then Some(end) else None
  {
    end := i + 1;
    while end < |t|
      invariant i < end <= |t| && TagEnd(t, i, end) == TagEnd(t, i, i + 1)
    {
      if t[end] == '$' {
        return true, end + 1;
      }
      if !TagChar(t[end], end > i + 1) {
        return false, end;
      }
      end := end + 1;
    }
    found := false;
  }

  lemma StartSplit(t: string)
    ensures FlagsOk(TOP) && Statements(t, 0) == Prepend([], Remaining(t, 0, Resume(t, 0, TOP)))
  {
    hide Statements, Remaining, FirstCut;
    RemainingFresh(t, 0);
    PrependNothing(Statements(t, 0));
  }

  lemma OnlyTop(f: Flags)
    requires FlagsOk(f) && !f.line && f.depth == 0 && f.tag == "" && !f.single && !f.double
    ensures f == TOP
  {
  }

  lemma TopResumes(t: string, i: nat)
    requires i <= |t|
    ensures FlagsOk(TOP) && Resume(t, i, TOP) == FirstCut(t, i)
  {
  }

  lemma EndRemaining(t: string, start: nat)
    requires start <= |t|
    ensures Remaining(t, start, Open).None? && Remaining(t, start, End) == Some(Trimmed(t, start, |t|))
  {
    hide Trimmed;
  }

  lemma CutHere(t: string, i: nat)
    requires i < |t| && t[i] == ';'
    ensures Resume(t, i, TOP) == Cut(i)
  {
  }

  // ----- the cuts -----------------------------------------------------------------------

  /** Position p is reached from i by whole lexical units: it is at top level. */
  ghost predicate TopLevel(t: string, i: nat, p: nat)
    requires i <= |t|
    decreases |t| - i
  {
    || i == p
    || (i < p && i < |t| && UnitEnd(t, i).Some? && TopLevel(t, UnitEnd(t, i).value, p))
  }

  /** The positions after which the text is cut. */
  ghost function Cuts(t: string, i: nat): seq<nat>
    requires i <= |t|
    decreases |t| - i
  {
    match FirstCut(t, i)
    case Cut(p) => [p] + Cuts(t, p + 1)
    case _ => []
  }

  /** The slices between cuts, before trimming. */
  ghost function Pieces(t: string, i: nat): seq<string>
    requires i <= |t|
    decreases |t| - i
  {
    match FirstCut(t, i)
    case Cut(p) => [t[i..p + 1]] + Pieces(t, p + 1)
    case _ => [t[i..]]
  }

  ghost function Concat(pieces: seq<string>): string {
    if pieces == [] then "" else pieces[0] + Concat(pieces[1..])
  }

  /** The raw slices partition the file. */
  lemma {:induction false} PiecesPartition(t: string, i: nat)
    requires i <= |t|
    ensures Concat(Pieces(t, i)) == t[i..]
    decreases |t| - i
  {
    hide FirstCut;
    match FirstCut(t, i)
    case Cut(p) =>
      PiecesPartition(t, p + 1);
      assert Pieces(t, i)[1..] == Pieces(t, p + 1);
      assert t[i..p + 1] + t[p + 1..] == t[i..];
    case _ =>
      assert Pieces(t, i)[1..] == [];
      assert t[i..] + "" == t[i..];
  }

  /** Between i and its first cut there is no other semicolon at top level. */
  lemma {:induction false} FirstCutIsFirst(t: string, i: nat, p: nat)
    requires i <= |t| && p < |t| && t[p] == ';' && TopLevel(t, i, p)
    ensures FirstCut(t, i).Cut? && FirstCut(t, i).at <= p
    ensures FirstCut(t, i).at < p ==> TopLevel(t, FirstCut(t, i).at + 1, p)
    decreases |t| - i
  {
    hide UnitEnd;
    if i < p {
      SemicolonCloses(t, i);
      if t[i] != ';' {
        FirstCutIsFirst(t, UnitEnd(t, i).value, p);
      }
    }
  }

  lemma {:induction false} FirstCutIsTop(t: string, i: nat)
    requires i <= |t| && FirstCut(t, i).Cut?
    ensures TopLevel(t, i, FirstCut(t, i).at)
    decreases |t| - i
  {
    hide UnitEnd;
    if t[i] != ';' {
      FirstCutIsTop(t, UnitEnd(t, i).value);
    }
  }

  lemma {:induction false} TopLevelOn(t: string, i: nat, j: nat, p: nat)
    requires i <= j <= |t| && TopLevel(t, i, j) && TopLevel(t, j, p)
    ensures TopLevel(t, i, p)
    decreases |t| - i
  {
    hide UnitEnd;
    if i < j {
      UnitAdvances(t, j, p);
      TopLevelOn(t, UnitEnd(t, i).value, j, p);
    }
  }

  lemma UnitAdvances(t: string, j: nat, p: nat)
    requires j <= |t| && TopLevel(t, j, p)
    ensures j <= p
  {
    hide UnitEnd;
  }

  /** Every cut is a semicolon at top level, and every semicolon at top level is a cut. */
  lemma {:induction false} CutsAreTopLevelSemicolons(t: string, i: nat, p: nat)
    requires i <= |t|
    ensures p in Cuts(t, i) <==> p < |t| && t[p] == ';' && TopLevel(t, i, p)
    decreases |t| - i
  {
    hide FirstCut, TopLevel;
    if FirstCut(t, i).Cut? {
      var q := FirstCut(t, i).at;
      CutsAreTopLevelSemicolons(t, q + 1, p);
      FirstCutIsTop(t, i);
      NextUnit(t, q);
      if p < |t| && t[p] == ';' && TopLevel(t, i, p) {
        FirstCutIsFirst(t, i, p);
      }
      if p < |t| && TopLevel(t, q + 1, p) {
        TopLevelOn(t, q, q + 1, p);
        TopLevelOn(t, i, q, p);
      }
    } else if p < |t| && t[p] == ';' && TopLevel(t, i, p) {
      FirstCutIsFirst(t, i, p);
    }
  }

  lemma NextUnit(t: string, q: nat)
    requires q < |t| && t[q] == ';'
    ensures TopLevel(t, q, q + 1)
  {
  }

  /** The text stays open exactly when a unit that starts at top level never closes. */
  lemma {:induction false} OpenExactly(t: string, i: nat)
    requires i <= |t|
    ensures Statements(t, i).None? <==> exists p | 0 <= p < |t| :: TopLevel(t, i, p) && UnitEnd(t, p).None?
    decreases |t| - i
  {
    hide UnitEnd, Trimmed;
    if i < |t| {
      if UnitEnd(t, i).None? {
        SemicolonCloses(t, i);
        assert TopLevel(t, i, i) && UnitEnd(t, i).None?;
      } else {
        var e := UnitEnd(t, i).value;
        OpenExactly(t, e);
        OpenFrom(t, i, e);
        SemicolonCloses(t, i);
        assert Statements(t, i).None? <==> Statements(t, e).None?;
      }
    }
  }

  lemma SemicolonCloses(t: string, i: nat)
    requires i < |t|
    ensures t[i] == ';' ==> UnitEnd(t, i) == Some(i + 1)
  {
  }

  lemma OpenFrom(t: string, i: nat, e: nat)
    requires i < |t| && UnitEnd(t, i) == Some(e)
    ensures (exists p | 0 <= p < |t| :: TopLevel(t, i, p) && UnitEnd(t, p).None?) <==>
            (exists p | 0 <= p < |t| :: TopLevel(t, e, p) && UnitEnd(t, p).None?)
  {
    hide UnitEnd;
    if p :| 0 <= p < |t| && TopLevel(t, i, p) && UnitEnd(t, p).None? {
      assert TopLevel(t, e, p);
    }
    if p :| 0 <= p < |t| && TopLevel(t, e, p) && UnitEnd(t, p).None? {
      UnitAdvances(t, e, p);
      assert TopLevel(t, i, p);
    }
  }
}
