/** The lexical units of a migration file and where its statements end, as a recursive reference. */
module Lexer {
  import opened Amounts

  predicate IdentifierChar(c: char) {
    'a' <= c <= 'z' || 'A' <= c <= 'Z' || '0' <= c <= '9' || c == '_' || c == '$' || c >= 128 as char
  }

  /** The ASCII white space that trimming removes. */
  predicate Space(c: char) {
    c == ' ' || c == '\t' || c == '\n' || c == 11 as char || c == 12 as char || c == '\r'
  }

  predicate Pair(t: string, i: nat, a: char, b: char) {
    i + 1 < |t| && t[i] == a && t[i + 1] == b
  }

  /** The tag read so far is t[i..m]; a tag is a dollar, a name that does not start with a digit, and a dollar. */
  function TagEnd(t: string, i: nat, m: nat): Option<nat>
    requires i < m <= |t|
    ensures TagEnd(t, i, m).Some? ==> m < TagEnd(t, i, m).value <= |t|
    decreases |t| - m
  {
    if m == |t| then None
    else if t[m] == '$' then Some(m + 1)
    else if TagChar(t[m], m > i + 1) then TagEnd(t, i, m + 1)
    else None
  }

  predicate TagChar(c: char, digits: bool) {
    'a' <= c <= 'z' || 'A' <= c <= 'Z' || ('0' <= c <= '9' && digits) || c == '_'
  }

  /** An opening quote preceded by E or U& as a whole word starts a string with backslash escapes. */
  predicate EscapePrefix(t: string, q: nat)
    requires q < |t|
  {
    || (q >= 1 && (t[q - 1] == 'e' || t[q - 1] == 'E') && (q == 1 || !IdentifierChar(t[q - 2])))
    || (q >= 2 && t[q - 1] == '&' && (t[q - 2] == 'u' || t[q - 2] == 'U') && (q == 2 || !IdentifierChar(t[q - 3])))
  }

  // ----- where each unit ends ------------------------------------------------------------

  function LineEnd(t: string, j: nat): nat
    requires j <= |t|
    ensures j <= LineEnd(t, j) <= |t|
    decreases |t| - j
  {
    if j == |t| then j else if t[j] == '\n' then j + 1 else LineEnd(t, j + 1)
  }

  function BlockEnd(t: string, j: nat, depth: nat): Option<nat>
    requires j <= |t| && depth > 0
    ensures BlockEnd(t, j, depth).Some? ==> j + 2 <= BlockEnd(t, j, depth).value <= |t|
    decreases |t| - j
  {
    if j == |t| then None
    else if Pair(t, j, '/', '*') then BlockEnd(t, j + 2, depth + 1)
    else if Pair(t, j, '*', '/') then (if depth == 1 then Some(j + 2) else BlockEnd(t, j + 2, depth - 1))
    else BlockEnd(t, j + 1, depth)
  }

  predicate TagAt(t: string, j: nat, tag: string) {
    j + |tag| <= |t| && t[j..j + |tag|] == tag
  }

  function DollarEnd(t: string, j: nat, tag: string): Option<nat>
    requires j <= |t| && tag != ""
    ensures DollarEnd(t, j, tag).Some? ==> j + |tag| <= DollarEnd(t, j, tag).value <= |t|
    decreases |t| - j
  {
    if j == |t| then None
    else if TagAt(t, j, tag) then Some(j + |tag|)
    else DollarEnd(t, j + 1, tag)
  }

  function SingleEnd(t: string, j: nat, escapes: bool): Option<nat>
    requires j <= |t|
    ensures SingleEnd(t, j, escapes).Some? ==> j < SingleEnd(t, j, escapes).value <= |t|
    decreases |t| - j
  {
    if j == |t| then None
    else if escapes && t[j] == '\\' && j + 1 < |t| then SingleEnd(t, j + 2, escapes)
    else if Pair(t, j, '\'', '\'') then SingleEnd(t, j + 2, escapes)
    else if t[j] == '\'' then Some(j + 1)
    else SingleEnd(t, j + 1, escapes)
  }

  function DoubleEnd(t: string, j: nat): Option<nat>
    requires j <= |t|
    ensures DoubleEnd(t, j).Some? ==> j < DoubleEnd(t, j).value <= |t|
    decreases |t| - j
  {
    if j == |t| then None
    else if Pair(t, j, '"', '"') then DoubleEnd(t, j + 2)
    else if t[j] == '"' then Some(j + 1)
    else DoubleEnd(t, j + 1)
  }

  /** The unit that starts at i at top level: a comment, a quotation, or one character; none when it never closes. */
  function UnitEnd(t: string, i: nat): Option<nat>
    requires i < |t|
    ensures UnitEnd(t, i).Some? ==> i < UnitEnd(t, i).value <= |t|
  {
    if Pair(t, i, '-', '-') then Some(LineEnd(t, i + 2))
    else if Pair(t, i, '/', '*') then BlockEnd(t, i + 2, 1)
    else if t[i] == '\'' then SingleEnd(t, i + 1, EscapePrefix(t, i))
    else if t[i] == '"' then DoubleEnd(t, i + 1)
    else if OpensDollar(t, i) then DollarEnd(t, TagEnd(t, i, i + 1).value, t[i..TagEnd(t, i, i + 1).value])
    else Some(i + 1)
  }

  predicate OpensDollar(t: string, i: nat)
    requires i < |t|
  {
    t[i] == '$' && (i == 0 || !IdentifierChar(t[i - 1])) && TagEnd(t, i, i + 1).Some?
  }

  datatype Scan = Cut(at: nat) | End | Open

  /** The first semicolon at top level from i on, or how the text ends without one. */
  function FirstCut(t: string, i: nat): Scan
    requires i <= |t|
    ensures FirstCut(t, i).Cut? ==> i <= FirstCut(t, i).at < |t| && t[FirstCut(t, i).at] == ';'
    decreases |t| - i
  {
    if i == |t| then End
    else if t[i] == ';' then Cut(i)
    else
      var e := UnitEnd(t, i);
      if e.None? then Open else FirstCut(t, e.value)
  }

  // ----- statements ----------------------------------------------------------------------

  function LeftEdge(t: string, i: nat, j: nat): nat
    requires i <= j <= |t|
    ensures i <= LeftEdge(t, i, j) <= j
    ensures forall k | i <= k < LeftEdge(t, i, j) :: Space(t[k])
    ensures LeftEdge(t, i, j) < j ==> !Space(t[LeftEdge(t, i, j)])
    decreases j - i
  {
    if i < j && Space(t[i]) then LeftEdge(t, i + 1, j) else i
  }

  function RightEdge(t: string, i: nat, j: nat): nat
    requires i <= j <= |t|
    ensures i <= RightEdge(t, i, j) <= j
    ensures forall k | RightEdge(t, i, j) <= k < j :: Space(t[k])
    ensures RightEdge(t, i, j) > i ==> !Space(t[RightEdge(t, i, j) - 1])
    decreases j - i
  {
    if i < j && Space(t[j - 1]) then RightEdge(t, i, j - 1) else j
  }

  /** The slice t[i..j] without surrounding white space, as a list that is empty when nothing is left. */
  function Trimmed(t: string, i: nat, j: nat): seq<string>
    requires i <= j <= |t|
  {
    var lo := LeftEdge(t, i, j);
    var hi := RightEdge(t, lo, j);
    if lo == hi then [] else [t[lo..hi]]
  }

  /** The statements of t from a top-level position i on; none when a construct stays open. */
  function Statements(t: string, i: nat): Option<seq<string>>
    requires i <= |t|
    decreases |t| - i
  {
    match FirstCut(t, i)
    case Open => None
    case End => Some(Trimmed(t, i, |t|))
    case Cut(p) =>
      var rest := Statements(t, p + 1);
      if rest.None? then None else Some(Trimmed(t, i, p + 1) + rest.value)
  }
}
