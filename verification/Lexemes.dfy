/** What a lexical unit is, said by printing it; the lexer reads exactly what can be printed. */
module Lexemes {
  import opened Amounts
  import opened Lexer
  import opened Splitter

  // ----- words --------------------------------------------------------------------------------------

  /** ASCII A to Z and a to z. */
  predicate Letter(c: char) {
    65 <= c as int <= 90 || 97 <= c as int <= 122
  }

  predicate Digit(c: char) {
    48 <= c as int <= 57
  }

  /** Letters, digits, underscore, dollar, and everything beyond ASCII. */
  predicate WordChar(c: char) {
    Letter(c) || Digit(c) || c == '_' || c == '$' || c as int >= 128
  }

  lemma WordCharIs(c: char)
    ensures IdentifierChar(c) <==> WordChar(c)
  {
  }

  /** The string s stands at position i. */
  predicate Reads(t: string, i: nat, s: string) {
    i + |s| <= |t| && t[i..i + |s|] == s
  }

  lemma ReadsBoth(t: string, i: nat, a: string, b: string)
    ensures Reads(t, i, a + b) <==> Reads(t, i, a) && Reads(t, i + |a|, b)
  {
    if Reads(t, i, a) && Reads(t, i + |a|, b) {
      assert t[i..i + |a + b|] == t[i..i + |a|] + t[i + |a|..i + |a| + |b|];
    }
    if Reads(t, i, a + b) {
      assert t[i..i + |a|] == (a + b)[..|a|];
      assert t[i + |a|..i + |a| + |b|] == (a + b)[|a|..];
    }
  }

  lemma ReadsChar(t: string, i: nat, c: char)
    ensures Reads(t, i, [c]) <==> i < |t| && t[i] == c
  {
    if i < |t| {
      assert t[i..i + 1] == [t[i]];
    }
  }

  lemma ReadsTwo(t: string, i: nat, a: char, b: char)
    ensures Reads(t, i, [a, b]) <==> Pair(t, i, a, b)
  {
    if i + 1 < |t| {
      assert t[i..i + 2] == [t[i], t[i + 1]];
    }
  }

  /** The word w ends right before position i, and is not the end of a longer one. */
  predicate WordBefore(t: string, i: nat, w: string) {
    |w| <= i <= |t| && t[i - |w|..i] == w && (i == |w| || !WordChar(t[i - |w| - 1]))
  }

  predicate EscapeWord(t: string, i: nat) {
    WordBefore(t, i, "E") || WordBefore(t, i, "e") || WordBefore(t, i, "U&") || WordBefore(t, i, "u&")
  }

  lemma EscapeWordIs(t: string, i: nat)
    requires i < |t|
    ensures EscapePrefix(t, i) <==> EscapeWord(t, i)
  {
    if i >= 1 {
      assert t[i - 1..i] == [t[i - 1]];
    }
    if i >= 2 {
      WordCharIs(t[i - 2]);
      assert t[i - 2..i] == [t[i - 2], t[i - 1]];
    }
    if i >= 3 {
      WordCharIs(t[i - 3]);
    }
  }

  // ----- quotations -----------------------------------------------------------------------------------

  /** One piece of a quotation: a doubled quote, a backslash and what it protects, or any other character. */
  predicate Piece(s: string, quote: char, escapes: bool) {
    || s == [quote, quote]
    || (escapes && |s| == 2 && s[0] == '\\')
    || (|s| == 1 && s[0] != quote && (escapes ==> s[0] != '\\'))
  }

  ghost predicate Pieced(pieces: seq<string>, quote: char, escapes: bool) {
    forall k | 0 <= k < |pieces| :: Piece(pieces[k], quote, escapes)
  }

  predicate NotNext(t: string, e: nat, c: char) {
    e >= |t| || t[e] != c
  }

  lemma {:induction false} SingleCloses(t: string, j: nat, pieces: seq<string>, escapes: bool)
    requires Pieced(pieces, '\'', escapes) && Reads(t, j, Concat(pieces) + "'")
    requires NotNext(t, j + |Concat(pieces)| + 1, '\'')
    ensures SingleEnd(t, j, escapes) == Some(j + |Concat(pieces)| + 1)
    decreases |pieces|
  {
    hide Reads;
    ReadsBoth(t, j, Concat(pieces), "'");
    ReadsChar(t, j + |Concat(pieces)|, '\'');
    if pieces != [] {
      var p := pieces[0];
      ReadsBoth(t, j, p, Concat(pieces[1..]));
      ReadsBoth(t, j + |p|, Concat(pieces[1..]), "'");
      FirstRead(t, j, p);
      SingleCloses(t, j + |p|, pieces[1..], escapes);
    }
  }

  lemma FirstRead(t: string, j: nat, p: string)
    requires Reads(t, j, p) && p != ""
    ensures j + |p| <= |t| && t[j] == p[0] && (|p| == 2 ==> t[j + 1] == p[1])
  {
    assert t[j..j + |p|][0] == t[j];
    if |p| == 2 {
      assert t[j..j + |p|][1] == t[j + 1];
    }
  }

  lemma {:induction false} SingleRead(t: string, j: nat, escapes: bool) returns (pieces: seq<string>)
    requires j <= |t| && SingleEnd(t, j, escapes).Some?
    ensures Pieced(pieces, '\'', escapes) && Reads(t, j, Concat(pieces) + "'")
    ensures SingleEnd(t, j, escapes).value == j + |Concat(pieces)| + 1
    ensures NotNext(t, j + |Concat(pieces)| + 1, '\'')
    decreases |t| - j
  {
    hide Reads;
    if !(escapes && t[j] == '\\') && t[j] == '\'' && !Pair(t, j, '\'', '\'') {
      pieces := [];
      ReadsChar(t, j, '\'');
      assert Concat([]) + "'" == "'";
    } else {
      var n := if (escapes && t[j] == '\\') || Pair(t, j, '\'', '\'') then 2 else 1;
      var rest := SingleRead(t, j + n, escapes);
      pieces := [t[j..j + n]] + rest;
      Prefixed(t, j, n, rest, "'");
    }
  }

  lemma Prefixed(t: string, j: nat, n: nat, rest: seq<string>, close: string)
    requires j + n <= |t| && Reads(t, j + n, Concat(rest) + close)
    ensures Concat([t[j..j + n]] + rest) == t[j..j + n] + Concat(rest)
    ensures Reads(t, j, Concat([t[j..j + n]] + rest) + close)
  {
    assert ([t[j..j + n]] + rest)[1..] == rest;
    ReadsBoth(t, j, t[j..j + n], Concat(rest) + close);
    assert t[j..j + n] + Concat(rest) + close == t[j..j + n] + (Concat(rest) + close);
  }

  lemma {:induction false} DoubleCloses(t: string, j: nat, pieces: seq<string>)
    requires Pieced(pieces, '"', false) && Reads(t, j, Concat(pieces) + "\"")
    requires NotNext(t, j + |Concat(pieces)| + 1, '"')
    ensures DoubleEnd(t, j) == Some(j + |Concat(pieces)| + 1)
    decreases |pieces|
  {
    hide Reads;
    ReadsBoth(t, j, Concat(pieces), "\"");
    ReadsChar(t, j + |Concat(pieces)|, '"');
    if pieces != [] {
      var p := pieces[0];
      ReadsBoth(t, j, p, Concat(pieces[1..]));
      ReadsBoth(t, j + |p|, Concat(pieces[1..]), "\"");
      FirstRead(t, j, p);
      DoubleCloses(t, j + |p|, pieces[1..]);
    }
  }

  lemma {:induction false} DoubleRead(t: string, j: nat) returns (pieces: seq<string>)
    requires j <= |t| && DoubleEnd(t, j).Some?
    ensures Pieced(pieces, '"', false) && Reads(t, j, Concat(pieces) + "\"")
    ensures DoubleEnd(t, j).value == j + |Concat(pieces)| + 1 && NotNext(t, j + |Concat(pieces)| + 1, '"')
    decreases |t| - j
  {
    hide Reads;
    if t[j] == '"' && !Pair(t, j, '"', '"') {
      pieces := [];
      ReadsChar(t, j, '"');
      assert Concat([]) + "\"" == "\"";
    } else {
      var n := if Pair(t, j, '"', '"') then 2 else 1;
      var rest := DoubleRead(t, j + n);
      pieces := [t[j..j + n]] + rest;
      Prefixed(t, j, n, rest, "\"");
    }
  }

  // ----- comments ----------------------------------------------------------------------------------------

  /** What is between the marks of a block comment: characters and whole comments. */
  datatype Comment = Nil | Text(c: char, rest: Comment) | Nested(inner: Comment, rest: Comment)

  function PrintComment(b: Comment): string {
    match b
    case Nil => ""
    case Text(c, rest) => [c] + PrintComment(rest)
    case Nested(inner, rest) => "/*" + PrintComment(inner) + "*/" + PrintComment(rest)
  }

  /** No two neighbouring characters are mistaken for a mark. */
  predicate Unmistaken(b: Comment) {
    match b
    case Nil => true
    case Text(c, rest) =>
      && Unmistaken(rest)
      && var next := (PrintComment(rest) + "*/")[0];
         !(c == '/' && next == '*') && !(c == '*' && next == '/')
    case Nested(inner, rest) => Unmistaken(inner) && Unmistaken(rest)
  }

  lemma ReadsNested(t: string, j: nat, inner: string, rest: string, close: string)
    ensures Reads(t, j, "/*" + inner + "*/" + rest + close) <==>
            && Reads(t, j, "/*") && Reads(t, j + 2, inner + "*/") && Reads(t, j + 2 + |inner| + 2, rest + close)
  {
    assert "/*" + inner + "*/" + rest + close == "/*" + ((inner + "*/") + (rest + close));
    ReadsBoth(t, j, "/*", (inner + "*/") + (rest + close));
    ReadsBoth(t, j + 2, inner + "*/", rest + close);
  }

  /** A well-printed body is skipped at any depth. */
  lemma {:induction false} BlockSkips(t: string, j: nat, b: Comment, depth: nat)
    requires Unmistaken(b) && Reads(t, j, PrintComment(b) + "*/") && depth > 0
    ensures BlockEnd(t, j, depth) == BlockEnd(t, j + |PrintComment(b)|, depth)
    decreases b
  {
    hide Reads;
    match b
    case Nil =>
    case Text(c, rest) =>
      var more := PrintComment(rest) + "*/";
      Assoc([c], PrintComment(rest), "*/");
      ReadsBoth(t, j, [c], more);
      ReadsChar(t, j, c);
      FirstRead(t, j + 1, more);
      BlockSkips(t, j + 1, rest, depth);
    case Nested(inner, rest) =>
      var p, r := PrintComment(inner), PrintComment(rest);
      ReadsNested(t, j, p, r, "*/");
      ReadsTwo(t, j, '/', '*');
      ReadsBoth(t, j + 2, p, "*/");
      ReadsTwo(t, j + 2 + |p|, '*', '/');
      BlockSkips(t, j + 2, inner, depth + 1);
      BlockSkips(t, j + 2 + |p| + 2, rest, depth);
  }

  lemma BlockCloses(t: string, j: nat, b: Comment)
    requires Unmistaken(b) && Reads(t, j, PrintComment(b) + "*/")
    ensures BlockEnd(t, j, 1) == Some(j + |PrintComment(b)| + 2)
  {
    BlockSkips(t, j, b, 1);
    ReadsBoth(t, j, PrintComment(b), "*/");
    ReadsTwo(t, j + |PrintComment(b)|, '*', '/');
  }

  lemma {:induction false} BlockRead(t: string, j: nat, depth: nat) returns (b: Comment)
    requires j <= |t| && depth > 0 && BlockEnd(t, j, depth).Some?
    ensures Unmistaken(b) && Reads(t, j, PrintComment(b) + "*/")
    ensures var m := j + |PrintComment(b)| + 2;
            if depth == 1 then BlockEnd(t, j, depth) == Some(m)
            else BlockEnd(t, m, depth - 1) == BlockEnd(t, j, depth)
    decreases |t| - j
  {
    hide Reads;
    if Pair(t, j, '/', '*') {
      var inner := BlockRead(t, j + 2, depth + 1);
      var m := j + 2 + |PrintComment(inner)| + 2;
      var rest := BlockRead(t, m, depth);
      b := Nested(inner, rest);
      ReadsTwo(t, j, '/', '*');
      ReadsNested(t, j, PrintComment(inner), PrintComment(rest), "*/");
    } else if Pair(t, j, '*', '/') {
      b := Nil;
      ReadsTwo(t, j, '*', '/');
      assert PrintComment(Nil) + "*/" == "*/";
    } else {
      var rest := BlockRead(t, j + 1, depth);
      b := Text(t[j], rest);
      var more := PrintComment(rest) + "*/";
      ReadsChar(t, j, t[j]);
      ReadsBoth(t, j, [t[j]], more);
      Assoc([t[j]], PrintComment(rest), "*/");
      FirstRead(t, j + 1, more);
    }
  }

  lemma {:induction false} LineCloses(t: string, j: nat, w: string)
    requires Reads(t, j, w) && '\n' !in w && (j + |w| == |t| || t[j + |w|] == '\n')
    ensures LineEnd(t, j) == if j + |w| == |t| then |t| else j + |w| + 1
    decreases |w|
  {
    if w != "" {
      FirstRead(t, j, w);
      ReadsBoth(t, j, [w[0]], w[1..]);
      assert w == [w[0]] + w[1..];
      LineCloses(t, j + 1, w[1..]);
    }
  }

  lemma {:induction false} LineRead(t: string, j: nat) returns (w: string)
    requires j <= |t|
    ensures Reads(t, j, w) && '\n' !in w && (j + |w| == |t| || t[j + |w|] == '\n')
    ensures LineEnd(t, j) == if j + |w| == |t| then |t| else j + |w| + 1
    decreases |t| - j
  {
    if j == |t| || t[j] == '\n' {
      w := "";
    } else {
      var rest := LineRead(t, j + 1);
      w := [t[j]] + rest;
      ReadsChar(t, j, t[j]);
      ReadsBoth(t, j, [t[j]], rest);
    }
  }

  // ----- dollar quotes --------------------------------------------------------------------------------------

  /** A name between the dollars of a tag: word characters without a dollar, and no digit first. */
  predicate TagName(name: string) {
    (forall c | c in name :: Letter(c) || Digit(c) || c == '_') && (name != "" ==> !Digit(name[0]))
  }

  function Tag(name: string): string {
    "$" + name + "$"
  }

  lemma TagCharIs(c: char, digits: bool)
    ensures TagChar(c, digits) <==> Letter(c) || (Digit(c) && digits) || c == '_'
  {
  }

  lemma {:induction false} TagCloses(t: string, i: nat, m: nat, name: string)
    requires i < m <= |t| && Reads(t, m, name + "$") && (m == i + 1 ==> TagName(name))
    requires forall c | c in name :: Letter(c) || Digit(c) || c == '_'
    ensures TagEnd(t, i, m) == Some(m + |name| + 1)
    decreases |name|
  {
    if name == "" {
      ReadsChar(t, m, '$');
      assert name + "$" == "$";
    } else {
      assert name + "$" == [name[0]] + (name[1..] + "$");
      ReadsBoth(t, m, [name[0]], name[1..] + "$");
      ReadsChar(t, m, name[0]);
      TagCharIs(name[0], m > i + 1);
      assert name[0] in name;
      assert name[0] != '$' by { NoDollar(name[0]); }
      TagCloses(t, i, m + 1, name[1..]);
    }
  }

  lemma NoDollar(c: char)
    requires Letter(c) || Digit(c) || c == '_'
    ensures c != '$'
  {
  }

  lemma {:induction false} TagRead(t: string, i: nat, m: nat) returns (name: string)
    requires i < m <= |t| && TagEnd(t, i, m).Some?
    ensures Reads(t, m, name + "$") && TagEnd(t, i, m) == Some(m + |name| + 1) && (m == i + 1 ==> TagName(name))
    ensures forall c | c in name :: Letter(c) || Digit(c) || c == '_'
    decreases |t| - m
  {
    ReadsChar(t, m, t[m]);
    if t[m] == '$' {
      name := "";
      assert name + "$" == "$";
    } else {
      TagCharIs(t[m], m > i + 1);
      var rest := TagRead(t, i, m + 1);
      name := [t[m]] + rest;
      ReadsBoth(t, m, [t[m]], rest + "$");
      assert name + "$" == [t[m]] + (rest + "$");
    }
  }

  /** A tag starts at i, whatever its name. */
  ghost predicate StartsTag(t: string, i: nat) {
    exists name :: TagName(name) && Reads(t, i, Tag(name))
  }

  lemma TagLength(name: string)
    ensures |Tag(name)| == |name| + 2
  {
  }

  lemma TagAfterDollar(t: string, i: nat, name: string)
    ensures Reads(t, i, Tag(name)) <==> i < |t| && t[i] == '$' && Reads(t, i + 1, name + "$")
  {
    assert Tag(name) == "$" + (name + "$");
    ReadsBoth(t, i, "$", name + "$");
    ReadsChar(t, i, '$');
  }

  lemma TagIs(t: string, i: nat)
    requires i < |t| && t[i] == '$'
    ensures TagEnd(t, i, i + 1).Some? <==> StartsTag(t, i)
  {
    if TagEnd(t, i, i + 1).Some? {
      var name := TagRead(t, i, i + 1);
      TagAfterDollar(t, i, name);
      assert TagName(name) && Reads(t, i, Tag(name));
    }
    if StartsTag(t, i) {
      var name :| TagName(name) && Reads(t, i, Tag(name));
      TagAfterDollar(t, i, name);
      TagCloses(t, i, i + 1, name);
    }
  }

  /** The tag does not stand anywhere before the end of the body, not even half in it. */
  ghost predicate FirstTag(body: string, tag: string) {
    forall k | 0 <= k < |body| :: !Reads(body + tag, k, tag)
  }

  lemma {:induction false} DollarCloses(t: string, j: nat, body: string, tag: string)
    requires tag != "" && Reads(t, j, body + tag) && FirstTag(body, tag)
    ensures DollarEnd(t, j, tag) == Some(j + |body| + |tag|)
    decreases |body|
  {
    if body == "" {
      assert body + tag == tag;
    } else {
      assert body + tag == [body[0]] + (body[1..] + tag);
      ReadsBoth(t, j, [body[0]], body[1..] + tag);
      if TagAt(t, j, tag) {
        TagInside(t, j, body, tag);
      }
      forall k | 0 <= k < |body[1..]| ensures !Reads(body[1..] + tag, k, tag) {
        assert !Reads(body + tag, k + 1, tag);
        if k + |tag| <= |body[1..] + tag| {
          assert (body[1..] + tag)[k..k + |tag|] == (body + tag)[k + 1..k + 1 + |tag|];
        }
      }
      DollarCloses(t, j + 1, body[1..], tag);
    }
  }

  lemma TagInside(t: string, j: nat, body: string, tag: string)
    requires Reads(t, j, body + tag) && TagAt(t, j, tag)
    ensures Reads(body + tag, 0, tag)
  {
    assert (body + tag)[..|tag|] == t[j..j + |body + tag|][..|tag|] == t[j..j + |tag|];
  }

  lemma ReadsShort(t: string, j: nat, s: string, tag: string)
    requires Reads(t, j, s)
    ensures Reads(s, 0, tag) ==> TagAt(t, j, tag)
  {
    if Reads(s, 0, tag) {
      assert t[j..j + |tag|] == t[j..j + |s|][..|tag|] == s[..|tag|];
    }
  }

  lemma {:induction false} DollarRead(t: string, j: nat, tag: string) returns (body: string)
    requires j <= |t| && tag != "" && DollarEnd(t, j, tag).Some?
    ensures Reads(t, j, body + tag) && FirstTag(body, tag) && DollarEnd(t, j, tag) == Some(j + |body| + |tag|)
    decreases |t| - j
  {
    if TagAt(t, j, tag) {
      body := "";
      assert body + tag == tag;
    } else {
      var rest := DollarRead(t, j + 1, tag);
      body := [t[j]] + rest;
      ReadsChar(t, j, t[j]);
      ReadsBoth(t, j, [t[j]], rest + tag);
      assert body + tag == [t[j]] + (rest + tag);
      forall k | 0 <= k < |body| ensures !Reads(body + tag, k, tag) {
        if k == 0 {
          ReadsShort(t, j, body + tag, tag);
        } else {
          assert !Reads(rest + tag, k - 1, tag);
          if k + |tag| <= |body + tag| {
            assert (body + tag)[k..k + |tag|] == (rest + tag)[k - 1..k - 1 + |tag|];
          }
        }
      }
    }
  }

  // ----- units ---------------------------------------------------------------------------------------------------

  datatype Token =
    | Remark(text: string)
    | Block(comment: Comment)
    | Quotation(pieces: seq<string>)
    | Name(pieces: seq<string>)
    | DollarQuote(name: string, body: string)
    | Plain(c: char)

  /** What a unit looks like in a text; a remark may also end with the text. */
  ghost function Print(k: Token): string {
    match k
    case Remark(text) => "--" + text
    case Block(body) => "/*" + PrintComment(body) + "*/"
    case Quotation(pieces) => "'" + Concat(pieces) + "'"
    case Name(pieces) => "\"" + Concat(pieces) + "\""
    case DollarQuote(name, body) => Tag(name) + body + Tag(name)
    case Plain(c) => [c]
  }

  /** A dollar quote may start here: the dollar does not continue a word. */
  predicate FreshWord(t: string, i: nat) {
    i == 0 || (i <= |t| && !WordChar(t[i - 1]))
  }

  /** Something other than a single character starts at i. */
  ghost predicate Opens(t: string, i: nat) {
    Reads(t, i, "--") || Reads(t, i, "/*") || Reads(t, i, "'") || Reads(t, i, "\"")
    || (FreshWord(t, i) && StartsTag(t, i))
  }

  /** The token is well printed and stands at i, and what is around it does not change how it is read. */
  ghost predicate Stands(t: string, i: nat, k: Token) {
    && Reads(t, i, Print(k))
    && var e := i + |Print(k)|;
       match k
       case Remark(text) => '\n' !in text && (e == |t| || t[e] == '\n')
       case Block(body) => Unmistaken(body)
       case Quotation(pieces) => Pieced(pieces, '\'', EscapeWord(t, i)) && NotNext(t, e, '\'')
       case Name(pieces) => Pieced(pieces, '"', false) && NotNext(t, e, '"')
       case DollarQuote(name, body) => TagName(name) && FreshWord(t, i) && FirstTag(body, Tag(name))
       case Plain(c) => !Opens(t, i)
  }

  /** Where a token ends: a remark takes its line break with it. */
  ghost function EndOf(t: string, i: nat, k: Token): nat {
    i + |Print(k)| + if k.Remark? && i + |Print(k)| < |t| then 1 else 0
  }

  lemma OpensIs(t: string, i: nat)
    requires i < |t|
    ensures Reads(t, i, "--") <==> Pair(t, i, '-', '-')
    ensures Reads(t, i, "/*") <==> Pair(t, i, '/', '*')
    ensures Reads(t, i, "'") <==> t[i] == '\''
    ensures Reads(t, i, "\"") <==> t[i] == '"'
    ensures FreshWord(t, i) && StartsTag(t, i) <==> OpensDollar(t, i)
  {
    hide TagEnd, TagName;
    ReadsTwo(t, i, '-', '-');
    ReadsTwo(t, i, '/', '*');
    ReadsChar(t, i, '\'');
    ReadsChar(t, i, '"');
    if i > 0 {
      WordCharIs(t[i - 1]);
    }
    if t[i] == '$' {
      TagIs(t, i);
    } else if StartsTag(t, i) {
      var name :| TagName(name) && Reads(t, i, Tag(name));
      TagAfterDollar(t, i, name);
    }
  }

  /** Which reader takes over at i. */
  lemma UnitCases(t: string, i: nat)
    requires i < |t|
    ensures Pair(t, i, '-', '-') ==> UnitEnd(t, i) == Some(LineEnd(t, i + 2))
    ensures Pair(t, i, '/', '*') ==> UnitEnd(t, i) == BlockEnd(t, i + 2, 1)
    ensures t[i] == '\'' ==> UnitEnd(t, i) == SingleEnd(t, i + 1, EscapePrefix(t, i))
    ensures t[i] == '"' ==> UnitEnd(t, i) == DoubleEnd(t, i + 1)
    ensures OpensDollar(t, i) ==>
              t[i] == '$' && TagEnd(t, i, i + 1).Some?
              && var m := TagEnd(t, i, i + 1).value; UnitEnd(t, i) == DollarEnd(t, m, t[i..m])
    ensures !Pair(t, i, '-', '-') && !Pair(t, i, '/', '*') && t[i] != '\'' && t[i] != '"' && !OpensDollar(t, i) ==>
              UnitEnd(t, i) == Some(i + 1)
  {
    hide LineEnd, BlockEnd, SingleEnd, DoubleEnd, DollarEnd, EscapePrefix;
  }

  lemma RemarkPrinted(t: string, i: nat, text: string)
    requires i < |t| && Stands(t, i, Remark(text))
    ensures UnitEnd(t, i) == Some(EndOf(t, i, Remark(text)))
  {
    hide UnitEnd, LineEnd, Opens, Reads, EscapeWord, OpensDollar, StartsTag;
    OpensIs(t, i);
    UnitCases(t, i);
    ReadsBoth(t, i, "--", text);
    LineCloses(t, i + 2, text);
    Within(t, i, "--" + text);
  }

  lemma Within(t: string, i: nat, s: string)
    requires Reads(t, i, s)
    ensures i + |s| <= |t| && t[i..i + |s|] == s
  {
  }

  lemma Assoc(a: string, b: string, c: string)
    ensures a + b + c == a + (b + c)
  {
  }

  lemma BlockPrinted(t: string, i: nat, b: Comment)
    requires i < |t| && Stands(t, i, Block(b))
    ensures UnitEnd(t, i) == Some(i + |Print(Block(b))|)
  {
    hide UnitEnd, BlockEnd, Opens, Reads, EscapeWord, OpensDollar, StartsTag, Unmistaken;
    OpensIs(t, i);
    UnitCases(t, i);
    Assoc("/*", PrintComment(b), "*/");
    ReadsBoth(t, i, "/*", PrintComment(b) + "*/");
    BlockCloses(t, i + 2, b);
  }

  lemma QuotationPrinted(t: string, i: nat, pieces: seq<string>)
    requires i < |t| && Stands(t, i, Quotation(pieces))
    ensures UnitEnd(t, i) == Some(i + |Print(Quotation(pieces))|)
  {
    hide UnitEnd, SingleEnd, Opens, Reads, EscapeWord, EscapePrefix, OpensDollar, StartsTag, Pieced, Concat;
    OpensIs(t, i);
    UnitCases(t, i);
    Assoc("'", Concat(pieces), "'");
    ReadsBoth(t, i, "'", Concat(pieces) + "'");
    EscapeWordIs(t, i);
    SingleCloses(t, i + 1, pieces, EscapeWord(t, i));
  }

  lemma NamePrinted(t: string, i: nat, pieces: seq<string>)
    requires i < |t| && Stands(t, i, Name(pieces))
    ensures UnitEnd(t, i) == Some(i + |Print(Name(pieces))|)
  {
    hide UnitEnd, DoubleEnd, Opens, Reads, EscapeWord, OpensDollar, StartsTag, Pieced, Concat;
    OpensIs(t, i);
    UnitCases(t, i);
    Assoc("\"", Concat(pieces), "\"");
    ReadsBoth(t, i, "\"", Concat(pieces) + "\"");
    DoubleCloses(t, i + 1, pieces);
  }

  lemma DollarPrinted(t: string, i: nat, name: string, body: string)
    requires i < |t| && Stands(t, i, DollarQuote(name, body))
    ensures UnitEnd(t, i) == Some(i + |Print(DollarQuote(name, body))|)
  {
    hide UnitEnd, DollarEnd, TagEnd, Opens, EscapeWord, OpensDollar, TagName, FirstTag, FreshWord, StartsTag, Reads,
         Tag;
    var tag := Tag(name);
    Assoc(tag, body, tag);
    ReadsBoth(t, i, tag, body + tag);
    TagAfterDollar(t, i, name);
    TagLength(name);
    TagStarts(t, i, name);
    Within(t, i, tag);
    OpensIs(t, i);
    UnitCases(t, i);
    NamedTag(t, i, name);
    DollarCloses(t, i + |tag|, body, tag);
  }

  lemma TagStarts(t: string, i: nat, name: string)
    requires TagName(name) && Reads(t, i, Tag(name))
    ensures StartsTag(t, i)
  {
  }

  lemma PlainPrinted(t: string, i: nat, c: char)
    requires i < |t| && Stands(t, i, Plain(c))
    ensures UnitEnd(t, i) == Some(i + 1)
  {
    hide UnitEnd, Reads, EscapeWord, OpensDollar, StartsTag, FreshWord;
    OpensIs(t, i);
    UnitCases(t, i);
  }

  /** Whatever is printed is read as one unit. */
  lemma PrintedIsRead(t: string, i: nat, k: Token)
    requires i < |t| && Stands(t, i, k)
    ensures UnitEnd(t, i) == Some(EndOf(t, i, k))
  {
    hide UnitEnd, Stands, Concat, PrintComment;
    match k {
      case Remark(text) => RemarkPrinted(t, i, text);
      case Block(comment) => BlockPrinted(t, i, comment);
      case Quotation(pieces) => QuotationPrinted(t, i, pieces);
      case Name(pieces) => NamePrinted(t, i, pieces);
      case DollarQuote(name, body) => DollarPrinted(t, i, name, body);
      case Plain(c) => PlainPrinted(t, i, c);
    }
  }

  lemma NamedTag(t: string, i: nat, name: string)
    requires i < |t| && TagName(name) && Reads(t, i + 1, name + "$")
    ensures TagEnd(t, i, i + 1) == Some(i + |Tag(name)|)
  {
    TagCloses(t, i, i + 1, name);
  }

  lemma RemarkRead(t: string, i: nat) returns (k: Token)
    requires i < |t| && Pair(t, i, '-', '-')
    ensures Stands(t, i, k) && UnitEnd(t, i) == Some(EndOf(t, i, k))
  {
    hide UnitEnd, LineEnd, Opens, Reads, EscapeWord, OpensDollar, StartsTag;
    OpensIs(t, i);
    UnitCases(t, i);
    var w := LineRead(t, i + 2);
    k := Remark(w);
    ReadsBoth(t, i, "--", w);
    Within(t, i + 2, w);
  }

  lemma CommentRead(t: string, i: nat) returns (k: Token)
    requires i < |t| && Pair(t, i, '/', '*') && UnitEnd(t, i).Some?
    ensures Stands(t, i, k) && UnitEnd(t, i) == Some(EndOf(t, i, k))
  {
    hide UnitEnd, BlockEnd, Opens, Reads, EscapeWord, OpensDollar, StartsTag, Unmistaken;
    OpensIs(t, i);
    UnitCases(t, i);
    var b := BlockRead(t, i + 2, 1);
    k := Block(b);
    Assoc("/*", PrintComment(b), "*/");
    ReadsBoth(t, i, "/*", PrintComment(b) + "*/");
  }

  lemma QuotationRead(t: string, i: nat) returns (k: Token)
    requires i < |t| && t[i] == '\'' && UnitEnd(t, i).Some?
    ensures Stands(t, i, k) && UnitEnd(t, i) == Some(EndOf(t, i, k))
  {
    hide UnitEnd, SingleEnd, Opens, Reads, EscapeWord, EscapePrefix, OpensDollar, StartsTag, Pieced, Concat;
    OpensIs(t, i);
    UnitCases(t, i);
    EscapeWordIs(t, i);
    var pieces := SingleRead(t, i + 1, EscapePrefix(t, i));
    k := Quotation(pieces);
    Assoc("'", Concat(pieces), "'");
    ReadsBoth(t, i, "'", Concat(pieces) + "'");
  }

  lemma NameRead(t: string, i: nat) returns (k: Token)
    requires i < |t| && t[i] == '"' && UnitEnd(t, i).Some?
    ensures Stands(t, i, k) && UnitEnd(t, i) == Some(EndOf(t, i, k))
  {
    hide UnitEnd, DoubleEnd, Opens, Reads, EscapeWord, OpensDollar, StartsTag, Pieced, Concat;
    OpensIs(t, i);
    UnitCases(t, i);
    var pieces := DoubleRead(t, i + 1);
    k := Name(pieces);
    Assoc("\"", Concat(pieces), "\"");
    ReadsBoth(t, i, "\"", Concat(pieces) + "\"");
  }

  lemma DollarQuoteRead(t: string, i: nat) returns (k: Token)
    requires i < |t| && OpensDollar(t, i) && UnitEnd(t, i).Some?
    ensures Stands(t, i, k) && UnitEnd(t, i) == Some(EndOf(t, i, k))
  {
    hide UnitEnd, DollarEnd, TagEnd, Opens, EscapeWord, OpensDollar, TagName, FirstTag, FreshWord, StartsTag, Reads,
         Tag;
    OpensIs(t, i);
    UnitCases(t, i);
    var name := TagRead(t, i, i + 1);
    var tag := Tag(name);
    TagAfterDollar(t, i, name);
    TagLength(name);
    Within(t, i, tag);
    var body := DollarRead(t, i + |tag|, tag);
    k := DollarQuote(name, body);
    Assoc(tag, body, tag);
    ReadsBoth(t, i, tag, body + tag);
  }

  /** Whatever is read as one unit is printed by some token. */
  lemma ReadIsPrinted(t: string, i: nat) returns (k: Token)
    requires i < |t| && UnitEnd(t, i).Some?
    ensures Stands(t, i, k) && UnitEnd(t, i) == Some(EndOf(t, i, k))
  {
    hide UnitEnd, OpensDollar, Concat, PrintComment;
    if Pair(t, i, '-', '-') {
      k := RemarkRead(t, i);
    } else if Pair(t, i, '/', '*') {
      k := CommentRead(t, i);
    } else if t[i] == '\'' {
      k := QuotationRead(t, i);
    } else if t[i] == '"' {
      k := NameRead(t, i);
    } else if OpensDollar(t, i) {
      k := DollarQuoteRead(t, i);
    } else {
      k := PlainRead(t, i);
    }
  }

  lemma PlainRead(t: string, i: nat) returns (k: Token)
    requires i < |t| && !Pair(t, i, '-', '-') && !Pair(t, i, '/', '*') && t[i] != '\'' && t[i] != '"'
             && !OpensDollar(t, i)
    ensures Stands(t, i, k) && UnitEnd(t, i) == Some(EndOf(t, i, k))
  {
    hide UnitEnd, Reads, EscapeWord, OpensDollar, StartsTag, FreshWord;
    OpensIs(t, i);
    UnitCases(t, i);
    k := Plain(t[i]);
    ReadsChar(t, i, t[i]);
  }

  /** The lexer reads exactly what can be printed: the unit at i ends at e if and only if some token stands there. */
  lemma UnitsAreTokens(t: string, i: nat, e: nat)
    requires i < |t|
    ensures UnitEnd(t, i) == Some(e) <==> exists k :: Stands(t, i, k) && EndOf(t, i, k) == e
  {
    hide UnitEnd, Stands, EndOf;
    if UnitEnd(t, i) == Some(e) {
      var k := ReadIsPrinted(t, i);
      assert Stands(t, i, k) && EndOf(t, i, k) == e;
    }
    if k :| Stands(t, i, k) && EndOf(t, i, k) == e {
      PrintedIsRead(t, i, k);
    }
  }

  // ----- every content can be quoted -------------------------------------------------------------

  /** The content with each quote doubled. */
  function Doubled(w: string, quote: char): string {
    if w == "" then "" else (if w[0] == quote then [quote, quote] else [w[0]]) + Doubled(w[1..], quote)
  }

  /** The content with a backslash before each quote and each backslash. */
  function Escaped(w: string): string {
    if w == "" then "" else (if w[0] == '\'' || w[0] == '\\' then ['\\', w[0]] else [w[0]]) + Escaped(w[1..])
  }

  lemma {:induction false} DoubledPieces(w: string, quote: char) returns (pieces: seq<string>)
    ensures Pieced(pieces, quote, false) && Concat(pieces) == Doubled(w, quote)
    decreases |w|
  {
    if w == "" {
      pieces := [];
    } else {
      var rest := DoubledPieces(w[1..], quote);
      pieces := [if w[0] == quote then [quote, quote] else [w[0]]] + rest;
      assert pieces[1..] == rest;
    }
  }

  lemma {:induction false} EscapedPieces(w: string) returns (pieces: seq<string>)
    ensures Pieced(pieces, '\'', true) && Concat(pieces) == Escaped(w)
    decreases |w|
  {
    if w == "" {
      pieces := [];
    } else {
      var rest := EscapedPieces(w[1..]);
      pieces := [if w[0] == '\'' || w[0] == '\\' then ['\\', w[0]] else [w[0]]] + rest;
      assert pieces[1..] == rest;
    }
  }

  /** Any content, quoted in the way its place asks for, is one unit there. */
  lemma QuotedIsOneUnit(t: string, i: nat, w: string)
    requires var s := "'" + (if EscapeWord(t, i) then Escaped(w) else Doubled(w, '\'')) + "'";
             Reads(t, i, s) && NotNext(t, i + |s|, '\'')
    ensures var s := "'" + (if EscapeWord(t, i) then Escaped(w) else Doubled(w, '\'')) + "'";
            i < |t| && UnitEnd(t, i) == Some(i + |s|)
  {
    hide UnitEnd, EscapeWord, Pieced, Doubled, Escaped, Opens, Concat, TagName, FirstTag, Unmistaken, Reads;
    Within(t, i, "'" + (if EscapeWord(t, i) then Escaped(w) else Doubled(w, '\'')) + "'");
    var pieces;
    if EscapeWord(t, i) {
      pieces := EscapedPieces(w);
    } else {
      pieces := DoubledPieces(w, '\'');
    }
    PrintedIsRead(t, i, Quotation(pieces));
  }

  lemma NameIsOneUnit(t: string, i: nat, w: string)
    requires Reads(t, i, "\"" + Doubled(w, '"') + "\"") && NotNext(t, i + |Doubled(w, '"')| + 2, '"')
    ensures i < |t| && UnitEnd(t, i) == Some(i + |Doubled(w, '"')| + 2)
  {
    hide UnitEnd, Pieced, Doubled, Opens, Concat, TagName, FirstTag, Unmistaken, Reads;
    Within(t, i, "\"" + Doubled(w, '"') + "\"");
    var pieces := DoubledPieces(w, '"');
    PrintedIsRead(t, i, Name(pieces));
  }

  /** A body without a dollar is one unit under any tag. */
  lemma DollarIsOneUnit(t: string, i: nat, name: string, body: string)
    requires TagName(name) && FreshWord(t, i) && '$' !in body && Reads(t, i, Tag(name) + body + Tag(name))
    ensures i < |t| && UnitEnd(t, i) == Some(i + |Tag(name) + body + Tag(name)|)
  {
    hide UnitEnd;
    forall k | 0 <= k < |body| ensures !Reads(body + Tag(name), k, Tag(name)) {
      assert body[k] in body;
      if k + |Tag(name)| <= |body + Tag(name)| {
        assert (body + Tag(name))[k..k + |Tag(name)|][0] == body[k] && Tag(name)[0] == '$';
      }
    }
    PrintedIsRead(t, i, DollarQuote(name, body));
  }

  // ----- nothing is cut inside a unit ------------------------------------------------------------

  lemma {:induction false} InsideIsNotTop(t: string, i: nat, j: nat, p: nat)
    requires i <= j < |t| && TopLevel(t, i, j) && UnitEnd(t, j).Some? && j < p < UnitEnd(t, j).value
    ensures !TopLevel(t, i, p)
    decreases |t| - i
  {
    hide UnitEnd;
    if i < j {
      var e := UnitEnd(t, i).value;
      UnitAdvances(t, e, j);
      InsideIsNotTop(t, e, j, p);
    } else if TopLevel(t, i, p) {
      UnitAdvances(t, UnitEnd(t, i).value, p);
    }
  }

  /** A semicolon inside a quotation, a name, a dollar quote or a comment is never a cut. */
  lemma NoCutInside(t: string, i: nat, k: Token, p: nat)
    requires i < |t| && TopLevel(t, 0, i) && Stands(t, i, k) && i < p < EndOf(t, i, k)
    ensures p !in Cuts(t, 0)
  {
    hide UnitEnd, Stands, EndOf, TopLevel, Cuts;
    PrintedIsRead(t, i, k);
    InsideIsNotTop(t, 0, i, p);
    CutsAreTopLevelSemicolons(t, 0, p);
  }
}
