/** The buffers that payloads are written into, and the closure-set hash over an unordered map. */
module PayloadWriters {
  import opened Amounts
  import opened Names
  import opened Frames
  import opened Payloads
  import opened Sorting
  import E = Escrow

  // ----- appending fields --------------------------------------------------------------------------

  /** Appends a length-prefixed text, or fails when its length does not fit the prefix. */
  method WriteText(buffer: string, text: string) returns (ok: bool, after: string)
    ensures ok <==> Framed(Text(text))
    ensures ok ==> after == buffer + EncodeField(Text(text))
  {
    hide BigEndian, Pow;
    if |text| >= Pow(4) {
      return false, buffer;
    }
    after := buffer + BigEndian(|text|, 4);
    after := after + text;
    assert after == buffer + (BigEndian(|text|, 4) + text);
    ok := true;
  }

  method WriteNumber(buffer: string, value: nat, width: nat) returns (after: string)
    ensures after == buffer + EncodeField(Number(width, value))
  {
    after := buffer + BigEndian(value, width);
  }

  lemma {:induction false} EncodeSnoc(fields: seq<Field>, f: Field)
    ensures Encode(fields + [f]) == Encode(fields) + EncodeField(f)
  {
    hide EncodeField;
    EncodeAppend(fields, [f]);
    assert [f][1..] == [] && Encode([f]) == EncodeField(f) + Encode([f][1..]);
    assert Encode([f]) == EncodeField(f);
  }

  /** Appends a list of texts one after another; the result is the encoding of the list. */
  method WriteTexts(buffer: string, texts: seq<string>) returns (ok: bool, after: string)
    ensures ok <==> forall i | 0 <= i < |texts| :: Framed(Text(texts[i]))
    ensures ok ==> after == buffer + Encode(TextsOf(texts, |texts|))
  {
    hide EncodeField, Framed, Encode;
    after := buffer;
    EncodeNothing(buffer);
    var i := 0;
    while i < |texts|
      invariant 0 <= i <= |texts| && (forall k | 0 <= k < i :: Framed(Text(texts[k])))
      invariant after == buffer + Encode(TextsOf(texts, i))
    {
      var fits, longer := WriteText(after, texts[i]);
      if !fits {
        return false, buffer;
      }
      EncodeSnoc(TextsOf(texts, i), Text(texts[i]));
      assert buffer + Encode(TextsOf(texts, i)) + EncodeField(Text(texts[i])) ==
             buffer + (Encode(TextsOf(texts, i)) + EncodeField(Text(texts[i])));
      after := longer;
      i := i + 1;
    }
    ok := true;
  }

  lemma EncodeNothing(buffer: string)
    ensures buffer + Encode([]) == buffer
  {
  }

  function TextsOf(texts: seq<string>, n: nat): seq<Field>
    requires n <= |texts|
  {
    if n == 0 then [] else TextsOf(texts, n - 1) + [Text(texts[n - 1])]
  }

  // ----- the two loops of a ledger entry --------------------------------------------------------------

  /** Appends the numbered lines of an entry in their order. */
  method WriteLines(buffer: string, lines: seq<EntryLine>) returns (ok: bool, after: string)
    requires forall i | 0 <= i < |lines| :: lines[i].amount > 0
    ensures ok <==> forall i | 0 <= i < |lines| :: LineFits(lines[i])
    ensures ok ==> after == buffer + Encode(LinesFields(lines, |lines|))
  {
    hide LineFields, Encode, LineFits;
    after := buffer;
    EncodeNothing(buffer);
    var i := 0;
    while i < |lines|
      invariant 0 <= i <= |lines| && (forall k | 0 <= k < i :: LineFits(lines[k]))
      invariant after == buffer + Encode(LinesFields(lines, i))
    {
      var fits, longer := WriteLine(after, lines[i], i + 1);
      if !fits {
        return false, buffer;
      }
      EncodeAppend(LinesFields(lines, i), LineFields(lines[i], i + 1));
      assert buffer + Encode(LinesFields(lines, i)) + Encode(LineFields(lines[i], i + 1))
          == buffer + (Encode(LinesFields(lines, i)) + Encode(LineFields(lines[i], i + 1)));
      after := longer;
      i := i + 1;
    }
    ok := true;
  }

  predicate LineFits(l: EntryLine)
    requires l.amount > 0
  {
    Framed(Text(l.account)) && Framed(Text(l.asset)) && Framed(Text(SideName(l.side))) && Framed(Text(l.memo))
    && Framed(Text(Digits(l.amount)))
  }

  function LineTexts(l: EntryLine): seq<string>
    requires l.amount > 0
  {
    [l.account, l.asset, SideName(l.side), l.memo, Digits(l.amount)]
  }

  method WriteLine(buffer: string, l: EntryLine, number: nat) returns (ok: bool, after: string)
    requires l.amount > 0
    ensures ok <==> LineFits(l)
    ensures ok ==> after == buffer + Encode(LineFields(l, number))
  {
    hide Framed, EncodeField, Encode, Digits;
    after := WriteNumber(buffer, number, 8);
    ghost var head := EncodeField(Number(8, number));
    ok, after := WriteTexts(after, LineTexts(l));
    LineTextsFit(l);
    if ok {
      LineEncoding(l, number);
      assert buffer + head + Encode(TextsOf(LineTexts(l), 5)) == buffer + (head + Encode(TextsOf(LineTexts(l), 5)));
    }
  }

  lemma LineTextsFit(l: EntryLine)
    requires l.amount > 0
    ensures LineFits(l) <==> forall i | 0 <= i < 5 :: Framed(Text(LineTexts(l)[i]))
  {
    hide Framed, Digits;
    var t := LineTexts(l);
    assert (forall i | 0 <= i < 5 :: Framed(Text(t[i]))) ==>
           Framed(Text(t[0])) && Framed(Text(t[1])) && Framed(Text(t[2])) && Framed(Text(t[3])) && Framed(Text(t[4]));
  }

  lemma LineEncoding(l: EntryLine, number: nat)
    requires l.amount > 0
    ensures Encode(LineFields(l, number)) == EncodeField(Number(8, number)) + Encode(TextsOf(LineTexts(l), 5))
  {
    hide EncodeField, Digits;
    var f, t := LineFields(l, number), LineTexts(l);
    FiveTexts(t);
    assert f[1..] == TextsOf(t, 5);
  }

  lemma FiveTexts(t: seq<string>)
    requires |t| == 5
    ensures TextsOf(t, 5) == [Text(t[0]), Text(t[1]), Text(t[2]), Text(t[3]), Text(t[4])]
  {
    assert TextsOf(t, 1) == [Text(t[0])];
    assert TextsOf(t, 2) == [Text(t[0]), Text(t[1])];
    assert TextsOf(t, 3) == [Text(t[0]), Text(t[1]), Text(t[2])];
    assert TextsOf(t, 4) == [Text(t[0]), Text(t[1]), Text(t[2]), Text(t[3])];
  }

  // ----- closure sets ------------------------------------------------------------------------------------

  predicate ValidClosures(closures: map<string, string>) {
    |closures| < Pow(4) && forall d | d in closures :: |d| < Pow(4) && |closures[d]| == 32
  }

  function SetFields(domains: seq<string>, closures: map<string, string>, n: nat): seq<Field>
    requires n <= |domains| && forall i | 0 <= i < |domains| :: domains[i] in closures
  {
    if n == 0 then [] else SetFields(domains, closures, n - 1) + [Text(domains[n - 1]), Block(closures[domains[n - 1]])]
  }

  /** The listing of the domains in the order in which they are hashed. */
  ghost predicate Listing(domains: seq<string>, closures: map<string, string>) {
    Enumerates(domains, closures.Keys) && Increasing(domains) && forall i | 0 <= i < |domains| :: domains[i] in closures
  }

  function SetPayload(domains: seq<string>, closures: map<string, string>): string
    requires forall i | 0 <= i < |domains| :: domains[i] in closures
  {
    Tag(ClosureSet) + Encode([Number(4, |domains|)] + SetFields(domains, closures, |domains|))
  }

  /** Appends each domain and its evidence in the given order. */
  method WriteListed(domains: seq<string>, closures: map<string, string>) returns (body: string)
    requires ValidClosures(closures) && forall i | 0 <= i < |domains| :: domains[i] in closures
    ensures body == Encode(SetFields(domains, closures, |domains|))
  {
    hide Encode, EncodeField, ValidClosures, Framed;
    body := "";
    assert body == Encode([]) by { EncodeNothing(""); }
    var i := 0;
    while i < |domains|
      invariant 0 <= i <= |domains| && body == Encode(SetFields(domains, closures, i))
    {
      var d := domains[i];
      EncodePair(SetFields(domains, closures, i), d, closures[d]);
      DomainFits(closures, d);
      var ok, longer := WriteText(body, d);
      body := longer + closures[d];
      i := i + 1;
    }
  }

  /**
   * Lists the domains of a map in any order, sorts them, and writes them; visited says in which order the map gave its
   * keys.
   */
  method WriteClosures(closures: map<string, string>, visited: seq<string>)
    returns (payload: string, ghost domains: seq<string>)
    requires ValidClosures(closures) && Enumerates(visited, closures.Keys)
    ensures Listing(domains, closures) && payload == SetPayload(domains, closures)
  {
    hide Encode, EncodeField, Below, Increasing, Enumerates, TagName, ValidClosures, SetFields;
    var sorted := SortedListing(visited, closures.Keys);
    domains := sorted;
    EnumeratesKnown(sorted, closures);
    var body := WriteListed(sorted, closures);
    var count := WriteNumber("", |sorted|, 4);
    EncodeCounted(|sorted|, SetFields(sorted, closures, |sorted|));
    payload := Tag(ClosureSet) + (count + body);
  }

  lemma EncodeCounted(n: nat, fields: seq<Field>)
    ensures Encode([Number(4, n)] + fields) == "" + EncodeField(Number(4, n)) + Encode(fields)
  {
    hide EncodeField;
    assert ([Number(4, n)] + fields)[1..] == fields;
  }

  lemma DomainFits(closures: map<string, string>, d: string)
    requires ValidClosures(closures) && d in closures
    ensures Framed(Text(d))
  {
  }

  lemma EnumeratesKnown(domains: seq<string>, closures: map<string, string>)
    requires Enumerates(domains, closures.Keys)
    ensures forall i | 0 <= i < |domains| :: domains[i] in closures
  {
    EnumeratesExactly(domains, closures.Keys);
  }

  lemma EncodePair(fields: seq<Field>, text: string, block: string)
    ensures Encode(fields + [Text(text), Block(block)]) == Encode(fields) + EncodeField(Text(text)) + block
  {
    hide Encode;
    EncodeSnoc(fields, Text(text));
    EncodeSnoc(fields + [Text(text)], Block(block));
    assert fields + [Text(text)] + [Block(block)] == fields + [Text(text), Block(block)];
  }

  /** Whatever order the map is visited in, the payload is the same. */
  lemma ClosureOrderIsLost(closures: map<string, string>, a: seq<string>, b: seq<string>)
    requires Listing(a, closures) && Listing(b, closures)
    ensures a == b && SetPayload(a, closures) == SetPayload(b, closures)
  {
    hide Below, Increasing, Enumerates;
    IncreasingUnique(a, b, closures.Keys);
  }

  lemma {:induction false} SetFieldsShape(a: seq<string>, x: map<string, string>, b: seq<string>,
                                          y: map<string, string>, n: nat)
    requires n <= |a| && n <= |b| && (forall i | 0 <= i < |a| :: a[i] in x) && (forall i | 0 <= i < |b| :: b[i] in y)
    requires ValidClosures(x) && ValidClosures(y)
    ensures SameShape(SetFields(a, x, n), SetFields(b, y, n)) && |SetFields(a, x, n)| == 2 * n
    ensures AllFramed(SetFields(a, x, n)) && AllFramed(SetFields(b, y, n))
  {
    hide Pow;
    if n > 0 {
      SetFieldsShape(a, x, b, y, n - 1);
    }
  }

  lemma {:induction false} SetFieldsDecide(a: seq<string>, x: map<string, string>, b: seq<string>,
                                           y: map<string, string>, n: nat)
    requires n <= |a| && n <= |b| && (forall i | 0 <= i < |a| :: a[i] in x) && (forall i | 0 <= i < |b| :: b[i] in y)
    requires ValidClosures(x) && ValidClosures(y) && SetFields(a, x, n) == SetFields(b, y, n)
    ensures forall i | 0 <= i < n :: a[i] == b[i] && x[a[i]] == y[a[i]]
  {
    hide ValidClosures;
    if n > 0 {
      var f, g := SetFields(a, x, n), SetFields(b, y, n);
      SetFieldsShape(a, x, b, y, n);
      SetFieldsShape(a, x, b, y, n - 1);
      assert f[2 * n - 2] == g[2 * n - 2] && f[2 * n - 1] == g[2 * n - 1];
      assert f[..2 * n - 2] == SetFields(a, x, n - 1) && g[..2 * n - 2] == SetFields(b, y, n - 1);
      SetFieldsDecide(a, x, b, y, n - 1);
    }
  }

  /** Equal closure-set payloads come from equal sets of closures. */
  lemma ClosureSetInjective(x: map<string, string>, a: seq<string>, y: map<string, string>, b: seq<string>)
    requires ValidClosures(x) && ValidClosures(y) && Listing(a, x) && Listing(b, y)
             && SetPayload(a, x) == SetPayload(b, y)
    ensures x == y
  {
    hide Encode, TagName, Pow, Increasing, Below, Enumerates;
    TagsSeparate(ClosureSet, Encode([Number(4, |a|)] + SetFields(a, x, |a|)), ClosureSet,
                 Encode([Number(4, |b|)] + SetFields(b, y, |b|)));
    ListingLength(a, x);
    ListingLength(b, y);
    ReadsFirst([Number(4, |a|)], SetFields(a, x, |a|), [Number(4, |b|)], SetFields(b, y, |b|));
    assert [Number(4, |a|)][0] == [Number(4, |b|)][0];
    SetFieldsShape(a, x, b, y, |a|);
    ReadsAll(SetFields(a, x, |a|), SetFields(b, y, |b|));
    SetFieldsDecide(a, x, b, y, |a|);
    SameMaps(a, x, b, y);
  }

  lemma ListingLength(a: seq<string>, x: map<string, string>)
    requires Listing(a, x)
    ensures |a| == |x|
  {
    assert |multiset(a)| == |a| && |multiset(x.Keys)| == |x.Keys| == |x|;
  }

  lemma SameMaps(a: seq<string>, x: map<string, string>, b: seq<string>, y: map<string, string>)
    requires Listing(a, x) && Listing(b, y) && |a| == |b|
             && forall i | 0 <= i < |a| :: a[i] == b[i] && x[a[i]] == y[a[i]]
    ensures x == y
  {
    hide Increasing;
    assert a == b;
    EnumeratesExactly(a, x.Keys);
    EnumeratesExactly(b, y.Keys);
    assert x.Keys == y.Keys;
    forall d | d in x ensures x[d] == y[d] {
      assert d in a;
    }
  }
}
