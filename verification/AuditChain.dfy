/** The hash chain of a book: what a verified range proves about the transactions in it. */
module AuditChain {
  import opened Amounts
  import opened Names
  import opened Frames
  import opened Payloads
  import opened Merkle
  import J = Journal

  /** A stored transaction as the verifier reads it. */
  datatype Posted = Posted(entry: Entry, sequence: nat, previous: string, hash: string)

  datatype Verification = Verification(count: nat, lastHash: string, root: string)

  // ----- the posting rules -----------------------------------------------------------------------

  /** What the first n lines move on one side of one asset. */
  function SideSum(lines: seq<EntryLine>, n: nat, asset: string, side: J.Side): int
    requires n <= |lines|
  {
    if n == 0 then 0
    else
      SideSum(lines, n - 1, asset, side)
      + if lines[n - 1].asset == asset && lines[n - 1].side == side then lines[n - 1].amount else 0
  }

  /** Debits equal credits for every asset. */
  ghost predicate Balanced(lines: seq<EntryLine>) {
    forall asset :: SideSum(lines, |lines|, asset, J.Debit) == SideSum(lines, |lines|, asset, J.Credit)
  }

  /** No running total leaves the representable range. */
  ghost predicate Representable(lines: seq<EntryLine>) {
    forall n, asset, side | 0 <= n <= |lines| :: Fits(SideSum(lines, n, asset, side))
  }

  ghost predicate ValidEntry(e: Entry) {
    EntryFits(e) && |e.lines| >= 2 && Representable(e.lines) && Balanced(e.lines)
  }

  // ----- hashing and verifying -------------------------------------------------------------------

  ghost function HashEntry(H: string -> string, previous: string, sequence: nat, e: Entry): Option<string> {
    if sequence == 0 || sequence > MAX_INT64 || |previous| != 32 || !ValidEntry(e) then None
    else Some(H(EntryPayload(previous, sequence, e)))
  }

  /** The transaction at the head of a range links to what precedes it and carries its own hash. */
  ghost predicate Links(H: string -> string, book: string, sequence: nat, previous: string, t: Posted) {
    t.entry.book == book && t.sequence == sequence && t.previous == previous
    && HashEntry(H, previous, sequence, t.entry) == Some(t.hash)
  }

  ghost predicate Accepts(H: string -> string, book: string, first: nat, previous: string, list: seq<Posted>)
    decreases |list|
  {
    list == [] || (Links(H, book, first, previous, list[0]) && Accepts(H, book, first + 1, list[0].hash, list[1..]))
  }

  function LastHash(previous: string, list: seq<Posted>): string {
    if list == [] then previous else list[|list| - 1].hash
  }

  function Hashes(list: seq<Posted>): seq<string> {
    seq(|list|, i requires 0 <= i < |list| => list[i].hash)
  }

  ghost function VerifyRange(H: string -> string, book: string, first: nat, last: nat, previous: string,
                             list: seq<Posted>): Option<Verification> {
    if list == [] || list[0].sequence != first || list[|list| - 1].sequence != last || |list| != last - first + 1
    then None
    else if !Accepts(H, book, first, previous, list) then None
    else Some(Verification(|list|, LastHash(previous, list), MerkleRoot(H, Hashes(list))))
  }

  // ----- ranges compose ------------------------------------------------------------------------------

  /** A range verifies exactly when its two parts do, the second one starting from the first one's last hash. */
  lemma {:induction false} RangesCompose(H: string -> string, book: string, first: nat, previous: string,
                                         a: seq<Posted>, b: seq<Posted>)
    ensures Accepts(H, book, first, previous, a + b) <==>
            Accepts(H, book, first, previous, a) && Accepts(H, book, first + |a|, LastHash(previous, a), b)
    decreases |a|
  {
    hide Links;
    if a == [] {
      assert a + b == b;
    } else {
      assert (a + b)[1..] == a[1..] + b;
      RangesCompose(H, book, first + 1, a[0].hash, a[1..], b);
      assert LastHash(a[0].hash, a[1..]) == LastHash(previous, a);
    }
  }

  /** Accepted transactions carry consecutive sequence numbers. */
  lemma {:induction false} AcceptedAt(H: string -> string, book: string, first: nat, previous: string,
                                      list: seq<Posted>, i: nat)
    requires Accepts(H, book, first, previous, list) && i < |list|
    ensures Links(H, book, first + i, LastHash(previous, list[..i]), list[i])
    decreases |list|
  {
    hide Links;
    if i > 0 {
      AcceptedAt(H, book, first + 1, list[0].hash, list[1..], i - 1);
      assert list[1..][..i - 1] == list[..i][1..];
      assert LastHash(list[0].hash, list[1..][..i - 1]) == LastHash(previous, list[..i]);
    }
  }

  /** The range checks of the verifier add nothing to the chain itself but its length. */
  lemma VerifiesExactly(H: string -> string, book: string, first: nat, last: nat, previous: string, list: seq<Posted>)
    ensures VerifyRange(H, book, first, last, previous, list).Some? <==>
            list != [] && |list| == last - first + 1 && Accepts(H, book, first, previous, list)
  {
    hide Accepts;
    if list != [] && |list| == last - first + 1 && Accepts(H, book, first, previous, list) {
      AcceptedAt(H, book, first, previous, list, 0);
      AcceptedAt(H, book, first, previous, list, |list| - 1);
    }
  }

  /** Every transaction of a verified range balances per asset. */
  lemma VerifiedBalance(H: string -> string, book: string, first: nat, previous: string, list: seq<Posted>, i: nat)
    requires Accepts(H, book, first, previous, list) && i < |list|
    ensures Balanced(list[i].entry.lines)
  {
    hide Accepts, Balanced, Representable, EntryFits;
    AcceptedAt(H, book, first, previous, list, i);
  }

  // ----- tamper evidence ------------------------------------------------------------------------------------

  ghost predicate Payable(t: Posted) {
    forall i | 0 <= i < |t.entry.lines| :: t.entry.lines[i].amount > 0
  }

  ghost function PayloadOf(t: Posted): string
    requires Payable(t)
  {
    EntryPayload(t.previous, t.sequence, t.entry)
  }

  /** No two transactions at the same place of the two lists collide. */
  ghost predicate ListsApart(H: string -> string, a: seq<Posted>, b: seq<Posted>) {
    forall i | 0 <= i < |a| && i < |b| :: Payable(a[i]) && Payable(b[i]) ==> Apart(H, PayloadOf(a[i]), PayloadOf(b[i]))
  }

  /** One link: equal hashes mean equal entries after equal predecessors. */
  lemma LinkDecides(H: string -> string, book: string, n: nat, p: string, t: Posted, book': string, n': nat, p': string,
                    t': Posted)
    requires Links(H, book, n, p, t) && Links(H, book', n', p', t') && t.hash == t'.hash
    requires Payable(t) && Payable(t') ==> Apart(H, PayloadOf(t), PayloadOf(t'))
    ensures t == t' && p == p'
  {
    hide EntryFields, Representable, Balanced, TagName;
    assert Payable(t) && Payable(t');
    TagsSeparate(LedgerEntry, Encode(EntryFields(p, n, t.entry)), LedgerEntry, Encode(EntryFields(p', n', t'.entry)));
    EntryInjective(p, n, t.entry, p', n', t'.entry);
  }

  lemma {:induction false} AcceptsPrefix(H: string -> string, book: string, first: nat, p: string, a: seq<Posted>,
                                         k: nat)
    requires Accepts(H, book, first, p, a) && k <= |a|
    ensures Accepts(H, book, first, p, a[..k])
    decreases k
  {
    hide Links;
    if k > 0 {
      AcceptsPrefix(H, book, first + 1, a[0].hash, a[1..], k - 1);
      assert a[..k][1..] == a[1..][..k - 1];
    }
  }

  lemma ApartAt(H: string -> string, a: seq<Posted>, b: seq<Posted>, k: nat)
    requires ListsApart(H, a, b) && k < |a| && k < |b|
    ensures ListsApart(H, a[..k], b[..k])
    ensures Payable(a[k]) && Payable(b[k]) ==> Apart(H, PayloadOf(a[k]), PayloadOf(b[k]))
  {
    hide Payable, PayloadOf, Apart;
  }

  /**
   * Two lists of one length accepted with the same last hash are the same, field for field, and follow the same
   * predecessor.
   */
  lemma {:induction false} LastHashDecides(H: string -> string, book: string, first: nat, p: string, a: seq<Posted>,
                                           book': string, first': nat, p': string, b: seq<Posted>)
    requires Accepts(H, book, first, p, a) && Accepts(H, book', first', p', b) && |a| == |b|
    requires LastHash(p, a) == LastHash(p', b) && ListsApart(H, a, b)
    ensures a == b && p == p'
    decreases |a|
  {
    hide Accepts, Links, ListsApart, Payable, PayloadOf, Apart;
    if a != [] {
      var k := |a| - 1;
      AcceptedAt(H, book, first, p, a, k);
      AcceptedAt(H, book', first', p', b, k);
      AcceptsPrefix(H, book, first, p, a, k);
      AcceptsPrefix(H, book', first', p', b, k);
      ApartAt(H, a, b, k);
      LinkDecides(H, book, first + k, LastHash(p, a[..k]), a[k], book', first' + k, LastHash(p', b[..k]), b[k]);
      LastHashDecides(H, book, first, p, a[..k], book', first', p', b[..k]);
      assert a == a[..k] + [a[k]] && b == b[..k] + [b[k]];
    }
  }

  /** Tamper evidence: one verified range with one last hash is one history. */
  lemma TamperEvident(H: string -> string, book: string, first: nat, last: nat, p: string, a: seq<Posted>, p': string,
                      b: seq<Posted>)
    requires VerifyRange(H, book, first, last, p, a).Some? && VerifyRange(H, book, first, last, p', b).Some?
    requires VerifyRange(H, book, first, last, p, a).value.lastHash ==
             VerifyRange(H, book, first, last, p', b).value.lastHash
    requires ListsApart(H, a, b)
    ensures a == b && p == p'
  {
    hide Accepts, ListsApart, MerkleRoot;
    LastHashDecides(H, book, first, p, a, book, first, p', b);
  }

  // ----- the loops ---------------------------------------------------------------------------------------------

  datatype Sides = Sides(debit: int, credit: int)

  ghost predicate Tallied(perAsset: map<string, Sides>, lines: seq<EntryLine>, n: nat)
    requires n <= |lines|
  {
    && (forall x | x in perAsset :: perAsset[x] == Sides(SideSum(lines, n, x, J.Debit), SideSum(lines, n, x, J.Credit)))
    && (forall x | x !in perAsset :: SideSum(lines, n, x, J.Debit) == 0 && SideSum(lines, n, x, J.Credit) == 0)
  }

  ghost predicate RepresentableTo(lines: seq<EntryLine>, n: nat)
    requires n <= |lines|
  {
    forall k, asset, side | 0 <= k <= n :: Fits(SideSum(lines, k, asset, side))
  }

  lemma TallyLine(perAsset: map<string, Sides>, lines: seq<EntryLine>, n: nat, t: Sides)
    requires n < |lines| && Tallied(perAsset, lines, n) && RepresentableTo(lines, n)
    requires var l := lines[n];
             var was := if l.asset in perAsset then perAsset[l.asset] else Sides(0, 0);
             t == if l.side == J.Debit then was.(debit := was.debit + l.amount)
                  else was.(credit := was.credit + l.amount)
    ensures Tallied(perAsset[lines[n].asset := t], lines, n + 1)
    ensures RepresentableTo(lines, n + 1) <==> Fits(t.debit) && Fits(t.credit)
  {
    hide Fits;
    var x := lines[n].asset;
    assert t == Sides(SideSum(lines, n + 1, x, J.Debit), SideSum(lines, n + 1, x, J.Credit));
    assert forall y, side | y != x :: SideSum(lines, n + 1, y, side) == SideSum(lines, n, y, side);
    if Fits(t.debit) && Fits(t.credit) {
      forall k, asset, side | 0 <= k <= n + 1 ensures Fits(SideSum(lines, k, asset, side)) {
        if k == n + 1 && asset != x {
          assert Fits(SideSum(lines, n, asset, side));
        }
      }
    } else {
      assert !Fits(SideSum(lines, n + 1, x, J.Debit)) || !Fits(SideSum(lines, n + 1, x, J.Credit));
    }
  }

  lemma RepresentableEnds(lines: seq<EntryLine>, n: nat)
    requires n <= |lines| && !RepresentableTo(lines, n)
    ensures !Representable(lines)
  {
  }

  /** The per-asset totals of the lines, or nothing when one of them overflows. */
  method TallyLines(lines: seq<EntryLine>) returns (ok: bool, perAsset: map<string, Sides>)
    ensures ok <==> Representable(lines)
    ensures ok ==> Tallied(perAsset, lines, |lines|)
  {
    hide SideSum, Fits;
    perAsset := map[];
    NothingTallied(lines);
    var i := 0;
    while i < |lines|
      invariant 0 <= i <= |lines| && Tallied(perAsset, lines, i) && RepresentableTo(lines, i)
    {
      var line := lines[i];
      var t := if line.asset in perAsset then perAsset[line.asset] else Sides(0, 0);
      if line.side == J.Debit {
        t := t.(debit := t.debit + line.amount);
      } else {
        t := t.(credit := t.credit + line.amount);
      }
      TallyLine(perAsset, lines, i, t);
      if !Fits(t.debit) || !Fits(t.credit) {
        RepresentableEnds(lines, i + 1);
        return false, perAsset;
      }
      perAsset := perAsset[line.asset := t];
      i := i + 1;
    }
    ok := true;
  }

  lemma NothingTallied(lines: seq<EntryLine>)
    ensures Tallied(map[], lines, 0) && RepresentableTo(lines, 0)
  {
  }

  method Validate(e: Entry) returns (ok: bool)
    ensures ok <==> ValidEntry(e)
  {
    hide SideSum, Representable;
    if !EntryFits(e) || |e.lines| < 2 {
      return false;
    }
    var fits, perAsset := TallyLines(e.lines);
    if !fits {
      return false;
    }
    var left := perAsset.Keys;
    while left != {}
      invariant left <= perAsset.Keys
      invariant forall x | x in perAsset && x !in left :: perAsset[x].debit == perAsset[x].credit
      decreases |left|
    {
      var x :| x in left;
      if perAsset[x].debit != perAsset[x].credit {
        assert SideSum(e.lines, |e.lines|, x, J.Debit) != SideSum(e.lines, |e.lines|, x, J.Credit);
        return false;
      }
      left := left - {x};
    }
    forall x ensures SideSum(e.lines, |e.lines|, x, J.Debit) == SideSum(e.lines, |e.lines|, x, J.Credit) {
      if x in perAsset {
        assert perAsset[x].debit == perAsset[x].credit;
      }
    }
    ok := true;
  }

  /** Checks one transaction against its place and predecessor. */
  method CheckLink(H: string -> string, book: string, sequence: nat, previous: string, t: Posted) returns (ok: bool)
    ensures ok <==> Links(H, book, sequence, previous, t)
  {
    hide EntryPayload, ValidEntry;
    if t.entry.book != book || t.sequence != sequence || t.previous != previous {
      return false;
    }
    var valid := Validate(t.entry);
    if t.sequence == 0 || t.sequence > MAX_INT64 || |previous| != 32 || !valid {
      return false;
    }
    PayableEntry(t.entry);
    return H(EntryPayload(previous, t.sequence, t.entry)) == t.hash;
  }

  /** The verifier's loop over a loaded range. */
  method Verify(H: string -> string, book: string, first: nat, last: nat, previous: string, list: seq<Posted>)
    returns (v: Option<Verification>)
    ensures v == VerifyRange(H, book, first, last, previous, list)
  {
    hide Links, MerkleRoot;
    if list == [] || list[0].sequence != first || list[|list| - 1].sequence != last || |list| != last - first + 1 {
      return None;
    }
    var expected, leaves, i := previous, [], 0;
    while i < |list|
      invariant 0 <= i <= |list| && expected == LastHash(previous, list[..i]) && leaves == Hashes(list[..i])
      invariant Accepts(H, book, first, previous, list) <==> Accepts(H, book, first + i, expected, list[i..])
    {
      var t := list[i];
      assert list[i..][0] == t && list[i..][1..] == list[i + 1..];
      var ok := CheckLink(H, book, first + i, expected, t);
      if !ok {
        return None;
      }
      expected := t.hash;
      leaves := leaves + [t.hash];
      assert list[..i + 1][i] == t;
      i := i + 1;
    }
    assert list[..i] == list;
    var root := ComputeRoot(H, leaves);
    return Some(Verification(|list|, expected, root));
  }

  lemma PayableEntry(e: Entry)
    requires ValidEntry(e)
    ensures forall i | 0 <= i < |e.lines| :: e.lines[i].amount > 0
  {
    hide Representable, Balanced;
  }
}
