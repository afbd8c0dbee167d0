/** The escrow tables of one database as an object; every method is one serializable transaction. */
module EscrowStore {
  import opened Amounts
  import opened Totals
  import opened Escrow
  import E = Escrow

  class Store {
    var books: map<Holder, Book>
    var effects: map<string, EffectRow>
    var transfers: map<string, TransferRow>
    var consumed: map<string, ConsumedRow>
    var watermarks: map<string, nat>

    ghost function View(): Database
      reads this
    {
      Database(books, effects, transfers, consumed, watermarks)
    }

    constructor ()
      ensures View() == Database(map[], map[], map[], map[], map[])
    {
      books, effects, transfers, consumed, watermarks := map[], map[], map[], map[], map[];
    }

    method CreateAuthority(h: Holder, total: int) returns (error: Option<Error>)
      modifies this
      ensures (View(), error) == E.CreateAuthority(old(View()), h, total)
    {
      if h.account == "" || h.asset == "" || total < 0 {
        return Some(ErrInvalidArgument);
      }
      if h in books {
        return if books[h].total != total then Some(ErrAuthorityConflict) else None;
      }
      books := books[h := Book(total, total, 0, map[])];
      error := None;
    }

    /** Inserts or updates a regional row inside a book. */
    static method Upsert(b: Book, region: string, amount: int) returns (after: Book)
      ensures after == Credit(b, region, amount)
    {
      if region in b.rights {
        var right := b.rights[region];
        return b.(rights := b.rights[region := Right(right.available + amount, right.version + 1)]);
      }
      after := b.(rights := b.rights[region := Right(amount, 0)]);
    }

    /** The statements of one effect, run on the rows of its authority. */
    static method Mutate(b: Book, kind: EffectKind, region: string, amount: int)
      returns (after: Book, error: Option<Error>)
      ensures (after, error) == Mutated(b, kind, region, amount)
    {
      hide Credit;
      after := b;
      match kind
      case Allocate =>
        if b.unallocated < amount {
          return b, Some(ErrInsufficientRights);
        }
        if !RightHasRoom(b, region, amount) || b.version >= MAX_INT64 {
          return b, Some(ErrOutOfRange);
        }
        after := Upsert(b, region, amount);
        return after.(unallocated := b.unallocated - amount, version := b.version + 1), None;
      case Spend =>
        if region !in b.rights || b.rights[region].available < amount {
          return b, Some(ErrInsufficientRights);
        }
        if b.rights[region].version >= MAX_INT64 || b.version >= MAX_INT64 {
          return b, Some(ErrOutOfRange);
        }
        if b.total < amount || b.total - amount < b.unallocated {
          return b, Some(ErrInconsistent);
        }
        after := Upsert(b, region, -amount);
        return after.(total := b.total - amount, version := b.version + 1), None;
      case Return =>
        if region !in b.rights {
          return b, Some(ErrInvalidArgument);
        }
        if !RightHasRoom(b, region, amount) || !Fits(b.total + amount) || b.version >= MAX_INT64 {
          return b, Some(ErrOutOfRange);
        }
        after := Upsert(b, region, amount);
        return after.(total := b.total + amount, version := b.version + 1), None;
    }

    method ApplyEffect(kind: EffectKind, q: EffectRequest) returns (duplicate: bool, error: Option<Error>)
      modifies this
      ensures (View(), duplicate, error) == E.ApplyEffect(old(View()), kind, q)
    {
      hide Mutated;
      if !ValidEffect(q) {
        return false, Some(ErrInvalidArgument);
      }
      if q.id in effects {
        if effects[q.id] != EffectRow(kind, q) {
          return false, Some(ErrEffectConflict);
        }
        return true, None;
      }
      if q.holder !in books {
        return false, Some(if kind == Return then ErrInvalidArgument else ErrInsufficientRights);
      }
      var b, failed := Mutate(books[q.holder], kind, q.region, q.amount);
      if failed.Some? {
        return false, failed;
      }
      books := books[q.holder := b];
      effects := effects[q.id := EffectRow(kind, q)];
      duplicate, error := false, None;
    }

    method Draft(q: TransferRequest, b: Binding) returns (draft: Option<Certificate>, error: Option<Error>)
      modifies this
      ensures (View(), draft, error) == E.Draft(old(View()), q, b)
    {
      if !ValidTransfer(q) {
        return None, Some(ErrInvalidArgument);
      }
      if !ValidBinding(b) || b.region != q.source || b.entity != q.sourceEntity {
        return None, Some(ErrCertificateInvalid);
      }
      if q.transfer in transfers {
        var c := transfers[q.transfer].certificate;
        if !SameTransfer(c, q) {
          return None, Some(ErrCertificateConflict);
        }
        return Some(c), None;
      }
      if q.holder !in books || q.source !in books[q.holder].rights {
        return None, Some(ErrInsufficientRights);
      }
      var right := books[q.holder].rights[q.source];
      if right.available < q.amount || right.version == MAX_INT64 {
        return None, Some(ErrInsufficientRights);
      }
      var c := DraftOf(q, right.version + 1, b);
      var book := Upsert(books[q.holder], q.source, -q.amount);
      books := books[q.holder := book];
      transfers := transfers[q.transfer := TransferRow(c, false, None)];
      draft, error := Some(c), None;
    }

    method AttachCertificate(c: Certificate) returns (error: Option<Error>)
      modifies this
      ensures (View(), error) == E.AttachCertificate(old(View()), c)
    {
      if c.transfer !in transfers || transfers[c.transfer].certificate != c {
        return Some(ErrCertificateConflict);
      }
      transfers := transfers[c.transfer := transfers[c.transfer].(signed := true)];
      error := None;
    }

    /** Searches the consumptions for one that claims the same issuance. */
    method FindIssuance(c: Certificate) returns (used: bool)
      ensures used <==> IssuanceUsed(consumed, c)
    {
      var left := consumed.Keys;
      while left != {}
        invariant left <= consumed.Keys
        invariant forall id | id in consumed && id !in left :: !SameIssuance(consumed[id].receipt.certificate, c)
        decreases |left|
      {
        var id :| id in left;
        if SameIssuance(consumed[id].receipt.certificate, c) {
          return true;
        }
        left := left - {id};
      }
      used := false;
    }

    method Consume(c: Certificate, b: Binding) returns (duplicate: bool, error: Option<Error>)
      modifies this
      ensures (View(), duplicate, error) == E.Consume(old(View()), c, b)
    {
      hide IssuanceUsed;
      if !ValidBinding(b) || b.region != c.destination || b.entity != c.destinationEntity {
        return false, Some(ErrReceiptInvalid);
      }
      if c.transfer in consumed {
        if consumed[c.transfer].receipt.certificate != c {
          return false, Some(ErrCertificateConflict);
        }
        return true, None;
      }
      var used := FindIssuance(c);
      if used {
        return false, Some(ErrCertificateConflict);
      }
      var mark := if b.entity in watermarks then watermarks[b.entity] else 0;
      if mark >= MAX_INT64 {
        return false, Some(ErrReceiptInvalid);
      }
      var arrived := Book(c.amount, 0, 0, map[c.destination := Right(c.amount, 0)]);
      if c.holder in books {
        var book := books[c.holder];
        if !Fits(book.total + c.amount) || book.version >= MAX_INT64 || !RightHasRoom(book, c.destination, c.amount) {
          return false, Some(ErrOutOfRange);
        }
        arrived := Upsert(book, c.destination, c.amount);
        arrived := arrived.(total := book.total + c.amount, version := book.version + 1);
      }
      consumed := consumed[c.transfer := ConsumedRow(Receipt(c, mark + 1, b.key, b.epoch), false)];
      watermarks := watermarks[b.entity := mark + 1];
      books := books[c.holder := arrived];
      duplicate, error := false, None;
    }

    method AttachReceipt(r: Receipt) returns (error: Option<Error>)
      modifies this
      ensures (View(), error) == E.AttachReceipt(old(View()), r)
    {
      var id := r.certificate.transfer;
      if id !in consumed || consumed[id].receipt.certificate != r.certificate {
        return Some(ErrCertificateConflict);
      }
      if consumed[id].receipt != r {
        return Some(ErrReceiptInvalid);
      }
      consumed := consumed[id := consumed[id].(signed := true)];
      error := None;
    }

    method Acknowledge(c: Certificate, r: Receipt) returns (error: Option<Error>)
      modifies this
      ensures (View(), error) == E.Acknowledge(old(View()), c, r)
    {
      if r.certificate != c {
        return Some(ErrReceiptInvalid);
      }
      if c.transfer !in transfers {
        return Some(ErrProofMissing);
      }
      var row := transfers[c.transfer];
      if row.certificate != c || !row.signed {
        return Some(ErrCertificateConflict);
      }
      if row.acknowledged.Some? {
        return if row.acknowledged.value == r then None else Some(ErrCertificateConflict);
      }
      if c.holder !in books || books[c.holder].total < c.amount
         || books[c.holder].total - c.amount < books[c.holder].unallocated {
        return Some(ErrInconsistent);
      }
      if books[c.holder].version >= MAX_INT64 {
        return Some(ErrOutOfRange);
      }
      books :=
        books[c.holder := books[c.holder].(total := books[c.holder].total - c.amount,
                                           version := books[c.holder].version + 1)];
      transfers := transfers[c.transfer := row.(acknowledged := Some(r))];
      error := None;
    }
  }

  // ----- the conservation check of a snapshot ---------------------------------------------------

  datatype Snapshot = Snapshot(
    total: Amount, unallocated: Amount, inTransit: Amount, offlineIssued: Amount, foldedOffline: Amount,
    rights: map<string, Amount>)

  ghost function Plain(rights: map<string, Amount>): map<string, int> {
    map r | r in rights :: rights[r] as int
  }

  /** What a snapshot must satisfy: nothing negative, and the parts add up to the total. */
  ghost predicate SnapshotConserved(s: Snapshot) {
    && s.unallocated >= 0 && s.inTransit >= 0 && s.offlineIssued >= 0 && s.offlineIssued == s.foldedOffline
    && (forall r | r in s.rights :: s.rights[r] >= 0)
    && s.total == s.unallocated + s.inTransit + s.offlineIssued + Total(Plain(s.rights))
  }

  lemma PlainNonNegative(s: Snapshot)
    requires SnapshotConserved(s)
    ensures NonNegative(Plain(s.rights)) && 0 <= Total(Plain(s.rights)) && s.total >= 0
  {
    hide Total;
    forall r | r in s.rights ensures Plain(s.rights)[r] >= 0 {
    }
    TotalBounds(Plain(s.rights));
  }

  /** Adds the parts in any order; no order overflows where the sum fits, so the answer does not depend on it. */
  method CheckConserved(s: Snapshot) returns (ok: bool)
    ensures ok <==> SnapshotConserved(s)
  {
    hide Total;
    if SnapshotConserved(s) { PlainNonNegative(s); }
    if s.total < 0 || s.unallocated < 0 || s.inTransit < 0 || s.offlineIssued < 0 || s.foldedOffline < 0
       || s.offlineIssued != s.foldedOffline {
      return false;
    }
    var sum: int := s.unallocated + s.inTransit;
    if !Fits(sum) {
      return false;
    }
    sum := sum + s.offlineIssued;
    if !Fits(sum) {
      return false;
    }
    ghost var rights := Plain(s.rights);
    var left := s.rights.Keys;
    assert rights - left == map[];
    EmptyTotal();
    while left != {}
      invariant left <= s.rights.Keys && forall r | r in s.rights && r !in left :: s.rights[r] >= 0
      invariant sum == s.unallocated + s.inTransit + s.offlineIssued + Total(rights - left) && Fits(sum)
      decreases |left|
    {
      var r :| r in left;
      if s.rights[r] < 0 {
        return false;
      }
      TotalVisit(rights, left, r);
      left := left - {r};
      if SnapshotConserved(s) { TotalPart(rights, left); }
      if !Fits(sum + s.rights[r]) {
        return false;
      }
      sum := sum + s.rights[r];
    }
    assert rights - {} == rights;
    ok := sum == s.total;
  }

  lemma EmptyTotal()
    ensures Total<string>(map[]) == 0
  {
  }

  /** The snapshot of a conserved database passes: what the rows hold is what the check adds up. */
  lemma ConservedSnapshotPasses(db: Database, h: Holder, s: Snapshot)
    requires Conserved(db) && h in db.books
    requires s.total == db.books[h].total && s.unallocated == db.books[h].unallocated
             && s.offlineIssued == 0 == s.foldedOffline
    requires Total(MovingOf(db.transfers, h)) == s.inTransit && s.inTransit >= 0
    requires Plain(s.rights) == AvailableOf(db.books[h].rights)
    ensures SnapshotConserved(s)
  {
    hide Total;
    assert BookConserved(db.books[h], Total(MovingOf(db.transfers, h)));
    forall r | r in s.rights ensures s.rights[r] >= 0 {
      assert r in Plain(s.rights).Keys;
      assert Plain(s.rights)[r] == db.books[h].rights[r].available;
    }
  }
}
