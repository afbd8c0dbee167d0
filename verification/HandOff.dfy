/** The hand-off of spending rights between independent databases, in any interleaving of its transactions. */
module HandOff {
  import opened Amounts
  import opened Totals
  import opened Escrow

  /** One database per region, and the payloads that have been signed so far. */
  datatype System = System(dbs: map<string, Database>, certificates: set<Certificate>, receipts: set<Receipt>)

  datatype Step =
    | CreateStep(region: string, holder: Holder, total: int)
    | EffectStep(region: string, kind: EffectKind, request: EffectRequest)
    | DraftStep(region: string, transfer: TransferRequest, binding: Binding)
    | SignCertificateStep(region: string, id: string)
    | AttachCertificateStep(region: string, certificate: Certificate)
    | ConsumeStep(region: string, certificate: Certificate, binding: Binding)
    | SignReceiptStep(region: string, id: string)
    | AttachReceiptStep(region: string, receipt: Receipt)
    | AcknowledgeStep(region: string, certificate: Certificate, receipt: Receipt)

  /**
    What the surroundings guarantee: transfer identifiers are unique across regions, a signer only signs committed
    drafts, and a signature that verifies was made by a signer.
   */
  predicate Enabled(s: System, step: Step) {
    step.region in s.dbs &&
    match step
    case DraftStep(region, q, b) =>
      b.region == region && forall r | r in s.dbs && r != region :: q.transfer !in s.dbs[r].transfers
    case SignCertificateStep(region, id) => id in s.dbs[region].transfers
    case AttachCertificateStep(_, c) => c in s.certificates
    case ConsumeStep(region, c, _) => c in s.certificates && c.destination == region
    case SignReceiptStep(region, id) => id in s.dbs[region].consumed
    case AttachReceiptStep(_, r) => r in s.receipts
    case AcknowledgeStep(_, c, r) => c in s.certificates && r in s.receipts
    case _ => true
  }

  /** The database a step leaves behind in its region. */
  function Stored(s: System, step: Step): Database
    requires Enabled(s, step)
  {
    var db := s.dbs[step.region];
    match step
    case CreateStep(_, h, total) => CreateAuthority(db, h, total).0
    case EffectStep(_, kind, q) => ApplyEffect(db, kind, q).0
    case DraftStep(_, q, b) => Draft(db, q, b).0
    case SignCertificateStep(_, _) => db
    case AttachCertificateStep(_, c) => AttachCertificate(db, c).0
    case ConsumeStep(_, c, b) => Consume(db, c, b).0
    case SignReceiptStep(_, _) => db
    case AttachReceiptStep(_, r) => AttachReceipt(db, r).0
    case AcknowledgeStep(_, c, r) => Acknowledge(db, c, r).0
  }

  function Apply(s: System, step: Step): System
    requires Enabled(s, step)
  {
    System(s.dbs[step.region := Stored(s, step)],
           if step.SignCertificateStep? then s.certificates + {s.dbs[step.region].transfers[step.id].certificate}
           else s.certificates,
           if step.SignReceiptStep? then s.receipts + {s.dbs[step.region].consumed[step.id].receipt} else s.receipts)
  }

  // ----- the invariant ----------------------------------------------------------------

  /** A transfer row is the issuance it claims, on a rights row that has moved past it. */
  predicate RowOk(r: string, books: map<Holder, Book>, id: string, c: Certificate) {
    && c.transfer == id && c.source == r && c.amount > 0 && c.source != c.destination
    && c.holder in books && r in books[c.holder].rights && 0 < c.epoch <= books[c.holder].rights[r].version
  }

  ghost predicate RowsOk(r: string, books: map<Holder, Book>, transfers: map<string, TransferRow>) {
    forall id | id in transfers :: RowOk(r, books, id, transfers[id].certificate)
  }

  /** No two transfers of a holder from one database carry the same number. */
  ghost predicate EpochsDistinct(transfers: map<string, TransferRow>) {
    forall i, j | i in transfers && j in transfers && i != j ::
      transfers[i].certificate.holder == transfers[j].certificate.holder ==>
        transfers[i].certificate.epoch != transfers[j].certificate.epoch
  }

  ghost predicate DatabaseOk(r: string, db: Database) {
    Conserved(db) && RowsOk(r, db.books, db.transfers) && EpochsDistinct(db.transfers)
  }

  ghost predicate IdsUnique(dbs: map<string, Database>) {
    forall r, q, id | r in dbs && q in dbs && r != q :: !(id in dbs[r].transfers && id in dbs[q].transfers)
  }

  /** A signed certificate is the stored draft of its source. */
  predicate Issued(dbs: map<string, Database>, c: Certificate) {
    c.source in dbs && c.transfer in dbs[c.source].transfers && dbs[c.source].transfers[c.transfer].certificate == c
  }

  /** The destination of a certificate has committed its consumption. */
  predicate Taken(dbs: map<string, Database>, c: Certificate) {
    && c.destination in dbs && c.transfer in dbs[c.destination].consumed
    && dbs[c.destination].consumed[c.transfer].receipt.certificate == c
  }

  /** A signed receipt is the stored receipt of its destination. */
  predicate Receipted(dbs: map<string, Database>, r: Receipt) {
    Taken(dbs, r.certificate) && dbs[r.certificate.destination].consumed[r.certificate.transfer].receipt == r
  }

  ghost predicate ConsumedOk(s: System) {
    forall r, id | r in s.dbs && id in s.dbs[r].consumed ::
      var c := s.dbs[r].consumed[id].receipt.certificate;
      c.transfer == id && c.destination == r && c in s.certificates
  }

  ghost predicate AcknowledgedOk(s: System) {
    forall r, id | r in s.dbs && id in s.dbs[r].transfers ::
      s.dbs[r].transfers[id].acknowledged.Some? ==>
        var x := s.dbs[r].transfers[id].acknowledged.value;
        x.certificate == s.dbs[r].transfers[id].certificate && Receipted(s.dbs, x)
  }

  ghost predicate Inv(s: System) {
    && (forall r | r in s.dbs :: DatabaseOk(r, s.dbs[r]))
    && IdsUnique(s.dbs)
    && (forall c | c in s.certificates :: Issued(s.dbs, c))
    && (forall x | x in s.receipts :: Receipted(s.dbs, x))
    && ConsumedOk(s) && AcknowledgedOk(s)
  }

  // ----- one database at a time -----------------------------------------------------------

  lemma AvailableUpdate(rights: map<string, Right>, region: string, x: Right)
    ensures Total(AvailableOf(rights[region := x])) ==
            Total(AvailableOf(rights)) - (if region in rights then rights[region].available else 0) + x.available
  {
    assert AvailableOf(rights[region := x]) == AvailableOf(rights)[region := x.available];
    TotalUpdate(AvailableOf(rights), region, x.available);
  }

  /** Crediting a region by an amount it can bear moves the spendable total by that amount. */
  lemma CreditMoves(b: Book, region: string, amount: int)
    ensures Spendable(Credit(b, region, amount)) == Spendable(b) + amount
  {
    AvailableUpdate(b.rights, region, Credit(b, region, amount).rights[region]);
  }

  lemma MovingUpdate(transfers: map<string, TransferRow>, id: string, row: TransferRow, h: Holder)
    ensures Total(MovingOf(transfers[id := row], h)) ==
            Total(MovingOf(transfers, h)) - (if id in transfers then Moving(transfers[id], h) else 0) + Moving(row, h)
  {
    assert MovingOf(transfers[id := row], h) == MovingOf(transfers, h)[id := Moving(row, h)];
    TotalUpdate(MovingOf(transfers, h), id, Moving(row, h));
  }

  function Moving(row: TransferRow, h: Holder): int {
    if row.certificate.holder == h && row.acknowledged.None? then row.certificate.amount else 0
  }

  lemma MovingNonNegative(r: string, books: map<Holder, Book>, transfers: map<string, TransferRow>, h: Holder)
    requires RowsOk(r, books, transfers)
    ensures NonNegative(MovingOf(transfers, h)) && 0 <= Total(MovingOf(transfers, h))
    ensures forall id | id in transfers :: Moving(transfers[id], h) <= Total(MovingOf(transfers, h))
  {
    hide Total;
    forall id | id in transfers ensures MovingOf(transfers, h)[id] >= 0 {
      assert RowOk(r, books, id, transfers[id].certificate);
    }
    TotalBounds(MovingOf(transfers, h));
    forall id | id in transfers ensures Moving(transfers[id], h) <= Total(MovingOf(transfers, h)) {
      assert MovingOf(transfers, h)[id] == Moving(transfers[id], h);
    }
  }

  /** A holder no transfer row mentions has nothing in transit. */
  lemma {:induction false} NothingMoving(transfers: map<string, TransferRow>, h: Holder)
    requires forall id | id in transfers :: transfers[id].certificate.holder != h
    ensures Total(MovingOf(transfers, h)) == 0
    decreases |transfers|
  {
    if id :| id in transfers {
      NothingMoving(transfers - {id}, h);
      assert MovingOf(transfers, h) - {id} == MovingOf(transfers - {id}, h);
      TotalRemove(MovingOf(transfers, h), id);
    } else {
      assert MovingOf(transfers, h) == map[];
    }
  }

  lemma RightsBound(b: Book, region: string)
    requires (forall r | r in b.rights :: b.rights[r].available >= 0) && region in b.rights
    ensures b.rights[region].available <= Total(AvailableOf(b.rights)) && 0 <= Total(AvailableOf(b.rights))
  {
    TotalBounds(AvailableOf(b.rights));
    assert AvailableOf(b.rights)[region] == b.rights[region].available;
  }

  /** An effect moves total and spendable by the same amount and never meets an inconsistent authority. */
  lemma MutatedConserves(b: Book, kind: EffectKind, region: string, amount: int, moving: int)
    requires BookConserved(b, moving) && amount > 0 && moving >= 0
    ensures Mutated(b, kind, region, amount).1 != Some(ErrInconsistent)
    ensures var (b', error) := Mutated(b, kind, region, amount);
            error.None? ==>
              && BookConserved(b', moving)
              && Spendable(b') ==
                 Spendable(b) + (if kind == Spend then -amount else if kind == Return then amount else 0)
              && (forall r | r in b.rights :: r in b'.rights && b.rights[r].version <= b'.rights[r].version)
  {
    hide Total;
    CreditMoves(b, region, amount);
    CreditMoves(b, region, -amount);
    if region in b.rights {
      RightsBound(b, region);
    }
  }

  /** What a database never takes back: the drafts it issued and the receipts it wrote. */
  ghost predicate Grows(db: Database, db': Database) {
    && (forall id | id in db.transfers ::
          id in db'.transfers && db'.transfers[id].certificate == db.transfers[id].certificate)
    && (forall id | id in db.consumed :: id in db'.consumed && db'.consumed[id].receipt == db.consumed[id].receipt)
  }

  lemma BookKeeps(r: string, db: Database, h: Holder, b: Book, effects: map<string, EffectRow>)
    requires DatabaseOk(r, db) && BookConserved(b, Total(MovingOf(db.transfers, h)))
    requires h in db.books ==>
               forall q | q in db.books[h].rights ::
                 q in b.rights && db.books[h].rights[q].version <= b.rights[q].version
    ensures DatabaseOk(r, db.(books := db.books[h := b], effects := effects))
  {
    hide BookConserved, Total;
    var books := db.books[h := b];
    forall id | id in db.transfers ensures RowOk(r, books, id, db.transfers[id].certificate) {
      assert RowOk(r, db.books, id, db.transfers[id].certificate);
    }
  }

  lemma CreateKeeps(r: string, db: Database, h: Holder, total: int)
    requires DatabaseOk(r, db)
    ensures DatabaseOk(r, CreateAuthority(db, h, total).0)
  {
    hide DatabaseOk;
    if h.account != "" && h.asset != "" && total >= 0 && h !in db.books {
      NoRows(r, db, h);
      NothingMoving(db.transfers, h);
      assert AvailableOf(map[]) == map[];
      BookKeeps(r, db, h, Book(total, total, 0, map[]), db.effects);
    }
  }

  /** Transfer rows only mention holders with an authority. */
  lemma NoRows(r: string, db: Database, h: Holder)
    requires DatabaseOk(r, db) && h !in db.books
    ensures forall id | id in db.transfers :: db.transfers[id].certificate.holder != h
  {
    forall id | id in db.transfers ensures db.transfers[id].certificate.holder != h {
      assert RowOk(r, db.books, id, db.transfers[id].certificate);
    }
  }

  lemma HolderConserved(r: string, db: Database, h: Holder)
    requires DatabaseOk(r, db) && h in db.books
    ensures BookConserved(db.books[h], Total(MovingOf(db.transfers, h))) && 0 <= Total(MovingOf(db.transfers, h))
  {
    hide BookConserved;
    MovingNonNegative(r, db.books, db.transfers, h);
  }

  lemma EffectKeeps(r: string, db: Database, kind: EffectKind, q: EffectRequest)
    requires DatabaseOk(r, db)
    ensures DatabaseOk(r, ApplyEffect(db, kind, q).0)
    ensures ApplyEffect(db, kind, q).2 != Some(ErrInconsistent)
  {
    hide DatabaseOk, Mutated, BookConserved, Total, MovingOf;
    if !ValidEffect(q) {
    } else if q.id in db.effects {
    } else if q.holder !in db.books {
    } else {
      HolderConserved(r, db, q.holder);
      MutatedConserves(db.books[q.holder], kind, q.region, q.amount, Total(MovingOf(db.transfers, q.holder)));
      var (b, error) := Mutated(db.books[q.holder], kind, q.region, q.amount);
      if error.None? {
        BookKeeps(r, db, q.holder, b, db.effects[q.id := EffectRow(kind, q)]);
      } else {
      }
    }
  }

  /** A draft the rows of its database can bear: enough rights, and the next number of the rights row. */
  predicate Draftable(r: string, db: Database, c: Certificate) {
    && c.source == r && c.source != c.destination && c.amount > 0 && c.transfer !in db.transfers
    && c.holder in db.books && r in db.books[c.holder].rights && c.amount <= db.books[c.holder].rights[r].available
    && c.epoch == db.books[c.holder].rights[r].version + 1
  }

  lemma DraftConserves(r: string, db: Database, c: Certificate)
    requires Conserved(db) && Draftable(r, db, c)
    ensures Conserved(AfterDraft(db, c))
  {
    hide Total, Spendable, MovingOf;
    var db' := AfterDraft(db, c);
    CreditMoves(db.books[c.holder], r, -c.amount);
    forall k | k in db'.books ensures BookConserved(db'.books[k], Total(MovingOf(db'.transfers, k))) {
      assert BookConserved(db.books[k], Total(MovingOf(db.transfers, k)));
      MovingUpdate(db.transfers, c.transfer, TransferRow(c, false, None), k);
    }
  }

  lemma DraftRows(r: string, db: Database, c: Certificate)
    requires RowsOk(r, db.books, db.transfers) && EpochsDistinct(db.transfers) && Draftable(r, db, c)
    ensures RowsOk(r, AfterDraft(db, c).books, AfterDraft(db, c).transfers)
            && EpochsDistinct(AfterDraft(db, c).transfers)
  {
    var db' := AfterDraft(db, c);
    forall id | id in db.transfers
      ensures RowOk(r, db'.books, id, db.transfers[id].certificate)
      ensures db.transfers[id].certificate.holder == c.holder ==> db.transfers[id].certificate.epoch < c.epoch
    {
      assert RowOk(r, db.books, id, db.transfers[id].certificate);
    }
  }

  /** Drafting moves the amount from the regional row into transit under a number never used before. */
  lemma AfterDraftKeeps(r: string, db: Database, c: Certificate)
    requires DatabaseOk(r, db) && Draftable(r, db, c)
    ensures DatabaseOk(r, AfterDraft(db, c))
  {
    hide Conserved, RowsOk, EpochsDistinct, AfterDraft;
    DraftConserves(r, db, c);
    DraftRows(r, db, c);
  }

  lemma DraftKeeps(r: string, db: Database, q: TransferRequest, b: Binding)
    requires DatabaseOk(r, db) && b.region == r
    ensures DatabaseOk(r, Draft(db, q, b).0)
  {
    hide DatabaseOk, AfterDraft;
    if !ValidTransfer(q) {
    } else if !ValidBinding(b) || b.region != q.source || b.entity != q.sourceEntity {
    } else if q.transfer in db.transfers {
    } else if q.holder !in db.books || q.source !in db.books[q.holder].rights {
    } else {
      var right := db.books[q.holder].rights[q.source];
      if right.available < q.amount || right.version == MAX_INT64 {
      } else {
        AfterDraftKeeps(r, db, DraftOf(q, right.version + 1, b));
      }
    }
  }

  lemma SameRows(r: string, db: Database, id: string, row: TransferRow)
    requires DatabaseOk(r, db) && id in db.transfers && row.certificate == db.transfers[id].certificate
    ensures RowsOk(r, db.books, db.transfers[id := row]) && EpochsDistinct(db.transfers[id := row])
  {
    var transfers := db.transfers[id := row];
    forall i | i in transfers ensures RowOk(r, db.books, i, transfers[i].certificate) {
      assert RowOk(r, db.books, i, db.transfers[i].certificate);
    }
  }

  lemma AttachCertificateKeeps(r: string, db: Database, c: Certificate)
    requires DatabaseOk(r, db)
    ensures DatabaseOk(r, AttachCertificate(db, c).0)
  {
    hide Total;
    var id := c.transfer;
    if id in db.transfers && db.transfers[id].certificate == c {
      var row := db.transfers[id].(signed := true);
      SameRows(r, db, id, row);
      forall h | h in db.books ensures BookConserved(db.books[h], Total(MovingOf(db.transfers[id := row], h))) {
        MovingUpdate(db.transfers, id, row, h);
      }
    }
  }

  /** Settling takes the amount out of the total and out of transit, and the total always covers it. */
  lemma AcknowledgeKeeps(r: string, db: Database, c: Certificate, x: Receipt)
    requires DatabaseOk(r, db)
    ensures DatabaseOk(r, Acknowledge(db, c, x).0)
    ensures Acknowledge(db, c, x).1 != Some(ErrInconsistent)
  {
    hide DatabaseOk, AfterAcknowledge;
    if x.certificate != c {
    } else if c.transfer !in db.transfers {
    } else if db.transfers[c.transfer].certificate != c || !db.transfers[c.transfer].signed {
    } else if db.transfers[c.transfer].acknowledged.Some? {
    } else {
      AfterAcknowledgeKeeps(r, db, c, x);
    }
  }

  lemma AfterAcknowledgeKeeps(r: string, db: Database, c: Certificate, x: Receipt)
    requires DatabaseOk(r, db) && c.transfer in db.transfers
    requires db.transfers[c.transfer].certificate == c && db.transfers[c.transfer].acknowledged.None?
    ensures c.holder in db.books && c.amount <= db.books[c.holder].total
    ensures db.books[c.holder].unallocated <= db.books[c.holder].total - c.amount
    ensures DatabaseOk(r, AfterAcknowledge(db, c, x))
  {
    hide Conserved, EpochsDistinct, AfterAcknowledge;
    assert RowOk(r, db.books, c.transfer, c);
    TotalCovers(r, db, c);
    AcknowledgeConserves(db, c, x);
    AcknowledgeRows(r, db, c, x);
  }

  lemma TotalCovers(r: string, db: Database, c: Certificate)
    requires DatabaseOk(r, db) && c.transfer in db.transfers && c.holder in db.books && r in db.books[c.holder].rights
    requires db.transfers[c.transfer].certificate == c && db.transfers[c.transfer].acknowledged.None?
    ensures db.books[c.holder].unallocated + c.amount <= db.books[c.holder].total && db.books[c.holder].unallocated >= 0
  {
    hide Total, EpochsDistinct;
    MovingNonNegative(r, db.books, db.transfers, c.holder);
    assert BookConserved(db.books[c.holder], Total(MovingOf(db.transfers, c.holder)));
    RightsBound(db.books[c.holder], r);
    assert Moving(db.transfers[c.transfer], c.holder) == c.amount;
  }

  lemma AcknowledgeConserves(db: Database, c: Certificate, x: Receipt)
    requires Conserved(db) && c.transfer in db.transfers && c.holder in db.books
    requires db.transfers[c.transfer].certificate == c && db.transfers[c.transfer].acknowledged.None?
    ensures Conserved(AfterAcknowledge(db, c, x))
  {
    hide Total, MovingOf;
    var db', row := AfterAcknowledge(db, c, x), db.transfers[c.transfer].(acknowledged := Some(x));
    forall k | k in db'.books ensures BookConserved(db'.books[k], Total(MovingOf(db'.transfers, k))) {
      assert BookConserved(db.books[k], Total(MovingOf(db.transfers, k)));
      MovingUpdate(db.transfers, c.transfer, row, k);
    }
  }

  lemma AcknowledgeRows(r: string, db: Database, c: Certificate, x: Receipt)
    requires DatabaseOk(r, db) && c.transfer in db.transfers && c.holder in db.books
    requires db.transfers[c.transfer].certificate == c
    ensures RowsOk(r, AfterAcknowledge(db, c, x).books, AfterAcknowledge(db, c, x).transfers)
    ensures EpochsDistinct(AfterAcknowledge(db, c, x).transfers)
  {
    hide Conserved, EpochsDistinct;
    var db' := AfterAcknowledge(db, c, x);
    SameRows(r, db, c.transfer, db.transfers[c.transfer].(acknowledged := Some(x)));
    forall i | i in db'.transfers ensures RowOk(r, db'.books, i, db'.transfers[i].certificate) {
      assert RowOk(r, db.books, i, db'.transfers[i].certificate);
    }
  }

  lemma ArrivedConserves(r: string, db: Database, c: Certificate)
    requires DatabaseOk(r, db) && c.amount > 0
    ensures BookConserved(Arrived(db, c), Total(MovingOf(db.transfers, c.holder)))
    ensures Spendable(Arrived(db, c)) == (if c.holder in db.books then Spendable(db.books[c.holder]) else 0) + c.amount
  {
    hide Total, DatabaseOk, MovingOf;
    if c.holder in db.books {
      HolderConserved(r, db, c.holder);
      CreditMoves(db.books[c.holder], c.destination, c.amount);
    } else {
      NoRows(r, db, c.holder);
      NothingMoving(db.transfers, c.holder);
      OneRight(c.destination, c.amount);
    }
  }

  lemma OneRight(region: string, amount: int)
    ensures Total(AvailableOf(map[region := Right(amount, 0)])) == amount
  {
    var m := AvailableOf(map[region := Right(amount, 0)]);
    assert m == map[region := amount];
    TotalRemove(m, region);
    assert m - {region} == map[];
  }

  lemma ConsumeKeeps(r: string, db: Database, c: Certificate, b: Binding)
    requires DatabaseOk(r, db) && c.amount > 0
    ensures DatabaseOk(r, Consume(db, c, b).0)
  {
    hide DatabaseOk, IssuanceUsed, ArrivalHasRoom, Arrived, Watermark;
    if !ValidBinding(b) || b.region != c.destination || b.entity != c.destinationEntity {
    } else if c.transfer in db.consumed {
    } else if IssuanceUsed(db.consumed, c) {
    } else if Watermark(db, b.entity) >= MAX_INT64 {
    } else if !ArrivalHasRoom(db, c) {
    } else {
      ArrivedConserves(r, db, c);
      ArrivedRights(db, c);
      BookKeeps(r, db, c.holder, Arrived(db, c), db.effects);
      OtherRows(r, db.(books := db.books[c.holder := Arrived(db, c)]), AfterConsume(db, c, b));
    }
  }

  lemma ArrivedRights(db: Database, c: Certificate)
    ensures c.holder in db.books ==>
              forall q | q in db.books[c.holder].rights ::
                q in Arrived(db, c).rights && db.books[c.holder].rights[q].version <= Arrived(db, c).rights[q].version
  {
  }

  /** Effect receipts, consumptions and watermarks are not part of conservation. */
  lemma OtherRows(r: string, db: Database, db': Database)
    requires DatabaseOk(r, db) && db'.books == db.books && db'.transfers == db.transfers
    ensures DatabaseOk(r, db')
  {
  }
}
