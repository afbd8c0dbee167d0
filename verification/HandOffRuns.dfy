/** Whole runs of the hand-off: conservation across databases, no conflict for honest certificates, and completion. */
module HandOffRuns {
  import opened Amounts
  import opened Totals
  import opened Escrow
  import opened HandOff

  // ----- what each step leaves of its database ----------------------------------------------

  lemma StoredGrows(s: System, step: Step)
    requires Enabled(s, step)
    ensures Grows(s.dbs[step.region], Stored(s, step))
  {
    hide Mutated, IssuanceUsed, ArrivalHasRoom, Arrived, SameTransfer;
    match step
    case CreateStep(_, _, _) =>
    case EffectStep(_, _, _) =>
    case DraftStep(_, _, _) =>
    case SignCertificateStep(_, _) =>
    case AttachCertificateStep(_, _) =>
    case ConsumeStep(_, _, _) =>
    case SignReceiptStep(_, _) =>
    case AttachReceiptStep(_, _) =>
    case AcknowledgeStep(_, _, _) =>
  }

  lemma StoredKeeps(s: System, step: Step)
    requires Inv(s) && Enabled(s, step)
    ensures DatabaseOk(step.region, Stored(s, step))
  {
    hide Conserved, RowsOk, EpochsDistinct, CreateAuthority, ApplyEffect, Draft, AttachCertificate, Consume,
         Acknowledge;
    var r, db := step.region, s.dbs[step.region];
    match step
    case CreateStep(_, h, total) => CreateKeeps(r, db, h, total);
    case EffectStep(_, kind, q) => EffectKeeps(r, db, kind, q);
    case DraftStep(_, q, b) => DraftKeeps(r, db, q, b);
    case SignCertificateStep(_, _) =>
    case AttachCertificateStep(_, c) => AttachCertificateKeeps(r, db, c);
    case ConsumeStep(_, c, b) =>
      IssuedAmount(s, c);
      ConsumeKeeps(r, db, c, b);
    case SignReceiptStep(_, _) =>
    case AttachReceiptStep(_, x) => OtherRows(r, db, AttachReceipt(db, x).0);
    case AcknowledgeStep(_, c, x) => AcknowledgeKeeps(r, db, c, x);
  }

  lemma IssuedAmount(s: System, c: Certificate)
    requires Inv(s) && c in s.certificates
    ensures Issued(s.dbs, c) && RowOk(c.source, s.dbs[c.source].books, c.transfer, c)
  {
    hide Conserved, EpochsDistinct;
    assert Issued(s.dbs, c);
    assert DatabaseOk(c.source, s.dbs[c.source]);
  }

  // ----- the invariant over steps -----------------------------------------------------------

  lemma IssuedStays(dbs: map<string, Database>, r: string, db: Database, c: Certificate)
    requires r in dbs && Grows(dbs[r], db) && Issued(dbs, c)
    ensures Issued(dbs[r := db], c)
  {
  }

  lemma ReceiptedStays(dbs: map<string, Database>, r: string, db: Database, x: Receipt)
    requires r in dbs && Grows(dbs[r], db) && Receipted(dbs, x)
    ensures Receipted(dbs[r := db], x)
  {
  }

  /** The only step that adds a transfer is a draft, under an identifier no other database uses. */
  lemma NewTransfers(s: System, step: Step, id: string)
    requires Enabled(s, step) && id in Stored(s, step).transfers && id !in s.dbs[step.region].transfers
    ensures step.DraftStep? && step.transfer.transfer == id
  {
    hide Mutated, IssuanceUsed, ArrivalHasRoom, Arrived, SameTransfer;
  }

  /** The only step that adds a consumption is a consume of a signed certificate. */
  lemma NewConsumptions(s: System, step: Step, id: string)
    requires Enabled(s, step) && id in Stored(s, step).consumed && id !in s.dbs[step.region].consumed
    ensures step.ConsumeStep? && step.certificate.transfer == id
    ensures Stored(s, step).consumed[id].receipt.certificate == step.certificate
  {
    hide Mutated, IssuanceUsed, ArrivalHasRoom, Arrived, SameTransfer;
  }

  /** The only step that settles a transfer is an acknowledgement with its own receipt. */
  lemma NewAcknowledgements(s: System, step: Step, id: string)
    requires Enabled(s, step) && id in Stored(s, step).transfers && Stored(s, step).transfers[id].acknowledged.Some?
    ensures id in s.dbs[step.region].transfers
    ensures s.dbs[step.region].transfers[id].acknowledged == Stored(s, step).transfers[id].acknowledged ||
            (step.AcknowledgeStep? && step.receipt.certificate == Stored(s, step).transfers[id].certificate &&
             Stored(s, step).transfers[id].acknowledged == Some(step.receipt))
  {
    hide Mutated, IssuanceUsed, ArrivalHasRoom, Arrived, SameTransfer;
  }

  lemma StepKeepsIds(s: System, step: Step)
    requires Inv(s) && Enabled(s, step)
    ensures IdsUnique(Apply(s, step).dbs)
  {
    hide DatabaseOk, Stored, ConsumedOk, AcknowledgedOk, Issued, Receipted;
    var s' := Apply(s, step);
    forall r, q, id | r in s'.dbs && q in s'.dbs && r != q
      ensures !(id in s'.dbs[r].transfers && id in s'.dbs[q].transfers) {
      if r == step.region && id in Stored(s, step).transfers && id !in s.dbs[r].transfers {
        NewTransfers(s, step, id);
      }
      if q == step.region && id in Stored(s, step).transfers && id !in s.dbs[q].transfers {
        NewTransfers(s, step, id);
      }
    }
  }

  lemma StepKeepsSigned(s: System, step: Step)
    requires Inv(s) && Enabled(s, step)
    ensures forall c | c in Apply(s, step).certificates :: Issued(Apply(s, step).dbs, c)
    ensures forall x | x in Apply(s, step).receipts :: Receipted(Apply(s, step).dbs, x)
  {
    hide Stored, AcknowledgedOk, Conserved, EpochsDistinct;
    var s', r := Apply(s, step), step.region;
    StoredGrows(s, step);
    forall c | c in s'.certificates ensures Issued(s'.dbs, c) {
      if c !in s.certificates {
        assert DatabaseOk(r, s.dbs[r]) && RowOk(r, s.dbs[r].books, step.id, c);
      }
      IssuedStays(s.dbs, r, Stored(s, step), c);
    }
    forall x | x in s'.receipts ensures Receipted(s'.dbs, x) {
      ReceiptedStays(s.dbs, r, Stored(s, step), x);
    }
  }

  lemma StepKeepsConsumed(s: System, step: Step)
    requires Inv(s) && Enabled(s, step)
    ensures ConsumedOk(Apply(s, step))
  {
    hide Stored, AcknowledgedOk, DatabaseOk, IdsUnique, Issued, Receipted;
    var s' := Apply(s, step);
    StoredGrows(s, step);
    forall r, id | r in s'.dbs && id in s'.dbs[r].consumed
      ensures var c := s'.dbs[r].consumed[id].receipt.certificate;
              c.transfer == id && c.destination == r && c in s'.certificates
    {
      if r == step.region && id !in s.dbs[r].consumed {
        NewConsumptions(s, step, id);
      } else {
        assert s.dbs[r].consumed[id].receipt == s'.dbs[r].consumed[id].receipt;
      }
    }
  }

  lemma StepKeepsAcknowledged(s: System, step: Step)
    requires Inv(s) && Enabled(s, step)
    ensures AcknowledgedOk(Apply(s, step))
  {
    hide Stored, DatabaseOk, IdsUnique, Issued, ConsumedOk, Receipted;
    var s' := Apply(s, step);
    StoredGrows(s, step);
    forall r, id | r in s'.dbs && id in s'.dbs[r].transfers && s'.dbs[r].transfers[id].acknowledged.Some?
      ensures var x := s'.dbs[r].transfers[id].acknowledged.value;
              x.certificate == s'.dbs[r].transfers[id].certificate && Receipted(s'.dbs, x)
    {
      if r == step.region {
        NewAcknowledgements(s, step, id);
        assert s.dbs[r].transfers[id].certificate == s'.dbs[r].transfers[id].certificate;
      }
      assert Receipted(s.dbs, s'.dbs[r].transfers[id].acknowledged.value);
      ReceiptedStays(s.dbs, step.region, Stored(s, step), s'.dbs[r].transfers[id].acknowledged.value);
    }
  }

  /** Every step of every database keeps the invariant of the whole system. */
  lemma StepKeeps(s: System, step: Step)
    requires Inv(s) && Enabled(s, step)
    ensures Inv(Apply(s, step))
  {
    hide DatabaseOk, IdsUnique, Issued, Receipted, ConsumedOk, AcknowledgedOk, Stored;
    StoredKeeps(s, step);
    StepKeepsIds(s, step);
    StepKeepsSigned(s, step);
    StepKeepsConsumed(s, step);
    StepKeepsAcknowledged(s, step);
  }

  // ----- conservation across databases ----------------------------------------------------------

  /** What of one holder a database has issued and its destination has not yet consumed. */
  ghost function PendingOf(dbs: map<string, Database>, transfers: map<string, TransferRow>,
                           h: Holder): map<string, int> {
    map id | id in transfers :: Pending(dbs, transfers[id].certificate, h)
  }

  function Pending(dbs: map<string, Database>, c: Certificate, h: Holder): int {
    if c.holder == h && !Taken(dbs, c) then c.amount else 0
  }

  ghost function SpendableIn(db: Database, h: Holder): int {
    if h in db.books then Spendable(db.books[h]) else 0
  }

  /** What one database holds for a holder, and what it has sent that has not arrived. */
  ghost function Share(dbs: map<string, Database>, db: Database, h: Holder): int {
    SpendableIn(db, h) + Total(PendingOf(dbs, db.transfers, h))
  }

  ghost function ShareOf(dbs: map<string, Database>, h: Holder): map<string, int> {
    map r | r in dbs :: Share(dbs, dbs[r], h)
  }

  /** Everything a holder can spend anywhere, plus what is on its way. */
  ghost function Value(s: System, h: Holder): int {
    Total(ShareOf(s.dbs, h))
  }

  /** What a step adds to a holder's value: nothing, unless it creates, spends or returns. */
  ghost function Delta(s: System, step: Step, h: Holder): int
    requires Enabled(s, step)
  {
    match step
    case CreateStep(r, holder, total) =>
      if holder == h && CreateAuthority(s.dbs[r], holder, total).0 != s.dbs[r] then total else 0
    case EffectStep(r, kind, q) =>
      if q.holder == h && ApplyEffect(s.dbs[r], kind, q).0 != s.dbs[r]
      then (if kind == Spend then -q.amount else if kind == Return then q.amount else 0) else 0
    case _ => 0
  }

  /** Consumptions that stay the same leave what is pending the same. */
  lemma SameTaken(dbs: map<string, Database>, dbs': map<string, Database>, transfers: map<string, TransferRow>,
                  h: Holder)
    requires forall id | id in transfers ::
               Taken(dbs, transfers[id].certificate) == Taken(dbs', transfers[id].certificate)
    ensures PendingOf(dbs', transfers, h) == PendingOf(dbs, transfers, h)
  {
  }

  lemma PendingUpdate(dbs: map<string, Database>, transfers: map<string, TransferRow>, id: string, row: TransferRow,
                      h: Holder)
    ensures Total(PendingOf(dbs, transfers[id := row], h)) == Total(PendingOf(dbs, transfers, h))
            - (if id in transfers then Pending(dbs, transfers[id].certificate, h) else 0)
            + Pending(dbs, row.certificate, h)
  {
    hide Pending;
    assert PendingOf(dbs, transfers[id := row], h) ==
           PendingOf(dbs, transfers, h)[id := Pending(dbs, row.certificate, h)];
    TotalUpdate(PendingOf(dbs, transfers, h), id, Pending(dbs, row.certificate, h));
  }

  /** Changing one database whose consumptions stay changes the value by the change of its own share. */
  lemma ValueMoves(s: System, r: string, db: Database, h: Holder)
    requires r in s.dbs && (forall c :: Taken(s.dbs, c) == Taken(s.dbs[r := db], c))
    ensures Total(ShareOf(s.dbs[r := db], h)) == Value(s, h)
            - SpendableIn(s.dbs[r], h) - Total(PendingOf(s.dbs, s.dbs[r].transfers, h))
            + SpendableIn(db, h) + Total(PendingOf(s.dbs, db.transfers, h))
  {
    hide Total, Taken, SpendableIn, PendingOf;
    var dbs' := s.dbs[r := db];
    forall q | q in dbs' ensures PendingOf(dbs', dbs'[q].transfers, h) == PendingOf(s.dbs, dbs'[q].transfers, h) {
      SameTaken(s.dbs, dbs', dbs'[q].transfers, h);
    }
    var share := SpendableIn(db, h) + Total(PendingOf(s.dbs, db.transfers, h));
    assert ShareOf(dbs', h) == ShareOf(s.dbs, h)[r := share];
    TotalUpdate(ShareOf(s.dbs, h), r, share);
  }

  lemma TakenSame(s: System, r: string, db: Database)
    requires r in s.dbs && db.consumed.Keys == s.dbs[r].consumed.Keys
    requires forall id | id in db.consumed :: db.consumed[id].receipt == s.dbs[r].consumed[id].receipt
    ensures forall c :: Taken(s.dbs, c) == Taken(s.dbs[r := db], c)
  {
  }

  lemma CreateConserves(s: System, r: string, holder: Holder, total: int, h: Holder)
    requires r in s.dbs
    ensures Total(ShareOf(s.dbs[r := CreateAuthority(s.dbs[r], holder, total).0], h)) ==
            Value(s, h) + Delta(s, CreateStep(r, holder, total), h)
  {
    hide Total, PendingOf, AvailableOf;
    var db, db' := s.dbs[r], CreateAuthority(s.dbs[r], holder, total).0;
    TakenSame(s, r, db');
    ValueMoves(s, r, db', h);
    EmptyRights();
    if holder !in db.books && holder in db'.books {
      assert db'.books != db.books;
    }
  }

  lemma EmptyRights()
    ensures Total(AvailableOf(map[])) == 0
  {
    assert AvailableOf(map[]) == map[];
  }

  lemma EffectConserves(s: System, r: string, kind: EffectKind, q: EffectRequest, h: Holder)
    requires Inv(s) && r in s.dbs
    ensures Total(ShareOf(s.dbs[r := ApplyEffect(s.dbs[r], kind, q).0], h)) ==
            Value(s, h) + Delta(s, EffectStep(r, kind, q), h)
  {
    hide Total, PendingOf, Spendable, Mutated, BookConserved, MovingOf, IdsUnique, ConsumedOk, AcknowledgedOk, RowsOk,
         EpochsDistinct, Conserved;
    var db, db' := s.dbs[r], ApplyEffect(s.dbs[r], kind, q).0;
    assert DatabaseOk(r, db);
    TakenSame(s, r, db');
    ValueMoves(s, r, db', h);
    if !ValidEffect(q) {
    } else if q.id in db.effects {
    } else if q.holder !in db.books {
    } else {
      HolderConserved(r, db, q.holder);
      MutatedConserves(db.books[q.holder], kind, q.region, q.amount, Total(MovingOf(db.transfers, q.holder)));
      if Mutated(db.books[q.holder], kind, q.region, q.amount).1.None? {
        assert db'.effects != db.effects;
      } else {
      }
    }
  }

  /** Only issued certificates are ever consumed. */
  lemma TakenIssued(s: System, c: Certificate)
    requires Inv(s)
    ensures Taken(s.dbs, c) ==> Issued(s.dbs, c)
  {
    hide DatabaseOk, IdsUnique, AcknowledgedOk, Receipted;
  }

  lemma AfterDraftConserves(s: System, r: string, c: Certificate, h: Holder)
    requires Inv(s) && r in s.dbs && c.source == r && c.transfer !in s.dbs[r].transfers
    requires c.holder in s.dbs[r].books && r in s.dbs[r].books[c.holder].rights
    ensures Total(ShareOf(s.dbs[r := AfterDraft(s.dbs[r], c)], h)) == Value(s, h)
  {
    hide Total, PendingOf, Spendable, Inv;
    var db, db' := s.dbs[r], AfterDraft(s.dbs[r], c);
    TakenSame(s, r, db');
    ValueMoves(s, r, db', h);
    TakenIssued(s, c);
    CreditMoves(db.books[c.holder], r, -c.amount);
    PendingUpdate(s.dbs, db.transfers, c.transfer, TransferRow(c, false, None), h);
  }

  lemma DraftConservesValue(s: System, r: string, q: TransferRequest, b: Binding, h: Holder)
    requires Inv(s) && r in s.dbs && b.region == r
    ensures Total(ShareOf(s.dbs[r := Draft(s.dbs[r], q, b).0], h)) == Value(s, h)
  {
    hide Total, ShareOf, Inv, AfterDraft;
    var db := s.dbs[r];
    assert s.dbs[r := db] == s.dbs;
    if !ValidTransfer(q) {
    } else if !ValidBinding(b) || b.region != q.source || b.entity != q.sourceEntity {
    } else if q.transfer in db.transfers {
    } else if q.holder !in db.books || q.source !in db.books[q.holder].rights {
    } else {
      var right := db.books[q.holder].rights[q.source];
      if right.available < q.amount || right.version == MAX_INT64 {
      } else {
        AfterDraftConserves(s, r, DraftOf(q, right.version + 1, b), h);
      }
    }
  }

  /** A row that keeps its certificate, beside rights that stay, changes no value. */
  lemma RowConserves(s: System, r: string, db': Database, id: string, row: TransferRow, h: Holder)
    requires r in s.dbs && id in s.dbs[r].transfers && row.certificate == s.dbs[r].transfers[id].certificate
    requires db'.transfers == s.dbs[r].transfers[id := row] && db'.consumed == s.dbs[r].consumed
    requires SpendableIn(db', h) == SpendableIn(s.dbs[r], h)
    ensures Total(ShareOf(s.dbs[r := db'], h)) == Value(s, h)
  {
    hide Total, PendingOf, SpendableIn;
    TakenSame(s, r, db');
    ValueMoves(s, r, db', h);
    PendingUpdate(s.dbs, s.dbs[r].transfers, id, row, h);
  }

  lemma AttachConserves(s: System, r: string, c: Certificate, h: Holder)
    requires r in s.dbs
    ensures Total(ShareOf(s.dbs[r := AttachCertificate(s.dbs[r], c).0], h)) == Value(s, h)
  {
    hide Total, ShareOf;
    var db := s.dbs[r];
    assert s.dbs[r := db] == s.dbs;
    if c.transfer !in db.transfers || db.transfers[c.transfer].certificate != c {
    } else {
      RowConserves(s, r, AttachCertificate(db, c).0, c.transfer, db.transfers[c.transfer].(signed := true), h);
    }
  }

  lemma AcknowledgeConservesValue(s: System, r: string, c: Certificate, x: Receipt, h: Holder)
    requires r in s.dbs
    ensures Total(ShareOf(s.dbs[r := Acknowledge(s.dbs[r], c, x).0], h)) == Value(s, h)
  {
    hide Total, ShareOf;
    var db := s.dbs[r];
    assert s.dbs[r := db] == s.dbs;
    if x.certificate != c {
    } else if c.transfer !in db.transfers {
    } else if db.transfers[c.transfer].certificate != c || !db.transfers[c.transfer].signed {
    } else if db.transfers[c.transfer].acknowledged.Some? {
    } else if c.holder !in db.books || db.books[c.holder].total < c.amount
              || db.books[c.holder].total - c.amount < db.books[c.holder].unallocated {
    } else if db.books[c.holder].version >= MAX_INT64 {
    } else {
      RowConserves(s, r, AfterAcknowledge(db, c, x), c.transfer, db.transfers[c.transfer].(acknowledged := Some(x)), h);
    }
  }

  lemma AttachReceiptConserves(s: System, r: string, x: Receipt, h: Holder)
    requires r in s.dbs
    ensures Total(ShareOf(s.dbs[r := AttachReceipt(s.dbs[r], x).0], h)) == Value(s, h)
  {
    hide Total, PendingOf, Spendable;
    var db' := AttachReceipt(s.dbs[r], x).0;
    TakenSame(s, r, db');
    ValueMoves(s, r, db', h);
  }

  // ----- consumption ---------------------------------------------------------------------------

  lemma NowTaken(dbs: map<string, Database>, c: Certificate, b: Binding, x: Certificate)
    requires c.destination in dbs && c.transfer !in dbs[c.destination].consumed
    ensures Taken(dbs[c.destination := AfterConsume(dbs[c.destination], c, b)], x) <==> Taken(dbs, x) || x == c
  {
  }

  /** Other databases still wait for exactly what they waited for. */
  lemma OthersPending(s: System, dbs': map<string, Database>, c: Certificate, r: string, h: Holder)
    requires Inv(s) && r in s.dbs && r != c.source && forall x :: Taken(dbs', x) <==> Taken(s.dbs, x) || x == c
    ensures PendingOf(dbs', s.dbs[r].transfers, h) == PendingOf(s.dbs, s.dbs[r].transfers, h)
  {
    hide Taken, Conserved, EpochsDistinct, IdsUnique, ConsumedOk, AcknowledgedOk, Issued, Receipted;
    assert DatabaseOk(r, s.dbs[r]);
    forall id | id in s.dbs[r].transfers ensures s.dbs[r].transfers[id].certificate != c {
      assert RowOk(r, s.dbs[r].books, id, s.dbs[r].transfers[id].certificate);
    }
    SameTaken(s.dbs, dbs', s.dbs[r].transfers, h);
  }

  /** The source stops waiting for the consumed transfer and for nothing else. */
  lemma SourcePending(s: System, dbs': map<string, Database>, c: Certificate, h: Holder)
    requires Inv(s) && Issued(s.dbs, c) && !Taken(s.dbs, c) && forall x :: Taken(dbs', x) <==> Taken(s.dbs, x) || x == c
    ensures var transfers := s.dbs[c.source].transfers;
            Total(PendingOf(dbs', transfers, h)) ==
            Total(PendingOf(s.dbs, transfers, h)) - if c.holder == h then c.amount else 0
  {
    hide Taken, Total, Conserved, EpochsDistinct, IdsUnique, ConsumedOk, AcknowledgedOk, Receipted;
    var transfers := s.dbs[c.source].transfers;
    assert DatabaseOk(c.source, s.dbs[c.source]);
    forall id | id in transfers && id != c.transfer ensures transfers[id].certificate != c {
      assert RowOk(c.source, s.dbs[c.source].books, id, transfers[id].certificate);
    }
    assert PendingOf(dbs', transfers, h) == PendingOf(s.dbs, transfers, h)[c.transfer := 0];
    TotalUpdate(PendingOf(s.dbs, transfers, h), c.transfer, 0);
  }

  lemma SharesMove(dbs: map<string, Database>, dbs': map<string, Database>, d: string, source: string, moved: int,
                   h: Holder)
    requires d in dbs && source in dbs && d != source && dbs'.Keys == dbs.Keys
    requires forall r | r in dbs && r != d && r != source :: Share(dbs', dbs'[r], h) == Share(dbs, dbs[r], h)
    requires Share(dbs', dbs'[d], h) == Share(dbs, dbs[d], h) + moved
    requires Share(dbs', dbs'[source], h) == Share(dbs, dbs[source], h) - moved
    ensures Total(ShareOf(dbs', h)) == Total(ShareOf(dbs, h))
  {
    hide Total, Share;
    var share := ShareOf(dbs, h);
    var gained := share[d := share[d] + moved];
    assert ShareOf(dbs', h) == gained[source := share[source] - moved];
    TotalUpdate(share, d, share[d] + moved);
    TotalUpdate(gained, source, share[source] - moved);
  }

  /** Consumption adds at the destination exactly what the source stops waiting for. */
  lemma AfterConsumeConserves(s: System, c: Certificate, b: Binding, h: Holder)
    requires Inv(s) && c in s.certificates && c.destination in s.dbs && c.transfer !in s.dbs[c.destination].consumed
    ensures Total(ShareOf(s.dbs[c.destination := AfterConsume(s.dbs[c.destination], c, b)], h)) == Value(s, h)
  {
    hide Total, PendingOf, Inv, Arrived, Taken, ShareOf;
    var d, dbs := c.destination, s.dbs;
    var dbs', moved := dbs[d := AfterConsume(dbs[d], c, b)], if c.holder == h then c.amount else 0;
    IssuedAmount(s, c);
    forall x ensures Taken(dbs', x) <==> Taken(dbs, x) || x == c { NowTaken(dbs, c, b, x); }
    NotTakenYet(dbs, c);
    DestinationGains(s, c, h);
    SourcePending(s, dbs', c, h);
    forall r | r in dbs && r != c.source
      ensures PendingOf(dbs', dbs[r].transfers, h) == PendingOf(dbs, dbs[r].transfers, h) {
      OthersPending(s, dbs', c, r, h);
    }
    SharesMove(dbs, dbs', d, c.source, moved, h);
  }

  lemma NotTakenYet(dbs: map<string, Database>, c: Certificate)
    requires c.destination in dbs && c.transfer !in dbs[c.destination].consumed
    ensures !Taken(dbs, c)
  {
  }

  lemma DestinationGains(s: System, c: Certificate, h: Holder)
    requires Inv(s) && c.destination in s.dbs && c.amount > 0
    ensures var db := s.dbs[c.destination];
            SpendableIn(db.(books := db.books[c.holder := Arrived(db, c)]), h) ==
            SpendableIn(db, h) + if c.holder == h then c.amount else 0
  {
    hide Spendable, Arrived, BookConserved, Conserved, RowsOk, EpochsDistinct, IdsUnique, ConsumedOk, AcknowledgedOk,
         MovingOf;
    assert DatabaseOk(c.destination, s.dbs[c.destination]);
    ArrivedConserves(c.destination, s.dbs[c.destination], c);
  }

  lemma ConsumeConserves(s: System, r: string, c: Certificate, b: Binding, h: Holder)
    requires Inv(s) && r in s.dbs && c in s.certificates && c.destination == r
    ensures Total(ShareOf(s.dbs[r := Consume(s.dbs[r], c, b).0], h)) == Value(s, h)
  {
    hide Total, ShareOf, Inv, AfterConsume, IssuanceUsed, ArrivalHasRoom, Watermark;
    var db := s.dbs[r];
    assert s.dbs[r := db] == s.dbs;
    if !ValidBinding(b) || b.region != c.destination || b.entity != c.destinationEntity {
    } else if c.transfer in db.consumed {
    } else if IssuanceUsed(db.consumed, c) {
    } else if Watermark(db, b.entity) >= MAX_INT64 {
    } else if !ArrivalHasRoom(db, c) {
    } else {
      AfterConsumeConserves(s, c, b, h);
    }
  }

  /** Every step changes a holder's value by what it creates, spends or returns, and by nothing else. */
  lemma StepConserves(s: System, step: Step, h: Holder)
    requires Inv(s) && Enabled(s, step)
    ensures Value(Apply(s, step), h) == Value(s, h) + Delta(s, step, h)
  {
    hide Total, ShareOf, Inv, CreateAuthority, ApplyEffect, Draft, AttachCertificate, Consume, AttachReceipt,
         Acknowledge;
    match step
    case CreateStep(r, holder, total) => CreateConserves(s, r, holder, total, h);
    case EffectStep(r, kind, q) => EffectConserves(s, r, kind, q, h);
    case DraftStep(r, q, b) => DraftConservesValue(s, r, q, b, h);
    case SignCertificateStep(r, _) => assert s.dbs[r := s.dbs[r]] == s.dbs;
    case AttachCertificateStep(r, c) => AttachConserves(s, r, c, h);
    case ConsumeStep(r, c, b) => ConsumeConserves(s, r, c, b, h);
    case SignReceiptStep(r, _) => assert s.dbs[r := s.dbs[r]] == s.dbs;
    case AttachReceiptStep(r, x) => AttachReceiptConserves(s, r, x, h);
    case AcknowledgeStep(r, c, x) => AcknowledgeConservesValue(s, r, c, x, h);
  }

  // ----- honest documents are never refused as conflicting ------------------------------------------

  /** Two signed certificates that share an identifier, or an issuance, are the same certificate. */
  lemma IssuedOnce(s: System, c: Certificate, d: Certificate)
    requires Inv(s) && c in s.certificates && d in s.certificates && (c.transfer == d.transfer || SameIssuance(c, d))
    ensures c == d
  {
    hide Conserved, RowsOk, ConsumedOk, AcknowledgedOk, Receipted;
    assert Issued(s.dbs, c) && Issued(s.dbs, d);
    assert DatabaseOk(c.source, s.dbs[c.source]);
    if c.transfer == d.transfer {
      assert c.source == d.source;
    }
  }

  /**
   * An honest certificate is consumed, recognised as consumed, or out of range at its destination; it never conflicts.
   */
  lemma HonestNeverConflicts(s: System, c: Certificate, b: Binding)
    requires Inv(s) && c in s.certificates && c.destination in s.dbs
    ensures Consume(s.dbs[c.destination], c, b).2 != Some(ErrCertificateConflict)
  {
    hide DatabaseOk, IdsUnique, AcknowledgedOk, Receipted, Issued, SameIssuance, AfterConsume, ArrivalHasRoom;
    var consumed := s.dbs[c.destination].consumed;
    if c.transfer in consumed {
      IssuedOnce(s, c, consumed[c.transfer].receipt.certificate);
    } else if IssuanceUsed(consumed, c) {
      var id :| id in consumed && SameIssuance(consumed[id].receipt.certificate, c);
      IssuedOnce(s, consumed[id].receipt.certificate, c);
    }
  }

  /** Two signed receipts for one certificate are the same receipt. */
  lemma ReceiptedOnce(s: System, x: Receipt, y: Receipt)
    requires Receipted(s.dbs, x) && Receipted(s.dbs, y) && x.certificate == y.certificate
    ensures x == y
  {
  }

  /** Once the certificate's signature is attached, an honest receipt settles it or repeats its settlement. */
  lemma HonestReceiptSettles(s: System, c: Certificate, x: Receipt)
    requires Inv(s) && c in s.certificates && x in s.receipts && x.certificate == c
    requires Issued(s.dbs, c) && s.dbs[c.source].transfers[c.transfer].signed
    requires c.holder in s.dbs[c.source].books && s.dbs[c.source].books[c.holder].version < MAX_INT64
    ensures Acknowledge(s.dbs[c.source], c, x).1.None?
    ensures var rows := Acknowledge(s.dbs[c.source], c, x).0.transfers;
            c.transfer in rows && rows[c.transfer].acknowledged == Some(x)
  {
    hide Conserved, RowsOk, EpochsDistinct, IdsUnique, ConsumedOk, Receipted;
    var db := s.dbs[c.source];
    assert Issued(s.dbs, c) && Receipted(s.dbs, x) && DatabaseOk(c.source, db);
    AcknowledgeKeeps(c.source, db, c, x);
    if db.transfers[c.transfer].acknowledged.Some? {
      ReceiptedOnce(s, x, db.transfers[c.transfer].acknowledged.value);
    }
  }

  /** No reachable authority is ever found inconsistent with the rows that refer to it. */
  lemma NeverInconsistent(s: System, step: Step)
    requires Inv(s) && Enabled(s, step)
    ensures step.EffectStep? ==> ApplyEffect(s.dbs[step.region], step.kind, step.request).2 != Some(ErrInconsistent)
    ensures step.AcknowledgeStep? ==>
              Acknowledge(s.dbs[step.region], step.certificate, step.receipt).1 != Some(ErrInconsistent)
  {
    hide Conserved, RowsOk, EpochsDistinct, IdsUnique, ConsumedOk, AcknowledgedOk, ApplyEffect, Acknowledge;
    assert DatabaseOk(step.region, s.dbs[step.region]);
    match step
    case EffectStep(r, kind, q) => EffectKeeps(r, s.dbs[r], kind, q);
    case AcknowledgeStep(r, c, x) => AcknowledgeKeeps(r, s.dbs[r], c, x);
    case _ =>
  }

  // ----- runs ----------------------------------------------------------------------------------

  ghost predicate IsRun(states: seq<System>, steps: seq<Step>) {
    && |states| == |steps| + 1
    && forall i | 0 <= i < |steps| :: Enabled(states[i], steps[i]) && states[i + 1] == Apply(states[i], steps[i])
  }

  /** What the first n steps of a run created, spent and returned for a holder. */
  ghost function Injected(states: seq<System>, steps: seq<Step>, n: nat, h: Holder): int
    requires IsRun(states, steps) && n <= |steps|
  {
    if n == 0 then 0 else Injected(states, steps, n - 1, h) + Delta(states[n - 1], steps[n - 1], h)
  }

  /** A system of databases that nothing has been written to. */
  predicate Fresh(s: System) {
    && s.certificates == {} && s.receipts == {}
    && forall r | r in s.dbs :: s.dbs[r] == Database(map[], map[], map[], map[], map[])
  }

  lemma FreshOk(s: System)
    requires Fresh(s)
    ensures Inv(s)
  {
  }

  /**
    In every interleaving, retry and crash of the hand-off over any databases, every database stays conserved and a
    holder's spendable rights plus issued but unconsumed transfers are exactly what was created, spent and returned.
   */
  lemma {:induction false} RunsConserve(states: seq<System>, steps: seq<Step>, n: nat, h: Holder)
    requires IsRun(states, steps) && Fresh(states[0]) && n <= |steps|
    ensures Inv(states[n]) && (forall r | r in states[n].dbs :: Conserved(states[n].dbs[r]))
    ensures Value(states[n], h) == Value(states[0], h) + Injected(states, steps, n, h)
  {
    hide Value, Delta, Apply, RowsOk, EpochsDistinct, IdsUnique, ConsumedOk, AcknowledgedOk, Issued, Receipted,
         Conserved;
    if n == 0 {
      FreshOk(states[0]);
    } else {
      RunsConserve(states, steps, n - 1, h);
      StepKeeps(states[n - 1], steps[n - 1]);
      StepConserves(states[n - 1], steps[n - 1], h);
    }
    assert forall r | r in states[n].dbs :: DatabaseOk(r, states[n].dbs[r]);
  }

  predicate IsHandOff(step: Step) {
    !step.CreateStep? && !step.EffectStep?
  }

  /** Hand-offs alone, however interleaved, retried or cut off, never change what a holder has. */
  lemma {:induction false} HandOffsNeverChangeValue(states: seq<System>, steps: seq<Step>, n: nat, h: Holder)
    requires IsRun(states, steps) && Inv(states[0]) && n <= |steps|
             && forall i | 0 <= i < |steps| :: IsHandOff(steps[i])
    ensures Inv(states[n]) && Value(states[n], h) == Value(states[0], h)
  {
    hide Value, Apply, Inv;
    if n > 0 {
      HandOffsNeverChangeValue(states, steps, n - 1, h);
      StepKeeps(states[n - 1], steps[n - 1]);
      StepConserves(states[n - 1], steps[n - 1], h);
    }
  }

  // ----- completion ------------------------------------------------------------------------------

  /** The destination can take the certificate: consumed already, or within the range of every column. */
  predicate CanArrive(db: Database, c: Certificate, b: Binding) {
    && ValidBinding(b) && b.region == c.destination && b.entity == c.destinationEntity
    && (c.transfer !in db.consumed ==> Watermark(db, b.entity) < MAX_INT64 && ArrivalHasRoom(db, c))
  }

  lemma ConsumeSucceeds(s: System, c: Certificate, b: Binding)
    requires Inv(s) && c in s.certificates && c.destination in s.dbs && CanArrive(s.dbs[c.destination], c, b)
    ensures Consume(s.dbs[c.destination], c, b).2.None?
    ensures c.transfer in Consume(s.dbs[c.destination], c, b).0.consumed
    ensures Consume(s.dbs[c.destination], c, b).0.consumed[c.transfer].receipt.certificate == c
  {
    hide Inv, IssuanceUsed, ArrivalHasRoom, Arrived, Watermark;
    HonestNeverConflicts(s, c, b);
  }

  lemma RowIssued(s: System, r: string, id: string)
    requires Inv(s) && r in s.dbs && id in s.dbs[r].transfers
    ensures var c := s.dbs[r].transfers[id].certificate;
            && c.transfer == id && c.source == r && c.destination != r && c.holder in s.dbs[r].books && Issued(s.dbs, c)
  {
    hide Conserved, EpochsDistinct, IdsUnique, ConsumedOk, AcknowledgedOk, Receipted;
    assert DatabaseOk(r, s.dbs[r]);
    assert RowOk(r, s.dbs[r].books, id, s.dbs[r].transfers[id].certificate);
  }

  /** The source phase: sign the draft after its commit, then attach the signature. */
  lemma SourcePhase(s: System, r: string, id: string) returns (s2: System)
    requires Inv(s) && r in s.dbs && id in s.dbs[r].transfers
    ensures Enabled(s, SignCertificateStep(r, id))
    ensures var s1, c := Apply(s, SignCertificateStep(r, id)), s.dbs[r].transfers[id].certificate;
            && Enabled(s1, AttachCertificateStep(r, c)) && s2 == Apply(s1, AttachCertificateStep(r, c))
            && Inv(s2) && c in s2.certificates && Issued(s2.dbs, c) && s2.dbs[r].transfers[id].signed
            && s2.dbs[r].books == s.dbs[r].books && s2.dbs.Keys == s.dbs.Keys
            && forall q | q in s.dbs && q != r :: s2.dbs[q] == s.dbs[q]
  {
    hide Inv, Issued;
    var c := s.dbs[r].transfers[id].certificate;
    RowIssued(s, r, id);
    var s1 := Apply(s, SignCertificateStep(r, id));
    StepKeeps(s, SignCertificateStep(r, id));
    assert s1.dbs == s.dbs;
    s2 := Apply(s1, AttachCertificateStep(r, c));
    StepKeeps(s1, AttachCertificateStep(r, c));
    RowIssued(s2, r, id);
  }

  /** The destination phase: consume, sign the receipt after its commit, then attach the signature. */
  lemma DestinationPhase(s: System, c: Certificate, b: Binding) returns (x: Receipt, s3: System)
    requires Inv(s) && c in s.certificates && c.destination in s.dbs && CanArrive(s.dbs[c.destination], c, b)
    ensures Enabled(s, ConsumeStep(c.destination, c, b))
    ensures var d := c.destination;
            var s1 := Apply(s, ConsumeStep(d, c, b));
            && Enabled(s1, SignReceiptStep(d, c.transfer))
            && var s2 := Apply(s1, SignReceiptStep(d, c.transfer));
            && x.certificate == c && Enabled(s2, AttachReceiptStep(d, x)) && s3 == Apply(s2, AttachReceiptStep(d, x))
            && Inv(s3) && x in s3.receipts && s3.certificates == s.certificates && s3.dbs.Keys == s.dbs.Keys
            && forall q | q in s.dbs && q != d :: s3.dbs[q] == s.dbs[q]
  {
    hide Inv, Consume, CanArrive;
    var d := c.destination;
    ConsumeSucceeds(s, c, b);
    var s1 := Apply(s, ConsumeStep(d, c, b));
    StepKeeps(s, ConsumeStep(d, c, b));
    x := s1.dbs[d].consumed[c.transfer].receipt;
    var s2 := Apply(s1, SignReceiptStep(d, c.transfer));
    StepKeeps(s1, SignReceiptStep(d, c.transfer));
    assert s2.dbs == s1.dbs;
    s3 := Apply(s2, AttachReceiptStep(d, x));
    StepKeeps(s2, AttachReceiptStep(d, x));
  }

  /**
    A crash between any two phases costs nothing: from every reachable state a committed draft whose destination can
    take it is completed by retrying the phases, and ends settled at its source exactly as consumed at its destination.
   */
  lemma EveryDraftCanComplete(s: System, r: string, id: string, b: Binding)
    returns (x: Receipt, states: seq<System>, steps: seq<Step>)
    requires Inv(s) && r in s.dbs && id in s.dbs[r].transfers
    requires var c := s.dbs[r].transfers[id].certificate;
             && c.destination in s.dbs && CanArrive(s.dbs[c.destination], c, b)
             && c.holder in s.dbs[r].books && s.dbs[r].books[c.holder].version < MAX_INT64
    ensures IsRun(states, steps) && states[0] == s && forall i | 0 <= i < |steps| :: IsHandOff(steps[i])
    ensures var c, done := s.dbs[r].transfers[id].certificate, states[|steps|];
            && Inv(done) && done.dbs.Keys == s.dbs.Keys
            && id in done.dbs[r].transfers && done.dbs[r].transfers[id].certificate == c
            && done.dbs[r].transfers[id].acknowledged == Some(x) && Receipted(done.dbs, x) && x.certificate == c
    ensures forall h :: Value(states[|steps|], h) == Value(s, h)
  {
    hide Inv, CanArrive, Acknowledge, Value, Receipted, Apply;
    var c, d := s.dbs[r].transfers[id].certificate, s.dbs[r].transfers[id].certificate.destination;
    RowIssued(s, r, id);
    var s2 := SourcePhase(s, r, id);
    var s5;
    x, s5 := DestinationPhase(s2, c, b);
    var s1 := Apply(s, SignCertificateStep(r, id));
    var s3 := Apply(s2, ConsumeStep(d, c, b));
    var s4 := Apply(s3, SignReceiptStep(d, id));
    var done := Settles(s5, r, id, c, x);
    steps := [SignCertificateStep(r, id), AttachCertificateStep(r, c), ConsumeStep(d, c, b),
              SignReceiptStep(d, id), AttachReceiptStep(d, x), AcknowledgeStep(r, c, x)];
    states := [s, s1, s2, s3, s4, s5, done];
    forall h ensures Value(states[|steps|], h) == Value(s, h) {
      HandOffsNeverChangeValue(states, steps, 6, h);
    }
  }

  /** The last phase: the source takes the receipt. */
  lemma Settles(s: System, r: string, id: string, c: Certificate, x: Receipt) returns (done: System)
    requires Inv(s) && r in s.dbs && id in s.dbs[r].transfers && s.dbs[r].transfers[id].certificate == c
    requires s.dbs[r].transfers[id].signed && c in s.certificates && x in s.receipts && x.certificate == c
    requires c.holder in s.dbs[r].books && s.dbs[r].books[c.holder].version < MAX_INT64
    ensures Enabled(s, AcknowledgeStep(r, c, x)) && done == Apply(s, AcknowledgeStep(r, c, x))
    ensures Inv(done) && done.dbs.Keys == s.dbs.Keys
    ensures id in done.dbs[r].transfers && done.dbs[r].transfers[id].certificate == c
    ensures done.dbs[r].transfers[id].acknowledged == Some(x) && Receipted(done.dbs, x)
  {
    hide Inv, Acknowledge, Issued, Receipted;
    var step := AcknowledgeStep(r, c, x);
    RowIssued(s, r, id);
    done := Apply(s, step);
    StepKeeps(s, step);
    HonestReceiptSettles(s, c, x);
    SignedReceipt(done, x);
    StoredGrows(s, step);
  }

  lemma SignedReceipt(s: System, x: Receipt)
    requires Inv(s) && x in s.receipts
    ensures Receipted(s.dbs, x)
  {
  }
}
