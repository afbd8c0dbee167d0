/** What each transaction of the escrow answers and moves, region by region, and what whole runs add up to. */
module EscrowOutcomes {
  import opened Amounts
  import opened Totals
  import opened Escrow
  import opened HandOff
  import opened HandOffRuns

  function AvailableAt(db: Database, h: Holder, region: string): int {
    if h in db.books && region in db.books[h].rights then db.books[h].rights[region].available else 0
  }

  function TotalAt(db: Database, h: Holder): int {
    if h in db.books then db.books[h].total else 0
  }

  function UnallocatedAt(db: Database, h: Holder): int {
    if h in db.books then db.books[h].unallocated else 0
  }

  function When(holds: bool, amount: int): int {
    if holds then amount else 0
  }

  /** One region of one holder gains rights, its authority changes with them, and no other number moves. */
  ghost predicate Changes(db: Database, db': Database, h: Holder, region: string, rights: int, total: int,
                          unallocated: int) {
    && (forall k, g :: AvailableAt(db', k, g) == AvailableAt(db, k, g) + When(k == h && g == region, rights))
    && (forall k :: TotalAt(db', k) == TotalAt(db, k) + When(k == h, total))
    && (forall k :: UnallocatedAt(db', k) == UnallocatedAt(db, k) + When(k == h, unallocated))
  }

  lemma BookChanges(db: Database, db': Database, h: Holder, region: string, rights: int, b: Book)
    requires db'.books == db.books[h := b]
    requires var was := if h in db.books then db.books[h] else Book(0, 0, 0, map[]);
             && region in b.rights && b.rights == was.rights[region := b.rights[region]]
             && b.rights[region].available == rights + if region in was.rights then was.rights[region].available else 0
    ensures Changes(db, db', h, region, rights, b.total - TotalAt(db, h), b.unallocated - UnallocatedAt(db, h))
  {
  }

  // ----- effects ---------------------------------------------------------------------------------------

  /** The counters of the authority and of the region's row, if it has one, have room for one more change. */
  predicate CountersFree(b: Book, region: string) {
    b.version < MAX_INT64 && (region in b.rights ==> b.rights[region].version < MAX_INT64)
  }

  /** Why an effect on a known holder is refused, if it is. */
  predicate Refuses(b: Book, kind: EffectKind, region: string, amount: int, e: Error) {
    match kind
    case Allocate =>
      if b.unallocated < amount then e == ErrInsufficientRights
      else e == ErrOutOfRange && !(CountersFree(b, region)
                                   && (region in b.rights ==> Fits(b.rights[region].available + amount)))
    case Spend =>
      if region !in b.rights || b.rights[region].available < amount then e == ErrInsufficientRights
      else e == ErrOutOfRange && !CountersFree(b, region)
    case Return =>
      if region !in b.rights then e == ErrInvalidArgument
      else e == ErrOutOfRange
           && !(CountersFree(b, region) && Fits(b.rights[region].available + amount) && Fits(b.total + amount))
  }

  predicate BadEffect(q: EffectRequest) {
    q.id == "" || |q.id| > 512 || q.holder.account == "" || q.holder.asset == "" || q.region == "" || q.amount <= 0
  }

  /** An allocation takes from the unallocated part, a spend from the whole, and a return gives back to both. */
  ghost predicate Effected(db: Database, db': Database, kind: EffectKind, q: EffectRequest) {
    && Changes(db, db', q.holder, q.region, if kind == Spend then -q.amount else q.amount,
               if kind == Spend then -q.amount else When(kind == Return, q.amount),
               When(kind == Allocate, -q.amount))
    && db'.effects == db.effects[q.id := EffectRow(kind, q)]
    && db'.transfers == db.transfers && db'.consumed == db.consumed && db'.watermarks == db.watermarks
  }

  lemma MutatedIs(r: string, db: Database, kind: EffectKind, q: EffectRequest)
    requires DatabaseOk(r, db) && q.holder in db.books && q.amount > 0
    ensures var (b, error) := Mutated(db.books[q.holder], kind, q.region, q.amount);
            if error.Some? then Refuses(db.books[q.holder], kind, q.region, q.amount, error.value)
            else
              && (forall e :: !Refuses(db.books[q.holder], kind, q.region, q.amount, e))
              && Effected(db, db.(books := db.books[q.holder := b], effects := db.effects[q.id := EffectRow(kind, q)]),
                          kind, q)
  {
    hide Changes, Conserved, RowsOk, EpochsDistinct, Spendable, MovingOf, Total;
    var h, before := q.holder, db.books[q.holder];
    assert BookConserved(before, Total(MovingOf(db.transfers, h))) by { HolderConserved(r, db, h); }
    MovingNonNegative(r, db.books, db.transfers, h);
    MutatedConserves(before, kind, q.region, q.amount, Total(MovingOf(db.transfers, h)));
    var (b, error) := Mutated(before, kind, q.region, q.amount);
    if error.None? {
      BookChanges(db, db.(books := db.books[h := b], effects := db.effects[q.id := EffectRow(kind, q)]), h, q.region,
                  if kind == Spend then -q.amount else q.amount, b);
    }
  }

  lemma HolderConserved(r: string, db: Database, h: Holder)
    requires DatabaseOk(r, db) && h in db.books
    ensures BookConserved(db.books[h], Total(MovingOf(db.transfers, h)))
  {
  }

  /** Every effect: repeated, refused with its reason, or applied to exactly the region it names. */
  lemma EffectOutcome(r: string, db: Database, kind: EffectKind, q: EffectRequest)
    requires DatabaseOk(r, db)
    ensures var (db', repeated, error) := ApplyEffect(db, kind, q);
            if BadEffect(q) then db' == db && error == Some(ErrInvalidArgument)
            else if q.id in db.effects
            then db' == db
                 && if db.effects[q.id] == EffectRow(kind, q) then repeated && error.None?
                    else error == Some(ErrEffectConflict)
            else if q.holder !in db.books
            then db' == db && error == Some(if kind == Return then ErrInvalidArgument else ErrInsufficientRights)
            else if error.Some?
            then db' == db && Refuses(db.books[q.holder], kind, q.region, q.amount, error.value)
            else !repeated && (forall e :: !Refuses(db.books[q.holder], kind, q.region, q.amount, e))
                 && Effected(db, db', kind, q)
  {
    hide Mutated, Refuses, Effected, Conserved, RowsOk, EpochsDistinct;
    if !BadEffect(q) && q.holder in db.books {
      MutatedIs(r, db, kind, q);
    }
  }

  // ----- the hand-off -------------------------------------------------------------------------------------

  predicate BadTransfer(q: TransferRequest) {
    || q.transfer == "" || q.holder.account == "" || q.holder.asset == "" || q.source == "" || q.destination == ""
    || q.source == q.destination || q.sourceEntity == "" || q.destinationEntity == "" || q.amount <= 0
  }

  /** The key is complete and belongs to this region and entity. */
  predicate Bound(b: Binding, region: string, entity: string) {
    b.key != "" && b.epoch > 0 && b.region == region != "" && b.entity == entity != ""
  }

  /** The certificate of a draft: the request, the next number of the region's row, and the signer's key. */
  predicate Certifies(c: Certificate, q: TransferRequest, number: nat, b: Binding) {
    && c.transfer == q.transfer && c.holder == q.holder && c.source == q.source && c.destination == q.destination
    && c.sourceEntity == q.sourceEntity && c.destinationEntity == q.destinationEntity && c.amount == q.amount
    && c.epoch == number && c.key == b.key && c.keyEpoch == b.epoch
  }

  ghost predicate Repeats(c: Certificate, q: TransferRequest) {
    exists number: nat, b: Binding :: Certifies(c, q, number, b)
  }

  lemma RepeatsIs(c: Certificate, q: TransferRequest)
    ensures SameTransfer(c, q) <==> Repeats(c, q)
  {
    if SameTransfer(c, q) {
      assert Certifies(c, q, c.epoch, Binding(c.key, "", "", c.keyEpoch));
    }
  }

  /** A draft takes the rights out of the source region and leaves them in the authority until it is settled. */
  lemma DraftOutcome(db: Database, q: TransferRequest, b: Binding)
    ensures var (db', c, error) := Draft(db, q, b);
            if BadTransfer(q) then (db', c, error) == (db, None, Some(ErrInvalidArgument))
            else if !Bound(b, q.source, q.sourceEntity) then (db', c, error) == (db, None, Some(ErrCertificateInvalid))
            else if q.transfer in db.transfers
            then db' == db
                 && if Repeats(db.transfers[q.transfer].certificate, q)
                    then error.None? && c == Some(db.transfers[q.transfer].certificate)
                    else c.None? && error == Some(ErrCertificateConflict)
            else if AvailableAt(db, q.holder, q.source) < q.amount
                    || db.books[q.holder].rights[q.source].version == MAX_INT64
            then (db', c, error) == (db, None, Some(ErrInsufficientRights))
            else
              && error.None? && c.Some?
              && Certifies(c.value, q, db.books[q.holder].rights[q.source].version + 1, b)
              && Changes(db, db', q.holder, q.source, -q.amount, 0, 0)
              && db'.transfers == db.transfers[q.transfer := TransferRow(c.value, false, None)]
              && db'.effects == db.effects && db'.consumed == db.consumed && db'.watermarks == db.watermarks
  {
    hide Changes, Repeats, SameTransfer;
    if q.transfer in db.transfers {
      RepeatsIs(db.transfers[q.transfer].certificate, q);
    }
    var (db', c, error) := Draft(db, q, b);
    if q.transfer !in db.transfers && error.None? && c.Some? {
      var before := db.books[q.holder];
      BookChanges(db, db', q.holder, q.source, -q.amount, Credit(before, q.source, -q.amount));
    }
  }

  /** The issuance is already taken by another consumption of this database. */
  ghost predicate Reused(db: Database, c: Certificate) {
    exists id :: id in db.consumed &&
                 var a := db.consumed[id].receipt.certificate;
                 a.sourceEntity == c.sourceEntity && a.source == c.source && a.keyEpoch == c.keyEpoch
                 && a.holder == c.holder && a.epoch == c.epoch
  }

  lemma ReusedIs(db: Database, c: Certificate)
    ensures IssuanceUsed(db.consumed, c) <==> Reused(db, c)
  {
  }

  function MarkOf(db: Database, entity: string): nat {
    if entity in db.watermarks then db.watermarks[entity] else 0
  }

  predicate RoomFor(db: Database, c: Certificate) {
    c.holder in db.books ==>
      var k := db.books[c.holder];
      CountersFree(k, c.destination) && Fits(k.total + c.amount)
      && (c.destination in k.rights ==> Fits(k.rights[c.destination].available + c.amount))
  }

  /** A consumption raises right and authority at the destination, once per transfer and per issuance. */
  lemma ConsumeOutcome(db: Database, c: Certificate, b: Binding)
    ensures var (db', repeated, error) := Consume(db, c, b);
            if !Bound(b, c.destination, c.destinationEntity) then (db', error) == (db, Some(ErrReceiptInvalid))
            else if c.transfer in db.consumed
            then db' == db
                 && if db.consumed[c.transfer].receipt.certificate == c then repeated && error.None?
                    else error == Some(ErrCertificateConflict)
            else if Reused(db, c) then (db', error) == (db, Some(ErrCertificateConflict))
            else if MarkOf(db, c.destinationEntity) >= MAX_INT64 then (db', error) == (db, Some(ErrReceiptInvalid))
            else if !RoomFor(db, c) then (db', error) == (db, Some(ErrOutOfRange))
            else
              && error.None? && !repeated
              && Changes(db, db', c.holder, c.destination, c.amount, c.amount, 0)
              && var mark := MarkOf(db, c.destinationEntity) + 1;
              && db'.watermarks == db.watermarks[c.destinationEntity := mark]
              && db'.consumed == db.consumed[c.transfer := ConsumedRow(Receipt(c, mark, b.key, b.epoch), false)]
              && db'.transfers == db.transfers && db'.effects == db.effects
  {
    hide Changes, Reused, IssuanceUsed;
    ReusedIs(db, c);
    var (db', repeated, error) := Consume(db, c, b);
    if error.None? && !repeated {
      BookChanges(db, db', c.holder, c.destination, c.amount, db'.books[c.holder]);
    }
  }

  /** An acknowledgement takes the amount out of the source's authority, once, for the stored signed certificate. */
  lemma AcknowledgeOutcome(r: string, db: Database, c: Certificate, x: Receipt)
    requires DatabaseOk(r, db)
    ensures var (db', error) := Acknowledge(db, c, x);
            if x.certificate != c then (db', error) == (db, Some(ErrReceiptInvalid))
            else if c.transfer !in db.transfers then (db', error) == (db, Some(ErrProofMissing))
            else
              var row := db.transfers[c.transfer];
              if row.certificate != c || !row.signed then (db', error) == (db, Some(ErrCertificateConflict))
              else if row.acknowledged.Some?
              then (db', error) == (db, if row.acknowledged == Some(x) then None else Some(ErrCertificateConflict))
              else if db.books[c.holder].version >= MAX_INT64 then (db', error) == (db, Some(ErrOutOfRange))
              else
                && error.None? && Changes(db, db', c.holder, c.source, 0, -c.amount, 0)
                && db'.transfers == db.transfers[c.transfer := TransferRow(c, true, Some(x))]
                && db'.effects == db.effects && db'.consumed == db.consumed && db'.watermarks == db.watermarks
  {
    hide Changes, Conserved, EpochsDistinct, Spendable, MovingOf, Total;
    if c.transfer in db.transfers && db.transfers[c.transfer].certificate == c {
      assert RowOk(r, db.books, c.transfer, c);
      if db.transfers[c.transfer].acknowledged.None? {
        OwesIt(r, db, c);
      }
      var (db', error) := Acknowledge(db, c, x);
      if db'.books.Keys == db.books.Keys && db' != db {
        BookChanges(db, db', c.holder, c.source, 0, db'.books[c.holder]);
      }
    }
  }

  lemma OwesIt(r: string, db: Database, c: Certificate)
    requires DatabaseOk(r, db) && c.transfer in db.transfers && db.transfers[c.transfer].certificate == c
    requires db.transfers[c.transfer].acknowledged.None? && c.holder in db.books
    ensures db.books[c.holder].total >= c.amount
            && db.books[c.holder].total - c.amount >= db.books[c.holder].unallocated
  {
    hide EpochsDistinct, Total;
    var b, h := db.books[c.holder], c.holder;
    HolderConserved(r, db, h);
    MovingNonNegative(r, db.books, db.transfers, h);
    TotalBounds(AvailableOf(b.rights));
    assert Moving(db.transfers[c.transfer], h) == c.amount;
  }

  // ----- whole runs -------------------------------------------------------------------------------------------

  predicate EffectTakes(db: Database, kind: EffectKind, q: EffectRequest) {
    && !BadEffect(q) && q.id !in db.effects && q.holder in db.books
    && !Refuses(db.books[q.holder], kind, q.region, q.amount, ErrInsufficientRights)
    && !Refuses(db.books[q.holder], kind, q.region, q.amount, ErrOutOfRange)
    && !Refuses(db.books[q.holder], kind, q.region, q.amount, ErrInvalidArgument)
  }

  predicate DraftTakes(db: Database, q: TransferRequest, b: Binding) {
    && !BadTransfer(q) && Bound(b, q.source, q.sourceEntity) && q.transfer !in db.transfers
    && AvailableAt(db, q.holder, q.source) >= q.amount && db.books[q.holder].rights[q.source].version != MAX_INT64
  }

  ghost predicate ConsumeTakes(db: Database, c: Certificate, b: Binding) {
    && Bound(b, c.destination, c.destinationEntity) && c.transfer !in db.consumed && !Reused(db, c)
    && MarkOf(db, c.destinationEntity) < MAX_INT64 && RoomFor(db, c)
  }

  /** What a step adds to the rights of one region in the database of its own region. */
  ghost function Gain(s: System, step: Step, h: Holder, region: string): int
    requires Enabled(s, step)
  {
    var db := s.dbs[step.region];
    match step
    case EffectStep(_, kind, q) =>
      When(q.holder == h && q.region == region
           && EffectTakes(db, kind, q), if kind == Spend then -q.amount else q.amount)
    case DraftStep(_, q, b) => When(q.holder == h && q.source == region && DraftTakes(db, q, b), -q.amount)
    case ConsumeStep(_, c, b) => When(c.holder == h && c.destination == region && ConsumeTakes(db, c, b), c.amount)
    case _ => 0
  }

  lemma CreateChanges(db: Database, h: Holder, total: int, k: Holder, region: string)
    ensures AvailableAt(CreateAuthority(db, h, total).0, k, region) == AvailableAt(db, k, region)
  {
  }

  lemma EffectGain(r: string, db: Database, kind: EffectKind, q: EffectRequest, h: Holder, region: string)
    requires DatabaseOk(r, db)
    ensures AvailableAt(ApplyEffect(db, kind, q).0, h, region) ==
            AvailableAt(db, h, region) +
            When(q.holder == h && q.region == region && EffectTakes(db, kind, q),
                 if kind == Spend then -q.amount else q.amount)
  {
    hide ApplyEffect, Refuses, AvailableAt, DatabaseOk;
    EffectOutcome(r, db, kind, q);
    if !BadEffect(q) && q.id !in db.effects && q.holder in db.books {
      RefusalsAre(db.books[q.holder], kind, q.region, q.amount);
    }
  }

  lemma RefusalsAre(b: Book, kind: EffectKind, region: string, amount: int)
    ensures forall e :: Refuses(b, kind, region, amount, e) ==>
              e in {ErrInsufficientRights, ErrOutOfRange, ErrInvalidArgument}
  {
  }

  /** One step changes the rights of a region by exactly its gain. */
  lemma StepGains(s: System, step: Step, h: Holder, region: string)
    requires Inv(s) && Enabled(s, step)
    ensures AvailableAt(Stored(s, step), h, region) ==
            AvailableAt(s.dbs[step.region], h, region) + Gain(s, step, h, region)
  {
    hide CreateAuthority, ApplyEffect, Draft, Consume, Acknowledge, AvailableAt, EffectTakes, Reused, DatabaseOk;
    var r, db := step.region, s.dbs[step.region];
    match step {
      case CreateStep(_, k, total) => CreateChanges(db, k, total, h, region);
      case EffectStep(_, kind, q) => EffectGain(r, db, kind, q, h, region);
      case DraftStep(_, q, b) => DraftOutcome(db, q, b);
      case SignCertificateStep(_, _) =>
      case AttachCertificateStep(_, c) => AttachedBooks(db, c, h, region);
      case ConsumeStep(_, c, b) => ConsumeOutcome(db, c, b);
      case SignReceiptStep(_, _) =>
      case AttachReceiptStep(_, x) => ReceiptBooks(db, x, h, region);
      case AcknowledgeStep(_, c, x) => AcknowledgeOutcome(r, db, c, x);
    }
  }

  lemma AttachedBooks(db: Database, c: Certificate, h: Holder, region: string)
    ensures AvailableAt(AttachCertificate(db, c).0, h, region) == AvailableAt(db, h, region)
  {
  }

  lemma ReceiptBooks(db: Database, x: Receipt, h: Holder, region: string)
    ensures AvailableAt(AttachReceipt(db, x).0, h, region) == AvailableAt(db, h, region)
  {
  }

  /** All gains of one region in the database d over the first n steps. */
  ghost function Gains(states: seq<System>, steps: seq<Step>, n: nat, d: string, h: Holder, region: string): int
    requires n <= |steps| < |states| && forall i | 0 <= i < |steps| :: Enabled(states[i], steps[i])
  {
    if n == 0 then 0
    else
      Gains(states, steps, n - 1, d, h, region)
      + When(steps[n - 1].region == d, Gain(states[n - 1], steps[n - 1], h, region))
  }

  /**
   * Over any run, what a holder may spend in a region is what was allocated, returned and received there minus what was
   * spent and handed off there, each committed transaction counted once.
   */
  lemma {:induction false} RightsAddUp(states: seq<System>, steps: seq<Step>, n: nat, d: string, h: Holder,
                                       region: string)
    requires IsRun(states, steps) && Inv(states[0]) && n <= |steps| && d in states[0].dbs
    ensures Inv(states[n]) && d in states[n].dbs
    ensures AvailableAt(states[n].dbs[d], h, region) ==
            AvailableAt(states[0].dbs[d], h, region) + Gains(states, steps, n, d, h, region)
  {
    hide Inv, Stored, AvailableAt, Gain, Enabled;
    if n > 0 {
      RightsAddUp(states, steps, n - 1, d, h, region);
      StepKeeps(states[n - 1], steps[n - 1]);
      StepGains(states[n - 1], steps[n - 1], h, region);
    }
  }
}
