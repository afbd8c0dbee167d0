/** Every interleaving of posting, backfilling and cutting over. */
module RolloutRuns {
  import opened Amounts
  import opened Sorting
  import opened Rollout
  import opened RolloutSafety

  datatype Step =
    | NewBook(book: string)
    | NewEntry(book: string, tx: string, reference: Option<string>, schema: int, hash: string)
    | NewRow(tx: string, row: Row)
    | Begin(expected: nat)
    | Fill(generation: nat, size: nat, locked: set<string>, book: string)
    | Check(generation: nat, expected: nat)
    | Switch(generation: nat, expected: nat)
    | Retire(generation: nat, expected: nat)
    | Enlist(consumer: string, required: bool)
    | Confirm(consumer: string, generation: nat)

  /** A worker takes the first pending book no other worker has locked, in batches of at least one row. */
  ghost predicate Enabled(s: Store, t: Step) {
    t.Fill? ==> t.size > 0 && (IsFirst(Pending(s.marks) - t.locked, t.book) || Pending(s.marks) <= t.locked)
  }

  ghost function After(s: Store, t: Step): (Store, Option<Error>)
    requires Enabled(s, t)
  {
    match t
    case NewBook(book) => OpenBook(s, book)
    case NewEntry(book, tx, reference, schema, hash) => Post(s, book, tx, reference, schema, hash)
    case NewRow(tx, row) => InsertRow(s, tx, row)
    case Begin(expected) => Start(s, expected)
    case Fill(generation, size, locked, book) =>
      (var (s', _, error) := BackfillOnce(s, generation, size, locked, book); (s', error))
    case Check(generation, expected) => Verify(s, generation, expected)
    case Switch(generation, expected) => Cutover(s, generation, expected)
    case Retire(generation, expected) => Contract(s, generation, expected)
    case Enlist(consumer, required) => RegisterConsumer(s, consumer, required)
    case Confirm(consumer, generation) => Acknowledge(s, consumer, generation)
  }

  const FRESH := Store(map[], map[], map[], map[], Expanded, 0, 0, 0, None, map[], map[])

  lemma FreshInv()
    ensures Inv(FRESH)
  {
    hide SourceRows, TargetRows;
  }

  /** No step breaks the invariant, and neither a mismatch nor a corrupt watermark is ever reported. */
  lemma StepKeeps(s: Store, t: Step)
    requires Inv(s) && Enabled(s, t)
    ensures Inv(After(s, t).0)
    ensures After(s, t).1 !in {Some(ErrProjectionMismatch), Some(ErrWatermarkCorrupt)}
  {
    hide Inv, OpenBook, Post, InsertRow, Start, BackfillOnce, Verify, Cutover, Contract, RegisterConsumer, Acknowledge;
    match t {
      case NewBook(book) =>
        OpenBookKeeps(s, book);
        LedgerErrors(s, t);
      case NewEntry(book, tx, reference, schema, hash) =>
        PostKeeps(s, book, tx, reference, schema, hash);
        LedgerErrors(s, t);
      case NewRow(tx, row) =>
        InsertRowKeeps(s, tx, row);
        LedgerErrors(s, t);
      case Begin(expected) =>
        StartKeeps(s, expected);
        ControlErrors(s, t);
      case Fill(generation, size, locked, book) =>
        BackfillOnceKeeps(s, generation, size, locked, book);
        FillErrors(s, generation, size, locked, book);
      case Check(generation, expected) =>
        VerifyKeeps(s, generation, expected);
      case Switch(generation, expected) =>
        CutoverKeeps(s, generation, expected);
      case Retire(generation, expected) =>
        ContractKeeps(s, generation, expected);
        ControlErrors(s, t);
      case Enlist(consumer, required) =>
        RegisterKeeps(s, consumer, required);
        ControlErrors(s, t);
      case Confirm(consumer, generation) =>
        AcknowledgeKeeps(s, consumer, generation);
        ControlErrors(s, t);
    }
  }

  lemma LedgerErrors(s: Store, t: Step)
    requires t.NewBook? || t.NewEntry? || t.NewRow?
    ensures After(s, t).1 in {None, Some(ErrRejected)}
  {
  }

  lemma ControlErrors(s: Store, t: Step)
    requires t.Begin? || t.Retire? || t.Enlist? || t.Confirm?
    ensures After(s, t).1 !in {Some(ErrProjectionMismatch), Some(ErrWatermarkCorrupt)}
  {
  }

  lemma FillErrors(s: Store, generation: nat, size: nat, locked: set<string>, book: string)
    requires Inv(s) && size > 0 && (IsFirst(Pending(s.marks) - locked, book) || Pending(s.marks) <= locked)
    ensures BackfillOnce(s, generation, size, locked, book).2 !in {Some(ErrProjectionMismatch),
                                                                   Some(ErrWatermarkCorrupt)}
  {
    hide Chained, Headed, Truthful, Marked, Caught, Phased, BackfillBook;
    if s.active == generation && s.phase == Shadowing && !(Pending(s.marks) <= locked) {
      BackfillSucceeds(s, book, size);
    }
  }

  ghost function Final(s: Store, run: seq<Step>): Store
    requires Runs(s, run)
    decreases |run|
  {
    if run == [] then s else Final(After(s, run[0]).0, run[1..])
  }

  ghost predicate Runs(s: Store, run: seq<Step>)
    decreases |run|
  {
    run == [] || (Enabled(s, run[0]) && Runs(After(s, run[0]).0, run[1..]))
  }

  /** Nothing posted is changed or lost, the phase never goes back and neither does the read generation. */
  ghost predicate Forward(s: Store, s': Store) {
    && (forall tx | tx in s.headers :: tx in s'.headers && s'.headers[tx] == s.headers[tx])
    && Rank(s.phase) <= Rank(s'.phase) && s.read <= s'.read && s.active <= s'.active && s.version <= s'.version
  }

  lemma StepForward(s: Store, t: Step)
    requires Enabled(s, t)
    ensures Forward(s, After(s, t).0)
  {
    hide After, Forward;
    if t.NewBook? || t.NewEntry? || t.NewRow? {
      LedgerForward(s, t);
    } else if t.Fill? {
      BackfillForward(s, t);
    } else if t.Check? || t.Switch? || t.Retire? {
      PhaseForward(s, t);
    } else {
      OtherForward(s, t);
    }
  }

  lemma LedgerForward(s: Store, t: Step)
    requires t.NewBook? || t.NewEntry? || t.NewRow?
    ensures Forward(s, After(s, t).0)
  {
  }

  lemma PhaseForward(s: Store, t: Step)
    requires t.Check? || t.Switch? || t.Retire?
    ensures Forward(s, After(s, t).0)
  {
    hide VerifySnapshot, Cutover, Contract;
    match t {
      case Check(generation, expected) =>
      case Switch(generation, expected) =>
        SwitchForward(s, generation, expected);
      case Retire(generation, expected) =>
        RetireForward(s, generation, expected);
    }
  }

  lemma SwitchForward(s: Store, generation: nat, expected: nat)
    ensures Forward(s, Cutover(s, generation, expected).0)
  {
    hide VerifySnapshot;
  }

  lemma RetireForward(s: Store, generation: nat, expected: nat)
    ensures Forward(s, Contract(s, generation, expected).0)
  {
  }

  lemma OtherForward(s: Store, t: Step)
    requires t.Begin? || t.Enlist? || t.Confirm?
    ensures Forward(s, After(s, t).0)
  {
  }

  lemma BackfillForward(s: Store, t: Step)
    requires t.Fill? && Enabled(s, t)
    ensures Forward(s, After(s, t).0)
  {
    hide BackfillBook;
    if s.active == t.generation && s.phase == Shadowing && !(Pending(s.marks) <= t.locked) {
      FillForward(s, t.book, t.size);
    }
  }

  lemma FillForward(s: Store, book: string, size: nat)
    requires book in s.marks
    ensures Forward(s, BackfillBook(s, book, size).0)
  {
    hide Batch, Projected, References, Contiguous;
  }

  lemma {:induction false} RunKeeps(s: Store, run: seq<Step>)
    requires Inv(s) && Runs(s, run)
    ensures Inv(Final(s, run)) && Forward(s, Final(s, run))
    decreases |run|
  {
    hide Inv, After;
    if run == [] {
    } else {
      StepKeeps(s, run[0]);
      StepForward(s, run[0]);
      RunKeeps(After(s, run[0]).0, run[1..]);
    }
  }

  /** A call that commits one batch. */
  ghost predicate Advances(s: Store, t: Step)
    requires Enabled(s, t)
  {
    && t.Fill?
    && var (_, report, error) := BackfillOnce(s, t.generation, t.size, t.locked, t.book);
       report.batches == 1 && error.None?
  }

  /** The batches all workers together commit in a run. */
  ghost function Batches(s: Store, run: seq<Step>): nat
    requires Runs(s, run)
    decreases |run|
  {
    if run == [] then 0 else (if Advances(s, run[0]) then 1 else 0) + Batches(After(s, run[0]).0, run[1..])
  }

  /** Once marks are taken, only a committed batch moves them. */
  lemma StepVisits(s: Store, t: Step)
    requires Inv(s) && s.phase != Expanded && Enabled(s, t)
    ensures After(s, t).0.phase != Expanded
    ensures Visits(After(s, t).0.marks) + (if Advances(s, t) then 1 else 0) <= Visits(s.marks)
  {
    hide Inv, Visits, Forward, BackfillBook, VerifySnapshot;
    if t.Fill? {
      if s.active == t.generation && s.phase == Shadowing && !(Pending(s.marks) <= t.locked) {
        Fewer(s, t.book, t.size);
      }
      BackfillForward(s, t);
      StaysTaken(s, After(s, t).0);
    } else {
      StepForward(s, t);
      StaysTaken(s, After(s, t).0);
    }
  }

  lemma StaysTaken(s: Store, s': Store)
    requires Forward(s, s') && s.phase != Expanded
    ensures s'.phase != Expanded
  {
  }

  /**
   * Whatever is posted, checked or filled by others in between, the workers commit no more batches than numbers left to
   * visit.
   */
  lemma {:induction false} BackfillEnds(s: Store, run: seq<Step>)
    requires Inv(s) && s.phase != Expanded && Runs(s, run)
    ensures 0 <= Visits(Final(s, run).marks) <= Visits(s.marks) - Batches(s, run)
    decreases |run|
  {
    hide Inv, After, Advances, Visits;
    if run == [] {
      VisitsNatural(s);
    } else {
      StepKeeps(s, run[0]);
      StepVisits(s, run[0]);
      BackfillEnds(After(s, run[0]).0, run[1..]);
    }
  }

  /** And while numbers are left that no other worker has locked, the next call commits a batch. */
  lemma BackfillGoesOn(s: Store, t: Step)
    requires Inv(s) && Enabled(s, t) && t.Fill? && s.phase == Shadowing && s.active == t.generation
    ensures Advances(s, t) <==> !(Pending(s.marks) <= t.locked)
  {
    hide Chained, Headed, Truthful, Marked, Caught, Phased, BackfillBook;
    if !(Pending(s.marks) <= t.locked) {
      BackfillSucceeds(s, t.book, t.size);
    }
  }

  /** Whatever a read of a posted transaction once returned, every later read returns, apart from the generation. */
  lemma ReadsNeverChange(early: seq<Step>, late: seq<Step>, tx: string)
    requires Runs(FRESH, early) && Runs(Final(FRESH, early), late) && tx in Final(FRESH, early).headers
    ensures var before := ReadReference(Final(FRESH, early), tx).0;
            var s := Final(Final(FRESH, early), late);
            var now := ReadReference(s, tx).0;
            before.Some? && now == Some(before.value.(generation := s.read))
  {
    hide Inv, Runs, Final, ReadReference;
    var s := Final(FRESH, early);
    FreshInv();
    RunKeeps(FRESH, early);
    RunKeeps(s, late);
    ReadsTheHeader(s, tx);
    ReadsTheHeader(Final(s, late), tx);
    PostedNamed(s, tx);
  }

  lemma PostedNamed(s: Store, tx: string)
    requires Inv(s) && tx in s.headers
    ensures tx != ""
  {
    hide Headed, Truthful, Marked, Caught, Phased;
    assert Listed(s, tx, s.headers[tx]);
  }

  /** A contracted rollout has been acknowledged by every required reader, and by at least one. */
  lemma ContractedIsAcknowledged(run: seq<Step>)
    requires Runs(FRESH, run) && Final(FRESH, run).phase == Contracted
    ensures var s := Final(FRESH, run);
            Required(s) != {} && s.read == s.active
            && forall c | c in Required(s) :: s.consumers[c].acknowledged >= s.read
  {
    hide Chained, Headed, Truthful, Marked, Caught, Runs, Final;
    FreshInv();
    RunKeeps(FRESH, run);
  }
}
