/** Durable sagas: one local action or compensation per tick, with failures recorded in a later transaction. */
module Sagas {
  import opened Amounts

  datatype Status = Running | Compensating | Completed | Compensated

  datatype StepStatus = Pending | Waiting | StepCompleted | StepFailed | StepCompensated | CompensationFailed

  /** What has been committed, in order: a finished step, a step whose remote result is awaited, an undone step. */
  datatype Event = Finished(ordinal: nat) | Asked(ordinal: nat) | Undone(ordinal: nat)

  /** One saga's rows; trace records the effects that committed with them. */
  datatype Saga = Saga(status: Status, current: nat, steps: seq<StepStatus>, trace: seq<Event>)

  /** How the handler of a tick ends; undoing a step without a compensation cannot fail. */
  datatype Handler = Succeeds | Awaits | Fails(permanent: bool)

  /** A failed handler as the coordinator remembers it after the rollback. */
  datatype Failure = Failure(ordinal: nat, compensation: bool, permanent: bool)

  datatype Error = ErrInvalidSaga | ErrNotWaiting | ErrBadStep

  datatype Result = Committed(saga: Saga) | RolledBack(failure: Failure) | Rejected(error: Error)

  function Begin(steps: nat): Saga {
    Saga(Running, 0, seq(steps, _ => Pending), [])
  }

  // ----- ticks ------------------------------------------------------------------------------------

  function Execute(s: Saga, handler: Handler): Result {
    if s.current >= |s.steps| then Committed(s.(status := Completed))
    else if s.steps[s.current] == Waiting then Committed(s)
    else if s.steps[s.current] !in {Pending, StepFailed} then Rejected(ErrBadStep)
    else match handler
      case Fails(permanent) => RolledBack(Failure(s.current, false, permanent))
      case Awaits => Committed(s.(steps := s.steps[s.current := Waiting], trace := s.trace + [Asked(s.current)]))
      case Succeeds => Committed(Advance(s))
  }

  function Advance(s: Saga): Saga
    requires s.current < |s.steps|
  {
    s.(steps := s.steps[s.current := StepCompleted], trace := s.trace + [Finished(s.current)], current := s.current + 1,
       status := if s.current + 1 == |s.steps| then Completed else Running)
  }

  /** One past the last step that still has to be undone. */
  function Remaining(steps: seq<StepStatus>, n: nat): (r: nat)
    requires n <= |steps|
    ensures r <= n && (r > 0 ==> steps[r - 1] in {StepCompleted, CompensationFailed})
    ensures forall i | r <= i < n :: steps[i] !in {StepCompleted, CompensationFailed}
  {
    if n == 0 then 0 else if steps[n - 1] in {StepCompleted, CompensationFailed} then n else Remaining(steps, n - 1)
  }

  function Compensate(s: Saga, handler: Handler): Result {
    var last := Remaining(s.steps, |s.steps|);
    if last == 0 then Committed(s.(status := Compensated))
    else if handler.Fails? then RolledBack(Failure(last - 1, true, false))
    else Committed(s.(steps := s.steps[last - 1 := StepCompensated], trace := s.trace + [Undone(last - 1)]))
  }

  function Tick(s: Saga, handler: Handler): Result {
    match s.status
    case Running => Execute(s, handler)
    case Compensating => Compensate(s, handler)
    case _ => Committed(s)
  }

  /** The separate transaction that stores a failure; it does not look at the step it overwrites. */
  function Record(s: Saga, f: Failure): Saga
    requires f.ordinal < |s.steps|
  {
    s.(steps := s.steps[f.ordinal := if f.compensation then CompensationFailed else StepFailed],
       status := if f.permanent && !f.compensation then Compensating else s.status)
  }

  /** The inbox handler of a remote result; apply says whether its local effects succeed. */
  function CompleteWaiting(s: Saga, ordinal: nat, apply: bool): Result {
    if ordinal >= |s.steps| then Rejected(ErrInvalidSaga)
    else if s.steps[ordinal] in {StepCompleted, StepCompensated} then Committed(s)
    else if s.steps[ordinal] != Waiting || s.current != ordinal || s.status != Running then Rejected(ErrNotWaiting)
    else if !apply then Rejected(ErrInvalidSaga)
    else Committed(s.(steps := s.steps[ordinal := StepCompleted], trace := s.trace + [Finished(ordinal)],
                      current := s.current + 1))
  }

  // ----- the trace a saga's rows stand for -------------------------------------------------------------

  /** Steps 0 to k - 1, each finished once and in order, possibly after having been asked for. */
  ghost predicate InOrder(trace: seq<Event>, k: nat)
    decreases k
  {
    if k == 0 then trace == []
    else
      && |trace| > 0 && trace[|trace| - 1] == Finished(k - 1)
      && (InOrder(trace[..|trace| - 1], k - 1)
          || (|trace| > 1 && trace[|trace| - 2] == Asked(k - 1) && InOrder(trace[..|trace| - 2], k - 1)))
  }

  /** Steps k - 1 down to j, each undone once. */
  function Unwound(k: nat, j: nat): seq<Event>
    requires j <= k
    decreases k - j
  {
    if j == k then [] else Unwound(k, j + 1) + [Undone(j)]
  }

  ghost predicate Behind(steps: seq<StepStatus>, k: nat) {
    k <= |steps| && (forall i | 0 <= i < k :: steps[i] == StepCompleted)
    && (forall i | k < i < |steps| :: steps[i] == Pending)
  }

  /** A saga on its way forward. */
  ghost predicate Going(s: Saga) {
    && Behind(s.steps, s.current)
    && if s.current < |s.steps| && s.steps[s.current] == Waiting
       then |s.trace| > 0 && s.trace[|s.trace| - 1] == Asked(s.current) && InOrder(s.trace[..|s.trace| - 1], s.current)
       else InOrder(s.trace, s.current) && (s.current < |s.steps| ==> s.steps[s.current] in {Pending, StepFailed})
  }

  /** A saga on its way back: everything from j up to the failed step is undone, everything below j stands. */
  ghost predicate Returning(s: Saga) {
    var j := Remaining(s.steps, |s.steps|);
    && j <= s.current < |s.steps| && s.steps[s.current] == StepFailed
    && (forall i | s.current < i < |s.steps| :: s.steps[i] == Pending)
    && (forall i | 0 <= i < j - 1 :: s.steps[i] == StepCompleted)
    && (forall i | j <= i < s.current :: s.steps[i] == StepCompensated)
    && |s.trace| >= s.current - j
    && s.trace[|s.trace| - (s.current - j)..] == Unwound(s.current, j)
    && InOrder(s.trace[..|s.trace| - (s.current - j)], s.current)
  }

  ghost predicate Inv(s: Saga) {
    match s.status
    case Running => Going(s)
    case Completed => Going(s) && s.current == |s.steps|
    case Compensating => Returning(s)
    case Compensated => Returning(s) && Remaining(s.steps, |s.steps|) == 0
  }

  lemma BeginInv(steps: nat)
    ensures Inv(Begin(steps))
  {
  }

  lemma FinishStep(trace: seq<Event>, k: nat)
    requires InOrder(trace, k) || (|trace| > 0 && trace[|trace| - 1] == Asked(k) && InOrder(trace[..|trace| - 1], k))
    ensures InOrder(trace + [Finished(k)], k + 1)
  {
    var all := trace + [Finished(k)];
    assert all[..|all| - 1] == trace;
    if |trace| > 0 {
      assert all[..|all| - 2] == trace[..|trace| - 1];
    }
  }

  lemma ExecuteKeeps(s: Saga, handler: Handler)
    requires Inv(s) && s.status == Running && Execute(s, handler).Committed?
    ensures Inv(Execute(s, handler).saga)
  {
    var s' := Execute(s, handler).saga;
    if s.current >= |s.steps| {
    } else if s.steps[s.current] == Waiting {
    } else if handler == Awaits {
      assert s'.trace[..|s'.trace| - 1] == s.trace;
    } else {
      FinishStep(s.trace, s.current);
    }
  }

  lemma {:induction false} RemainingIs(steps: seq<StepStatus>, n: nat, r: nat)
    requires r <= n <= |steps| && (r > 0 ==> steps[r - 1] in {StepCompleted, CompensationFailed})
    requires forall i | r <= i < n :: steps[i] !in {StepCompleted, CompensationFailed}
    ensures Remaining(steps, n) == r
  {
    if n > r {
      RemainingIs(steps, n - 1, r);
    }
  }

  /** A committed compensation undoes the last step that stands, and leaves one fewer. */
  lemma CompensateKeeps(s: Saga, handler: Handler)
    requires Inv(s) && s.status == Compensating && Compensate(s, handler).Committed?
    ensures Inv(Compensate(s, handler).saga)
    ensures var j := Remaining(s.steps, |s.steps|); var s' := Compensate(s, handler).saga;
            if j == 0 then s'.status == Compensated else Remaining(s'.steps, |s'.steps|) == j - 1
  {
    var j, s' := Remaining(s.steps, |s.steps|), Compensate(s, handler).saga;
    if j > 0 {
      RemainingIs(s'.steps, |s'.steps|, j - 1);
      UndoExtends(s.trace, s.current, j);
    }
  }

  lemma UndoExtends(trace: seq<Event>, k: nat, j: nat)
    requires 0 < j <= k && |trace| >= k - j && trace[|trace| - (k - j)..] == Unwound(k, j)
    ensures var after := trace + [Undone(j - 1)];
            after[|after| - (k - (j - 1))..] == Unwound(k, j - 1)
            && after[..|after| - (k - (j - 1))] == trace[..|trace| - (k - j)]
  {
    var after := trace + [Undone(j - 1)];
    var cut := |trace| - (k - j);
    assert after[cut..] == trace[cut..] + [Undone(j - 1)];
    assert after[..cut] == trace[..cut];
  }

  lemma TickKeeps(s: Saga, handler: Handler)
    requires Inv(s) && Tick(s, handler).Committed?
    ensures Inv(Tick(s, handler).saga)
  {
    hide Inv, Execute, Compensate;
    match s.status
    case Running => ExecuteKeeps(s, handler);
    case Compensating => CompensateKeeps(s, handler);
    case _ =>
  }

  lemma CompleteWaitingKeeps(s: Saga, ordinal: nat, apply: bool)
    requires Inv(s) && CompleteWaiting(s, ordinal, apply).Committed?
    ensures Inv(CompleteWaiting(s, ordinal, apply).saga)
  {
    if s.steps[ordinal] !in {StepCompleted, StepCompensated} {
      FinishStep(s.trace, s.current);
    }
  }

  // ----- recording a failure ---------------------------------------------------------------------------------

  /** The failed step is still the one this saga would run or undo next. */
  predicate StillNext(s: Saga, f: Failure) {
    if f.compensation then s.status == Compensating && f.ordinal + 1 == Remaining(s.steps, |s.steps|)
    else f.ordinal == s.current && s.current < |s.steps| && s.steps[s.current] in {Pending, StepFailed}
  }

  lemma TurnsBack(s: Saga, f: Failure)
    requires Inv(s) && s.status == Running && StillNext(s, f) && f.permanent && !f.compensation
    ensures Returning(Record(s, f))
  {
    hide InOrder;
    var s' := Record(s, f);
    RemainingIs(s'.steps, |s'.steps|, s.current);
    assert s.trace[..|s.trace| - 0] == s.trace && s.trace[|s.trace| - 0..] == Unwound(s.current, s.current);
  }

  lemma RecordKeeps(s: Saga, f: Failure)
    requires Inv(s) && StillNext(s, f)
    ensures f.ordinal < |s.steps| && Inv(Record(s, f))
  {
    hide InOrder, Unwound;
    var s' := Record(s, f);
    if f.compensation {
      RemainingIs(s'.steps, |s'.steps|, f.ordinal + 1);
    } else if s.status == Running {
      if f.permanent {
        TurnsBack(s, f);
      }
    } else {
      assert s'.steps == s.steps;
    }
  }

  /** Recording anything else contradicts the trace. */
  lemma RecordBreaks(s: Saga, f: Failure)
    requires Inv(s) && f.ordinal < |s.steps| && !StillNext(s, f)
    ensures !Inv(Record(s, f))
  {
    if f.compensation {
      StaleUndo(s, f);
    } else {
      StaleAction(s, f);
    }
  }

  lemma StaleUndo(s: Saga, f: Failure)
    requires Inv(s) && f.ordinal < |s.steps| && f.compensation && !StillNext(s, f)
    ensures !Inv(Record(s, f))
  {
    var s', j := Record(s, f), Remaining(s.steps, |s.steps|);
    assert s'.steps[f.ordinal] == CompensationFailed;
    if s.status in {Running, Completed} {
    } else if f.ordinal >= j {
      RemainingIs(s'.steps, |s'.steps|, f.ordinal + 1);
      if f.ordinal < s.current {
        TooFewUndone(s, s', j);
      }
    } else {
      RemainingIs(s'.steps, |s'.steps|, j);
    }
  }

  /** The trace of a return fixes how far it has come. */
  lemma TooFewUndone(s: Saga, s': Saga, j: nat)
    requires Returning(s) && j == Remaining(s.steps, |s.steps|) && s'.trace == s.trace && s'.current == s.current
    requires |s'.steps| == |s.steps| && j < Remaining(s'.steps, |s'.steps|)
    ensures !Returning(s')
  {
    var k, j' := s.current, Remaining(s'.steps, |s'.steps|);
    UnwoundAt(k, j);
    if j' <= k {
      assert s.trace[|s.trace| - (k - j)..][j' - j - 1] == Undone(k - j' + j);
    }
  }

  lemma {:induction false} UnwoundAt(k: nat, j: nat)
    requires j <= k
    ensures |Unwound(k, j)| == k - j && forall i | 0 <= i < k - j :: Unwound(k, j)[i] == Undone(k - 1 - i)
    decreases k - j
  {
    if j < k {
      UnwoundAt(k, j + 1);
    }
  }

  lemma StaleAction(s: Saga, f: Failure)
    requires Inv(s) && f.ordinal < |s.steps| && !f.compensation && !StillNext(s, f)
    ensures !Inv(Record(s, f))
  {
    var s' := Record(s, f);
    assert s'.steps[f.ordinal] == StepFailed;
    if s.status == Running && f.ordinal == s.current {
      RemainingIs(s'.steps, |s'.steps|, s.current);
      assert s.trace[..|s.trace| - 0] == s.trace;
    }
  }

  /** Recording a failure keeps a saga's rows in agreement with its trace exactly when the step is still next. */
  lemma RecordExactly(s: Saga, f: Failure)
    requires Inv(s) && f.ordinal < |s.steps|
    ensures Inv(Record(s, f)) <==> StillNext(s, f)
  {
    hide Inv, Record, StillNext;
    if StillNext(s, f) {
      RecordKeeps(s, f);
    } else {
      RecordBreaks(s, f);
    }
  }
}
