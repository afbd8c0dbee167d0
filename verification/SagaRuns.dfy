/** One coordinator beside the inbox handler, with crashes at any point; and why two coordinators are not enough. */
module SagaRuns {
  import opened Amounts
  import opened Sagas

  /** The saga's rows and the failure a coordinator has rolled back but not yet recorded. */
  datatype System = System(saga: Saga, inHand: Option<Failure>)

  datatype Step =
    | DoTick(handler: Handler)
    | DoRecord
    | Crash
    | Deliver(ordinal: nat, apply: bool)

  ghost predicate Enabled(y: System, t: Step) {
    match t
    case DoTick(_) => y.inHand.None?
    case DoRecord => y.inHand.Some? && y.inHand.value.ordinal < |y.saga.steps|
    case _ => true
  }

  ghost function After(y: System, t: Step): System
    requires Enabled(y, t)
  {
    match t
    case DoTick(handler) =>
      (match Tick(y.saga, handler)
       case Committed(s) => y.(saga := s)
       case RolledBack(f) => y.(inHand := Some(f))
       case Rejected(_) => y)
    case DoRecord => System(Record(y.saga, y.inHand.value), None)
    case Crash => y.(inHand := None)
    case Deliver(ordinal, apply) =>
      (match CompleteWaiting(y.saga, ordinal, apply) case Committed(s) => y.(saga := s) case _ => y)
  }

  ghost predicate Sound(y: System) {
    Inv(y.saga) && (y.inHand.Some? ==> StillNext(y.saga, y.inHand.value))
  }

  lemma FailedIsNext(s: Saga, handler: Handler)
    requires Inv(s) && Tick(s, handler).RolledBack?
    ensures StillNext(s, Tick(s, handler).failure)
  {
  }

  /** No remote result can be taken for a step whose action has just failed. */
  lemma InboxWaits(s: Saga, f: Failure, ordinal: nat, apply: bool)
    requires Inv(s) && StillNext(s, f) && CompleteWaiting(s, ordinal, apply).Committed?
    ensures CompleteWaiting(s, ordinal, apply).saga == s
  {
  }

  lemma StepKeeps(y: System, t: Step)
    requires Sound(y) && Enabled(y, t)
    ensures Sound(After(y, t))
  {
    hide Inv, Tick, StillNext, Record, CompleteWaiting;
    match t
    case DoTick(handler) =>
      if Tick(y.saga, handler).Committed? {
        TickKeeps(y.saga, handler);
      } else if Tick(y.saga, handler).RolledBack? {
        FailedIsNext(y.saga, handler);
      } else {
      }
    case DoRecord =>
      RecordKeeps(y.saga, y.inHand.value);
    case Crash =>
    case Deliver(ordinal, apply) =>
      if CompleteWaiting(y.saga, ordinal, apply).Committed? {
        CompleteWaitingKeeps(y.saga, ordinal, apply);
        if y.inHand.Some? {
          InboxWaits(y.saga, y.inHand.value, ordinal, apply);
        }
      }
  }

  ghost predicate Runs(y: System, run: seq<Step>)
    decreases |run|
  {
    run == [] || (Enabled(y, run[0]) && Runs(After(y, run[0]), run[1..]))
  }

  ghost function Final(y: System, run: seq<Step>): System
    requires Runs(y, run)
    decreases |run|
  {
    if run == [] then y else Final(After(y, run[0]), run[1..])
  }

  lemma {:induction false} RunKeeps(y: System, run: seq<Step>)
    requires Sound(y) && Runs(y, run)
    ensures Sound(Final(y, run)) && |Final(y, run).saga.steps| == |y.saga.steps|
    decreases |run|
  {
    hide Inv, After, StillNext;
    if run == [] {
    } else {
      StepKeeps(y, run[0]);
      SameLength(y, run[0]);
      RunKeeps(After(y, run[0]), run[1..]);
    }
  }

  lemma SameLength(y: System, t: Step)
    requires Enabled(y, t)
    ensures |After(y, t).saga.steps| == |y.saga.steps|
  {
  }

  /** The part of a trace that came after steps 0 to k - 1 had finished is their exact reversal down to j. */
  ghost predicate Reversed(trace: seq<Event>, k: nat, j: nat) {
    && j <= k && |trace| >= k - j && trace[|trace| - (k - j)..] == Unwound(k, j)
    && InOrder(trace[..|trace| - (k - j)], k)
  }

  ghost predicate AskedNext(trace: seq<Event>, k: nat) {
    |trace| > 0 && trace[|trace| - 1] == Asked(k) && InOrder(trace[..|trace| - 1], k)
  }

  /** The committed trace is a forward part in order and, if any, its exact reversal so far, as the status says. */
  ghost predicate Ordered(s: Saga) {
    match s.status
    case Running => InOrder(s.trace, s.current) || AskedNext(s.trace, s.current)
    case Completed => s.current == |s.steps| && InOrder(s.trace, s.current)
    case Compensating => exists j :: 0 <= j && Reversed(s.trace, s.current, j)
    case Compensated => Reversed(s.trace, s.current, 0)
  }

  lemma InvOrdered(s: Saga)
    requires Inv(s)
    ensures Ordered(s)
  {
    hide InOrder, Unwound;
    if s.status in {Compensating, Compensated} {
      assert Reversed(s.trace, s.current, Remaining(s.steps, |s.steps|));
    }
  }

  /**
   * In every run of a saga with n steps the trace is ordered; completed means all n finished, compensated all undone.
   */
  lemma EveryTraceIsOrdered(n: nat, run: seq<Step>)
    requires Runs(System(Begin(n), None), run)
    ensures var s := Final(System(Begin(n), None), run).saga; Ordered(s) && |s.steps| == n
  {
    hide Runs, Final, Ordered, Inv;
    BeginInv(n);
    RunKeeps(System(Begin(n), None), run);
    InvOrdered(Final(System(Begin(n), None), run).saga);
  }

  /** A number of ticks whose handlers all succeed. */
  ghost function Ticked(s: Saga, n: nat): Saga
    decreases n
  {
    if n == 0 then s
    else match Tick(s, Succeeds) case Committed(s') => Ticked(s', n - 1) case _ => s
  }

  /** From any state on its way back, one successful tick for each step that stands, and one more, end compensated. */
  lemma {:induction false} CompensationEnds(s: Saga)
    requires Inv(s) && s.status == Compensating
    ensures Ticked(s, Remaining(s.steps, |s.steps|) + 1).status == Compensated
    decreases Remaining(s.steps, |s.steps|)
  {
    hide Inv;
    CompensateKeeps(s, Succeeds);
    var s' := Tick(s, Succeeds).saga;
    if Remaining(s.steps, |s.steps|) == 0 {
      assert Ticked(s, 1) == Ticked(s', 0);
    } else {
      CompensationEnds(s');
    }
  }

  // ----- two coordinators -------------------------------------------------------------------------------------

  /**
   * One coordinator's action fails for good; before it records that, another's succeeds. The record then sends
   * the completed saga back, and the saga ends compensated although its only step was never undone.
   */
  lemma TwoCoordinatorsLeaveAStepStanding()
    ensures var s := Begin(1);
            var failed := Tick(s, Fails(true));
            var won := Tick(s, Succeeds);
            && failed.RolledBack? && won.Committed? && won.saga.status == Completed
            && !StillNext(won.saga, failed.failure)
            && var late := Record(won.saga, failed.failure);
               var end := Tick(late, Succeeds);
               end.Committed? && end.saga.status == Compensated && end.saga.trace == [Finished(0)]
  {
    var s := Begin(1);
    var late := Record(Tick(s, Succeeds).saga, Tick(s, Fails(true)).failure);
    RemainingIs(late.steps, 1, 0);
  }
}
