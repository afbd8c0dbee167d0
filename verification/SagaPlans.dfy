/** A coordinator without rows: where a saga stands, what each step does to it, and what decides its direction. */
module SagaPlans {
  import opened Amounts
  import opened Sagas
  import opened SagaRuns

  /** Steps done on the way forward, perhaps with one awaited; or, once turned back, how many still stand. */
  datatype Plan = Forward(finished: nat) | Awaiting(finished: nat) | Backward(failed: nat, standing: nat) | Done | Undid

  /** A plan and, when a handler has failed, whether that turns the saga back once it is recorded. */
  datatype Position = Position(plan: Plan, failed: Option<bool>)

  /** What one step does in a saga of n steps. */
  function Next(n: nat, p: Position, t: Step): Position {
    match t
    case DoTick(handler) => Ticks(n, p, handler)
    case DoRecord =>
      Position(if p.failed == Some(true) && p.plan.Forward? then Backward(p.plan.finished, p.plan.finished) else p.plan,
               None)
    case Crash => p.(failed := None)
    case Deliver(ordinal, apply) =>
      if p.plan == Awaiting(ordinal) && apply then p.(plan := Forward(ordinal + 1)) else p
  }

  function Ticks(n: nat, p: Position, handler: Handler): Position {
    match p.plan
    case Forward(k) =>
      if k == n then p.(plan := Done)
      else if handler.Fails? then p.(failed := Some(handler.permanent))
      else if handler == Awaits then p.(plan := Awaiting(k))
      else p.(plan := if k + 1 == n then Done else Forward(k + 1))
    case Backward(k, j) =>
      if j == 0 then p.(plan := Undid)
      else if handler.Fails? then p.(failed := Some(false))
      else p.(plan := Backward(k, j - 1))
    case _ => p
  }

  /** What one step commits. */
  function Emits(n: nat, p: Position, t: Step): seq<Event> {
    match t
    case DoTick(handler) =>
      if p.plan.Forward? && p.plan.finished < n && handler == Succeeds then [Finished(p.plan.finished)]
      else if p.plan.Forward? && p.plan.finished < n && handler == Awaits then [Asked(p.plan.finished)]
      else if p.plan.Backward? && p.plan.standing > 0 && !handler.Fails? then [Undone(p.plan.standing - 1)]
      else []
    case Deliver(ordinal, apply) => if p.plan == Awaiting(ordinal) && apply then [Finished(ordinal)] else []
    case _ => []
  }

  // ----- the rows stand for a position ----------------------------------------------------------------

  function PlanOf(s: Saga): Plan {
    match s.status
    case Running =>
      if s.current < |s.steps| && s.steps[s.current] == Waiting then Awaiting(s.current) else Forward(s.current)
    case Completed => Done
    case Compensating => Backward(s.current, Remaining(s.steps, |s.steps|))
    case Compensated => Undid
  }

  function PositionOf(y: System): Position {
    Position(PlanOf(y.saga),
             if y.inHand.None? then None else Some(y.inHand.value.permanent && !y.inHand.value.compensation))
  }

  /** With one coordinator an action that has just failed belongs to a saga that still runs. */
  ghost predicate Steady(y: System) {
    Sound(y) && (y.inHand.Some? && !y.inHand.value.compensation ==> y.saga.status == Running)
  }

  lemma SteadyKeeps(y: System, t: Step)
    requires Steady(y) && Enabled(y, t)
    ensures Steady(After(y, t))
  {
    hide Inv, StillNext;
    StepKeeps(y, t);
    match t
    case DoTick(_) =>
    case DoRecord =>
    case Crash =>
    case Deliver(_, _) =>
  }

  ghost predicate Follows(n: nat, y: System, t: Step, y': System) {
    PositionOf(y') == Next(n, PositionOf(y), t) && y'.saga.trace == y.saga.trace + Emits(n, PositionOf(y), t)
  }

  lemma ExecuteFollows(y: System, handler: Handler)
    requires Sound(y) && y.inHand.None? && y.saga.status == Running
    ensures Follows(|y.saga.steps|, y, DoTick(handler), After(y, DoTick(handler)))
  {
    hide InOrder;
    var s := y.saga;
    if s.current >= |s.steps| {
    } else if s.steps[s.current] == Waiting {
    } else if handler.Fails? {
    } else if handler == Awaits {
    } else {
    }
  }

  lemma CompensateFollows(y: System, handler: Handler)
    requires Sound(y) && y.inHand.None? && y.saga.status == Compensating
    ensures Follows(|y.saga.steps|, y, DoTick(handler), After(y, DoTick(handler)))
  {
    hide Inv, Remaining, StillNext;
    var s := y.saga;
    if Remaining(s.steps, |s.steps|) == 0 {
    } else if handler.Fails? {
    } else {
      CompensateKeeps(s, handler);
    }
  }

  lemma RecordFollows(y: System)
    requires Steady(y) && Enabled(y, DoRecord)
    ensures Follows(|y.saga.steps|, y, DoRecord, After(y, DoRecord))
  {
    hide InOrder, Unwound;
    var s, f := y.saga, y.inHand.value;
    var s' := Record(s, f);
    if f.compensation {
      RemainingIs(s'.steps, |s'.steps|, f.ordinal + 1);
    } else if f.permanent {
      RemainingIs(s'.steps, |s'.steps|, s.current);
    } else {
    }
  }

  lemma DeliverFollows(y: System, ordinal: nat, apply: bool)
    requires Sound(y)
    ensures Follows(|y.saga.steps|, y, Deliver(ordinal, apply), After(y, Deliver(ordinal, apply)))
  {
    hide InOrder, Unwound;
  }

  /** The rows and the failure in hand take every step as the position does. */
  lemma StepFollows(y: System, t: Step)
    requires Steady(y) && Enabled(y, t)
    ensures Follows(|y.saga.steps|, y, t, After(y, t))
  {
    hide Inv, StillNext, Record, CompleteWaiting, Remaining;
    match t
    case DoTick(handler) =>
      if y.saga.status == Running {
        ExecuteFollows(y, handler);
      } else if y.saga.status == Compensating {
        CompensateFollows(y, handler);
      } else {
      }
    case DoRecord => RecordFollows(y);
    case Crash =>
    case Deliver(ordinal, apply) => DeliverFollows(y, ordinal, apply);
  }

  // ----- runs ----------------------------------------------------------------------------------------------

  ghost predicate IsRun(n: nat, states: seq<System>, steps: seq<Step>) {
    && |states| == |steps| + 1 && states[0] == System(Begin(n), None)
    && forall i | 0 <= i < |steps| :: Enabled(states[i], steps[i]) && states[i + 1] == After(states[i], steps[i])
  }

  /** The position after the first k steps. */
  function Planned(n: nat, steps: seq<Step>, k: nat): Position
    requires k <= |steps|
  {
    if k == 0 then Position(Forward(0), None) else Next(n, Planned(n, steps, k - 1), steps[k - 1])
  }

  function Emitted(n: nat, steps: seq<Step>, k: nat): seq<Event>
    requires k <= |steps|
  {
    if k == 0 then [] else Emitted(n, steps, k - 1) + Emits(n, Planned(n, steps, k - 1), steps[k - 1])
  }

  /** Over whole runs, status, cursor, steps and trace are those of the plan, which depends on the handlers only. */
  lemma {:induction false} RunFollowsPlan(n: nat, states: seq<System>, steps: seq<Step>, k: nat)
    requires IsRun(n, states, steps) && k <= |steps|
    ensures Steady(states[k]) && |states[k].saga.steps| == n
    ensures PositionOf(states[k]) == Planned(n, steps, k) && states[k].saga.trace == Emitted(n, steps, k)
  {
    hide Inv, After, Enabled, Next, Emits, StillNext;
    if k == 0 {
      BeginInv(n);
      BeginPosition(n);
    } else {
      RunFollowsPlan(n, states, steps, k - 1);
      assert Enabled(states[k - 1], steps[k - 1]) && states[k] == After(states[k - 1], steps[k - 1]);
      SteadyKeeps(states[k - 1], steps[k - 1]);
      StepFollows(states[k - 1], steps[k - 1]);
      SameLength(states[k - 1], steps[k - 1]);
    }
  }

  lemma BeginPosition(n: nat)
    ensures PositionOf(System(Begin(n), None)) == Position(Forward(0), None)
  {
  }

  // ----- what turns a saga back --------------------------------------------------------------------------------

  /** An action ended in a permanent failure at i, and its record at j came before any crash. */
  ghost predicate PermanentFailure(states: seq<System>, steps: seq<Step>, i: nat, j: nat)
    requires |states| == |steps| + 1
  {
    && i < j < |steps| && steps[i] == DoTick(Fails(true)) && steps[j] == DoRecord
    && (forall k | i < k < j :: steps[k].Deliver?)
    && var s := states[i].saga;
       s.status == Running && s.current < |s.steps| && s.steps[s.current] in {Pending, StepFailed}
  }

  predicate IsBack(p: Plan) {
    p.Backward? || p == Undid
  }

  lemma BackIs(s: Saga)
    ensures IsBack(PlanOf(s)) <==> s.status == Compensating || s.status == Compensated
  {
  }

  /** A failure in hand was left by a tick, and only deliveries have come since. */
  lemma {:induction false} FailureHasSource(n: nat, steps: seq<Step>, k: nat) returns (i: nat)
    requires k <= |steps| && Planned(n, steps, k).failed.Some? && Legal(n, steps, k)
    ensures i < k && steps[i].DoTick? && steps[i].handler.Fails? && (forall m | i < m < k :: steps[m].Deliver?)
    ensures Planned(n, steps, k).failed == Some(true) ==>
              steps[i] == DoTick(Fails(true)) && Planned(n, steps, i).plan.Forward?
              && Planned(n, steps, i).plan.finished != n
  {
    var t := steps[k - 1];
    if t.DoTick? {
      i := k - 1;
    } else {
      i := FailureHasSource(n, steps, k - 1);
    }
  }

  /** Ticks happen only with empty hands, and records only with a failure in hand. */
  ghost predicate Legal(n: nat, steps: seq<Step>, k: nat)
    requires k <= |steps|
  {
    forall i | 0 <= i < k ::
      (steps[i].DoTick? ==> Planned(n, steps, i).failed.None?)
      && (steps[i].DoRecord? ==> Planned(n, steps, i).failed.Some?)
  }

  lemma RunIsLegal(n: nat, states: seq<System>, steps: seq<Step>)
    requires IsRun(n, states, steps)
    ensures Legal(n, steps, |steps|)
  {
    hide Inv, After, Next, PlanOf;
    forall i | 0 <= i < |steps|
      ensures (steps[i].DoTick? ==> Planned(n, steps, i).failed.None?)
              && (steps[i].DoRecord? ==> Planned(n, steps, i).failed.Some?)
    {
      RunFollowsPlan(n, states, steps, i);
      assert Enabled(states[i], steps[i]);
    }
  }

  lemma {:induction false} BackStays(n: nat, steps: seq<Step>, k: nat, m: nat)
    requires k <= m <= |steps| && IsBack(Planned(n, steps, k).plan)
    ensures IsBack(Planned(n, steps, m).plan)
    decreases m
  {
    if k < m {
      BackStays(n, steps, k, m - 1);
    }
  }

  /** The step at which a saga was turned back. */
  lemma {:induction false} TurningPoint(n: nat, steps: seq<Step>, k: nat) returns (j: nat)
    requires k <= |steps| && IsBack(Planned(n, steps, k).plan)
    ensures j < k && steps[j] == DoRecord && Planned(n, steps, j).failed == Some(true)
    ensures Planned(n, steps, j).plan.Forward?
  {
    if IsBack(Planned(n, steps, k - 1).plan) {
      j := TurningPoint(n, steps, k - 1);
    } else {
      j := k - 1;
    }
  }

  lemma {:induction false} HeldOn(n: nat, steps: seq<Step>, i: nat, j: nat)
    requires i < j <= |steps| && steps[i] == DoTick(Fails(true)) && (forall k | i < k < j :: steps[k].Deliver?)
    requires Planned(n, steps, i).plan.Forward? && Planned(n, steps, i).plan.finished != n
    ensures Planned(n, steps, j).failed == Some(true) && Planned(n, steps, j).plan == Planned(n, steps, i).plan
    decreases j
  {
    if i + 1 < j {
      HeldOn(n, steps, i, j - 1);
    }
  }

  lemma ForwardIs(s: Saga)
    requires Inv(s)
    ensures PlanOf(s).Forward? && PlanOf(s).finished != |s.steps| <==>
            s.status == Running && s.current < |s.steps| && s.steps[s.current] in {Pending, StepFailed}
  {
    hide InOrder, Unwound;
  }

  /**
   * A saga is compensating or compensated if and only if an action of it ended in a permanent failure that was
   * recorded; no transient failure, crash, wait or late result turns it back.
   */
  lemma TurnsBackExactly(n: nat, states: seq<System>, steps: seq<Step>, m: nat)
    requires IsRun(n, states, steps) && m <= |steps|
    ensures states[m].saga.status in {Compensating, Compensated} <==>
            exists i: nat, j: nat :: i < j < m && PermanentFailure(states, steps, i, j)
  {
    hide Inv, After, Enabled, Next, PlanOf, Planned, IsBack;
    RunFollowsPlan(n, states, steps, m);
    BackIs(states[m].saga);
    RunIsLegal(n, states, steps);
    if IsBack(Planned(n, steps, m).plan) {
      var j := TurningPoint(n, steps, m);
      assert Legal(n, steps, j);
      var i := FailureHasSource(n, steps, j);
      RunFollowsPlan(n, states, steps, i);
      ForwardIs(states[i].saga);
      assert PermanentFailure(states, steps, i, j);
    }
    if i: nat, j: nat :| i < j < m && PermanentFailure(states, steps, i, j) {
      RunFollowsPlan(n, states, steps, i);
      ForwardIs(states[i].saga);
      HeldOn(n, steps, i, j);
      Turned(n, steps, j);
      BackStays(n, steps, j + 1, m);
    }
  }

  lemma Turned(n: nat, steps: seq<Step>, j: nat)
    requires j < |steps| && steps[j] == DoRecord && Planned(n, steps, j).failed == Some(true)
    requires Planned(n, steps, j).plan.Forward?
    ensures IsBack(Planned(n, steps, j + 1).plan)
  {
  }

  // ----- what a transient failure does ------------------------------------------------------------------------------

  /** A recorded transient failure leaves the saga running at the same step, and a succeeding tick then finishes it. */
  lemma TransientFailureRetries(s: Saga)
    requires Inv(s) && s.status == Running && s.current < |s.steps| && s.steps[s.current] in {Pending, StepFailed}
    ensures var failed := Tick(s, Fails(false));
            && failed.RolledBack? && failed.failure.ordinal < |s.steps|
            && var kept := Record(s, failed.failure);
            && kept.status == Running && kept.current == s.current && kept.trace == s.trace
            && (forall i | 0 <= i < |s.steps| && i != s.current :: kept.steps[i] == s.steps[i])
            && var retried := Tick(kept, Succeeds);
            && retried.Committed? && retried.saga.current == s.current + 1
            && retried.saga.trace == s.trace + [Finished(s.current)]
  {
    hide InOrder;
  }

  /** The events of steps k to n - 1 finishing in order. */
  function FinishedFrom(k: nat, n: nat): seq<Event>
    requires k <= n
    decreases n - k
  {
    if k == n then [] else [Finished(k)] + FinishedFrom(k + 1, n)
  }

  lemma OneForward(s: Saga)
    requires Inv(s) && s.status == Running && s.current < |s.steps| && s.steps[s.current] != Waiting
    ensures Tick(s, Succeeds).Committed?
    ensures var s' := Tick(s, Succeeds).saga;
            && Inv(s') && s'.current == s.current + 1 && |s'.steps| == |s.steps|
            && s'.trace == s.trace + [Finished(s.current)]
            && s'.status == (if s'.current == |s.steps| then Completed else Running)
            && (s'.current < |s.steps| ==> s'.steps[s'.current] != Waiting)
  {
    hide InOrder;
    ExecuteKeeps(s, Succeeds);
  }

  /** A running saga with nothing awaited completes after one succeeding tick for each step that is left. */
  lemma {:induction false} RunningCompletes(s: Saga)
    requires Inv(s) && s.status == Running && s.current < |s.steps| && s.steps[s.current] != Waiting
    ensures var end := Ticked(s, |s.steps| - s.current);
            && end.status == Completed && end.current == |s.steps| == |end.steps|
            && end.trace == s.trace + FinishedFrom(s.current, |s.steps|)
    decreases |s.steps| - s.current
  {
    hide Inv, Execute, Advance;
    OneForward(s);
    var s' := Tick(s, Succeeds).saga;
    if s.current + 1 < |s.steps| {
      RunningCompletes(s');
      assert s.trace + [Finished(s.current)] + FinishedFrom(s.current + 1, |s.steps|) ==
             s.trace + FinishedFrom(s.current, |s.steps|);
    } else {
      assert Ticked(s, 1) == Ticked(s', 0);
      assert FinishedFrom(s.current, |s.steps|) == [Finished(s.current)] + FinishedFrom(s.current + 1, |s.steps|);
    }
  }

  /** With every step behind it, one tick completes it. */
  lemma NothingLeftCompletes(s: Saga, handler: Handler)
    requires Inv(s) && s.status == Running && s.current == |s.steps|
    ensures Tick(s, handler) == Committed(s.(status := Completed))
  {
  }
}
