/** A failure recorded late: exactly when does it let some continuation of the saga break the order of its trace? */
module SagaRecords {
  import opened Amounts
  import opened Sagas
  import opened SagaRuns

  /** A step that a compensation would still undo. */
  predicate Stands(t: StepStatus) {
    t in {StepCompleted, CompensationFailed}
  }

  predicate Runnable(t: StepStatus) {
    t in {Pending, StepFailed}
  }

  predicate IsWaiting(s: Saga) {
    s.current < |s.steps| && s.steps[s.current] == Waiting
  }

  /** What a caller can read off the rows before recording: the record cannot mislead any continuation. */
  predicate Harmless(s: Saga, f: Failure) {
    var k, n := s.current, |s.steps|;
    match s.status
    case Completed => f.compensation || !f.permanent
    case Compensated => true
    case Compensating =>
      if f.compensation then f.ordinal < Remaining(s.steps, n) else f.ordinal >= Remaining(s.steps, n)
    case Running =>
      if f.compensation then f.ordinal <= k || (IsWaiting(s) && f.ordinal == k + 1)
      else if f.permanent then f.ordinal >= k && !IsWaiting(s)
      else
        || f.ordinal > k || (f.ordinal == k && !IsWaiting(s))
        || (f.ordinal < k && (k == n || (IsWaiting(s) && k + 1 == n)))
  }

  // ----- rows that cannot go wrong -------------------------------------------------------------------

  /** Some action may still be run, and so may still fail for good. */
  predicate CanFail(s: Saga) {
    && s.current < |s.steps|
    && (Runnable(s.steps[s.current])
        || (IsWaiting(s) && s.current + 1 < |s.steps| && Runnable(s.steps[s.current + 1])))
  }

  /** Exactly the steps before k stand. */
  ghost predicate StandsTo(steps: seq<StepStatus>, k: nat) {
    && k <= |steps| && (forall i | 0 <= i < k :: Stands(steps[i])) && (forall i | k <= i < |steps| :: !Stands(steps[i]))
  }

  ghost predicate Advancing(s: Saga) {
    && s.current <= |s.steps| && (forall i | s.current < i < |s.steps| :: s.steps[i] != Waiting)
    && (IsWaiting(s) ==> AskedNext(s.trace, s.current))
    && (s.current == |s.steps| || Runnable(s.steps[s.current]) ==> InOrder(s.trace, s.current))
    && (InOrder(s.trace, s.current) || AskedNext(s.trace, s.current))
    && (CanFail(s) ==> StandsTo(s.steps, s.current))
  }

  ghost predicate Undoing(s: Saga) {
    var j := Remaining(s.steps, |s.steps|);
    j <= s.current && StandsTo(s.steps, j) && Reversed(s.trace, s.current, j)
  }

  /** Weaker than the invariant of a single coordinator, and enough for the trace. */
  ghost predicate Tame(s: Saga) {
    match s.status
    case Running => Advancing(s)
    case Completed => s.current == |s.steps| && InOrder(s.trace, s.current)
    case Compensating => Undoing(s)
    case Compensated => Reversed(s.trace, s.current, 0)
  }

  lemma TameOrdered(s: Saga)
    requires Tame(s)
    ensures Ordered(s)
  {
    hide InOrder, Unwound, Reversed;
    if s.status == Compensating {
      assert Reversed(s.trace, s.current, Remaining(s.steps, |s.steps|));
    }
  }

  /** A failure in hand belongs to the step that is next. */
  predicate Next(s: Saga, f: Failure) {
    if f.compensation then s.status == Compensating && f.ordinal + 1 == Remaining(s.steps, |s.steps|)
    else s.status == Running && f.ordinal == s.current < |s.steps| && Runnable(s.steps[s.current])
  }

  lemma StandsRemaining(steps: seq<StepStatus>, k: nat)
    requires StandsTo(steps, k)
    ensures Remaining(steps, |steps|) == k
  {
    RemainingIs(steps, |steps|, k);
  }

  lemma AwaitTame(s: Saga)
    requires Advancing(s) && s.current < |s.steps| && Runnable(s.steps[s.current])
    ensures Advancing(s.(steps := s.steps[s.current := Waiting], trace := s.trace + [Asked(s.current)]))
  {
    hide InOrder;
    var trace := s.trace + [Asked(s.current)];
    assert trace[..|trace| - 1] == s.trace;
    if CanFail(s) {
      assert StandsTo(s.steps, s.current);
    }
  }

  lemma AdvanceTame(s: Saga)
    requires Advancing(s) && s.current < |s.steps| && Runnable(s.steps[s.current])
    ensures Tame(Advance(s))
  {
    hide InOrder, Undoing, Reversed;
    FinishStep(s.trace, s.current);
    assert StandsTo(s.steps, s.current);
  }

  lemma ExecuteTame(s: Saga, handler: Handler)
    requires Tame(s) && s.status == Running && Execute(s, handler).Committed?
    ensures Tame(Execute(s, handler).saga)
  {
    hide InOrder, Undoing, Reversed, StandsTo, CanFail, AskedNext, Advance;
    if s.current >= |s.steps| {
    } else if s.steps[s.current] == Waiting {
    } else if handler == Awaits {
      AwaitTame(s);
    } else {
      AdvanceTame(s);
    }
  }

  lemma UndoReverses(trace: seq<Event>, k: nat, j: nat)
    requires Reversed(trace, k, j) && j > 0
    ensures Reversed(trace + [Undone(j - 1)], k, j - 1)
  {
    UndoExtends(trace, k, j);
  }

  lemma CompensateTame(s: Saga, handler: Handler)
    requires Tame(s) && s.status == Compensating && Compensate(s, handler).Committed?
    ensures Tame(Compensate(s, handler).saga)
  {
    hide Reversed;
    var j, s' := Remaining(s.steps, |s.steps|), Compensate(s, handler).saga;
    if j > 0 {
      UndoReverses(s.trace, s.current, j);
      StandsRemaining(s'.steps, j - 1);
    }
  }

  lemma RecordTame(s: Saga, f: Failure)
    requires Tame(s) && Next(s, f)
    ensures f.ordinal < |s.steps| && Tame(Record(s, f))
  {
    hide Reversed;
    var s' := Record(s, f);
    if f.compensation {
      StandsRemaining(s'.steps, f.ordinal + 1);
    } else if f.permanent {
      StandsRemaining(s'.steps, s.current);
      ReversesNothing(s.trace, s.current);
    }
  }

  lemma ReversesNothing(trace: seq<Event>, k: nat)
    requires InOrder(trace, k)
    ensures Reversed(trace, k, k)
  {
    assert trace[..|trace| - 0] == trace;
  }

  lemma DeliverTame(s: Saga, ordinal: nat, apply: bool)
    requires Tame(s) && CompleteWaiting(s, ordinal, apply).Committed?
    ensures Tame(CompleteWaiting(s, ordinal, apply).saga)
  {
    if s.steps[ordinal] !in {StepCompleted, StepCompensated} {
      FinishStep(s.trace, s.current);
    }
  }

  ghost predicate TameSystem(y: System) {
    Tame(y.saga) && (y.inHand.Some? ==> Next(y.saga, y.inHand.value))
  }

  lemma FailedNext(s: Saga, handler: Handler)
    requires Tick(s, handler).RolledBack?
    ensures Next(s, Tick(s, handler).failure)
  {
  }

  lemma NextWaits(s: Saga, f: Failure, ordinal: nat, apply: bool)
    requires Next(s, f) && CompleteWaiting(s, ordinal, apply).Committed?
    ensures CompleteWaiting(s, ordinal, apply).saga == s
  {
  }

  lemma StepTame(y: System, t: Step)
    requires TameSystem(y) && Enabled(y, t)
    ensures TameSystem(After(y, t))
  {
    hide Tame, Next, Execute, Compensate, Record, CompleteWaiting;
    match t
    case DoTick(handler) =>
      if Tick(y.saga, handler).RolledBack? {
        FailedNext(y.saga, handler);
      } else if Tick(y.saga, handler).Rejected? {
      } else if y.saga.status == Running {
        ExecuteTame(y.saga, handler);
      } else if y.saga.status == Compensating {
        CompensateTame(y.saga, handler);
      } else {
      }
    case DoRecord => RecordTame(y.saga, y.inHand.value);
    case Crash =>
    case Deliver(ordinal, apply) =>
      if CompleteWaiting(y.saga, ordinal, apply).Committed? {
        DeliverTame(y.saga, ordinal, apply);
        if y.inHand.Some? {
          NextWaits(y.saga, y.inHand.value, ordinal, apply);
        }
      } else {
      }
  }

  lemma {:induction false} RunTame(y: System, run: seq<Step>)
    requires TameSystem(y) && Runs(y, run)
    ensures Ordered(Final(y, run).saga)
    decreases |run|
  {
    hide Tame, Next, After, Enabled, Ordered;
    if run == [] {
      TameOrdered(y.saga);
    } else {
      StepTame(y, run[0]);
      RunTame(After(y, run[0]), run[1..]);
    }
  }

  // ----- a harmless record leaves tame rows ---------------------------------------------------------------

  lemma HarmlessRunning(s: Saga, f: Failure)
    requires Inv(s) && s.status == Running && f.ordinal < |s.steps| && Harmless(s, f)
    ensures Tame(Record(s, f))
  {
    hide InOrder, Reversed;
    var s' := Record(s, f);
    if f.permanent && !f.compensation {
      ReversesNothing(s.trace, s.current);
      StandsRemaining(s'.steps, s.current);
    } else {
    }
  }

  lemma HarmlessReturning(s: Saga, f: Failure)
    requires Inv(s) && s.status in {Compensating, Compensated} && f.ordinal < |s.steps| && Harmless(s, f)
    ensures Tame(Record(s, f))
  {
    hide InOrder, Unwound;
    var s', j := Record(s, f), Remaining(s.steps, |s.steps|);
    assert Reversed(s.trace, s.current, j);
    if s'.status == Compensating {
      assert StandsTo(s'.steps, j);
      StandsRemaining(s'.steps, j);
    }
  }

  lemma HarmlessTame(s: Saga, f: Failure)
    requires Inv(s) && f.ordinal < |s.steps| && Harmless(s, f)
    ensures Tame(Record(s, f))
  {
    match s.status
    case Running => HarmlessRunning(s, f);
    case Completed =>
    case _ => HarmlessReturning(s, f);
  }

  // ----- any other record has a continuation that breaks the order ----------------------------------------------

  predicate AllUndone(events: seq<Event>) {
    forall i | 0 <= i < |events| :: events[i].Undone?
  }

  /** The forward part of a trace is where its undone events begin. */
  lemma SplitsOnce(forward: seq<Event>, events: seq<Event>, k: nat, j: nat)
    requires InOrder(forward, k) && AllUndone(events) && Reversed(forward + events, k, j)
    ensures j <= k && |events| == k - j && events == Unwound(k, j)
  {
    var trace := forward + events;
    var m := |trace| - (k - j);
    UnwoundAt(k, j);
    assert forall i | m <= i < |trace| :: trace[i] == trace[m..][i - m];
    assert forall i | |forward| <= i < |trace| :: trace[i] == events[i - |forward|];
    if k > 0 {
      assert trace[|forward| - 1] == Finished(k - 1) && trace[..m][m - 1] == Finished(k - 1);
    }
    assert trace[|forward|..] == events;
  }

  /** An ordered compensation has undone exactly the topmost steps, and all of them once it is over. */
  lemma OrderedMeans(s: Saga, forward: seq<Event>, events: seq<Event>)
    requires s.status in {Compensating, Compensated} && s.trace == forward + events
    requires InOrder(forward, s.current) && AllUndone(events) && Ordered(s)
    ensures |events| <= s.current && events == Unwound(s.current, s.current - |events|)
    ensures s.status == Compensated ==> |events| == s.current
  {
    hide InOrder, Reversed, Unwound, AllUndone;
    var j :| 0 <= j && Reversed(s.trace, s.current, j) && (s.status == Compensated ==> j == 0);
    SplitsOnce(forward, events, s.current, j);
  }

  /** A compensation that undid a step out of turn, or stopped short, is not ordered. */
  lemma OutOfTurn(s: Saga, forward: seq<Event>, events: seq<Event>)
    requires s.status in {Compensating, Compensated} && s.trace == forward + events
    requires InOrder(forward, s.current) && AllUndone(events)
    requires || |events| > s.current || events != Unwound(s.current, s.current - |events|)
             || (s.status == Compensated && |events| < s.current)
    ensures !Ordered(s)
  {
    hide InOrder, Ordered, Unwound, AllUndone;
    if Ordered(s) {
      OrderedMeans(s, forward, events);
    }
  }

  /** Every continuation by one coordinator, with its inbox handler and crashes, has an ordered trace. */
  ghost predicate StaysOrdered(y: System) {
    forall run | Runs(y, run) :: Ordered(Final(y, run).saga)
  }

  ghost predicate Breaks(y: System) {
    !StaysOrdered(y)
  }

  lemma BreaksNow(y: System)
    requires !Ordered(y.saga)
    ensures Breaks(y)
  {
    assert Runs(y, []) && Final(y, []) == y;
  }

  lemma BreaksAfter(y: System, t: Step)
    requires Enabled(y, t) && Breaks(After(y, t))
    ensures Breaks(y)
  {
    hide Ordered, Enabled, After;
    var run :| Runs(After(y, t), run) && !Ordered(Final(After(y, t), run).saga);
    var longer := [t] + run;
    assert longer[0] == t && longer[1..] == run;
    assert Runs(y, longer) && Final(y, longer) == Final(After(y, t), run);
  }

  /** A compensation going down from j passes over a step that no longer stands. */
  lemma {:induction false} HoleBreaks(s: Saga, o: nat, j: nat)
    requires s.status == Compensating && o < j <= s.current <= |s.steps| && !Stands(s.steps[o])
    requires Reversed(s.trace, s.current, j) && Remaining(s.steps, |s.steps|) <= j
    ensures Breaks(System(s, None))
    decreases j
  {
    hide InOrder, Breaks, Ordered;
    var r := Remaining(s.steps, |s.steps|);
    var y := System(s, None);
    var s' := Compensate(s, Succeeds).saga;
    assert After(y, DoTick(Succeeds)) == System(s', None);
    if r == j {
      UndoReverses(s.trace, s.current, j);
      RemainingBelow(s'.steps, |s'.steps|, j - 1);
      HoleBreaks(s', o, j - 1);
    } else {
      SkippedBreaks(s, j);
    }
    BreaksAfter(y, DoTick(Succeeds));
  }

  lemma {:induction false} RemainingBelow(steps: seq<StepStatus>, n: nat, r: nat)
    requires n <= |steps| && forall i | r <= i < n :: !Stands(steps[i])
    ensures Remaining(steps, n) <= r
  {
  }

  lemma SkippedBreaks(s: Saga, j: nat)
    requires s.status == Compensating && j <= s.current && Reversed(s.trace, s.current, j)
             && Remaining(s.steps, |s.steps|) < j
    ensures Breaks(System(Compensate(s, Succeeds).saga, None))
  {
    hide InOrder, Breaks, Ordered;
    var r, k := Remaining(s.steps, |s.steps|), s.current;
    var s' := Compensate(s, Succeeds).saga;
    var cut := |s.trace| - (k - j);
    var forward, events := s.trace[..cut], s.trace[cut..];
    UnwoundAt(k, j);
    if r == 0 {
      assert s'.trace == forward + events;
      OutOfTurn(s', forward, events);
    } else {
      var more := events + [Undone(r - 1)];
      assert s'.trace == forward + more;
      UnwoundAt(k, j - 1);
      assert more[k - j] == Undone(r - 1) && Unwound(k, j - 1)[k - j] == Undone(j - 1);
      OutOfTurn(s', forward, more);
    }
    BreaksNow(System(s', None));
  }

  /** A step that stands above the current one, or has been undone already, is undone out of turn. */
  lemma ExtraBreaks(s: Saga, o: nat, j: nat)
    requires s.status == Compensating && j <= s.current <= |s.steps| && Reversed(s.trace, s.current, j)
    requires j <= o && Remaining(s.steps, |s.steps|) == o + 1
    ensures Breaks(System(s, None))
  {
    hide InOrder, Breaks, Ordered;
    var k, s' := s.current, Compensate(s, Succeeds).saga;
    var cut := |s.trace| - (k - j);
    var forward, more := s.trace[..cut], s.trace[cut..] + [Undone(o)];
    UnwoundAt(k, j);
    assert s'.trace == forward + more;
    if j > 0 {
      UnwoundAt(k, j - 1);
      assert more[k - j] == Undone(o) && Unwound(k, j - 1)[k - j] == Undone(j - 1);
    }
    OutOfTurn(s', forward, more);
    BreaksNow(System(s', None));
    assert After(System(s, None), DoTick(Succeeds)) == System(s', None);
    BreaksAfter(System(s, None), DoTick(Succeeds));
  }

  /** A permanent failure of the current action turns the saga around. */
  lemma TurnBreaks(s: Saga)
    requires s.status == Running && s.current < |s.steps| && Runnable(s.steps[s.current])
    requires Breaks(System(Record(s, Failure(s.current, false, true)), None))
    ensures Breaks(System(s, None))
  {
    hide Breaks;
    var f := Failure(s.current, false, true);
    var y1 := System(s, Some(f));
    assert After(System(s, None), DoTick(Fails(true))) == y1;
    BreaksAfter(y1, DoRecord);
    BreaksAfter(System(s, None), DoTick(Fails(true)));
  }

  /** A remote result moves a waiting saga on. */
  lemma DeliveredBreaks(s: Saga)
    requires s.status == Running && IsWaiting(s) && Breaks(System(CompleteWaiting(s, s.current, true).saga, None))
    ensures Breaks(System(s, None))
  {
    hide Breaks;
    var y := System(s, None);
    assert After(y, Deliver(s.current, true)) == System(CompleteWaiting(s, s.current, true).saga, None);
    BreaksAfter(y, Deliver(s.current, true));
  }

  /** Turned around at k with the trace in order: a hole below k or a standing step above it comes out. */
  lemma TurnedBreaks(s: Saga, o: nat)
    requires s.status == Compensating && s.current <= |s.steps| && o < |s.steps| && InOrder(s.trace, s.current)
    requires (o < s.current && !Stands(s.steps[o]) && (forall i | s.current <= i < |s.steps| :: !Stands(s.steps[i])))
             || (o > s.current && Stands(s.steps[o]) && (forall i | o < i < |s.steps| :: !Stands(s.steps[i])))
    ensures Breaks(System(s, None))
  {
    hide Breaks, InOrder, Reversed;
    ReversesNothing(s.trace, s.current);
    if o < s.current {
      RemainingBelow(s.steps, |s.steps|, s.current);
      HoleBreaks(s, o, s.current);
    } else {
      RemainingIs(s.steps, |s.steps|, o + 1);
      ExtraBreaks(s, o, s.current);
    }
  }

  lemma ReversedEnds(trace: seq<Event>, k: nat, j: nat)
    requires Reversed(trace, k, j)
    ensures if j < k then |trace| > 0 && trace[|trace| - 1].Undone? else InOrder(trace, k)
  {
    UnwoundAt(k, j);
    if j < k {
      assert trace[|trace| - (k - j)..][k - j - 1] == trace[|trace| - 1];
    } else {
      assert trace[..|trace| - 0] == trace;
    }
  }

  lemma AskedIsNotReversed(trace: seq<Event>, k: nat, j: nat)
    requires AskedNext(trace, k)
    ensures !Reversed(trace, k, j) && !InOrder(trace, k)
  {
    if Reversed(trace, k, j) {
      ReversedEnds(trace, k, j);
    }
  }

  /** An action that must not fail for good any more, recorded as having failed for good. */
  lemma PermanentBreaks(s: Saga, f: Failure)
    requires Inv(s) && s.status in {Running, Completed} && f.ordinal < |s.steps| && !f.compensation && f.permanent
             && !Harmless(s, f)
    ensures Breaks(System(Record(s, f), None))
  {
    hide Breaks, InOrder, Reversed;
    var s' := Record(s, f);
    if s.status == Running && IsWaiting(s) {
      forall j: nat ensures !Reversed(s'.trace, s'.current, j) {
        AskedIsNotReversed(s.trace, s.current, j);
      }
      BreaksNow(System(s', None));
    } else {
      TurnedBreaks(s', f.ordinal);
    }
  }

  /** The rows after a late record, moved on to a step that can fail for good. */
  lemma MovedOnBreaks(s: Saga, o: nat)
    requires Passes(s, o)
    ensures Breaks(System(s, None))
  {
    hide Breaks, InOrder, Reversed, AskedNext;
    if IsWaiting(s) {
      var s1 := CompleteWaiting(s, s.current, true).saga;
      assert InOrder(s1.trace, s1.current) by { FinishAsked(s.trace, s.current); }
      TurnedBreaks(Record(s1, Failure(s1.current, false, true)), o);
      TurnBreaks(s1);
      DeliveredBreaks(s);
    } else {
      TurnedBreaks(Record(s, Failure(s.current, false, true)), o);
      TurnBreaks(s);
    }
  }

  lemma FinishAsked(trace: seq<Event>, k: nat)
    requires AskedNext(trace, k)
    ensures InOrder(trace + [Finished(k)], k + 1)
  {
    FinishStep(trace, k);
  }

  /** A running saga in which step o is a hole below the step that can fail, or stands above it. */
  ghost predicate Passes(s: Saga, o: nat) {
    var turn := if IsWaiting(s) then s.current + 1 else s.current;
    && s.status == Running && CanFail(s) && o < |s.steps|
    && (if IsWaiting(s) then AskedNext(s.trace, s.current) else InOrder(s.trace, s.current))
    && ((o < s.current && !Stands(s.steps[o]) && (forall i | turn <= i < |s.steps| :: !Stands(s.steps[i])))
        || (o > turn && Stands(s.steps[o]) && (forall i | o < i < |s.steps| :: !Stands(s.steps[i]))))
  }

  lemma TransientBreaks(s: Saga, f: Failure)
    requires Inv(s) && s.status == Running && f.ordinal < |s.steps| && !f.compensation && !f.permanent
             && !Harmless(s, f)
    ensures Breaks(System(Record(s, f), None))
  {
    hide Breaks, InOrder, Reversed;
    var s' := Record(s, f);
    if f.ordinal == s.current {
      var y, s1 :=
        System(s', None), s'.(steps := s'.steps[s.current := Waiting], trace := s.trace + [Asked(s.current)]);
      assert After(y, DoTick(Awaits)) == System(s1, None);
      AskedTwice(s.trace, s.current);
      BreaksNow(System(s1, None));
      BreaksAfter(y, DoTick(Awaits));
    } else {
      MovedOnBreaks(s', f.ordinal);
    }
  }

  lemma AskedTwice(trace: seq<Event>, k: nat)
    requires AskedNext(trace, k)
    ensures !InOrder(trace + [Asked(k)], k) && !AskedNext(trace + [Asked(k)], k)
  {
    var more := trace + [Asked(k)];
    assert more[..|more| - 1] == trace;
    AskedIsNotReversed(trace, k, 0);
  }

  lemma UndoBreaks(s: Saga, f: Failure)
    requires Inv(s) && f.ordinal < |s.steps| && f.compensation && !Harmless(s, f)
    ensures Breaks(System(Record(s, f), None))
  {
    hide Breaks, InOrder;
    var s' := Record(s, f);
    if s.status == Running {
      MovedOnBreaks(s', f.ordinal);
    } else {
      var j := Remaining(s.steps, |s.steps|);
      assert Reversed(s.trace, s.current, j);
      RemainingIs(s'.steps, |s'.steps|, f.ordinal + 1);
      ExtraBreaks(s', f.ordinal, j);
    }
  }

  lemma ReturningBreaks(s: Saga, f: Failure)
    requires Inv(s) && s.status == Compensating && f.ordinal < |s.steps| && !f.compensation && !Harmless(s, f)
    ensures Breaks(System(Record(s, f), None))
  {
    hide Breaks, InOrder;
    var s', j := Record(s, f), Remaining(s.steps, |s.steps|);
    assert Reversed(s.trace, s.current, j);
    RemainingBelow(s'.steps, |s'.steps|, j);
    HoleBreaks(s', f.ordinal, j);
  }

  lemma HarmfulBreaks(s: Saga, f: Failure)
    requires Inv(s) && f.ordinal < |s.steps| && !Harmless(s, f)
    ensures Breaks(System(Record(s, f), None))
  {
    hide Breaks, Inv, Record;
    if f.compensation {
      UndoBreaks(s, f);
    } else if s.status == Compensating {
      ReturningBreaks(s, f);
    } else if f.permanent {
      PermanentBreaks(s, f);
    } else {
      TransientBreaks(s, f);
    }
  }

  /**
   * A failure recorded by another coordinator leaves every continuation of the saga ordered exactly when it is
   * harmless: the trace is never broken by rows that nothing will read again.
   */
  lemma LateRecordExactly(s: Saga, f: Failure)
    requires Inv(s) && f.ordinal < |s.steps|
    ensures StaysOrdered(System(Record(s, f), None)) <==> Harmless(s, f)
  {
    hide Inv, Record, Harmless, Ordered, Tame, Runs, Final;
    var y := System(Record(s, f), None);
    if Harmless(s, f) {
      HarmlessTame(s, f);
      forall run | Runs(y, run) ensures Ordered(Final(y, run).saga) {
        RunTame(y, run);
      }
    } else {
      HarmfulBreaks(s, f);
    }
  }
}
