/** The rows of one saga as an object, and the coordinator's tick over them. */
module SagaStore {
  import opened Amounts
  import opened Sagas
  import G = Sagas

  class Rows {
    var status: Status
    var current: nat
    var steps: seq<StepStatus>
    ghost var trace: seq<Event>

    ghost function View(): Saga
      reads this
    {
      Saga(status, current, steps, trace)
    }

    /** Inserts the instance and its pending steps. */
    constructor (n: nat)
      ensures View() == Begin(n) && Inv(View())
    {
      status, current, steps, trace := Running, 0, seq(n, _ => Pending), [];
      new;
      BeginInv(n);
    }

    method Execute(handler: Handler) returns (failure: Option<Failure>, error: Option<G.Error>)
      modifies this
      ensures match G.Execute(old(View()), handler)
              case Committed(s) => View() == s && failure.None? && error.None?
              case RolledBack(f) => View() == old(View()) && failure == Some(f) && error.None?
              case Rejected(e) => View() == old(View()) && failure.None? && error == Some(e)
    {
      failure, error := None, None;
      if current >= |steps| {
        status := Completed;
        return;
      }
      var record := steps[current];
      if record == Waiting {
        return;
      }
      if record != Pending && record != StepFailed {
        return None, Some(ErrBadStep);
      }
      if handler.Fails? {
        return Some(Failure(current, false, handler.permanent)), None;
      }
      if handler == Awaits {
        steps := steps[current := Waiting];
        trace := trace + [Asked(current)];
        return;
      }
      steps := steps[current := StepCompleted];
      trace := trace + [Finished(current)];
      var next := current + 1;
      status := if next == |steps| then Completed else Running;
      current := next;
    }

    /** The last step that can still be undone, searched from the end. */
    method LastCompensatable() returns (last: nat)
      ensures last == Remaining(steps, |steps|)
    {
      last := |steps|;
      while last > 0 && steps[last - 1] != StepCompleted && steps[last - 1] != CompensationFailed
        invariant 0 <= last <= |steps| && Remaining(steps, |steps|) == Remaining(steps, last)
      {
        last := last - 1;
      }
    }

    method Compensate(handler: Handler) returns (failure: Option<Failure>)
      modifies this
      ensures match G.Compensate(old(View()), handler)
              case Committed(s) => View() == s && failure.None?
              case RolledBack(f) => View() == old(View()) && failure == Some(f)
              case Rejected(_) => true
    {
      failure := None;
      var last := LastCompensatable();
      if last == 0 {
        status := Compensated;
        return;
      }
      if handler.Fails? {
        return Some(Failure(last - 1, true, false));
      }
      steps := steps[last - 1 := StepCompensated];
      trace := trace + [Undone(last - 1)];
    }

    method RecordFailure(f: Failure)
      requires f.ordinal < |steps|
      modifies this
      ensures View() == Record(old(View()), f)
    {
      steps := steps[f.ordinal := if f.compensation then CompensationFailed else StepFailed];
      if f.permanent && !f.compensation {
        status := Compensating;
      }
    }

    /**
     * One tick of the only coordinator: at most one handler commits, and a failure is recorded before the next tick.
     */
    method Tick(handler: Handler) returns (failure: Option<Failure>)
      requires Inv(View())
      modifies this
      ensures Inv(View())
      ensures match G.Tick(old(View()), handler)
              case Committed(s) => View() == s && failure.None?
              case RolledBack(f) => f.ordinal < |old(steps)| && View() == Record(old(View()), f) && failure == Some(f)
              case Rejected(_) => false
    {
      hide Inv, G.Execute, G.Compensate, Record, StillNext;
      ghost var was := View();
      TickAnswers(was, handler);
      failure := None;
      match status
      case Running =>
        var failed, error := Execute(handler);
        if failed.Some? {
          RecordKeeps(was, failed.value);
          RecordFailure(failed.value);
        }
        failure := failed;
      case Compensating =>
        var failed := Compensate(handler);
        if failed.Some? {
          RecordKeeps(was, failed.value);
          RecordFailure(failed.value);
        }
        failure := failed;
      case _ =>
    }

    static lemma TickAnswers(s: Saga, handler: Handler)
      requires Inv(s)
      ensures !G.Tick(s, handler).Rejected?
      ensures G.Tick(s, handler).Committed? ==> Inv(G.Tick(s, handler).saga)
      ensures G.Tick(s, handler).RolledBack? ==> StillNext(s, G.Tick(s, handler).failure)
    {
      if G.Tick(s, handler).Committed? {
        TickKeeps(s, handler);
      }
    }

    /** The inbox handler's part: the remote result and the step's progress commit together. */
    method CompleteWaiting(ordinal: nat, apply: bool) returns (error: Option<G.Error>)
      requires Inv(View())
      modifies this
      ensures Inv(View())
      ensures match G.CompleteWaiting(old(View()), ordinal, apply)
              case Committed(s) => View() == s && error.None?
              case RolledBack(_) => false
              case Rejected(e) => View() == old(View()) && error == Some(e)
    {
      hide Inv;
      if G.CompleteWaiting(View(), ordinal, apply).Committed? {
        CompleteWaitingKeeps(View(), ordinal, apply);
      }
      if ordinal >= |steps| {
        return Some(ErrInvalidSaga);
      }
      if steps[ordinal] == StepCompleted || steps[ordinal] == StepCompensated {
        return None;
      }
      if steps[ordinal] != Waiting || current != ordinal || status != Running {
        return Some(ErrNotWaiting);
      }
      if !apply {
        return Some(ErrInvalidSaga);
      }
      steps := steps[ordinal := StepCompleted];
      trace := trace + [Finished(ordinal)];
      current := current + 1;
      error := None;
    }
  }
}
