/** Where the stored outcome of an external payment comes from, and what becomes of an answer. */
module RailAnswers {
  import opened Amounts
  import opened Rails

  ghost predicate IsRun(idempotent: set<string>, states: seq<System>, steps: seq<Step>) {
    && |states| == |steps| + 1 && states[0] == Fresh(idempotent)
    && forall i | 0 <= i < |steps| :: Enabled(states[i], steps[i]) && states[i + 1] == After(states[i], steps[i])
  }

  /** At step i the provider, submitted to or asked under this token, answered with this status and response. */
  ghost predicate Said(states: seq<System>, steps: seq<Step>, i: nat, operation: string, token: nat, answer: Status,
                       response: string)
    requires |states| == |steps| + 1 && i < |steps|
  {
    var t := steps[i];
    && (t.DoSubmit? || t.DoLookup?) && t.answer == Some(answer) && t.response == response
    && t.worker in states[i].calls && states[i].calls[t.worker].operation == operation
    && states[i].calls[t.worker].token == token
  }

  ghost predicate Heard(states: seq<System>, steps: seq<Step>, m: nat, operation: string, token: nat, answer: Status,
                        response: string)
    requires |states| == |steps| + 1 && m <= |steps|
  {
    exists i | 0 <= i < m :: Said(states, steps, i, operation, token, answer, response)
  }

  /** Final outcomes in rows and in the hands of workers have been heard. */
  ghost predicate AllHeard(states: seq<System>, steps: seq<Step>, m: nat)
    requires |states| == |steps| + 1 && m <= |steps|
  {
    && (forall o | o in states[m].rows && Terminal(states[m].rows[o].status) ::
          var row := states[m].rows[o];
          Heard(states, steps, m, o, row.token, row.status, row.response))
    && (forall w | w in states[m].calls && states[m].calls[w].phase.Persisting?
                   && Terminal(states[m].calls[w].phase.outcome) ::
          var c := states[m].calls[w];
          Heard(states, steps, m, c.operation, c.token, c.phase.outcome, c.phase.response))
  }

  lemma HeardOn(states: seq<System>, steps: seq<Step>, m: nat, operation: string, token: nat, answer: Status,
                response: string)
    requires |states| == |steps| + 1 && m < |steps|
    ensures Heard(states, steps, m, operation, token, answer, response) ==>
              Heard(states, steps, m + 1, operation, token, answer, response)
    ensures Said(states, steps, m, operation, token, answer, response) ==>
              Heard(states, steps, m + 1, operation, token, answer, response)
  {
    hide Said;
    if i :| 0 <= i < m && Said(states, steps, i, operation, token, answer, response) {
      assert 0 <= i < m + 1;
    }
  }

  /** A row that is final after a step was final before it, or has just been persisted by a worker that heard it. */
  lemma FinalRow(y: System, t: Step, o: string)
    requires Inv(y) && Enabled(y, t) && o in After(y, t).rows && Terminal(After(y, t).rows[o].status)
    ensures || (o in y.rows && After(y, t).rows[o] == y.rows[o])
            || (&& t.DoPersist? && t.worker in y.calls
                && var c, row := y.calls[t.worker], After(y, t).rows[o];
                   c.operation == o && c.phase == Persisting(row.status, row.response) && c.token == row.token)
  {
    hide Inv;
  }

  /** A worker that holds a final outcome after a step held it before, or has just heard it. */
  lemma FinalCall(states: seq<System>, steps: seq<Step>, m: nat, w: nat)
    requires |states| == |steps| + 1 && m < |steps| && Enabled(states[m], steps[m])
    requires states[m + 1] == After(states[m], steps[m]) && w in states[m + 1].calls
    requires states[m + 1].calls[w].phase.Persisting? && Terminal(states[m + 1].calls[w].phase.outcome)
    ensures var c := states[m + 1].calls[w];
            || (w in states[m].calls && states[m].calls[w] == c)
            || Said(states, steps, m, c.operation, c.token, c.phase.outcome, c.phase.response)
  {
  }

  lemma {:induction false} EverythingIsHeard(idempotent: set<string>, states: seq<System>, steps: seq<Step>, m: nat)
    requires IsRun(idempotent, states, steps) && m <= |steps|
    ensures Inv(states[m]) && AllHeard(states, steps, m)
  {
    hide Inv, After, Enabled, Heard;
    if m == 0 {
      FreshInv(idempotent);
    } else {
      EverythingIsHeard(idempotent, states, steps, m - 1);
      var y, t, y' := states[m - 1], steps[m - 1], states[m];
      assert Enabled(y, t) && y' == After(y, t);
      StepKeeps(y, t);
      forall o | o in y'.rows && Terminal(y'.rows[o].status)
        ensures Heard(states, steps, m, o, y'.rows[o].token, y'.rows[o].status, y'.rows[o].response)
      {
        FinalRow(y, t, o);
        HeardOn(states, steps, m - 1, o, y'.rows[o].token, y'.rows[o].status, y'.rows[o].response);
      }
      forall w | w in y'.calls && y'.calls[w].phase.Persisting? && Terminal(y'.calls[w].phase.outcome)
        ensures var c := y'.calls[w]; Heard(states, steps, m, c.operation, c.token, c.phase.outcome, c.phase.response)
      {
        var c := y'.calls[w];
        FinalCall(states, steps, m - 1, w);
        HeardOn(states, steps, m - 1, c.operation, c.token, c.phase.outcome, c.phase.response);
      }
    }
  }

  /**
   * A row is succeeded or failed only because a submission or a lookup under its current token answered exactly that,
   * with the response that is stored.
   */
  lemma OutcomesWereAnswered(idempotent: set<string>, states: seq<System>, steps: seq<Step>, m: nat, o: string)
    requires IsRun(idempotent, states, steps) && m <= |steps| && o in states[m].rows
    ensures var row := states[m].rows[o];
            Terminal(row.status) ==>
              exists i | 0 <= i < m :: Said(states, steps, i, o, row.token, row.status, row.response)
  {
    hide Inv;
    EverythingIsHeard(idempotent, states, steps, m);
  }

  /** The status an answer stands for: only a plain success or failure is final. */
  predicate Means(answer: Option<Status>, status: Status) {
    && (status == Succeeded <==> answer == Some(Succeeded)) && (status == Failed <==> answer == Some(Failed))
    && status != InFlight
  }

  /** The step by which a worker hears an answer. */
  predicate IsAnswer(t: Step) {
    t.DoSubmit? || t.DoLookup?
  }

  /**
   * An answer that is persisted right away is what the row says afterwards, unless the token has been superseded or an
   * outcome is already final; then nothing changes.
   */
  lemma AnswersArePersisted(y: System, t: Step)
    requires Inv(y) && Enabled(y, t) && IsAnswer(t)
    ensures var heard := After(y, t);
            && t.worker in y.calls && Enabled(heard, DoPersist(t.worker))
            && var c, y' := y.calls[t.worker], After(heard, DoPersist(t.worker));
            && t.worker !in y'.calls && c.operation in y.rows
            && if y.rows[c.operation].token == c.token && !Terminal(y.rows[c.operation].status)
               then c.operation in y'.rows && Means(t.answer, y'.rows[c.operation].status)
                    && y'.rows == y.rows[c.operation := y.rows[c.operation].(status := y'.rows[c.operation].status,
                                                                             response := t.response)]
               else y'.rows == y.rows
  {
    hide RowsOk, CallsOk, SubmittedOk;
    KnownCall(y, t.worker);
  }

  /** A new operation is stored in flight before anything is submitted, and its worker submits exactly the request. */
  lemma NewOperationIsStoredFirst(y: System, worker: nat, operation: string, rail: string, reference: string,
                                  payload: string, token: nat, answer: Option<Status>, response: string)
    requires Inv(y) && Enabled(y, DoStart(worker, operation, rail, reference, payload, token))
    requires operation != "" && rail != "" && payload != "" && operation !in y.rows
    ensures var stored := After(y, DoStart(worker, operation, rail, reference, payload, token));
            && stored.rows == y.rows[operation := Row(rail, reference, payload, InFlight, token, 1, "")]
            && stored.submitted == y.submitted && Enabled(stored, DoSubmit(worker, answer, response))
            && After(stored, DoSubmit(worker, answer, response)).submitted ==
               y.submitted + [Submission(operation, token, rail, reference, payload)]
  {
    hide RowsOk, CallsOk, SubmittedOk;
  }

  /**
   * A retry submits again exactly when its rail takes references as idempotency keys and the attempt is still unknown
   * under the token that was read; it then carries the same reference and payload under the new token.
   */
  lemma RetriesExactly(y: System, worker: nat, token: nat)
    requires Inv(y) && Enabled(y, DoRetry(worker, token))
    ensures var c, y' := y.calls[worker], After(y, DoRetry(worker, token));
            && c.operation in y.rows
            && var row := y.rows[c.operation];
            if row.rail in y.idempotent && row.status == Unknown && row.token == c.token
            then y'.rows ==
            y.rows[c.operation := row.(status := InFlight, token := token, attempts := row.attempts + 1)]
                 && y'.calls == y.calls[worker := Call(c.operation, token, row.rail, row.reference, row.payload,
                                                       Submitting)]
            else y'.rows == y.rows && worker !in y'.calls
  {
    hide CallsOk, SubmittedOk, RowOk;
    KnownCall(y, worker);
  }
}
