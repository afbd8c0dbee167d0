/** External payments whose outcome can be unknown: one provider reference, fenced attempts, crashes anywhere. */
module Rails {
  import opened Amounts

  datatype Status = InFlight | Unknown | Succeeded | Failed

  /** The durable row of one operation. */
  datatype Row = Row(rail: string, reference: string, payload: string, status: Status, token: nat, attempts: nat,
                     response: string)

  /** What a worker is about to do with the attempt it has in memory. */
  datatype Phase = Submitting | Asking | Rearming | Persisting(outcome: Status, response: string)

  /** A worker's own copy of an attempt, taken from its request or read in an earlier transaction. */
  datatype Call = Call(operation: string, token: nat, rail: string, reference: string, payload: string, phase: Phase)

  datatype Submission = Submission(operation: string, token: nat, rail: string, reference: string, payload: string)

  /** Rows, running workers, everything ever submitted to a provider, and the tokens each operation was given. */
  datatype System = System(
    idempotent: set<string>, rows: map<string, Row>, calls: map<nat, Call>, submitted: seq<Submission>,
    issued: map<string, set<nat>>)

  predicate Terminal(s: Status) {
    s.Succeeded? || s.Failed?
  }

  /** An answer that is neither a success nor a failure counts as unknown. */
  function Settled(answer: Option<Status>): Status {
    match answer
    case Some(Succeeded) => Succeeded
    case Some(Failed) => Failed
    case _ => Unknown
  }

  // ----- the transactions -----------------------------------------------------------------------------

  /** Inserts the row before any call goes out; a repetition only reads it. */
  function Start(y: System, worker: nat, operation: string, rail: string, reference: string, payload: string,
                 token: nat): System {
    if operation == "" || rail == "" || payload == "" || operation in y.rows then y
    else y.(rows := y.rows[operation := Row(rail, reference, payload, InFlight, token, 1, "")],
            calls := y.calls[worker := Call(operation, token, rail, reference, payload, Submitting)],
            issued := y.issued[operation := {token}])
  }

  /** The repetition's answer, or the refusal of a changed request. */
  function StartAnswer(y: System, operation: string, rail: string, reference: string, payload: string): Option<Row>
    requires operation in y.rows
  {
    var row := y.rows[operation];
    if row.rail != rail || row.reference != reference || row.payload != payload then None else Some(row)
  }

  /** Writes an outcome unless the token is superseded or an outcome is already final. */
  function Persist(rows: map<string, Row>, operation: string, token: nat, outcome: Status,
                   response: string): map<string, Row> {
    if operation in rows && rows[operation].token == token && !Terminal(rows[operation].status)
    then rows[operation := rows[operation].(status := outcome, response := response)]
    else rows
  }

  /** The attempt a worker reads before it looks up or retries. */
  function Read(row: Row, operation: string, phase: Phase): Call {
    Call(operation, row.token, row.rail, row.reference, row.payload, phase)
  }

  /** The compare-and-swap that re-arms an unknown attempt still under the token the worker has read. */
  predicate Rearms(y: System, c: Call) {
    && c.operation in y.rows && c.operation in y.issued && c.rail in y.idempotent
    && y.rows[c.operation].status == Unknown && y.rows[c.operation].token == c.token
  }

  /** Re-arms the attempt under a new token and goes on with the worker's own copy, or gives up. */
  function Retry(y: System, worker: nat, c: Call, token: nat): System {
    if !Rearms(y, c) then y.(calls := y.calls - {worker})
    else
      var row := y.rows[c.operation];
      y.(rows := y.rows[c.operation := row.(status := InFlight, token := token, attempts := row.attempts + 1)],
         calls := y.calls[worker := c.(token := token, phase := Submitting)],
         issued := y.issued[c.operation := y.issued[c.operation] + {token}])
  }

  // ----- steps ------------------------------------------------------------------------------------------

  datatype Step =
    | DoStart(worker: nat, operation: string, rail: string, reference: string, payload: string, token: nat)
    | DoSubmit(worker: nat, answer: Option<Status>, response: string)
    | DoResolve(worker: nat, operation: string)
    | DoLookup(worker: nat, answer: Option<Status>, response: string)
    | DoPersist(worker: nat)
    | DoReread(worker: nat, operation: string)
    | DoRetry(worker: nat, token: nat)
    | Crash(worker: nat)

  ghost predicate Unused(y: System, token: nat) {
    forall o | o in y.issued :: token !in y.issued[o]
  }

  /** Workers start with a name of their own and tokens are drawn once. */
  ghost predicate Enabled(y: System, t: Step) {
    match t
    case DoStart(worker, _, _, _, _, token) => worker !in y.calls && Unused(y, token)
    case DoSubmit(worker, _, _) => worker in y.calls && y.calls[worker].phase.Submitting?
    case DoResolve(worker, _) => worker !in y.calls
    case DoLookup(worker, _, _) => worker in y.calls && y.calls[worker].phase.Asking?
    case DoPersist(worker) => worker in y.calls && y.calls[worker].phase.Persisting?
    case DoReread(worker, _) => worker !in y.calls
    case DoRetry(worker, token) => worker in y.calls && y.calls[worker].phase.Rearming? && Unused(y, token)
    case Crash(_) => true
  }

  ghost function After(y: System, t: Step): System
    requires Enabled(y, t)
  {
    match t
    case DoStart(worker, operation, rail, reference, payload, token) =>
      Start(y, worker, operation, rail, reference, payload, token)
    case DoSubmit(worker, answer, response) =>
      var c := y.calls[worker];
      y.(submitted := y.submitted + [Submission(c.operation, c.token, c.rail, c.reference, c.payload)],
         calls := y.calls[worker := c.(phase := Persisting(Settled(answer), response))])
    case DoResolve(worker, operation) =>
      if operation in y.rows && !Terminal(y.rows[operation].status)
      then y.(calls := y.calls[worker := Read(y.rows[operation], operation, Asking)])
      else y
    case DoLookup(worker, answer, response) =>
      y.(calls := y.calls[worker := y.calls[worker].(phase := Persisting(Settled(answer), response))])
    case DoPersist(worker) =>
      var c := y.calls[worker];
      y.(rows := Persist(y.rows, c.operation, c.token, c.phase.outcome, c.phase.response), calls := y.calls - {worker})
    case DoReread(worker, operation) =>
      if operation in y.rows && y.rows[operation].status == Unknown && y.rows[operation].rail in y.idempotent
      then y.(calls := y.calls[worker := Read(y.rows[operation], operation, Rearming)])
      else y
    case DoRetry(worker, token) => Retry(y, worker, y.calls[worker], token)
    case Crash(worker) => y.(calls := y.calls - {worker})
  }

  // ----- the invariant --------------------------------------------------------------------------------------

  /** A row knows its tokens, and only idempotent rails are given a second one. */
  ghost predicate RowOk(idempotent: set<string>, row: Row, tokens: set<nat>) {
    row.token in tokens && |tokens| == row.attempts >= 1 && (row.rail !in idempotent ==> tokens == {row.token})
  }

  ghost predicate TokensApart(issued: map<string, set<nat>>) {
    forall o, p | o in issued && p in issued && o != p :: issued[o] !! issued[p]
  }

  ghost predicate RowsOk(y: System) {
    && y.rows.Keys == y.issued.Keys && TokensApart(y.issued)
    && (forall o | o in y.rows :: RowOk(y.idempotent, y.rows[o], y.issued[o]))
  }

  /** A worker's copy agrees with the row, however old it is. */
  ghost predicate CallOk(y: System, c: Call) {
    && c.operation in y.rows && c.operation in y.issued && c.token in y.issued[c.operation]
    && c.rail == y.rows[c.operation].rail && c.reference == y.rows[c.operation].reference
    && c.payload == y.rows[c.operation].payload
  }

  ghost predicate CallsOk(y: System)
    requires y.rows.Keys == y.issued.Keys
  {
    && (forall w | w in y.calls :: CallOk(y, y.calls[w]))
    && (forall v, w | v in y.calls && w in y.calls && v != w && y.calls[v].phase.Submitting?
        && y.calls[w].phase.Submitting? ::
          y.calls[v].token != y.calls[w].token)
  }

  /** What was submitted repeats the row, each token once, and never one that is still to be submitted. */
  ghost predicate SubmittedOk(y: System)
    requires y.rows.Keys == y.issued.Keys
  {
    && (forall i | 0 <= i < |y.submitted| :: Faithful(y, y.submitted[i]))
    && (forall i, j | 0 <= i < j < |y.submitted| :: y.submitted[i].token != y.submitted[j].token)
    && (forall i, w | 0 <= i < |y.submitted| && w in y.calls && y.calls[w].phase.Submitting? ::
          y.submitted[i].token != y.calls[w].token)
  }

  ghost predicate Faithful(y: System, x: Submission)
    requires y.rows.Keys == y.issued.Keys
  {
    && x.operation in y.rows && x.token in y.issued[x.operation] && x.rail == y.rows[x.operation].rail
    && x.reference == y.rows[x.operation].reference && x.payload == y.rows[x.operation].payload
  }

  ghost predicate Inv(y: System) {
    RowsOk(y) && CallsOk(y) && SubmittedOk(y)
  }

  /**
   * Rail, reference and payload stay, tokens only accumulate, a final outcome stays, and a superseded token never
   * returns.
   */
  ghost predicate RowOnward(row: Row, tokens: set<nat>, row': Row, tokens': set<nat>) {
    && row'.rail == row.rail && row'.reference == row.reference && row'.payload == row.payload && tokens <= tokens'
    && (Terminal(row.status) ==> row'.status == row.status && row'.response == row.response)
    && (forall k | k in tokens && k != row.token :: k != row'.token)
  }

  /** No row is lost, and each goes onward. */
  ghost predicate Onward(y: System, y': System) {
    forall o | o in y.rows && o in y.issued ::
      o in y'.rows && o in y'.issued && RowOnward(y.rows[o], y.issued[o], y'.rows[o], y'.issued[o])
  }

  lemma FaithfulStays(y: System, y': System, x: Submission)
    requires y.rows.Keys == y.issued.Keys && y'.rows.Keys == y'.issued.Keys && Onward(y, y') && Faithful(y, x)
    ensures Faithful(y', x)
  {
  }

  lemma CallStays(y: System, y': System, c: Call)
    requires Onward(y, y') && CallOk(y, c)
    ensures CallOk(y', c)
  {
  }

  /** A new attempt: one row, one token nobody had, one worker about to submit with it. */
  lemma AttemptKeeps(y: System, y': System, worker: nat, c: Call)
    requires Inv(y) && RowsOk(y') && Onward(y, y') && Unused(y, c.token) && CallOk(y', c)
    requires y'.submitted == y.submitted && y'.calls == y.calls[worker := c]
    ensures Inv(y')
  {
    hide RowsOk, Onward;
    RowKeys(y);
    RowKeys(y');
    assert CallsOk(y') by {
      forall w | w in y'.calls ensures CallOk(y', y'.calls[w]) {
        if w != worker {
          CallStays(y, y', y.calls[w]);
        }
      }
      forall w | w in y.calls ensures y.calls[w].token != c.token {
        assert CallOk(y, y.calls[w]);
      }
    }
    assert SubmittedOk(y') by {
      forall i | 0 <= i < |y.submitted| ensures Faithful(y', y'.submitted[i]) && y.submitted[i].token != c.token {
        assert Faithful(y, y.submitted[i]);
        FaithfulStays(y, y', y.submitted[i]);
      }
    }
  }

  lemma RowKeys(y: System)
    requires RowsOk(y)
    ensures y.rows.Keys == y.issued.Keys
  {
  }

  /** One row written with its tokens, next to rows that stay. */
  lemma OneRow(y: System, y': System, operation: string, row: Row, tokens: set<nat>)
    requires RowsOk(y) && RowOk(y.idempotent, row, tokens) && y'.idempotent == y.idempotent
    requires y'.rows == y.rows[operation := row] && y'.issued == y.issued[operation := tokens]
    requires forall o | o in y.issued && o != operation :: y.issued[o] !! tokens
    requires operation in y.rows ==> RowOnward(y.rows[operation], y.issued[operation], row, tokens)
    ensures RowsOk(y') && Onward(y, y')
  {
    hide RowOk, RowOnward;
    forall o | o in y.rows && o in y.issued
      ensures o in y'.rows && o in y'.issued && RowOnward(y.rows[o], y.issued[o], y'.rows[o], y'.issued[o])
    {
      if o != operation {
        RowRests(y.rows[o], y.issued[o]);
      }
    }
  }

  lemma RowRests(row: Row, tokens: set<nat>)
    ensures RowOnward(row, tokens, row, tokens)
  {
  }

  lemma StartKeeps(y: System, worker: nat, operation: string, rail: string, reference: string, payload: string,
                   token: nat)
    requires Inv(y) && worker !in y.calls && Unused(y, token)
    ensures Inv(Start(y, worker, operation, rail, reference, payload, token))
    ensures Onward(y, Start(y, worker, operation, rail, reference, payload, token))
  {
    hide CallsOk, SubmittedOk, RowsOk, Onward;
    var y' := Start(y, worker, operation, rail, reference, payload, token);
    if operation == "" || rail == "" || payload == "" || operation in y.rows {
      Stays(y, y);
    } else {
      OneRow(y, y', operation, Row(rail, reference, payload, InFlight, token, 1, ""), {token});
      AttemptKeeps(y, y', worker, Call(operation, token, rail, reference, payload, Submitting));
    }
  }

  lemma Stays(y: System, y': System)
    requires y'.rows == y.rows && y'.issued == y.issued
    ensures Onward(y, y')
  {
  }

  lemma RearmedRow(idempotent: set<string>, row: Row, tokens: set<nat>, token: nat)
    requires RowOk(idempotent, row, tokens) && row.rail in idempotent && row.status == Unknown && token !in tokens
    ensures var after := row.(status := InFlight, token := token, attempts := row.attempts + 1);
            RowOk(idempotent, after, tokens + {token}) && RowOnward(row, tokens, after, tokens + {token})
  {
    assert |tokens + {token}| == |tokens| + 1;
  }

  lemma RetryKeeps(y: System, worker: nat, token: nat)
    requires Inv(y) && worker in y.calls && Unused(y, token)
    ensures Inv(Retry(y, worker, y.calls[worker], token)) && Onward(y, Retry(y, worker, y.calls[worker], token))
  {
    hide CallsOk, SubmittedOk, RowOk, RowOnward, Onward;
    var c, y' := y.calls[worker], Retry(y, worker, y.calls[worker], token);
    KnownCall(y, worker);
    if Rearms(y, c) {
      var row := y.rows[c.operation];
      RearmedRow(y.idempotent, row, y.issued[c.operation], token);
      OneRow(y, y', c.operation, row.(status := InFlight, token := token, attempts := row.attempts + 1),
             y.issued[c.operation] + {token});
      AttemptKeeps(y, y', worker, c.(token := token, phase := Submitting));
    } else {
      Stays(y, y');
      CallsKeep(y, y', worker);
    }
  }

  lemma SubmitKeeps(y: System, worker: nat, answer: Option<Status>, response: string)
    requires Inv(y) && Enabled(y, DoSubmit(worker, answer, response))
    ensures Inv(After(y, DoSubmit(worker, answer, response)))
  {
    hide RowsOk;
    RowKeys(y);
    var y' := After(y, DoSubmit(worker, answer, response));
    assert RowsOk(y') by { RowsOnly(y, y'); }
    assert CallOk(y, y.calls[worker]);
    assert CallsOk(y') by {
      forall w | w in y'.calls ensures CallOk(y', y'.calls[w]) {
        assert CallOk(y, y.calls[w]);
      }
    }
    forall i | 0 <= i < |y'.submitted| ensures Faithful(y', y'.submitted[i]) {
      if i < |y.submitted| {
        assert Faithful(y, y.submitted[i]);
      }
    }
  }

  lemma RowsOnly(y: System, y': System)
    requires RowsOk(y) && y'.rows == y.rows && y'.issued == y.issued && y'.idempotent == y.idempotent
    ensures RowsOk(y')
  {
  }

  /** A worker that does not submit next, or one that is gone, cannot break anything. */
  lemma CallsKeep(y: System, y': System, worker: nat)
    requires Inv(y) && y'.rows == y.rows && y'.issued == y.issued && y'.idempotent == y.idempotent
             && y'.submitted == y.submitted
    requires forall w | w in y'.calls && w != worker :: w in y.calls && y'.calls[w] == y.calls[w]
    requires worker in y'.calls ==> CallOk(y, y'.calls[worker]) && !y'.calls[worker].phase.Submitting?
    ensures Inv(y')
  {
    hide RowsOk;
    RowKeys(y);
    RowsOnly(y, y');
    assert CallsOk(y') by {
      forall w | w in y'.calls ensures CallOk(y', y'.calls[w]) {
        assert w != worker ==> CallOk(y, y.calls[w]);
      }
    }
    forall i | 0 <= i < |y'.submitted| ensures Faithful(y', y'.submitted[i]) {
      assert Faithful(y, y.submitted[i]);
    }
  }

  /** An outcome changes neither tokens nor identity, and never one that is final. */
  lemma PersistRows(y: System, operation: string, token: nat, outcome: Status, response: string)
    requires RowsOk(y)
    ensures var y' := y.(rows := Persist(y.rows, operation, token, outcome, response)); RowsOk(y') && Onward(y, y')
  {
    hide TokensApart;
    var y' := y.(rows := Persist(y.rows, operation, token, outcome, response));
    if operation in y.rows && y.rows[operation].token == token && !Terminal(y.rows[operation].status) {
      var row := y.rows[operation].(status := outcome, response := response);
      assert RowOk(y.idempotent, y.rows[operation], y.issued[operation]);
      assert y.issued == y.issued[operation := y.issued[operation]];
      OneRow(y, y', operation, row, y.issued[operation]) by {
        assert TokensApart(y.issued);
        ApartFrom(y.issued, operation);
      }
    } else {
      Stays(y, y');
    }
  }

  lemma ApartFrom(issued: map<string, set<nat>>, operation: string)
    requires TokensApart(issued) && operation in issued
    ensures forall o | o in issued && o != operation :: issued[o] !! issued[operation]
  {
  }

  lemma PersistKeeps(y: System, operation: string, token: nat, outcome: Status, response: string)
    requires Inv(y)
    ensures Inv(y.(rows := Persist(y.rows, operation, token, outcome, response)))
  {
    hide RowsOk, Persist, RowOnward;
    var y' := y.(rows := Persist(y.rows, operation, token, outcome, response));
    RowKeys(y);
    PersistRows(y, operation, token, outcome, response);
    RowKeys(y');
    forall w | w in y'.calls ensures CallOk(y', y'.calls[w]) {
      CallStays(y, y', y.calls[w]);
    }
    forall i | 0 <= i < |y'.submitted| ensures Faithful(y', y'.submitted[i]) {
      FaithfulStays(y, y', y.submitted[i]);
    }
  }

  /** Every step keeps the invariant, and no row goes back. */
  lemma StepKeeps(y: System, t: Step)
    requires Inv(y) && Enabled(y, t)
    ensures Inv(After(y, t)) && Onward(y, After(y, t))
  {
    hide RowsOk, CallsOk, SubmittedOk, Start, Retry, Persist, Unused, Onward;
    RowKeys(y);
    match t
    case DoStart(worker, operation, rail, reference, payload, token) =>
      StartKeeps(y, worker, operation, rail, reference, payload, token);
    case DoSubmit(worker, answer, response) =>
      SubmitKeeps(y, worker, answer, response);
      Stays(y, After(y, t));
    case DoResolve(worker, operation) =>
      Stays(y, After(y, t));
      if operation in y.rows && !Terminal(y.rows[operation].status) {
        CurrentToken(y, operation);
        CallsKeep(y, After(y, t), worker);
      } else {
      }
    case DoLookup(worker, answer, response) =>
      Stays(y, After(y, t));
      KnownCall(y, worker);
      CallsKeep(y, After(y, t), worker);
    case DoPersist(worker) =>
      PersistStep(y, worker);
    case DoReread(worker, operation) =>
      Stays(y, After(y, t));
      if operation in y.rows && y.rows[operation].status == Unknown && y.rows[operation].rail in y.idempotent {
        CurrentToken(y, operation);
        CallsKeep(y, After(y, t), worker);
      } else {
      }
    case DoRetry(worker, token) => RetryKeeps(y, worker, token);
    case Crash(worker) =>
      Stays(y, After(y, t));
      CallsKeep(y, After(y, t), worker);
  }

  lemma PersistStep(y: System, worker: nat)
    requires Inv(y) && worker in y.calls && y.calls[worker].phase.Persisting?
    ensures Inv(After(y, DoPersist(worker))) && Onward(y, After(y, DoPersist(worker)))
  {
    hide RowsOk, CallsOk, SubmittedOk, Persist, RowOnward;
    var c, y' := y.calls[worker], After(y, DoPersist(worker));
    var half := y.(rows := Persist(y.rows, c.operation, c.token, c.phase.outcome, c.phase.response));
    PersistRows(y, c.operation, c.token, c.phase.outcome, c.phase.response);
    PersistKeeps(y, c.operation, c.token, c.phase.outcome, c.phase.response);
    CallsKeep(half, y', worker);
  }

  lemma CurrentToken(y: System, operation: string)
    requires RowsOk(y) && operation in y.rows
    ensures operation in y.issued && y.rows[operation].token in y.issued[operation]
  {
  }

  lemma KnownCall(y: System, worker: nat)
    requires Inv(y) && worker in y.calls
    ensures CallOk(y, y.calls[worker])
  {
    hide SubmittedOk, RowsOk;
  }

  // ----- what holds in every run --------------------------------------------------------------------------------

  ghost predicate Runs(y: System, run: seq<Step>)
    decreases |run|
  {
    run == [] || (Enabled(y, run[0]) && Runs(After(y, run[0]), run[1..]))
  }

  ghost function Final(y: System, run: seq<Step>): System
    requires Runs(y, run)
    decreases |run|
  {
    if run == [] then y else Final(After(y, run[0]), run[1..])
  }

  lemma OnwardOn(a: System, b: System, c: System)
    requires Inv(b) && Onward(a, b) && Onward(b, c)
    ensures Onward(a, c)
  {
    hide CallsOk, SubmittedOk;
    forall o | o in a.rows && o in a.issued
      ensures o in c.rows && o in c.issued && RowOnward(a.rows[o], a.issued[o], c.rows[o], c.issued[o])
    {
      assert RowOnward(a.rows[o], a.issued[o], b.rows[o], b.issued[o])
             && RowOnward(b.rows[o], b.issued[o], c.rows[o], c.issued[o]);
    }
  }

  lemma {:induction false} RunKeeps(y: System, run: seq<Step>)
    requires Inv(y) && Runs(y, run)
    ensures Inv(Final(y, run)) && Onward(y, Final(y, run))
    decreases |run|
  {
    hide Inv, After, Enabled, Onward;
    if run == [] {
      Stays(y, y);
    } else {
      StepKeeps(y, run[0]);
      RunKeeps(After(y, run[0]), run[1..]);
      OnwardOn(y, After(y, run[0]), Final(y, run));
    }
  }

  function Fresh(idempotent: set<string>): System {
    System(idempotent, map[], map[], [], map[])
  }

  lemma FreshInv(idempotent: set<string>)
    ensures Inv(Fresh(idempotent))
  {
  }

  /** One operation, one provider reference and one payload, however often it is submitted. */
  lemma OneReference(idempotent: set<string>, run: seq<Step>, i: nat, j: nat)
    requires Runs(Fresh(idempotent), run)
    requires var s := Final(Fresh(idempotent), run).submitted; i < |s| && j < |s| && s[i].operation == s[j].operation
    ensures var s := Final(Fresh(idempotent), run).submitted;
            s[i].reference == s[j].reference && s[i].payload == s[j].payload
  {
    hide RowsOk, CallsOk, Runs, Final;
    FreshInv(idempotent);
    RunKeeps(Fresh(idempotent), run);
    var y := Final(Fresh(idempotent), run);
    RowKeys(y);
    assert Faithful(y, y.submitted[i]) && Faithful(y, y.submitted[j]);
  }

  /** A rail whose references are not idempotency keys never sees a second submission of an operation. */
  lemma SubmittedOnce(idempotent: set<string>, run: seq<Step>, i: nat, j: nat)
    requires Runs(Fresh(idempotent), run)
    requires var s := Final(Fresh(idempotent), run).submitted;
             i < j < |s| && s[i].operation == s[j].operation
    ensures Final(Fresh(idempotent), run).submitted[i].rail in idempotent
  {
    hide CallsOk, Runs, Final;
    FreshInv(idempotent);
    RunKeeps(Fresh(idempotent), run);
    SameRails(Fresh(idempotent), run);
    var y := Final(Fresh(idempotent), run);
    assert Faithful(y, y.submitted[i]) && Faithful(y, y.submitted[j]);
  }

  lemma {:induction false} SameRails(y: System, run: seq<Step>)
    requires Runs(y, run)
    ensures Final(y, run).idempotent == y.idempotent
    decreases |run|
  {
    if run != [] {
      SameRails(After(y, run[0]), run[1..]);
    }
  }

  /** The first final outcome stays, with its response, in every later state. */
  lemma FirstOutcomeStays(y: System, run: seq<Step>, operation: string)
    requires Inv(y) && Runs(y, run) && operation in y.rows && Terminal(y.rows[operation].status)
    ensures operation in Final(y, run).rows
    ensures Final(y, run).rows[operation].status == y.rows[operation].status
    ensures Final(y, run).rows[operation].response == y.rows[operation].response
  {
    hide RowsOk, CallsOk, SubmittedOk, Runs, Final;
    RowKeys(y);
    RunKeeps(y, run);
    RowKeys(Final(y, run));
  }

  /** Whatever a worker with a superseded token still reports, at any later time, changes no row. */
  lemma SupersededTokenWritesNothing(y: System, run: seq<Step>, operation: string, token: nat, outcome: Status,
                                     response: string)
    requires Inv(y) && Runs(y, run) && operation in y.rows && operation in y.issued
    requires token in y.issued[operation] && token != y.rows[operation].token
    ensures Persist(Final(y, run).rows, operation, token, outcome, response) == Final(y, run).rows
  {
    hide RowsOk, CallsOk, SubmittedOk, Runs, Final;
    RowKeys(y);
    RunKeeps(y, run);
    RowKeys(Final(y, run));
  }

  /**
   * Once started, an operation answers the same request with its row and any changed request with a refusal, and never
   * submits anew.
   */
  lemma RepeatedStart(y: System, run: seq<Step>, worker: nat, operation: string, rail: string, reference: string,
                      payload: string, token: nat)
    requires Inv(y) && Runs(y, run) && operation in y.rows
    ensures operation in Final(y, run).rows
    ensures Start(Final(y, run), worker, operation, rail, reference, payload, token) == Final(y, run)
    ensures StartAnswer(Final(y, run), operation, rail, reference, payload).Some? <==>
              rail == y.rows[operation].rail && reference == y.rows[operation].reference
              && payload == y.rows[operation].payload
  {
    hide RowsOk, CallsOk, SubmittedOk, Runs, Final;
    RowKeys(y);
    RunKeeps(y, run);
    RowKeys(Final(y, run));
    assert operation in y.issued;
  }
}
