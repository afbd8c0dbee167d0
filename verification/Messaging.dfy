/** Transactional outbox, at-least-once broker and deduplicating inbox, under crashes and lost answers. */
module Messaging {
  import opened Amounts

  datatype Message = Message(event: string, topic: string, body: string)

  datatype OutStatus = Pending | Publishing | Published | Retired

  datatype OutRow = OutRow(message: Message, status: OutStatus, owner: string, attempts: nat)

  datatype InStatus = Failing | Applied | Poisoned

  datatype InRow = InRow(message: Message, status: InStatus, attempts: nat)

  /** A consumer's view of one event. */
  datatype Slot = Slot(consumer: string, event: string)

  /** What a publisher knows about the message it has claimed. */
  datatype Progress = Claimed | Sent | Faulted(invalid: bool)

  datatype Claim = Claim(event: string, owner: string, progress: Progress)

  /** A delivery whose handler failed and was rolled back, not yet recorded. */
  datatype Lapse = Lapse(slot: Slot, message: Message)

  /** invalid holds the messages producers refuse as malformed. */
  datatype System = System(
    invalid: set<Message>, outbox: map<string, OutRow>, broker: set<Message>, claims: map<nat, Claim>,
    inbox: map<Slot, InRow>, effects: seq<Slot>, lapses: map<nat, Lapse>)

  const MAX_INT64: nat := 0x7fff_ffff_ffff_ffff

  // ----- outbox transactions ---------------------------------------------------------------------------

  function Enqueue(outbox: map<string, OutRow>, m: Message): map<string, OutRow> {
    if m.event == "" || m.topic == "" || m.body == "" || m.event in outbox then outbox
    else outbox[m.event := OutRow(m, Pending, "", 0)]
  }

  /** Leases a pending row, or one whose lease has expired. */
  predicate Claimable(outbox: map<string, OutRow>, event: string, expired: bool) {
    && event in outbox && outbox[event].attempts < MAX_INT64
    && (outbox[event].status == Pending || (outbox[event].status == Publishing && expired))
  }

  function Lease(outbox: map<string, OutRow>, event: string, owner: string): map<string, OutRow>
    requires event in outbox
  {
    outbox[event := outbox[event].(status := Publishing, owner := owner, attempts := outbox[event].attempts + 1)]
  }

  predicate Holds(outbox: map<string, OutRow>, event: string, owner: string) {
    event in outbox && outbox[event].status == Publishing && outbox[event].owner == owner
  }

  function MarkPublished(outbox: map<string, OutRow>, event: string, owner: string): map<string, OutRow> {
    if Holds(outbox, event, owner) then outbox[event := outbox[event].(status := Published, owner := "")] else outbox
  }

  function MarkFailed(outbox: map<string, OutRow>, event: string, owner: string, limit: nat): map<string, OutRow> {
    if Holds(outbox, event, owner)
    then outbox[event := outbox[event].(status := if outbox[event].attempts >= limit then Retired else Pending,
                                        owner := "")]
    else outbox
  }

  /** Only a malformed message has a finite retry budget. */
  function FailureLimit(invalid: bool, most: nat): nat {
    if invalid then most else MAX_INT64
  }

  // ----- inbox transactions -----------------------------------------------------------------------------

  datatype Delivery = Conflict | Duplicate | Poison | Ran(inbox: map<Slot, InRow>) | Lapsed

  /** One delivery: the handler's effect and the applied marker commit together or not at all. */
  function Process(inbox: map<Slot, InRow>, slot: Slot, m: Message, succeeds: bool): Delivery {
    if slot in inbox && inbox[slot].message != m then Conflict
    else if slot in inbox && inbox[slot].status == Applied then Duplicate
    else if slot in inbox && inbox[slot].status == Poisoned then Poison
    else if !succeeds then Lapsed
    else Ran(inbox[slot := InRow(m, Applied, (if slot in inbox then inbox[slot].attempts else 0) + 1)])
  }

  /** The separate transaction that counts a failed delivery; it leaves an applied row alone. */
  function RecordFailure(inbox: map<Slot, InRow>, slot: Slot, m: Message, limit: nat): map<Slot, InRow> {
    if slot !in inbox then inbox[slot := InRow(m, if limit <= 1 then Poisoned else Failing, 1)]
    else if inbox[slot].status == Applied then inbox
    else
      var attempts := inbox[slot].attempts + 1;
      inbox[slot := inbox[slot].(attempts := attempts, status := if attempts >= limit then Poisoned else Failing)]
  }

  // ----- steps --------------------------------------------------------------------------------------------

  datatype Step =
    | DoEnqueue(m: Message)
    | DoClaim(worker: nat, owner: string, event: string, expired: bool)
    | DoPublish(worker: nat, arrives: bool, answer: Progress)
    | DoMark(worker: nat, most: nat)
    | DoDeliver(worker: nat, consumer: string, m: Message, succeeds: bool)
    | DoRecord(worker: nat, limit: nat)
    | Crash(worker: nat)

  /** Every worker records with the limit of its own configuration. */
  ghost predicate Enabled(y: System, t: Step) {
    match t
    case DoEnqueue(_) => true
    case DoClaim(worker, _, event, expired) => worker !in y.claims && Claimable(y.outbox, event, expired)
    case DoPublish(worker, arrives, answer) =>
      && worker in y.claims && y.claims[worker].progress == Claimed && y.claims[worker].event in y.outbox
      && answer != Claimed
      && (answer == Sent ==> arrives)
      && (answer == Faulted(true) ==> y.outbox[y.claims[worker].event].message in y.invalid)
    case DoMark(worker, most) => worker in y.claims && y.claims[worker].progress != Claimed && most > 0
    case DoDeliver(worker, consumer, m, _) => worker !in y.lapses && consumer != "" && m in y.broker
    case DoRecord(worker, limit) => worker in y.lapses && limit > 0
    case Crash(_) => true
  }

  ghost function After(y: System, t: Step): System
    requires Enabled(y, t)
  {
    match t
    case DoEnqueue(m) => y.(outbox := Enqueue(y.outbox, m))
    case DoClaim(worker, owner, event, _) =>
      y.(outbox := Lease(y.outbox, event, owner), claims := y.claims[worker := Claim(event, owner, Claimed)])
    case DoPublish(worker, arrives, answer) =>
      y.(broker := if arrives then y.broker + {y.outbox[y.claims[worker].event].message} else y.broker,
         claims := y.claims[worker := y.claims[worker].(progress := answer)])
    case DoMark(worker, most) =>
      var c := y.claims[worker];
      y.(outbox := if c.progress == Sent then MarkPublished(y.outbox, c.event, c.owner)
                   else MarkFailed(y.outbox, c.event, c.owner, FailureLimit(c.progress.invalid, most)),
         claims := y.claims - {worker})
    case DoDeliver(worker, consumer, m, succeeds) =>
      var slot := Slot(consumer, m.event);
      (match Process(y.inbox, slot, m, succeeds)
       case Ran(inbox) => y.(inbox := inbox, effects := y.effects + [slot])
       case Lapsed => y.(lapses := y.lapses[worker := Lapse(slot, m)])
       case _ => y)
    case DoRecord(worker, limit) =>
      var l := y.lapses[worker];
      y.(inbox := RecordFailure(y.inbox, l.slot, l.message, limit), lapses := y.lapses - {worker})
    case Crash(worker) => y.(claims := y.claims - {worker}, lapses := y.lapses - {worker})
  }

  // ----- the invariant ----------------------------------------------------------------------------------------

  function Count(effects: seq<Slot>, s: Slot): nat {
    if effects == [] then 0 else Count(effects[..|effects| - 1], s) + if effects[|effects| - 1] == s then 1 else 0
  }

  /** Published means it reached the broker; retired means malformed, or out of attempts altogether. */
  ghost predicate OutRowOk(invalid: set<Message>, broker: set<Message>, event: string, r: OutRow) {
    && r.message.event == event && r.attempts <= MAX_INT64
    && (r.status == Published ==> r.message in broker)
    && (r.status == Retired ==> r.message in invalid || r.attempts == MAX_INT64)
  }

  ghost predicate OutboxOk(y: System) {
    forall e | e in y.outbox :: OutRowOk(y.invalid, y.broker, e, y.outbox[e])
  }

  ghost predicate ClaimOk(y: System, c: Claim) {
    && c.event in y.outbox && (c.progress == Sent ==> y.outbox[c.event].message in y.broker)
    && (c.progress == Faulted(true) ==> y.outbox[c.event].message in y.invalid)
  }

  ghost predicate ClaimsOk(y: System) {
    forall w | w in y.claims :: ClaimOk(y, y.claims[w])
  }

  /** The broker holds nothing but enqueued messages. */
  ghost predicate BrokerOk(outbox: map<string, OutRow>, broker: set<Message>) {
    forall m | m in broker :: m.event in outbox && outbox[m.event].message == m
  }

  ghost predicate InRowOk(y: System, s: Slot, r: InRow) {
    && r.message in y.broker && r.message.event == s.event
    && Count(y.effects, s) == (if r.status == Applied then 1 else 0)
  }

  ghost predicate InboxOk(y: System) {
    && (forall s | s in y.inbox :: InRowOk(y, s, y.inbox[s]))
    && (forall s | s !in y.inbox :: Count(y.effects, s) == 0)
    && (forall w | w in y.lapses ::
          y.lapses[w].message in y.broker && y.lapses[w].message.event == y.lapses[w].slot.event)
  }

  ghost predicate Inv(y: System) {
    OutboxOk(y) && ClaimsOk(y) && BrokerOk(y.outbox, y.broker) && InboxOk(y)
  }

  lemma CountAppend(effects: seq<Slot>, s: Slot, t: Slot)
    ensures Count(effects + [s], t) == Count(effects, t) + if s == t then 1 else 0
  {
    assert (effects + [s])[..|effects|] == effects;
  }

  // ----- publishing side -----------------------------------------------------------------------------------------

  /** No row is lost or changes its message, and a published or retired one keeps its status. */
  ghost predicate OutboxOnward(outbox: map<string, OutRow>, after: map<string, OutRow>) {
    forall e | e in outbox ::
      && e in after && after[e].message == outbox[e].message
      && (outbox[e].status in {Published, Retired} ==> after[e].status == outbox[e].status)
  }

  lemma OutboxMoves(y: System, y': System)
    requires Inv(y) && y'.invalid == y.invalid && OutboxOnward(y.outbox, y'.outbox) && OutboxOk(y')
    requires y.broker <= y'.broker && BrokerOk(y'.outbox, y'.broker) && y'.inbox == y.inbox && y'.effects == y.effects
             && y'.lapses == y.lapses
    requires forall w | w in y'.claims :: (w in y.claims && y'.claims[w] == y.claims[w]) || ClaimOk(y', y'.claims[w])
    ensures Inv(y')
  {
    hide OutRowOk, Count, BrokerOk;
    forall w | w in y'.claims ensures ClaimOk(y', y'.claims[w]) {
      if w in y.claims && y'.claims[w] == y.claims[w] {
        assert ClaimOk(y, y.claims[w]);
      }
    }
    forall s | s in y'.inbox ensures InRowOk(y', s, y'.inbox[s]) {
      assert InRowOk(y, s, y.inbox[s]);
    }
  }

  lemma EnqueueKeeps(y: System, m: Message)
    requires Inv(y)
    ensures Inv(y.(outbox := Enqueue(y.outbox, m))) && OutboxOnward(y.outbox, Enqueue(y.outbox, m))
  {
    hide InboxOk, ClaimsOk;
    var y' := y.(outbox := Enqueue(y.outbox, m));
    OutboxMoves(y, y');
  }

  lemma ClaimKeeps(y: System, worker: nat, owner: string, event: string, expired: bool)
    requires Inv(y) && worker !in y.claims && Claimable(y.outbox, event, expired)
    ensures Inv(After(y, DoClaim(worker, owner, event, expired)))
    ensures OutboxOnward(y.outbox, Lease(y.outbox, event, owner))
  {
    hide InboxOk, ClaimsOk;
    OutboxMoves(y, After(y, DoClaim(worker, owner, event, expired)));
  }

  lemma PublishKeeps(y: System, worker: nat, arrives: bool, answer: Progress)
    requires Inv(y) && Enabled(y, DoPublish(worker, arrives, answer))
    ensures Inv(After(y, DoPublish(worker, arrives, answer)))
  {
    hide InboxOk, ClaimsOk;
    OutboxMoves(y, After(y, DoPublish(worker, arrives, answer)));
  }

  lemma MarkedRow(y: System, worker: nat, most: nat)
    requires Inv(y) && Enabled(y, DoMark(worker, most))
    ensures var y' := After(y, DoMark(worker, most));
            OutboxOk(y') && OutboxOnward(y.outbox, y'.outbox) && BrokerOk(y'.outbox, y'.broker)
  {
    hide InboxOk;
    var c := y.claims[worker];
    assert ClaimOk(y, c);
    assert OutRowOk(y.invalid, y.broker, c.event, y.outbox[c.event]);
  }

  lemma MarkKeeps(y: System, worker: nat, most: nat)
    requires Inv(y) && Enabled(y, DoMark(worker, most))
    ensures Inv(After(y, DoMark(worker, most)))
    ensures OutboxOnward(y.outbox, After(y, DoMark(worker, most)).outbox)
  {
    hide OutboxOk, ClaimsOk, InboxOk, BrokerOk, OutboxOnward, MarkPublished, MarkFailed;
    MarkedRow(y, worker, most);
    OutboxMoves(y, After(y, DoMark(worker, most)));
  }

  // ----- consuming side ----------------------------------------------------------------------------------------------

  /** An applied row stays applied, and no row changes its message. */
  ghost predicate InboxOnward(inbox: map<Slot, InRow>, after: map<Slot, InRow>) {
    forall s | s in inbox ::
      && s in after && after[s].message == inbox[s].message
      && (inbox[s].status == Applied ==> after[s].status == Applied)
  }

  lemma InboxMoves(y: System, y': System)
    requires Inv(y) && y'.invalid == y.invalid && y'.outbox == y.outbox && y'.broker == y.broker
             && y'.claims == y.claims && InboxOk(y')
    ensures Inv(y')
  {
    hide InboxOk, OutRowOk;
    forall w | w in y'.claims ensures ClaimOk(y', y'.claims[w]) {
      assert ClaimOk(y, y.claims[w]);
    }
  }

  lemma RanKeeps(y: System, slot: Slot, m: Message)
    requires InboxOk(y) && m in y.broker && m.event == slot.event
    requires Process(y.inbox, slot, m, true).Ran?
    ensures var after := Process(y.inbox, slot, m, true).inbox;
            InboxOk(y.(inbox := after, effects := y.effects + [slot])) && InboxOnward(y.inbox, after)
  {
    hide Count;
    var after := Process(y.inbox, slot, m, true).inbox;
    var y' := y.(inbox := after, effects := y.effects + [slot]);
    if slot in y.inbox {
      assert InRowOk(y, slot, y.inbox[slot]);
    }
    forall s ensures Count(y'.effects, s) == Count(y.effects, s) + if s == slot then 1 else 0 {
      CountAppend(y.effects, slot, s);
    }
    forall s | s in after ensures InRowOk(y', s, after[s]) {
      if s != slot {
        assert InRowOk(y, s, y.inbox[s]);
      }
    }
  }

  lemma DeliverKeeps(y: System, worker: nat, consumer: string, m: Message, succeeds: bool)
    requires Inv(y) && Enabled(y, DoDeliver(worker, consumer, m, succeeds))
    ensures var y' := After(y, DoDeliver(worker, consumer, m, succeeds)); Inv(y') && InboxOnward(y.inbox, y'.inbox)
  {
    hide OutboxOk, ClaimsOk, BrokerOk, Count;
    var slot, y' := Slot(consumer, m.event), After(y, DoDeliver(worker, consumer, m, succeeds));
    if Process(y.inbox, slot, m, succeeds).Ran? {
      RanKeeps(y, slot, m);
      InboxMoves(y, y');
    } else if Process(y.inbox, slot, m, succeeds).Lapsed? {
      forall s | s in y'.inbox ensures InRowOk(y', s, y'.inbox[s]) {
        assert InRowOk(y, s, y.inbox[s]);
      }
      InboxMoves(y, y');
    } else {
    }
  }

  lemma RecordKeeps(y: System, worker: nat, limit: nat)
    requires Inv(y) && Enabled(y, DoRecord(worker, limit))
    ensures var y' := After(y, DoRecord(worker, limit)); Inv(y') && InboxOnward(y.inbox, y'.inbox)
  {
    hide OutboxOk, ClaimsOk, BrokerOk, Count;
    var l, y' := y.lapses[worker], After(y, DoRecord(worker, limit));
    if l.slot in y.inbox {
      assert InRowOk(y, l.slot, y.inbox[l.slot]);
    }
    forall s | s in y'.inbox ensures InRowOk(y', s, y'.inbox[s]) {
      if s != l.slot {
        assert InRowOk(y, s, y.inbox[s]);
      }
    }
    InboxMoves(y, y');
  }

  // ----- runs ------------------------------------------------------------------------------------

  ghost predicate Onward(y: System, y': System) {
    OutboxOnward(y.outbox, y'.outbox) && InboxOnward(y.inbox, y'.inbox) && y.broker <= y'.broker
    && y'.invalid == y.invalid
  }

  lemma CrashKeeps(y: System, worker: nat)
    requires Inv(y)
    ensures Inv(After(y, Crash(worker)))
  {
    hide OutRowOk, Count;
    var y' := After(y, Crash(worker));
    forall w | w in y'.claims ensures ClaimOk(y', y'.claims[w]) {
      assert ClaimOk(y, y.claims[w]);
    }
    forall s | s in y'.inbox ensures InRowOk(y', s, y'.inbox[s]) {
      assert InRowOk(y, s, y.inbox[s]);
    }
  }

  lemma StepKeeps(y: System, t: Step)
    requires Inv(y) && Enabled(y, t)
    ensures Inv(After(y, t)) && Onward(y, After(y, t))
  {
    hide Inv, OutboxOnward, InboxOnward, Enqueue, Lease, MarkPublished, MarkFailed, Process, RecordFailure;
    SameOutbox(y.outbox);
    SameInbox(y.inbox);
    match t
    case DoEnqueue(m) => EnqueueKeeps(y, m);
    case DoClaim(worker, owner, event, expired) => ClaimKeeps(y, worker, owner, event, expired);
    case DoPublish(worker, arrives, answer) => PublishKeeps(y, worker, arrives, answer);
    case DoMark(worker, most) => MarkKeeps(y, worker, most);
    case DoDeliver(worker, consumer, m, succeeds) => DeliverKeeps(y, worker, consumer, m, succeeds);
    case DoRecord(worker, limit) => RecordKeeps(y, worker, limit);
    case Crash(worker) => CrashKeeps(y, worker);
  }

  lemma SameOutbox(outbox: map<string, OutRow>)
    ensures OutboxOnward(outbox, outbox)
  {
  }

  lemma SameInbox(inbox: map<Slot, InRow>)
    ensures InboxOnward(inbox, inbox)
  {
  }

  ghost predicate IsRun(states: seq<System>, steps: seq<Step>) {
    && |states| == |steps| + 1
    && forall i | 0 <= i < |steps| :: Enabled(states[i], steps[i]) && states[i + 1] == After(states[i], steps[i])
  }

  lemma {:induction false} RunKeeps(states: seq<System>, steps: seq<Step>, i: nat, j: nat)
    requires IsRun(states, steps) && i <= j <= |steps| && Inv(states[i])
    ensures Inv(states[j]) && Onward(states[i], states[j])
    decreases j - i
  {
    hide Inv, After, Enabled;
    if i < j {
      RunKeeps(states, steps, i, j - 1);
      StepKeeps(states[j - 1], steps[j - 1]);
    }
  }

  function Fresh(invalid: set<Message>): System {
    System(invalid, map[], {}, map[], map[], [], map[])
  }

  lemma FreshInv(invalid: set<Message>)
    ensures Inv(Fresh(invalid))
  {
  }

  /** A run from the beginning, cut at one of its states. */
  lemma ReachedInv(invalid: set<Message>, states: seq<System>, steps: seq<Step>, i: nat)
    requires IsRun(states, steps) && states[0] == Fresh(invalid) && i <= |steps|
    ensures Inv(states[i]) && states[i].invalid == invalid
  {
    hide Inv, After, Enabled;
    FreshInv(invalid);
    RunKeeps(states, steps, 0, i);
  }

  /**
   * Per consumer and event the handler's effect commits at most once, exactly when the row says applied, and only for
   * what was enqueued.
   */
  lemma EffectsCommitOnce(invalid: set<Message>, states: seq<System>, steps: seq<Step>, i: nat, s: Slot)
    requires IsRun(states, steps) && states[0] == Fresh(invalid) && i <= |steps|
    ensures var y := states[i];
            && Count(y.effects, s) <= 1
            && (Count(y.effects, s) == 1 <==> s in y.inbox && y.inbox[s].status == Applied)
            && (s in y.inbox ==> s.event in y.outbox && y.outbox[s.event].message == y.inbox[s].message)
  {
    hide After, Enabled, OutboxOk, ClaimsOk, Count;
    ReachedInv(invalid, states, steps, i);
    var y := states[i];
    if s in y.inbox {
      assert InRowOk(y, s, y.inbox[s]);
    }
  }

  /**
   * A row marked published has reached the broker, and a well-formed message is retired only after every possible
   * attempt.
   */
  lemma PublishedMeansSent(invalid: set<Message>, states: seq<System>, steps: seq<Step>, i: nat, event: string)
    requires IsRun(states, steps) && states[0] == Fresh(invalid) && i <= |steps| && event in states[i].outbox
    ensures var y, r := states[i], states[i].outbox[event];
            && (r.status == Published ==> r.message in y.broker)
            && (r.status == Retired && r.message !in invalid ==> r.attempts == MAX_INT64)
  {
    hide After, Enabled, InboxOk, ClaimsOk, BrokerOk;
    ReachedInv(invalid, states, steps, i);
  }

  // ----- poisoned rows ---------------------------------------------------------------------------

  predicate IsPoisoned(y: System, s: Slot) {
    s in y.inbox && y.inbox[s].status == Poisoned
  }

  /** The step records a failed delivery on this slot. */
  predicate RecordsOn(y: System, t: Step, s: Slot) {
    t.DoRecord? && t.worker in y.lapses && y.lapses[t.worker].slot == s
  }

  /** How many failures steps i to k - 1 recorded on this slot. */
  function Records(states: seq<System>, steps: seq<Step>, i: nat, k: nat, s: Slot): nat
    requires i <= k <= |steps| < |states|
    decreases k - i
  {
    if i == k then 0
    else Records(states, steps, i, k - 1, s) + if RecordsOn(states[k - 1], steps[k - 1], s) then 1 else 0
  }

  /** The record at step k finds its limit reached, counting from state i. */
  predicate LimitReached(states: seq<System>, steps: seq<Step>, i: nat, k: nat, s: Slot)
    requires i <= k < |steps| < |states| && s in states[i].inbox
  {
    RecordsOn(states[k], steps[k], s) ==>
      steps[k].limit <= states[i].inbox[s].attempts + 1 + Records(states, steps, i, k, s)
  }

  /** While a row is poisoned only a recorded failure touches it, and that leaves it poisoned exactly at its limit. */
  lemma PoisonedStep(y: System, t: Step, s: Slot)
    requires Enabled(y, t) && IsPoisoned(y, s)
    ensures var y' := After(y, t);
            && s in y'.inbox
            && y'.inbox[s].attempts == y.inbox[s].attempts + (if RecordsOn(y, t, s) then 1 else 0)
            && (IsPoisoned(y', s) <==> (RecordsOn(y, t, s) ==> t.limit <= y.inbox[s].attempts + 1))
  {
    hide Enqueue, Lease, MarkPublished, MarkFailed, Claimable;
    match t
    case DoEnqueue(m) =>
    case DoClaim(worker, owner, event, expired) =>
    case DoPublish(worker, arrives, answer) =>
    case DoMark(worker, most) =>
    case DoDeliver(worker, consumer, m, succeeds) =>
    case DoRecord(worker, limit) =>
    case Crash(worker) =>
  }

  /** As long as every limit is reached, the row stays poisoned and counts each record. */
  lemma {:induction false} PoisonCounts(states: seq<System>, steps: seq<Step>, i: nat, j: nat, s: Slot)
    requires IsRun(states, steps) && i <= j <= |steps| && IsPoisoned(states[i], s)
    requires forall k | i <= k < j :: LimitReached(states, steps, i, k, s)
    ensures IsPoisoned(states[j], s)
            && states[j].inbox[s].attempts == states[i].inbox[s].attempts + Records(states, steps, i, j, s)
    decreases j - i
  {
    hide After, Enabled, RecordsOn;
    if i < j {
      PoisonCounts(states, steps, i, j - 1, s);
      PoisonedStep(states[j - 1], steps[j - 1], s);
      assert LimitReached(states, steps, i, j - 1, s);
    }
  }

  /**
    A poisoned row stays poisoned through a run exactly when every failure recorded on it uses a limit that the row has
    reached by then: its attempts at the start, one for each earlier record, and one for this one.
   */
  lemma {:induction false} PoisonStaysExactly(states: seq<System>, steps: seq<Step>, i: nat, j: nat, s: Slot)
    requires IsRun(states, steps) && i <= j <= |steps| && IsPoisoned(states[i], s)
    ensures (forall k | i <= k <= j :: IsPoisoned(states[k], s)) <==>
            (forall k | i <= k < j :: LimitReached(states, steps, i, k, s))
    decreases j - i
  {
    hide After, Enabled, RecordsOn, LimitReached;
    if i < j {
      PoisonStaysExactly(states, steps, i, j - 1, s);
      if forall k | i <= k < j - 1 :: LimitReached(states, steps, i, k, s) {
        PoisonCounts(states, steps, i, j - 1, s);
        LastRecord(states, steps, i, j, s);
      }
    }
  }

  lemma LastRecord(states: seq<System>, steps: seq<Step>, i: nat, j: nat, s: Slot)
    requires IsRun(states, steps) && i < j <= |steps| && s in states[i].inbox && IsPoisoned(states[j - 1], s)
    requires states[j - 1].inbox[s].attempts == states[i].inbox[s].attempts + Records(states, steps, i, j - 1, s)
    ensures IsPoisoned(states[j], s) <==> LimitReached(states, steps, i, j - 1, s)
  {
    hide After, Enabled, RecordsOn, Records;
    PoisonedStep(states[j - 1], steps[j - 1], s);
  }

  /** All failures on this slot are recorded with one limit. */
  predicate OneLimit(states: seq<System>, steps: seq<Step>, s: Slot, limit: nat)
    requires |steps| < |states|
  {
    forall k | 0 <= k < |steps| && RecordsOn(states[k], steps[k], s) :: steps[k].limit == limit
  }

  lemma PoisonAtLimit(y: System, t: Step, s: Slot, limit: nat)
    requires Enabled(y, t) && (RecordsOn(y, t, s) ==> t.limit == limit)
    requires IsPoisoned(y, s) ==> y.inbox[s].attempts >= limit
    ensures var y' := After(y, t); IsPoisoned(y', s) ==> y'.inbox[s].attempts >= limit
  {
    hide Enqueue, Lease, MarkPublished, MarkFailed, Claimable;
    match t
    case DoEnqueue(m) =>
    case DoClaim(worker, owner, event, expired) =>
    case DoPublish(worker, arrives, answer) =>
    case DoMark(worker, most) =>
    case DoDeliver(worker, consumer, m, succeeds) =>
    case DoRecord(worker, l) =>
    case Crash(worker) =>
  }

  lemma {:induction false} PoisonedAtLimit(invalid: set<Message>, states: seq<System>, steps: seq<Step>, s: Slot,
                                           limit: nat, i: nat)
    requires IsRun(states, steps) && states[0] == Fresh(invalid) && OneLimit(states, steps, s, limit) && i <= |steps|
    ensures IsPoisoned(states[i], s) ==> states[i].inbox[s].attempts >= limit
  {
    hide After, Enabled, RecordsOn;
    if i > 0 {
      PoisonedAtLimit(invalid, states, steps, s, limit, i - 1);
      PoisonAtLimit(states[i - 1], steps[i - 1], s, limit);
    }
  }

  /**
   * Published, retired and applied are final in every later state, and so is poisoned when a slot's records share one
   * limit.
   */
  lemma FinalStatusesStay(invalid: set<Message>, states: seq<System>, steps: seq<Step>, i: nat, j: nat, event: string,
                          s: Slot, limit: nat)
    requires IsRun(states, steps) && states[0] == Fresh(invalid) && i <= j <= |steps|
    ensures event in states[i].outbox && states[i].outbox[event].status in {Published, Retired} ==>
              event in states[j].outbox && states[j].outbox[event].status == states[i].outbox[event].status
    ensures s in states[i].inbox && states[i].inbox[s].status == Applied ==>
              s in states[j].inbox && states[j].inbox[s].status == Applied
    ensures OneLimit(states, steps, s, limit) && IsPoisoned(states[i], s) ==> IsPoisoned(states[j], s)
  {
    hide After, Enabled, Inv, RecordsOn;
    ReachedInv(invalid, states, steps, i);
    RunKeeps(states, steps, i, j);
    if OneLimit(states, steps, s, limit) && IsPoisoned(states[i], s) {
      PoisonedAtLimit(invalid, states, steps, s, limit, i);
      forall k | i <= k < j ensures LimitReached(states, steps, i, k, s) {
      }
      PoisonCounts(states, steps, i, j, s);
    }
  }

  /** A system in which one message has been published and two workers hold failed deliveries of it. */
  function TwoLapses(m: Message, s: Slot): System {
    System({}, map[m.event := OutRow(m, Publishing, "o", 1)], {m}, map[0 := Claim(m.event, "o", Sent)], map[], [],
           map[1 := Lapse(s, m), 2 := Lapse(s, m)])
  }

  lemma LapsesReached(m: Message, s: Slot) returns (states: seq<System>, steps: seq<Step>)
    requires m.event != "" && m.topic != "" && m.body != "" && s.consumer != "" && s.event == m.event
    ensures IsRun(states, steps) && states[0] == Fresh({}) && |steps| == 5 && states[5] == TwoLapses(m, s)
  {
    var y0 := Fresh({});
    var y1 := After(y0, DoEnqueue(m));
    var y2 := After(y1, DoClaim(0, "o", m.event, false));
    var y3 := After(y2, DoPublish(0, true, Sent));
    var y4 := After(y3, DoDeliver(1, s.consumer, m, false));
    var y5 := After(y4, DoDeliver(2, s.consumer, m, false));
    states := [y0, y1, y2, y3, y4, y5];
    steps := [DoEnqueue(m), DoClaim(0, "o", m.event, false), DoPublish(0, true, Sent),
              DoDeliver(1, s.consumer, m, false), DoDeliver(2, s.consumer, m, false)];
    assert y5.claims == map[0 := Claim(m.event, "o", Sent)];
  }

  lemma RecordsRevive(m: Message, s: Slot)
    ensures var y := TwoLapses(m, s);
            && Enabled(y, DoRecord(1, 1))
            && var y1 := After(y, DoRecord(1, 1));
               && IsPoisoned(y1, s) && Enabled(y1, DoRecord(2, 5))
               && var y2 := After(y1, DoRecord(2, 5)); s in y2.inbox && y2.inbox[s].status == Failing
  {
    var y := TwoLapses(m, s);
    assert y.lapses - {1} == map[2 := Lapse(s, m)];
  }

  lemma RunGrows(states: seq<System>, steps: seq<Step>, t: Step)
    requires IsRun(states, steps) && Enabled(states[|steps|], t)
    ensures IsRun(states + [After(states[|steps|], t)], steps + [t])
  {
    hide After, Enabled;
  }

  /**
   * Two workers of one consumer with limits 1 and 5 fail on one message at the same time: the second record revives it.
   */
  lemma DifferentLimitsRevive(m: Message, s: Slot) returns (states: seq<System>, steps: seq<Step>)
    requires m.event != "" && m.topic != "" && m.body != "" && s.consumer != "" && s.event == m.event
    ensures IsRun(states, steps) && states[0] == Fresh({}) && |steps| == 7
    ensures IsPoisoned(states[6], s) && s in states[7].inbox && states[7].inbox[s].status == Failing
  {
    hide After, Enabled, TwoLapses;
    states, steps := LapsesReached(m, s);
    RecordsRevive(m, s);
    var y1 := After(states[5], DoRecord(1, 1));
    RunGrows(states, steps, DoRecord(1, 1));
    states, steps := states + [y1], steps + [DoRecord(1, 1)];
    RunGrows(states, steps, DoRecord(2, 5));
    states, steps := states + [After(y1, DoRecord(2, 5))], steps + [DoRecord(2, 5)];
  }
}
