/** Who may write: a fence admits its holder until the region restarts, and nobody else. */
module Fencing {
  import opened Amounts
  import opened Names
  import opened Journal
  import opened Network
  import opened Protocol
  import opened Preservation
  import opened Runs

  // ----- the guard, said without it ---------------------------------------------------------------

  function Up(healthy: map<string, bool>): set<string> {
    set d | d in {"dc01", "dc02", "dc03", "dc04", "dc05", "dc06", "dc07"} && d in healthy && healthy[d]
  }

  /** Four of the seven data centres. */
  predicate Quorum(s: State) {
    |Up(s.dcHealthy)| >= 4
  }

  /** The region is known and runs in the epoch of the fence, and a majority is up. */
  predicate Admits(s: State, fence: Fence) {
    && fence.region in s.regions && s.regions[fence.region].running
    && s.regions[fence.region].epoch == fence.epoch && Quorum(s)
  }

  /** The error a writer under this fence has to see. */
  predicate Bars(s: State, fence: Fence, e: Error) {
    if fence.region !in s.regions || !s.regions[fence.region].running then e == ErrRegionDown
    else if s.regions[fence.region].epoch != fence.epoch then e == ErrStaleEpoch
    else e == ErrNoQuorum && !Quorum(s)
  }

  function UpAmong(healthy: map<string, bool>, k: nat): set<string>
    requires k <= |REPLICAS|
  {
    set i | 0 <= i < k && REPLICAS[i] in healthy && healthy[REPLICAS[i]] :: REPLICAS[i]
  }

  lemma ReplicasDiffer(i: nat, j: nat)
    requires i < j < |REPLICAS|
    ensures REPLICAS[i] != REPLICAS[j]
  {
    assert REPLICAS[i][3] != REPLICAS[j][3];
  }

  lemma {:induction false} UpCounts(healthy: map<string, bool>, k: nat)
    requires k <= |REPLICAS|
    ensures |UpAmong(healthy, k)| == HealthyReplicas(healthy, k)
  {
    if k == 0 {
      assert UpAmong(healthy, 0) == {};
    } else {
      UpCounts(healthy, k - 1);
      var d := REPLICAS[k - 1];
      forall i | 0 <= i < k - 1 ensures REPLICAS[i] != d {
        ReplicasDiffer(i, k - 1);
      }
      if d in healthy && healthy[d] {
        assert UpAmong(healthy, k) == UpAmong(healthy, k - 1) + {d};
      } else {
        assert UpAmong(healthy, k) == UpAmong(healthy, k - 1);
      }
    }
  }

  lemma QuorumIs(s: State)
    ensures HasQuorum(s) <==> Quorum(s)
  {
    UpCounts(s.dcHealthy, 7);
    var among := UpAmong(s.dcHealthy, 7);
    assert REPLICAS == ["dc01", "dc02", "dc03", "dc04", "dc05", "dc06", "dc07"];
    forall d | d in Up(s.dcHealthy) ensures d in among {
      assert d == REPLICAS[0] || d == REPLICAS[1] || d == REPLICAS[2] || d == REPLICAS[3] || d == REPLICAS[4]
             || d == REPLICAS[5] || d == REPLICAS[6];
    }
    assert among == Up(s.dcHealthy);
  }

  lemma GuardIs(s: State, fence: Fence)
    ensures Guard(s, fence).None? <==> Admits(s, fence)
    ensures forall e :: Guard(s, fence) == Some(e) <==> Bars(s, fence, e)
  {
    QuorumIs(s);
  }

  // ----- refusals ------------------------------------------------------------------------------------

  /** The operations that write under a fence. */
  predicate IsFenced(step: Step) {
    IsWrite(step) || step.InitiateStep?
  }

  function ErrorOf(s: State, step: Step): Option<Error>
    requires IsFenced(step)
  {
    if step.InitiateStep? then Initiate(s, step.fence, step.transfer, step.destination, step.amount).1.error
    else Respond(s, step).1.error
  }

  /** A writer that is barred changes nothing and learns why; this holds in every state, reachable or not. */
  lemma BarredWriterChangesNothing(s: State, step: Step, e: Error)
    requires IsFenced(step) && Bars(s, step.fence, e)
    ensures Enabled(s, step) && Apply(s, step) == s && ErrorOf(s, step) == Some(e)
  {
    hide Bars, PayNew, DepositNew, ReleaseNew, CashbackNew, InitiateNew, Guard, PayAgain, AnswerAgain;
    GuardIs(s, step.fence);
    match step
    case PayStep(_, _, _, _) =>
    case DepositStep(_, _, _, _) =>
    case ReleaseStep(_, _, _, _, _, _) =>
    case CashbackStep(_, _, _, _, _, _) =>
    case InitiateStep(_, _, _, _) =>
  }

  // ----- epochs over runs -----------------------------------------------------------------------------

  /** The same regions in the same epochs. */
  ghost predicate SameEpochs(before: map<string, Region>, after: map<string, Region>) {
    after.Keys == before.Keys && forall r | r in before :: after[r].epoch == before[r].epoch
  }

  lemma SameSelf(a: map<string, Region>)
    ensures SameEpochs(a, a)
  {
  }

  lemma SameOn(a: map<string, Region>, b: map<string, Region>, c: map<string, Region>)
    requires SameEpochs(a, b) && SameEpochs(b, c)
    ensures SameEpochs(a, c)
  {
  }

  lemma RightsSame(s: State, region: string, rights: int)
    requires region in s.regions
    ensures SameEpochs(s.regions, WithRights(s, region, rights))
  {
  }

  lemma CrashSame(s: State, region: string)
    requires region in s.regions
    ensures SameEpochs(s.regions, CrashNode(s, region).regions)
  {
  }

  lemma AgainSame(s: State, key: string, request: Fingerprint)
    requires Known(s, key, request)
    ensures AnswerAgain(s, key, request).0.regions == s.regions
  {
    if key in s.idempotency {
      if s.idempotency[key].request != request {
      } else {
      }
    } else if s.ledger.effects[EffectOf(request)].request != request {
    } else {
    }
  }

  lemma FinishSame(s: State, region: string, key: string, receipt: Receipt)
    requires region in s.regions
    ensures SameEpochs(s.regions, FinishPay(s, region, key, receipt).0.regions)
  {
    hide Pending, Spend, SameEpochs, CrashNode;
    var after := s.(faults := s.faults.(crashAfter := Spend(s.faults.crashAfter, key),
                                        loseResponses := Spend(s.faults.loseResponses, key)));
    SameSelf(s.regions);
    CrashSame(after, region);
    if Pending(s.faults.crashAfter, key) {
    } else if Pending(s.faults.loseResponses, key) {
    } else {
    }
  }

  lemma CaptureSame(s: State, region: string, key: string, op: string, amount: int)
    requires region in s.regions
    ensures SameEpochs(s.regions, Capture(s, region, key, op, amount).0.regions)
  {
    hide Post, FinishPay, SameEpochs, WithRights;
    var r := Post(s.ledger, PaymentEffect(op), CaptureKind, PaymentRequest(op, amount),
                  CaptureLines(s, region, amount));
    RightsSame(s, region, s.regions[region].rights - amount);
    if r.Posted? {
      CaptureRegion(s, region, key, op, amount, r.ledger, r.receipt);
      var after := AfterCapture(s, region, key, op, amount, r.ledger, r.receipt);
      FinishSame(after, region, key, r.receipt.(key := key));
      SameOn(s.regions, after.regions, Capture(s, region, key, op, amount).0.regions);
    } else {
      SameSelf(s.regions);
    }
  }

  lemma CaptureRegion(s: State, region: string, key: string, op: string, amount: int, ledger: Ledger, receipt: Receipt)
    requires region in s.regions
    ensures var after := AfterCapture(s, region, key, op, amount, ledger, receipt);
            after.regions == WithRights(s, region, s.regions[region].rights - amount) && region in after.regions
  {
  }

  lemma PayNewSame(s: State, region: string, key: string, op: string, amount: int)
    requires region in s.regions
    ensures SameEpochs(s.regions, PayNew(s, region, key, op, amount).0.regions)
  {
    hide CaptureRefusal, Pending, Spend, Capture, SameEpochs, CrashNode;
    SameSelf(s.regions);
    if Pending(s.faults.crashBefore, key) {
      CrashSame(s.(faults := s.faults.(crashBefore := Spend(s.faults.crashBefore, key))), region);
    } else if CaptureRefusal(s, region, amount).Some? {
    } else {
      CaptureSame(s, region, key, op, amount);
    }
  }

  lemma PayAgainSame(s: State, key: string)
    requires key in s.idempotency
    ensures PayAgain(s, key).0.regions == s.regions
  {
    hide Pending, Spend;
    if Pending(s.faults.loseResponses, key) {
    } else {
    }
  }

  lemma GuardKnows(s: State, fence: Fence)
    ensures Guard(s, fence).None? ==> fence.region in s.regions
  {
    hide HasQuorum;
  }

  lemma PaySame(s: State, fence: Fence, key: string, op: string, amount: int)
    ensures SameEpochs(s.regions, Pay(s, fence, key, op, amount).0.regions)
  {
    hide Guard, PayNew, PayAgain, AnswerAgain, SameEpochs;
    SameSelf(s.regions);
    GuardKnows(s, fence);
    if Guard(s, fence).Some? {
    } else if key == "" || op == "" || amount <= 0 {
    } else if key in s.idempotency && s.idempotency[key].request == PaymentRequest(op, amount) {
      PayAgainSame(s, key);
    } else if Known(s, key, PaymentRequest(op, amount)) {
      AgainSame(s, key, PaymentRequest(op, amount));
    } else {
      PayNewSame(s, fence.region, key, op, amount);
    }
  }

  lemma DepositNewSame(s: State, region: string, key: string, op: string, amount: int)
    requires region in s.regions
    ensures SameEpochs(s.regions, DepositNew(s, region, key, op, amount).0.regions)
  {
    hide Post, RaiseOverflows, SameEpochs, WithRights;
    SameSelf(s.regions);
    RightsSame(s, region, s.regions[region].rights + amount);
    if RaiseOverflows(s, region, amount) {
    } else if Post(s.ledger, DepositEffect(op), DepositKind, DepositRequest(op, amount),
                   RaiseLines(s, Funding, Issuer, region, amount)).Posted? {
    } else {
    }
  }

  lemma DepositSame(s: State, fence: Fence, key: string, op: string, amount: int)
    ensures SameEpochs(s.regions, Deposit(s, fence, key, op, amount).0.regions)
  {
    hide Guard, DepositNew, AnswerAgain, SameEpochs;
    SameSelf(s.regions);
    GuardKnows(s, fence);
    if Guard(s, fence).Some? {
    } else if key == "" || op == "" || amount <= 0 {
    } else if Known(s, key, DepositRequest(op, amount)) {
      AgainSame(s, key, DepositRequest(op, amount));
    } else {
      DepositNewSame(s, fence.region, key, op, amount);
    }
  }

  lemma ReleaseNewSame(s: State, region: string, key: string, release: string, payment: string, amount: int,
                       kind: ReleaseKind)
    requires region in s.regions
    ensures SameEpochs(s.regions, ReleaseNew(s, region, key, release, payment, amount, kind).0.regions)
  {
    hide Post, RaiseOverflows, SameEpochs, WithRights, ReleaseExceeds, Released;
    SameSelf(s.regions);
    RightsSame(s, region, s.regions[region].rights + amount);
    if payment !in s.payments {
    } else if ReleaseExceeds(s.payments[payment], amount) {
    } else if RaiseOverflows(s, region, amount) {
    } else if Post(s.ledger, ReleaseEffect(kind, release), ReleaseKindOf(kind),
                   ReleaseRequest(kind, release, payment, amount),
                   RaiseLines(s, Merchant, Consumed, region, amount)).Posted? {
    } else {
    }
  }

  lemma ReleaseSame(s: State, fence: Fence, key: string, release: string, payment: string, amount: int,
                    kind: ReleaseKind)
    ensures SameEpochs(s.regions, Release(s, fence, key, release, payment, amount, kind).0.regions)
  {
    hide Guard, ReleaseNew, AnswerAgain, SameEpochs;
    SameSelf(s.regions);
    GuardKnows(s, fence);
    if Guard(s, fence).Some? {
    } else if key == "" || release == "" || payment == "" || amount <= 0 {
    } else if Known(s, key, ReleaseRequest(kind, release, payment, amount)) {
      AgainSame(s, key, ReleaseRequest(kind, release, payment, amount));
    } else {
      ReleaseNewSame(s, fence.region, key, release, payment, amount, kind);
    }
  }

  lemma CashbackNewSame(s: State, region: string, key: string, grant: string, op: string, amount: int, maximum: int)
    requires region in s.regions
    ensures SameEpochs(s.regions, CashbackNew(s, region, key, grant, op, amount, maximum).0.regions)
  {
    hide Post, RaiseOverflows, SameEpochs, WithRights, CashbackExceeds, AfterCashback;
    SameSelf(s.regions);
    RightsSame(s, region, s.regions[region].rights + amount);
    var r := Post(s.ledger, CashbackEffect(grant), CashbackKind, CashbackRequest(grant, op, amount, maximum),
                  RaiseLines(s, CashbackExpense, Issuer, region, amount));
    if op in s.cashbackRules && s.cashbackRules[op] != maximum {
    } else if CashbackExceeds(s, op, amount, maximum) {
    } else if RaiseOverflows(s, region, amount) {
    } else if r.Posted? {
      CashbackRaises(s, region, key, grant, op, amount, maximum, r.ledger, r.receipt);
    } else {
    }
  }

  lemma CashbackSame(s: State, fence: Fence, key: string, grant: string, op: string, amount: int, maximum: int)
    ensures SameEpochs(s.regions, Cashback(s, fence, key, grant, op, amount, maximum).0.regions)
  {
    hide Guard, CashbackNew, AnswerAgain, SameEpochs;
    SameSelf(s.regions);
    GuardKnows(s, fence);
    if Guard(s, fence).Some? {
    } else if key == "" || grant == "" || op == "" || amount <= 0 || maximum < 0 {
    } else if Known(s, key, CashbackRequest(grant, op, amount, maximum)) {
      AgainSame(s, key, CashbackRequest(grant, op, amount, maximum));
    } else {
      CashbackNewSame(s, fence.region, key, grant, op, amount, maximum);
    }
  }

  lemma InitiateNewSame(s: State, fence: Fence, id: string, destination: string, amount: int)
    requires fence.region in s.regions
    ensures SameEpochs(s.regions, InitiateNew(s, fence, id, destination, amount).0.regions)
  {
    hide Post, SameEpochs, WithRights, ProofOf;
    SameSelf(s.regions);
    RightsSame(s, fence.region, s.regions[fence.region].rights - amount);
    if s.regions[fence.region].rights < amount {
    } else if Sub(s.regions[fence.region].rights, amount).None? {
    } else if Post(s.ledger, TransferOutEffect(id), TransferOutKind,
                   TransferOutRequest(id, fence.region, destination, amount),
                   OutLines(s, fence.region, amount)).Posted? {
    } else {
    }
  }

  lemma InitiateSame(s: State, fence: Fence, id: string, destination: string, amount: int)
    ensures SameEpochs(s.regions, Initiate(s, fence, id, destination, amount).0.regions)
  {
    hide Guard, InitiateNew, SameEpochs;
    SameSelf(s.regions);
    GuardKnows(s, fence);
    if Guard(s, fence).Some? {
    } else if id == "" || destination == "" || fence.region == destination || amount <= 0 {
    } else if destination !in s.regions {
    } else if id in s.transfers {
    } else {
      InitiateNewSame(s, fence, id, destination, amount);
    }
  }

  lemma FinishConsumeSame(s: State, m: MessageId, region: string, receipt: Receipt, duplicate: bool)
    requires region in s.regions
    ensures SameEpochs(s.regions, FinishConsume(s, m, region, receipt, duplicate).0.regions)
  {
    hide Pending, Spend, SameEpochs, CrashNode;
    SameSelf(s.regions);
    CrashSame(s.(faults := s.faults.(consumerCrash := Spend(s.faults.consumerCrash, m))), region);
    if Pending(s.faults.consumerCrash, m) {
    } else {
    }
  }

  lemma ConsumeNewSame(s: State, m: MessageId, c: Certificate)
    requires c.destination in s.regions && c.transfer in s.transfers
    ensures SameEpochs(s.regions, ConsumeNew(s, m, c).0.regions)
  {
    hide Post, FinishConsume, SameEpochs, WithRights, AfterConsume;
    SameSelf(s.regions);
    RightsSame(s, c.destination, s.regions[c.destination].rights + c.amount);
    var r := Post(s.ledger, TransferInEffect(c.transfer), TransferInKind, TransferInRequest(c.transfer, c.proof),
                  InLines(s, c.destination, c.amount));
    if s.transfers[c.transfer].consumed || !s.transfers[c.transfer].inTransit {
    } else if Add(s.regions[c.destination].rights, c.amount).None? {
    } else if r.Posted? {
      ConsumedRegion(s, m, c, r.ledger, r.receipt);
      var after := AfterConsume(s, m, c, r.ledger, r.receipt);
      FinishConsumeSame(after, m, c.destination, r.receipt, false);
      SameOn(s.regions, after.regions, ConsumeNew(s, m, c).0.regions);
    } else {
    }
  }

  lemma ConsumedRegion(s: State, m: MessageId, c: Certificate, ledger: Ledger, receipt: Receipt)
    requires c.destination in s.regions && c.transfer in s.transfers
    ensures var after := AfterConsume(s, m, c, ledger, receipt);
            && after.regions == WithRights(s, c.destination, s.regions[c.destination].rights + c.amount)
            && c.destination in after.regions
  {
  }

  lemma ConsumeSame(s: State, m: MessageId, c: Certificate)
    ensures SameEpochs(s.regions, Consume(s, m, c).0.regions)
  {
    hide HasQuorum, Verified, FinishConsume, ConsumeNew, SameEpochs;
    SameSelf(s.regions);
    if ConsumeRefusal(s, c).Some? {
    } else if m in s.inbox {
      if s.inbox[m].payload != CertificatePayload(c) {
      } else {
        FinishConsumeSame(s.(inbox := s.inbox[m := s.inbox[m].(duplicates := s.inbox[m].duplicates + 1)]), m,
                          c.destination, s.transfers[c.transfer].receipt.(duplicate := true), true);
      }
    } else {
      ConsumeNewSame(s, m, c);
    }
  }

  lemma DeliverOneSame(s: State, e: Envelope)
    ensures SameEpochs(s.regions, DeliverOne(s, e).0.regions)
  {
    hide Consume, Sent, AckAccepted, SameEpochs;
    SameSelf(s.regions);
    match e.kind
    case Command =>
      if !e.payload.CertificatePayload? {
      } else {
        ConsumeSame(s, e.id, e.payload.certificate);
        if Consume(s, e.id, e.payload.certificate).1.error.Some? {
        } else {
        }
      }
    case Ack =>
      if AckAccepted(s, e) {
      } else {
      }
    case Event =>
    case Response =>
  }

  lemma {:induction false} DeliverEachSame(s: State, es: seq<Envelope>, k: nat)
    requires k <= |es|
    ensures SameEpochs(s.regions, DeliverEach(s, es, k).0.regions)
  {
    hide DeliverOne, SameEpochs;
    if k == 0 {
      SameSelf(s.regions);
    } else {
      DeliverEachSame(s, es, k - 1);
      var before := DeliverEach(s, es, k - 1).0;
      DeliverOneSame(before, es[k - 1]);
      SameOn(s.regions, before.regions, DeliverOne(before, es[k - 1]).0.regions);
    }
  }

  lemma SagaPaySame(s: State, g: Saga)
    ensures SameEpochs(s.regions, SagaPay(s, g).0.regions)
  {
    hide Pay, SameEpochs;
    SameSelf(s.regions);
    if g.region !in s.regions || !s.regions[g.region].running {
    } else {
      PaySame(s, Fence(g.region, s.regions[g.region].epoch), SagaKey(g.id), g.operation, g.amount);
    }
  }

  lemma AdvanceSagaSame(s: State, id: string)
    ensures SameEpochs(s.regions, AdvanceSaga(s, id).0.regions)
  {
    hide SagaPay, Pending, Spend, CommittedAnyway, SameEpochs;
    SameSelf(s.regions);
    if !s.coordinatorRunning {
    } else if id !in s.sagas {
    } else if s.sagas[id].nextStep == 0 {
      SagaPaySame(s, s.sagas[id]);
      var (paid, reply) := SagaPay(s, s.sagas[id]);
      if !CommittedAnyway(reply.error) {
      } else if Pending(paid.faults.coordinatorCrash, id) {
      } else {
      }
    } else if s.sagas[id].nextStep == 1 {
    } else {
    }
  }

  lemma ReverseRestSame(s: State, event: string, payment: string, rest: int)
    requires event in s.verdicts && payment in s.payments
    ensures SameEpochs(s.regions, ReverseRest(s, event, payment, rest).0.regions)
  {
    hide Post, RaiseOverflows, SameEpochs, WithRights, Settle, AfterFraud;
    SameSelf(s.regions);
    SettleSame(s, event);
    var p := s.payments[payment];
    if p.region !in s.regions {
    } else if RaiseOverflows(s, p.region, rest) {
    } else {
      RightsSame(s, p.region, s.regions[p.region].rights + rest);
      var r := Post(s.ledger, FraudEffect(event), FraudKind, FraudRequest(event, p.operation, rest),
                    RaiseLines(s, Merchant, Consumed, p.region, rest));
      if r.Rejected? {
      } else if r.receipt.duplicate {
      } else {
        FraudRaises(s, event, payment, rest, r.ledger, r.receipt);
      }
    }
  }

  lemma SettleSame(s: State, event: string)
    requires event in s.verdicts
    ensures Settle(s, event).regions == s.regions
  {
  }

  lemma JudgeOneSame(s: State, event: string)
    requires event in s.verdicts
    ensures SameEpochs(s.regions, JudgeOne(s, event).0.regions)
  {
    hide ReverseRest, HasQuorum, Sum3, Sub, SameEpochs, Settle;
    SameSelf(s.regions);
    SettleSame(s, event);
    var v := s.verdicts[event];
    if !v.fraudulent {
    } else if !HasQuorum(s) {
    } else if v.payment !in s.payments {
    } else {
      var p := s.payments[v.payment];
      var rest := Sub(p.captured, Sum3(p.refunded, p.reversed, p.chargedBack).GetOr(0));
      if rest.None? || rest.value < 0 {
      } else if rest.value == 0 {
      } else {
        ReverseRestSame(s, event, v.payment, rest.value);
      }
    }
  }

  lemma {:induction false} JudgeEachSame(s: State, events: seq<string>, k: nat)
    requires k <= |events| && forall i | 0 <= i < |events| :: events[i] in s.verdicts
    ensures SameEpochs(s.regions, JudgeEach(s, events, k).0.regions)
  {
    hide JudgeOne, SameEpochs;
    if k == 0 {
      SameSelf(s.regions);
    } else {
      JudgeEachSame(s, events, k - 1);
      var before := JudgeEach(s, events, k - 1).0;
      JudgeOneSame(before, events[k - 1]);
      SameOn(s.regions, before.regions, JudgeOne(before, events[k - 1]).0.regions);
    }
  }

  lemma DispatchSame(s: State, ids: seq<MessageId>)
    requires forall i | 0 <= i < |ids| :: ids[i] in s.outbox
    ensures Dispatch(s, ids).0.regions == s.regions
  {
    hide SendEach, Attempted;
  }

  lemma DeliverSame(s: State)
    ensures SameEpochs(s.regions, Deliver(s).0.regions)
  {
    hide DeliverEach, SameEpochs, Drained;
    var (net, es) := Drained(s.net);
    DeliverEachSame(s.(net := net), es, |es|);
  }

  lemma StartSagaSame(s: State, id: string, region: string, op: string, amount: int)
    ensures StartSaga(s, id, region, op, amount).0.regions == s.regions
  {
    if id == "" || op == "" || amount <= 0 {
    } else if id in s.sagas {
    } else {
    }
  }

  lemma ScheduleSame(s: State, event: string, payment: string, fraudulent: bool, delay: nat)
    ensures ScheduleVerdict(s, event, payment, fraudulent, delay).0.regions == s.regions
  {
    if event == "" || payment == "" {
    } else if payment !in s.payments {
    } else if event in s.verdicts {
    } else {
    }
  }

  lemma TicksSame(s: State, ticks: nat, events: seq<string>)
    requires forall i | 0 <= i < |events| :: events[i] in s.verdicts
    ensures SameEpochs(s.regions, AdvanceTicks(s, ticks, events).0.regions)
  {
    hide JudgeEach, SameEpochs;
    JudgeEachSame(Later(s, ticks), events, |events|);
  }

  lemma WorkSame(s: State, step: Step)
    requires Enabled(s, step) && !IsRequest(step) && !IsFault(step)
    ensures SameEpochs(s.regions, Apply(s, step).regions)
  {
    hide AdvanceSaga, Deliver, Dispatch, StartSaga, ScheduleVerdict, AdvanceTicks, SameEpochs;
    SameSelf(s.regions);
    match step
    case DispatchStep(ids) => DispatchSame(s, ids);
    case DeliverStep => DeliverSame(s);
    case StartSagaStep(id, region, op, amount) => StartSagaSame(s, id, region, op, amount);
    case AdvanceSagaStep(id) => AdvanceSagaSame(s, id);
    case ScheduleStep(event, payment, fraudulent, delay) => ScheduleSame(s, event, payment, fraudulent, delay);
    case TickStep(ticks, events) => TicksSame(s, ticks, events);
  }

  lemma RequestSame(s: State, step: Step)
    requires IsRequest(step)
    ensures SameEpochs(s.regions, Apply(s, step).regions)
  {
    hide SameEpochs, Pay, Deposit, Release, Cashback, Initiate, Consume;
    match step
    case PayStep(fence, key, op, amount) => PaySame(s, fence, key, op, amount);
    case DepositStep(fence, key, op, amount) => DepositSame(s, fence, key, op, amount);
    case ReleaseStep(fence, key, release, payment, amount, kind) =>
      ReleaseSame(s, fence, key, release, payment, amount, kind);
    case CashbackStep(fence, key, grant, op, amount, maximum) =>
      CashbackSame(s, fence, key, grant, op, amount, maximum);
    case InitiateStep(fence, id, destination, amount) => InitiateSame(s, fence, id, destination, amount);
    case ConsumeStep(c) => ConsumeSame(s, TransferMessage(c.transfer), c);
  }

  /** Only a restart of the region itself opens its next epoch. */
  lemma StepEpochs(s: State, step: Step, region: string)
    requires Enabled(s, step) && region in s.regions
    ensures region in Apply(s, step).regions
    ensures Apply(s, step).regions[region].epoch ==
            s.regions[region].epoch + if step == RestartRegionStep(region) then 1 else 0
  {
    hide Apply;
    if IsRequest(step) {
      RequestSame(s, step);
    } else if IsFault(step) {
      FaultEpochs(s, step, region);
    } else {
      WorkSame(s, step);
    }
  }

  lemma FaultEpochs(s: State, step: Step, region: string)
    requires Enabled(s, step) && IsFault(step) && region in s.regions
    ensures region in Apply(s, step).regions
    ensures Apply(s, step).regions[region].epoch ==
            s.regions[region].epoch + if step == RestartRegionStep(region) then 1 else 0
  {
    hide CrashRegion, RestartRegion, SetDC;
    match step
    case CrashRegionStep(r) => CrashEpochs(s, r, region);
    case RestartRegionStep(r) => RestartEpochs(s, r, region);
    case DataCentreStep(dc, healthy) => SetDCSame(s, dc, healthy);
    case _ => SwitchSame(s, step);
  }

  lemma SwitchSame(s: State, step: Step)
    requires Enabled(s, step) && (step.FaultStep? || step.CoordinatorStep? || step.NetworkStep?)
    ensures Apply(s, step).regions == s.regions
  {
  }

  lemma CrashEpochs(s: State, r: string, region: string)
    requires region in s.regions
    ensures region in CrashRegion(s, r).regions && CrashRegion(s, r).regions[region].epoch == s.regions[region].epoch
  {
    if r in s.regions {
    } else {
    }
  }

  lemma RestartEpochs(s: State, r: string, region: string)
    requires region in s.regions
    ensures region in RestartRegion(s, r).regions
    ensures RestartRegion(s, r).regions[region].epoch == s.regions[region].epoch + if r == region then 1 else 0
  {
    if r in s.regions {
    } else {
    }
  }

  lemma SetDCSame(s: State, dc: string, healthy: bool)
    ensures SetDC(s, dc, healthy).regions == s.regions
  {
    if dc in s.dcHealthy {
    } else {
    }
  }

  /** How often a region restarts between two points of a run. */
  function Restarts(steps: seq<Step>, i: nat, j: nat, region: string): nat
    requires i <= j <= |steps|
    decreases j
  {
    if i == j then 0
    else Restarts(steps, i, j - 1, region) + if steps[j - 1] == RestartRegionStep(region) then 1 else 0
  }

  lemma {:induction false} EpochsCountRestarts(states: seq<State>, steps: seq<Step>, i: nat, j: nat, region: string)
    requires IsRun(states, steps) && i <= j <= |steps| && region in states[i].regions
    ensures region in states[j].regions
    ensures states[j].regions[region].epoch == states[i].regions[region].epoch + Restarts(steps, i, j, region)
    decreases j
  {
    hide Apply, Enabled;
    if i < j {
      EpochsCountRestarts(states, steps, i, j - 1, region);
      StepEpochs(states[j - 1], steps[j - 1], region);
    }
  }

  lemma {:induction false} SomeRestart(steps: seq<Step>, i: nat, k: nat, j: nat, region: string)
    requires i <= k < j <= |steps| && steps[k] == RestartRegionStep(region)
    ensures Restarts(steps, i, j, region) > 0
    decreases j
  {
    if k < j - 1 {
      SomeRestart(steps, i, k, j - 1, region);
    }
  }

  /** A fence read before a restart of its region is worth nothing in any later state. */
  lemma StaleFenceChangesNothing(states: seq<State>, steps: seq<Step>, i: nat, k: nat, j: nat, step: Step)
    requires IsRun(states, steps) && i <= k < j <= |steps| && IsFenced(step)
    requires var fence := step.fence;
             && fence.region in states[i].regions && fence.epoch == states[i].regions[fence.region].epoch
             && steps[k] == RestartRegionStep(fence.region)
    ensures Enabled(states[j], step) && Apply(states[j], step) == states[j]
    ensures step.fence.region in states[j].regions
    ensures ErrorOf(states[j], step) ==
            Some(if states[j].regions[step.fence.region].running then ErrStaleEpoch else ErrRegionDown)
  {
    hide Apply, Enabled, ErrorOf;
    var region := step.fence.region;
    EpochsCountRestarts(states, steps, i, j, region);
    SomeRestart(steps, i, k, j, region);
    BarredWriterChangesNothing(states[j], step,
                               if states[j].regions[region].running then ErrStaleEpoch else ErrRegionDown);
  }
}
