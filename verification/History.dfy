/** What no step ever takes back: the journal, effect receipts, durable answers and consumed transfers only grow. */
module History {
  import opened Amounts
  import opened Names
  import opened Journal
  import opened Network
  import opened Protocol
  import opened Invariants
  import opened Preservation
  import opened Delivery

  ghost predicate LedgerExtends(l: Ledger, l': Ledger) {
    && l.journal <= l'.journal
    && (forall e | e in l.effects :: e in l'.effects && l'.effects[e] == l.effects[e])
  }

  ghost predicate AnswersExtend(a: map<string, Answered>, a': map<string, Answered>) {
    forall k | k in a :: k in a' && a'[k] == a[k]
  }

  ghost predicate Extends(s: State, s': State) {
    && LedgerExtends(s.ledger, s'.ledger)
    && AnswersExtend(s.idempotency, s'.idempotency)
    && Evolves(s.transfers, s'.transfers)
  }

  lemma ExtendsOn(a: State, b: State, c: State)
    requires Extends(a, b) && Extends(b, c)
    ensures Extends(a, c)
  {
  }

  predicate Untouched(s: State, s': State) {
    s'.ledger == s.ledger && s'.idempotency == s.idempotency && s'.transfers == s.transfers
  }

  lemma UntouchedExtends(s: State, s': State)
    requires Untouched(s, s')
    ensures Extends(s, s')
  {
  }

  /** A reply that reports a commit carries the receipt of the effect its request determines. */
  ghost predicate Truthful(r: (State, Reply), request: Fingerprint) {
    CommittedAnyway(r.1.error) ==>
      && EffectOf(request) in r.0.ledger.effects
      && var effect := r.0.ledger.effects[EffectOf(request)];
      && effect.request == request && SameReceipt(effect.receipt, r.1.receipt)
  }

  /** Receipts of the same commit, whatever key asked for it and however often. */
  predicate SameReceipt(a: Receipt, b: Receipt) {
    a.effect == b.effect && a.tx == b.tx && a.commit == b.commit
  }

  /** An answer that is truthful and takes nothing back. */
  ghost predicate Sound(s: State, r: (State, Reply), request: Fingerprint) {
    Extends(s, r.0) && Truthful(r, request)
  }

  lemma RefusedSound(s: State, e: Error, request: Fingerprint)
    requires !CommittedAnyway(Some(e))
    ensures Sound(s, (s, Failed(e)), request)
  {
  }

  lemma FailedSound(s: State, s': State, e: Error, request: Fingerprint)
    requires Untouched(s, s') && !CommittedAnyway(Some(e))
    ensures Sound(s, (s', Failed(e)), request)
  {
  }

  // ----- posting -----------------------------------------------------------------

  lemma PostExtends(l: Ledger, effect: EffectId, kind: Kind, request: Fingerprint, lines: seq<Line>)
    ensures match Post(l, effect, kind, request, lines)
            case Rejected(e) => !CommittedAnyway(Some(e))
            case Posted(ledger, receipt) =>
              && LedgerExtends(l, ledger) && effect in ledger.effects && ledger.effects[effect].request == request
              && SameReceipt(ledger.effects[effect].receipt, receipt)
  {
    hide FirstBad, Balanced, Committed;
    FirstBadErrors(l.balances, lines, |lines|);
    CommittedExtends(l, effect, kind, request, lines);
    if effect == NoEffect || |lines| < 2 {
    } else if effect in l.effects {
      if l.effects[effect].request == request {
      } else {
      }
    } else if FirstBad(l.balances, lines, |lines|).Some? {
    } else if !Balanced(lines) {
    } else {
    }
  }

  lemma CommittedExtends(l: Ledger, effect: EffectId, kind: Kind, request: Fingerprint, lines: seq<Line>)
    ensures var l' := Committed(l, effect, kind, request, lines);
            && l.journal <= l'.journal && l'.effects == l.effects[effect := Effect(request, CommitReceipt(l, effect))]
  {
  }

  // ----- replays --------------------------------------------------------------------

  lemma AnswerTruthful(s: State, key: string, request: Fingerprint)
    requires Inv(s) && key in s.idempotency && s.idempotency[key].request == request
    ensures EffectOf(request) in s.ledger.effects && s.ledger.effects[EffectOf(request)].request == request
    ensures SameReceipt(s.ledger.effects[EffectOf(request)].receipt, s.idempotency[key].receipt)
  {
    hide EffectsLinked, PaymentsOk, TransfersOk, OutboxOk, InboxOk, SagasOk, AllHonest, RegionsOk, JournalConsistent,
         BalancesExplained, Receipted, MoneyOk, AuthorityOk, VerdictsOk, CashbackOk;
    assert AnswerProven(s.ledger.effects, s.idempotency[key]);
    assert Proven(s.ledger.journal, s.idempotency[key].receipt.effect,
                  s.ledger.effects[s.idempotency[key].receipt.effect]);
  }

  lemma AnswerAgainSound(s: State, key: string, request: Fingerprint)
    requires Inv(s) && Known(s, key, request)
    ensures Sound(s, AnswerAgain(s, key, request), request)
    ensures AnswerAgain(s, key, request).0.ledger == s.ledger
  {
    hide Inv;
    if key in s.idempotency {
      if s.idempotency[key].request == request {
        AnswerTruthful(s, key, request);
      } else {
      }
    } else if s.ledger.effects[EffectOf(request)].request == request {
    } else {
    }
  }

  lemma PayAgainSound(s: State, key: string, request: Fingerprint)
    requires Inv(s) && key in s.idempotency && s.idempotency[key].request == request
    ensures Sound(s, PayAgain(s, key), request) && PayAgain(s, key).0.ledger == s.ledger
    ensures CommittedAnyway(PayAgain(s, key).1.error)
  {
    hide Inv, Spend, Pending;
    AnswerTruthful(s, key, request);
    if Pending(s.faults.loseResponses, key) {
    } else {
    }
  }

  // ----- payments -------------------------------------------------------------------

  lemma CrashUntouched(s: State, region: string)
    requires region in s.regions
    ensures Untouched(s, CrashNode(s, region))
  {
  }

  lemma FinishPayUntouched(s: State, region: string, key: string, receipt: Receipt)
    requires region in s.regions
    ensures Untouched(s, FinishPay(s, region, key, receipt).0)
            && FinishPay(s, region, key, receipt).1.receipt == receipt
  {
    hide Spend, Pending, CrashNode;
    CrashUntouched(s.(faults := s.faults.(crashAfter := Spend(s.faults.crashAfter, key),
                                          loseResponses := Spend(s.faults.loseResponses, key))), region);
    if Pending(s.faults.crashAfter, key) {
    } else if Pending(s.faults.loseResponses, key) {
    } else {
    }
  }

  lemma CaptureSound(s: State, region: string, key: string, op: string, amount: int)
    requires region in s.regions && key !in s.idempotency
    ensures Sound(s, Capture(s, region, key, op, amount), PaymentRequest(op, amount))
  {
    hide Post, CaptureLines, FinishPay, CommittedAnyway, AfterCapture, LedgerExtends;
    var request, lines := PaymentRequest(op, amount), CaptureLines(s, region, amount);
    var posted := Post(s.ledger, PaymentEffect(op), CaptureKind, request, lines);
    PostExtends(s.ledger, PaymentEffect(op), CaptureKind, request, lines);
    if posted.Posted? {
      var after := AfterCapture(s, region, key, op, amount, posted.ledger, posted.receipt);
      CaptureFields(s, region, key, op, amount, posted.ledger, posted.receipt);
      FinishPayUntouched(after, region, key, posted.receipt.(key := key));
    } else {
      RefusedSound(s, posted.error, request);
    }
  }

  lemma PayNewSound(s: State, region: string, key: string, op: string, amount: int)
    requires region in s.regions && key !in s.idempotency
    ensures Sound(s, PayNew(s, region, key, op, amount), PaymentRequest(op, amount))
  {
    hide Capture, Spend, Pending, CaptureRefusal, CrashNode, Sound;
    RefusalErrors(s, region, amount);
    if Pending(s.faults.crashBefore, key) {
      var before := s.(faults := s.faults.(crashBefore := Spend(s.faults.crashBefore, key)));
      CrashUntouched(before, region);
      FailedSound(s, CrashNode(before, region), ErrCrashBeforeCommit, PaymentRequest(op, amount));
    } else if CaptureRefusal(s, region, amount).Some? {
      RefusedSound(s, CaptureRefusal(s, region, amount).value, PaymentRequest(op, amount));
    } else {
      CaptureSound(s, region, key, op, amount);
    }
  }

  lemma PaySound(s: State, fence: Fence, key: string, op: string, amount: int)
    requires Inv(s)
    ensures Sound(s, Pay(s, fence, key, op, amount), PaymentRequest(op, amount))
  {
    hide Inv, Guard, PayNew, PayAgain, AnswerAgain, Sound;
    var request := PaymentRequest(op, amount);
    GuardErrors(s, fence);
    if Guard(s, fence).Some? {
      RefusedSound(s, Guard(s, fence).value, request);
    } else if key == "" || op == "" || amount <= 0 {
      RefusedSound(s, ErrInvalidPosting, request);
    } else if key in s.idempotency && s.idempotency[key].request == request {
      PayAgainSound(s, key, request);
    } else if Known(s, key, request) {
      AnswerAgainSound(s, key, request);
    } else {
      PayNewSound(s, fence.region, key, op, amount);
    }
  }

  // ----- deposits, releases, cashback --------------------------------------------------

  lemma DepositNewSound(s: State, region: string, key: string, op: string, amount: int)
    requires region in s.regions && key !in s.idempotency
    ensures Sound(s, DepositNew(s, region, key, op, amount), DepositRequest(op, amount))
  {
    hide Post, RaiseLines, RaiseOverflows, AfterDeposit, LedgerExtends;
    var request, lines := DepositRequest(op, amount), RaiseLines(s, Funding, Issuer, region, amount);
    var posted := Post(s.ledger, DepositEffect(op), DepositKind, request, lines);
    PostExtends(s.ledger, DepositEffect(op), DepositKind, request, lines);
    if RaiseOverflows(s, region, amount) {
      RefusedSound(s, ErrAmountOverflow, request);
    } else if posted.Posted? {
      DepositRaises(s, region, key, op, amount, posted.ledger, posted.receipt);
    } else {
      RefusedSound(s, posted.error, request);
    }
  }

  lemma DepositSound(s: State, fence: Fence, key: string, op: string, amount: int)
    requires Inv(s)
    ensures Sound(s, Deposit(s, fence, key, op, amount), DepositRequest(op, amount))
  {
    hide Inv, Guard, DepositNew, AnswerAgain, Sound;
    var request := DepositRequest(op, amount);
    GuardErrors(s, fence);
    if Guard(s, fence).Some? {
      RefusedSound(s, Guard(s, fence).value, request);
    } else if key == "" || op == "" || amount <= 0 {
      RefusedSound(s, ErrInvalidPosting, request);
    } else if Known(s, key, request) {
      AnswerAgainSound(s, key, request);
    } else {
      DepositNewSound(s, fence.region, key, op, amount);
    }
  }

  lemma ReleaseNewSound(s: State, region: string, key: string, release: string, payment: string, amount: int,
                        kind: ReleaseKind)
    requires region in s.regions && key !in s.idempotency
    ensures Sound(s, ReleaseNew(s, region, key, release, payment, amount, kind),
                  ReleaseRequest(kind, release, payment, amount))
  {
    hide Post, RaiseLines, RaiseOverflows, AfterRelease, LedgerExtends, ReleaseExceeds, Released;
    var request, lines :=
      ReleaseRequest(kind, release, payment, amount), RaiseLines(s, Merchant, Consumed, region, amount);
    var posted := Post(s.ledger, ReleaseEffect(kind, release), ReleaseKindOf(kind), request, lines);
    PostExtends(s.ledger, ReleaseEffect(kind, release), ReleaseKindOf(kind), request, lines);
    if payment !in s.payments {
      RefusedSound(s, ErrPaymentNotFound, request);
    } else if ReleaseExceeds(s.payments[payment], amount) {
      RefusedSound(s, ErrRefundExceeded, request);
    } else if RaiseOverflows(s, region, amount) {
      RefusedSound(s, ErrAmountOverflow, request);
    } else if posted.Posted? {
      ReleaseRaises(s, region, key, release, payment, amount, kind, posted.ledger, posted.receipt);
    } else {
      RefusedSound(s, posted.error, request);
    }
  }

  lemma ReleaseSound(s: State, fence: Fence, key: string, release: string, payment: string, amount: int,
                     kind: ReleaseKind)
    requires Inv(s)
    ensures Sound(s, Release(s, fence, key, release, payment, amount, kind),
                  ReleaseRequest(kind, release, payment, amount))
  {
    hide Inv, Guard, ReleaseNew, AnswerAgain, Sound;
    var request := ReleaseRequest(kind, release, payment, amount);
    GuardErrors(s, fence);
    if Guard(s, fence).Some? {
      RefusedSound(s, Guard(s, fence).value, request);
    } else if key == "" || release == "" || payment == "" || amount <= 0 {
      RefusedSound(s, ErrInvalidPosting, request);
    } else if Known(s, key, request) {
      AnswerAgainSound(s, key, request);
    } else {
      ReleaseNewSound(s, fence.region, key, release, payment, amount, kind);
    }
  }

  lemma CashbackNewSound(s: State, region: string, key: string, grant: string, op: string, amount: int, maximum: int)
    requires region in s.regions && key !in s.idempotency
    ensures Sound(s, CashbackNew(s, region, key, grant, op, amount, maximum),
                  CashbackRequest(grant, op, amount, maximum))
  {
    hide Post, RaiseLines, RaiseOverflows, AfterCashback, LedgerExtends, CashbackExceeds, Get;
    var request, lines :=
      CashbackRequest(grant, op, amount, maximum), RaiseLines(s, CashbackExpense, Issuer, region, amount);
    var posted := Post(s.ledger, CashbackEffect(grant), CashbackKind, request, lines);
    PostExtends(s.ledger, CashbackEffect(grant), CashbackKind, request, lines);
    if op in s.cashbackRules && s.cashbackRules[op] != maximum {
      RefusedSound(s, ErrEffectConflict, request);
    } else if CashbackExceeds(s, op, amount, maximum) {
      RefusedSound(s, ErrCashbackExceeded, request);
    } else if RaiseOverflows(s, region, amount) {
      RefusedSound(s, ErrAmountOverflow, request);
    } else if posted.Posted? {
      CashbackRaises(s, region, key, grant, op, amount, maximum, posted.ledger, posted.receipt);
    } else {
      RefusedSound(s, posted.error, request);
    }
  }

  lemma CashbackSound(s: State, fence: Fence, key: string, grant: string, op: string, amount: int, maximum: int)
    requires Inv(s)
    ensures Sound(s, Cashback(s, fence, key, grant, op, amount, maximum), CashbackRequest(grant, op, amount, maximum))
  {
    hide Inv, Guard, CashbackNew, AnswerAgain, Sound;
    var request := CashbackRequest(grant, op, amount, maximum);
    GuardErrors(s, fence);
    if Guard(s, fence).Some? {
      RefusedSound(s, Guard(s, fence).value, request);
    } else if key == "" || grant == "" || op == "" || amount <= 0 || maximum < 0 {
      RefusedSound(s, ErrInvalidPosting, request);
    } else if Known(s, key, request) {
      AnswerAgainSound(s, key, request);
    } else {
      CashbackNewSound(s, fence.region, key, grant, op, amount, maximum);
    }
  }

  // ----- transfers and delivery ----------------------------------------------------------

  lemma InitiateNewExtends(s: State, fence: Fence, id: string, destination: string, amount: int)
    requires fence.region in s.regions && id !in s.transfers
    ensures Extends(s, InitiateNew(s, fence, id, destination, amount).0)
  {
    hide Post, OutLines, Certify, AfterIssue, LedgerExtends, Sub;
    var request, lines := TransferOutRequest(id, fence.region, destination, amount), OutLines(s, fence.region, amount);
    var posted := Post(s.ledger, TransferOutEffect(id), TransferOutKind, request, lines);
    PostExtends(s.ledger, TransferOutEffect(id), TransferOutKind, request, lines);
    LedgerExtendsSelf(s.ledger);
    if s.regions[fence.region].rights < amount {
    } else if Sub(s.regions[fence.region].rights, amount).None? {
    } else if posted.Posted? {
      CertifiedFields(s, fence, id, destination, amount, posted.receipt.commit);
      IssueFields(s, Certify(s, fence, id, destination, amount, posted.receipt.commit), posted.ledger, posted.receipt);
    } else {
    }
  }

  lemma InitiateExtends(s: State, fence: Fence, id: string, destination: string, amount: int)
    ensures Extends(s, Initiate(s, fence, id, destination, amount).0)
  {
    hide Guard, InitiateNew, Extends;
    UntouchedExtends(s, s);
    if Guard(s, fence).Some? {
    } else if id == "" || destination == "" || fence.region == destination || amount <= 0 {
    } else if destination !in s.regions {
    } else if id in s.transfers {
    } else {
      RegionGuarded(s, fence);
      InitiateNewExtends(s, fence, id, destination, amount);
    }
  }

  lemma LedgerExtendsSelf(l: Ledger)
    ensures LedgerExtends(l, l)
  {
  }

  lemma FinishConsumeUntouched(s: State, m: MessageId, region: string, receipt: Receipt, duplicate: bool)
    requires region in s.regions
    ensures Untouched(s, FinishConsume(s, m, region, receipt, duplicate).0)
  {
    hide Spend, Pending, CrashNode;
    CrashUntouched(s.(faults := s.faults.(consumerCrash := Spend(s.faults.consumerCrash, m))), region);
    if Pending(s.faults.consumerCrash, m) {
    } else {
    }
  }

  lemma ConsumeAgainExtends(s: State, m: MessageId, c: Certificate)
    requires m in s.inbox && c.destination in s.regions && c.transfer in s.transfers
    ensures Extends(s, ConsumeAgain(s, m, c).0)
  {
    hide FinishConsume;
    if s.inbox[m].payload == CertificatePayload(c) {
      FinishConsumeUntouched(s.(inbox := s.inbox[m := s.inbox[m].(duplicates := s.inbox[m].duplicates + 1)]),
                             m, c.destination, s.transfers[c.transfer].receipt.(duplicate := true), true);
    } else {
    }
  }

  lemma AfterConsumeExtends(s: State, m: MessageId, c: Certificate, ledger: Ledger, receipt: Receipt)
    requires c.destination in s.regions && c.transfer in s.transfers && LedgerExtends(s.ledger, ledger)
    ensures Extends(s, AfterConsume(s, m, c, ledger, receipt))
    ensures c.destination in AfterConsume(s, m, c, ledger, receipt).regions
  {
    hide LedgerExtends;
  }

  lemma ConsumeNewExtends(s: State, m: MessageId, c: Certificate)
    requires c.destination in s.regions && c.transfer in s.transfers
    ensures Extends(s, ConsumeNew(s, m, c).0)
  {
    hide Post, InLines, FinishConsume, AfterConsume, Add, LedgerExtends;
    LedgerExtendsSelf(s.ledger);
    var request, lines := TransferInRequest(c.transfer, c.proof), InLines(s, c.destination, c.amount);
    var posted := Post(s.ledger, TransferInEffect(c.transfer), TransferInKind, request, lines);
    PostExtends(s.ledger, TransferInEffect(c.transfer), TransferInKind, request, lines);
    if s.transfers[c.transfer].consumed || !s.transfers[c.transfer].inTransit {
    } else if Add(s.regions[c.destination].rights, c.amount).None? {
    } else if posted.Posted? {
      AfterConsumeExtends(s, m, c, posted.ledger, posted.receipt);
      FinishConsumeUntouched(AfterConsume(s, m, c, posted.ledger, posted.receipt), m, c.destination, posted.receipt,
                             false);
    } else {
    }
  }

  lemma ConsumeExtends(s: State, m: MessageId, c: Certificate)
    ensures Extends(s, Consume(s, m, c).0)
  {
    hide ConsumeRefusal, ConsumeAgain, ConsumeNew, Extends;
    UntouchedExtends(s, s);
    if ConsumeRefusal(s, c).Some? {
    } else {
      ConsumableHere(s, c);
      if m in s.inbox {
        ConsumeAgainExtends(s, m, c);
      } else {
        ConsumeNewExtends(s, m, c);
      }
    }
  }

  lemma DeliverOneExtends(s: State, e: Envelope)
    ensures Extends(s, DeliverOne(s, e).0)
  {
    hide Consume, Sent, LedgerExtends;
    LedgerExtendsSelf(s.ledger);
    match e.kind
    case Command =>
      if e.payload.CertificatePayload? {
        ConsumeExtends(s, e.id, e.payload.certificate);
        if Consume(s, e.id, e.payload.certificate).1.error.Some? {
        } else {
        }
      } else {
      }
    case Ack =>
      if AckAccepted(s, e) {
      } else {
      }
    case Event =>
    case Response =>
  }

  lemma {:induction false} DeliverEachExtends(s: State, es: seq<Envelope>, k: nat)
    requires k <= |es|
    ensures Extends(s, DeliverEach(s, es, k).0)
  {
    hide Extends, DeliverOne;
    if k == 0 {
      UntouchedExtends(s, s);
    } else {
      DeliverEachExtends(s, es, k - 1);
      var before := DeliverEach(s, es, k - 1).0;
      DeliverOneExtends(before, es[k - 1]);
      ExtendsOn(s, before, DeliverOne(before, es[k - 1]).0);
    }
  }

  lemma DeliverExtends(s: State)
    ensures Extends(s, Deliver(s).0)
  {
    hide Extends, DeliverEach, Drained;
    var (net, es) := Drained(s.net);
    UntouchedExtends(s, s.(net := net));
    DeliverEachExtends(s.(net := net), es, |es|);
    ExtendsOn(s, s.(net := net), Deliver(s).0);
  }

  // ----- sagas and verdicts --------------------------------------------------------------

  lemma SagaPayExtends(s: State, g: Saga)
    requires Inv(s)
    ensures Extends(s, SagaPay(s, g).0)
  {
    hide Inv, Pay, SagaKey, Extends, Truthful;
    UntouchedExtends(s, s);
    if g.region !in s.regions || !s.regions[g.region].running {
    } else {
      PaySound(s, Fence(g.region, s.regions[g.region].epoch), SagaKey(g.id), g.operation, g.amount);
    }
  }

  lemma AdvanceSagaExtends(s: State, id: string)
    requires Inv(s)
    ensures Extends(s, AdvanceSaga(s, id).0)
  {
    hide Inv, SagaPay, Spend, Pending, LedgerExtends;
    LedgerExtendsSelf(s.ledger);
    if !s.coordinatorRunning {
    } else if id !in s.sagas {
    } else if s.sagas[id].nextStep == 0 {
      SagaPayExtends(s, s.sagas[id]);
      var (paid, reply) := SagaPay(s, s.sagas[id]);
      if !CommittedAnyway(reply.error) {
      } else if Pending(paid.faults.coordinatorCrash, id) {
      } else {
      }
    } else if s.sagas[id].nextStep == 1 {
    } else {
    }
  }

  lemma ReverseRestExtends(s: State, event: string, payment: string, rest: int)
    requires event in s.verdicts && payment in s.payments
    ensures Extends(s, ReverseRest(s, event, payment, rest).0)
  {
    hide Post, RaiseLines, RaiseOverflows, AfterFraud, LedgerExtends, Released;
    var p := s.payments[payment];
    var request, lines := FraudRequest(event, p.operation, rest), RaiseLines(s, Merchant, Consumed, p.region, rest);
    var posted := Post(s.ledger, FraudEffect(event), FraudKind, request, lines);
    LedgerExtendsSelf(s.ledger);
    PostExtends(s.ledger, FraudEffect(event), FraudKind, request, lines);
    if p.region !in s.regions {
    } else if RaiseOverflows(s, p.region, rest) {
    } else if posted.Posted? {
      if posted.receipt.duplicate {
      } else {
        FraudRaises(s, event, payment, rest, posted.ledger, posted.receipt);
      }
    } else {
    }
  }

  lemma SettleExtends(s: State, event: string)
    requires event in s.verdicts
    ensures Extends(s, Settle(s, event))
  {
    hide Extends;
    UntouchedExtends(s, Settle(s, event));
  }

  lemma JudgeOneExtends(s: State, event: string)
    requires event in s.verdicts
    ensures Extends(s, JudgeOne(s, event).0)
  {
    hide ReverseRest, HasQuorum, Sum3, Sub, Extends, Settle;
    var v := s.verdicts[event];
    UntouchedExtends(s, s);
    SettleExtends(s, event);
    if !v.fraudulent {
    } else if !HasQuorum(s) {
    } else if v.payment !in s.payments {
    } else {
      var p := s.payments[v.payment];
      var rest := Sub(p.captured, Sum3(p.refunded, p.reversed, p.chargedBack).GetOr(0));
      if rest.None? || rest.value < 0 {
      } else if rest.value == 0 {
      } else {
        ReverseRestExtends(s, event, v.payment, rest.value);
      }
    }
  }

  lemma {:induction false} JudgeEachExtends(s: State, events: seq<string>, k: nat)
    requires k <= |events| && forall i | 0 <= i < |events| :: events[i] in s.verdicts
    ensures Extends(s, JudgeEach(s, events, k).0)
  {
    hide Extends, JudgeOne;
    if k == 0 {
      UntouchedExtends(s, s);
    } else {
      JudgeEachExtends(s, events, k - 1);
      var before := JudgeEach(s, events, k - 1).0;
      JudgeOneExtends(before, events[k - 1]);
      ExtendsOn(s, before, JudgeOne(before, events[k - 1]).0);
    }
  }

  lemma AdvanceTicksExtends(s: State, ticks: nat, events: seq<string>)
    requires forall i | 0 <= i < |events| :: events[i] in s.verdicts
    ensures Extends(s, AdvanceTicks(s, ticks, events).0)
  {
    hide Extends, JudgeEach;
    UntouchedExtends(s, Later(s, ticks));
    JudgeEachExtends(Later(s, ticks), events, |events|);
    ExtendsOn(s, Later(s, ticks), AdvanceTicks(s, ticks, events).0);
  }

  // ----- steps that touch neither the ledger, the answers nor the transfers ----------------

  lemma DispatchUntouched(s: State, ids: seq<MessageId>)
    requires forall i | 0 <= i < |ids| :: ids[i] in s.outbox
    ensures Untouched(s, Dispatch(s, ids).0)
  {
    hide SendEach, Attempted;
  }

  lemma StartSagaUntouched(s: State, id: string, region: string, op: string, amount: int)
    ensures Untouched(s, StartSaga(s, id, region, op, amount).0)
  {
    if id == "" || op == "" || amount <= 0 {
    } else if id in s.sagas {
    } else {
    }
  }

  lemma ScheduleUntouched(s: State, event: string, payment: string, fraudulent: bool, delay: nat)
    ensures Untouched(s, ScheduleVerdict(s, event, payment, fraudulent, delay).0)
  {
    if event == "" || payment == "" {
    } else if payment !in s.payments {
    } else if event in s.verdicts {
    } else {
    }
  }

  lemma RegionUntouched(s: State, region: string)
    ensures Untouched(s, CrashRegion(s, region)) && Untouched(s, RestartRegion(s, region))
  {
    if region in s.regions {
    } else {
    }
  }
}
