/** Dispatch, delivery, acknowledgement and sagas keep the invariant. */
module Delivery {
  import opened Amounts
  import opened Totals
  import opened Names
  import opened Journal
  import opened Network
  import opened Protocol
  import opened Invariants
  import opened Preservation

  // ----- what consumption and acknowledgement do to the transfers ----------------

  /** A crash of the consumer changes neither the transfers nor what is queued or waiting. */
  lemma FinishConsumeFrame(s: State, m: MessageId, region: string, receipt: Receipt, duplicate: bool)
    requires region in s.regions
    ensures var after := FinishConsume(s, m, region, receipt, duplicate).0;
            && after.transfers == s.transfers && after.net.queue == s.net.queue && after.outbox == s.outbox
            && after.inbox == s.inbox && after.ledger == s.ledger
  {
    hide Spend, Pending;
    if Pending(s.faults.consumerCrash, m) {
    } else {
    }
  }

  lemma AfterConsumeEvolves(s: State, m: MessageId, c: Certificate, ledger: Ledger, receipt: Receipt)
    requires c.destination in s.regions && c.transfer in s.transfers
    ensures var after := AfterConsume(s, m, c, ledger, receipt);
            && Evolves(s.transfers, after.transfers) && after.transfers.Keys == s.transfers.Keys
            && after.transfers[c.transfer].consumed
            && after.net == s.net && after.outbox == s.outbox && c.destination in after.regions
  {
  }

  lemma ConsumeAgainEvolves(s: State, m: MessageId, c: Certificate)
    requires m in s.inbox && c.destination in s.regions && c.transfer in s.transfers
    ensures var after := ConsumeAgain(s, m, c).0;
            after.transfers == s.transfers && after.net.queue == s.net.queue && after.outbox == s.outbox
    ensures ConsumeAgain(s, m, c).1.error.None? ==> s.inbox[m].payload == CertificatePayload(c)
  {
    hide FinishConsume;
    if s.inbox[m].payload == CertificatePayload(c) {
      FinishConsumeFrame(s.(inbox := s.inbox[m := s.inbox[m].(duplicates := s.inbox[m].duplicates + 1)]),
                         m, c.destination, s.transfers[c.transfer].receipt.(duplicate := true), true);
    } else {
    }
  }

  lemma ConsumeNewEvolves(s: State, m: MessageId, c: Certificate)
    requires c.destination in s.regions && c.transfer in s.transfers
    ensures var after := ConsumeNew(s, m, c).0;
            && Evolves(s.transfers, after.transfers) && after.transfers.Keys == s.transfers.Keys
            && after.net.queue == s.net.queue && after.outbox == s.outbox
    ensures ConsumeNew(s, m, c).1.error.None? ==> ConsumeNew(s, m, c).0.transfers[c.transfer].consumed
  {
    hide Post, InLines, FinishConsume, AfterConsume, Add;
    var posted := Post(s.ledger, TransferInEffect(c.transfer), TransferInKind, TransferInRequest(c.transfer, c.proof),
                       InLines(s, c.destination, c.amount));
    if s.transfers[c.transfer].consumed || !s.transfers[c.transfer].inTransit {
    } else if Add(s.regions[c.destination].rights, c.amount).None? {
    } else if posted.Posted? {
      AfterConsumeEvolves(s, m, c, posted.ledger, posted.receipt);
      FinishConsumeFrame(AfterConsume(s, m, c, posted.ledger, posted.receipt), m, c.destination, posted.receipt, false);
    } else {
    }
  }

  /** Consumption touches one transfer, queues nothing, and leaves the outbox alone. */
  lemma ConsumeEvolves(s: State, m: MessageId, c: Certificate)
    ensures var after := Consume(s, m, c).0;
            && Evolves(s.transfers, after.transfers) && after.transfers.Keys == s.transfers.Keys
            && after.net.queue == s.net.queue && after.outbox == s.outbox
    ensures Consume(s, m, c).1.error.None? ==>
              && ConsumeRefusal(s, c).None? && c.transfer in s.transfers && s.transfers[c.transfer].certificate == c
              && (if m in s.inbox then s.inbox[m].payload == CertificatePayload(c)
                  else Consume(s, m, c).0.transfers[c.transfer].consumed)
  {
    hide ConsumeRefusal, ConsumeAgain, ConsumeNew;
    if ConsumeRefusal(s, c).Some? {
    } else {
      ConsumableHere(s, c);
      if m in s.inbox {
        ConsumeAgainEvolves(s, m, c);
      } else {
        ConsumeNewEvolves(s, m, c);
      }
    }
  }

  /** A successful consumption leaves its transfer consumed. */
  lemma ConsumeSucceeds(s: State, c: Certificate)
    requires Inv(s) && Consume(s, TransferMessage(c.transfer), c).1.error.None?
    ensures c.transfer in s.transfers && s.transfers[c.transfer].certificate == c
    ensures c.transfer in Consume(s, TransferMessage(c.transfer), c).0.transfers
    ensures Consume(s, TransferMessage(c.transfer), c).0.transfers[c.transfer].consumed
  {
    hide Inv, Consume, ConsumeRefusal;
    InboxConsumedOnly(s, c.transfer);
    ConsumeEvolves(s, TransferMessage(c.transfer), c);
  }

  lemma InboxConsumedOnly(s: State, id: string)
    requires Inv(s)
    ensures TransferMessage(id) in s.inbox <==> id in s.transfers && s.transfers[id].consumed
    ensures TransferMessage(id) in s.inbox ==>
              s.inbox[TransferMessage(id)].payload == CertificatePayload(s.transfers[id].certificate)
  {
    hide LedgerOk, EffectsLinked, PaymentsOk, TransfersOk, OutboxOk, SagasOk, AllHonest, RegionsOk, AnswersProven,
         MoneyOk, AuthorityOk, VerdictsOk, CashbackOk, Total;
  }

  lemma AckOutbox(outbox: map<MessageId, OutboxRecord>, transfers: map<string, Transfer>, commits: nat, id: string)
    requires OutboxOk(outbox, transfers, commits) && id in transfers && TransferMessage(id) in outbox
    ensures var m, t := TransferMessage(id), transfers[id].(acknowledged := true);
            OutboxOk(outbox[m := outbox[m].(acknowledged := true)], transfers[id := t], commits)
  {
    hide OutboxRecordOk;
    var m, t := TransferMessage(id), transfers[id].(acknowledged := true);
    var acked := outbox[m := outbox[m].(acknowledged := true)];
    forall k | k in acked ensures OutboxRecordOk(k, acked[k], transfers[id := t], commits) {
      AckRecord(k, outbox[k], transfers, commits, id);
    }
  }

  lemma AckRecord(k: MessageId, r: OutboxRecord, transfers: map<string, Transfer>, commits: nat, id: string)
    requires OutboxRecordOk(k, r, transfers, commits) && id in transfers
    ensures var t := transfers[id].(acknowledged := true);
            OutboxRecordOk(k, if k == TransferMessage(id) then r.(acknowledged := true) else r, transfers[id := t],
                           commits)
  {
  }

  lemma AckInbox(inbox: map<MessageId, InboxRecord>, transfers: map<string, Transfer>, id: string)
    requires InboxOk(inbox, transfers) && id in transfers
    ensures var t := transfers[id].(acknowledged := true);
            InboxOk(inbox, transfers[id := t]) && Evolves(transfers, transfers[id := t])
  {
  }

  lemma AcceptAckKeeps(s: State, e: Envelope)
    requires Inv(s)
    ensures Inv(AcceptAck(s, e).0)
    ensures Evolves(s.transfers, AcceptAck(s, e).0.transfers)
  {
    hide LedgerOk, EffectsLinked, PaymentsOk, TransfersOk, OutboxOk, InboxOk, SagasOk, AllHonest, RegionsOk,
         AnswersProven, MoneyOk, AuthorityOk, VerdictsOk, CashbackOk, Total;
    if AckAccepted(s, e) {
      var id := e.correlation.transfer;
      var t := s.transfers[id].(acknowledged := true);
      AckOutbox(s.outbox, s.transfers, |s.ledger.journal|, id);
      AckInbox(s.inbox, s.transfers, id);
      StoredTransfer(s, id);
      NewTransferOk(s.key, s.asset, s.regions, s.transfers, id, t);
      LinkAck(s.ledger.effects, s.payments, s.transfers, s.verdicts, id, t);
      TransitUpdate(s.transfers, id, t);
      HonestEvolves(s.net.queue, s.transfers, s.transfers[id := t]);
    }
  }

  lemma LinkAck(effects: map<EffectId, Effect>, payments: map<string, Payment>, transfers: map<string, Transfer>,
                verdicts: map<string, Verdict>, id: string, t: Transfer)
    requires EffectsLinked(effects, payments, transfers, verdicts) && id in transfers
             && t.consumed == transfers[id].consumed
    ensures EffectsLinked(effects, payments, transfers[id := t], verdicts)
  {
  }

  // ----- envelopes ------------------------------------------------------------------

  lemma HonestCopies(net: Net, e: Envelope, transfers: map<string, Transfer>)
    requires AllHonest(net.queue, transfers) && Honest(e, transfers)
    ensures AllHonest(Sent(net, e).0.queue, transfers)
  {
    hide Sent;
    SentAppends(net, e);
    var queue := Sent(net, e).0.queue;
    forall i | 0 <= i < |queue| ensures Honest(queue[i], transfers) {
      if i < |net.queue| {
        assert queue[i] == net.queue[i];
      } else {
        assert SameMessage(queue[i], e);
      }
    }
  }

  lemma NetKeeps(s: State, net: Net)
    requires Inv(s) && AllHonest(net.queue, s.transfers)
    ensures Inv(s.(net := net))
  {
    hide LedgerOk, EffectsLinked, PaymentsOk, TransfersOk, OutboxOk, InboxOk, SagasOk, AllHonest, RegionsOk,
         AnswersProven, MoneyOk, AuthorityOk, VerdictsOk, CashbackOk, Total;
  }

  lemma InvQueue(s: State)
    requires Inv(s)
    ensures AllHonest(s.net.queue, s.transfers)
  {
    hide LedgerOk, EffectsLinked, PaymentsOk, TransfersOk, OutboxOk, InboxOk, SagasOk, AllHonest, RegionsOk,
         AnswersProven, MoneyOk, AuthorityOk, VerdictsOk, CashbackOk, Total;
  }

  lemma DeliverOneKeeps(s: State, e: Envelope)
    requires Inv(s) && Honest(e, s.transfers)
    ensures Inv(DeliverOne(s, e).0) && Evolves(s.transfers, DeliverOne(s, e).0.transfers)
  {
    match e.kind
    case Command =>
      CertificateNames(s, e.id.transfer);
      DeliverCommandKeeps(s, e);
    case Ack =>
      AcceptAckKeeps(s, e);
    case Event => assert false;
    case Response => assert false;
  }

  lemma CertificateNames(s: State, id: string)
    requires Inv(s) && id in s.transfers
    ensures s.transfers[id].certificate.transfer == id
  {
    hide LedgerOk, EffectsLinked, PaymentsOk, TransfersOk, OutboxOk, InboxOk, SagasOk, AllHonest, RegionsOk,
         AnswersProven, MoneyOk, AuthorityOk, VerdictsOk, CashbackOk, Total;
    StoredTransfer(s, id);
  }

  lemma DeliverCommandKeeps(s: State, e: Envelope)
    requires Inv(s) && e.kind == Command && Honest(e, s.transfers)
    requires e.payload.certificate.transfer == e.id.transfer
    ensures Inv(DeliverOne(s, e).0) && Evolves(s.transfers, DeliverOne(s, e).0.transfers)
  {
    hide Inv, Consume, Sent, Evolves;
    var c := e.payload.certificate;
    var (after, reply) := Consume(s, e.id, c);
    ConsumeKeeps(s, c);
    ConsumeEvolves(s, e.id, c);
    if reply.error.None? {
      ConsumeSucceeds(s, c);
      EvolvesCertificate(s.transfers, after.transfers, c.transfer);
      InvQueue(after);
      HonestCopies(after.net, AckFor(e.id, c), after.transfers);
      NetKeeps(after, Sent(after.net, AckFor(e.id, c)).0);
    }
  }

  lemma EvolvesCertificate(before: map<string, Transfer>, after: map<string, Transfer>, id: string)
    requires Evolves(before, after) && id in before
    ensures id in after && after[id].certificate == before[id].certificate
  {
  }

  lemma EvolvesOn(a: map<string, Transfer>, b: map<string, Transfer>, c: map<string, Transfer>)
    requires Evolves(a, b) && Evolves(b, c)
    ensures Evolves(a, c)
  {
  }

  /** Delivering any honest envelopes, in any order, keeps the invariant. */
  lemma {:induction false} DeliverEachKeeps(s: State, es: seq<Envelope>, k: nat)
    requires Inv(s) && k <= |es| && AllHonest(es, s.transfers)
    ensures Inv(DeliverEach(s, es, k).0) && Evolves(s.transfers, DeliverEach(s, es, k).0.transfers)
  {
    hide Inv, DeliverOne;
    if k > 0 {
      DeliverEachKeeps(s, es, k - 1);
      var before := DeliverEach(s, es, k - 1).0;
      HonestEvolves(es, s.transfers, before.transfers);
      DeliverOneKeeps(before, es[k - 1]);
      EvolvesOn(s.transfers, before.transfers, DeliverOne(before, es[k - 1]).0.transfers);
    }
  }

  lemma HonestParts(n: Net, transfers: map<string, Transfer>)
    requires AllHonest(n.queue, transfers)
    ensures AllHonest(Drained(n).0.queue, transfers) && AllHonest(Drained(n).1, transfers)
  {
    hide Drained, Cut, Honest;
    DrainPartitions(n);
    var kept, out := Drained(n).0.queue, Drained(n).1;
    forall i | 0 <= i < |kept| ensures Honest(kept[i], transfers) { assert kept[i] in n.queue; }
    forall i | 0 <= i < |out| ensures Honest(out[i], transfers) { assert out[i] in n.queue; }
  }

  lemma DeliverKeeps(s: State)
    requires Inv(s)
    ensures Inv(Deliver(s).0)
  {
    hide Inv, Drained, DeliverEach;
    var (net, es) := Drained(s.net);
    InvQueue(s);
    HonestParts(s.net, s.transfers);
    NetKeeps(s, net);
    DeliverEachKeeps(s.(net := net), es, |es|);
  }

  lemma {:induction false} SendEachKeeps(s: State, ids: seq<MessageId>, k: nat)
    requires Inv(s) && k <= |ids|
    requires forall i | 0 <= i < |ids| :: ids[i] in s.outbox && ids[i].TransferMessage?
    ensures AllHonest(SendEach(s.net, s.outbox, ids, k).0.queue, s.transfers)
  {
    hide Inv, Sent;
    if k == 0 {
      InvQueue(s);
    } else {
      SendEachKeeps(s, ids, k - 1);
      TransferOutbox(s, ids[k - 1]);
      HonestCopies(SendEach(s.net, s.outbox, ids, k - 1).0, CommandFor(s.outbox[ids[k - 1]]), s.transfers);
    }
  }

  /** What the outbox holds for a transfer message. */
  lemma TransferOutbox(s: State, m: MessageId)
    requires Inv(s) && m in s.outbox
    ensures s.outbox[m].id == m && (Waiting(s.outbox[m]) ==> m.TransferMessage?)
    ensures m.TransferMessage? ==>
              && s.outbox[m].kind == RightsTransferEvent
              && m.transfer in s.transfers && s.outbox[m].acknowledged == s.transfers[m.transfer].acknowledged
              && var c := s.transfers[m.transfer].certificate;
              s.outbox[m].payload == CertificatePayload(c) && s.outbox[m].source == c.source
              && s.outbox[m].destination == c.destination
  {
    hide LedgerOk, EffectsLinked, PaymentsOk, TransfersOk, InboxOk, SagasOk, AllHonest, RegionsOk, AnswersProven,
         MoneyOk, AuthorityOk, VerdictsOk, CashbackOk, Total;
    assert OutboxRecordOk(m, s.outbox[m], s.transfers, |s.ledger.journal|);
  }

  lemma AttemptedOk(outbox: map<MessageId, OutboxRecord>, transfers: map<string, Transfer>, commits: nat)
    requires OutboxOk(outbox, transfers, commits)
    ensures OutboxOk(Attempted(outbox), transfers, commits)
  {
    forall m | m in outbox ensures OutboxRecordOk(m, Attempted(outbox)[m], transfers, commits) {
      assert OutboxRecordOk(m, outbox[m], transfers, commits);
    }
  }

  lemma AttemptedKeeps(s: State)
    requires Inv(s)
    ensures Inv(s.(outbox := Attempted(s.outbox)))
  {
    hide LedgerOk, EffectsLinked, PaymentsOk, TransfersOk, OutboxOk, InboxOk, SagasOk, AllHonest, RegionsOk,
         AnswersProven, MoneyOk, AuthorityOk, VerdictsOk, CashbackOk, Total, Attempted;
    AttemptedOk(s.outbox, s.transfers, |s.ledger.journal|);
  }

  lemma DispatchKeeps(s: State, ids: seq<MessageId>)
    requires Inv(s) && forall i | 0 <= i < |ids| :: ids[i] in s.outbox && Waiting(s.outbox[ids[i]])
    ensures Inv(Dispatch(s, ids).0)
  {
    hide Inv, SendEach, Attempted;
    forall i | 0 <= i < |ids| ensures ids[i] in s.outbox && ids[i].TransferMessage? {
      TransferOutbox(s, ids[i]);
    }
    SendEachKeeps(s, ids, |ids|);
    AttemptedKeeps(s);
    NetKeeps(s.(outbox := Attempted(s.outbox)), SendEach(s.net, s.outbox, ids, |ids|).0);
  }

  // ----- sagas ------------------------------------------------------------------------

  lemma SagaKeeps(s: State, id: string, g: Saga)
    requires Inv(s) && SagaOk(s.ledger.effects, id, g)
    ensures Inv(s.(sagas := s.sagas[id := g]))
  {
    hide LedgerOk, EffectsLinked, PaymentsOk, TransfersOk, OutboxOk, InboxOk, AllHonest, RegionsOk, AnswersProven,
         MoneyOk, AuthorityOk, VerdictsOk, CashbackOk, Total, SagaOk;
  }

  lemma StartSagaKeeps(s: State, id: string, region: string, op: string, amount: int)
    requires Inv(s)
    ensures Inv(StartSaga(s, id, region, op, amount).0)
  {
    hide Inv;
    if id != "" && op != "" && amount > 0 && id !in s.sagas {
      SagaKeeps(s, id, Saga(id, region, op, amount, 0, false, NO_RECEIPT));
    }
  }

  /** The answer recorded under a key with this request belongs to the payment effect of the request. */
  lemma AnsweredPayment(s: State, key: string, op: string, amount: int)
    requires Inv(s) && key in s.idempotency && s.idempotency[key].request == PaymentRequest(op, amount)
    ensures PaymentEffect(op) in s.ledger.effects
  {
    hide EffectsLinked, PaymentsOk, TransfersOk, OutboxOk, InboxOk, SagasOk, AllHonest, RegionsOk, JournalConsistent,
         BalancesExplained, EffectsProven, Receipted, MoneyOk, AuthorityOk, VerdictsOk, CashbackOk, Total;
    assert AnswerProven(s.ledger.effects, s.idempotency[key]);
  }

  lemma CrashFrame(s: State, region: string)
    requires region in s.regions
    ensures CrashNode(s, region).sagas == s.sagas && CrashNode(s, region).ledger == s.ledger
  {
  }

  lemma FinishPayFrame(s: State, region: string, key: string, receipt: Receipt)
    requires region in s.regions
    ensures FinishPay(s, region, key, receipt).0.sagas == s.sagas
            && FinishPay(s, region, key, receipt).0.ledger == s.ledger
  {
    hide Spend, Pending, CrashNode;
    CrashFrame(s.(faults := s.faults.(crashAfter := Spend(s.faults.crashAfter, key),
                                      loseResponses := Spend(s.faults.loseResponses, key))), region);
    if Pending(s.faults.crashAfter, key) {
    } else if Pending(s.faults.loseResponses, key) {
    } else {
    }
  }

  /** What a payment attempt guarantees to its saga: it touches no saga, and a reported commit is in the ledger. */
  ghost predicate PaidSoundly(s: State, r: (State, Reply), op: string) {
    && r.0.sagas == s.sagas
    && (CommittedAnyway(r.1.error) ==> PaymentEffect(op) in r.0.ledger.effects)
  }

  lemma CapturePaid(s: State, region: string, key: string, op: string, amount: int)
    requires region in s.regions
    ensures PaidSoundly(s, Capture(s, region, key, op, amount), op)
  {
    hide Post, CaptureLines, FinishPay, CommittedAnyway;
    var posted :=
      Post(s.ledger, PaymentEffect(op), CaptureKind, PaymentRequest(op, amount), CaptureLines(s, region, amount));
    PostErrors(s.ledger, PaymentEffect(op), CaptureKind, PaymentRequest(op, amount), CaptureLines(s, region, amount));
    if posted.Posted? {
      FinishPayFrame(AfterCapture(s, region, key, op, amount, posted.ledger, posted.receipt), region, key,
                     posted.receipt.(key := key));
    } else {
    }
  }

  lemma PayNewPaid(s: State, region: string, key: string, op: string, amount: int)
    requires region in s.regions
    ensures PaidSoundly(s, PayNew(s, region, key, op, amount), op)
  {
    hide Capture, Spend, Pending, CaptureRefusal;
    RefusalErrors(s, region, amount);
    if Pending(s.faults.crashBefore, key) {
    } else if CaptureRefusal(s, region, amount).Some? {
    } else {
      CapturePaid(s, region, key, op, amount);
    }
  }

  lemma AnswerAgainPaid(s: State, key: string, op: string, amount: int)
    requires Inv(s) && Known(s, key, PaymentRequest(op, amount))
    ensures PaidSoundly(s, AnswerAgain(s, key, PaymentRequest(op, amount)), op)
  {
    hide Inv;
    var request := PaymentRequest(op, amount);
    if key in s.idempotency {
      if s.idempotency[key].request == request {
        AnsweredPayment(s, key, op, amount);
      } else {
      }
    } else if s.ledger.effects[EffectOf(request)].request == request {
    } else {
    }
  }

  lemma PayAgainPaid(s: State, key: string, op: string, amount: int)
    requires Inv(s) && key in s.idempotency && s.idempotency[key].request == PaymentRequest(op, amount)
    ensures PaidSoundly(s, PayAgain(s, key), op)
  {
    hide Inv, Spend, Pending;
    AnsweredPayment(s, key, op, amount);
    if Pending(s.faults.loseResponses, key) {
    } else {
    }
  }

  /**
   * A payment that reports a commit, even a lost or crashed one, has its effect in the ledger, and pays touch no saga.
   */
  lemma PaidEffect(s: State, fence: Fence, key: string, op: string, amount: int)
    requires Inv(s)
    ensures PaidSoundly(s, Pay(s, fence, key, op, amount), op)
  {
    hide Inv, Guard, PayNew, PayAgain, AnswerAgain;
    var request := PaymentRequest(op, amount);
    GuardErrors(s, fence);
    if Guard(s, fence).Some? {
    } else if key == "" || op == "" || amount <= 0 {
    } else if key in s.idempotency && s.idempotency[key].request == request {
      PayAgainPaid(s, key, op, amount);
    } else if Known(s, key, request) {
      AnswerAgainPaid(s, key, op, amount);
    } else {
      PayNewPaid(s, fence.region, key, op, amount);
    }
  }

  lemma GuardErrors(s: State, fence: Fence)
    ensures Guard(s, fence).Some? ==> !CommittedAnyway(Guard(s, fence))
    ensures Guard(s, fence).None? ==> fence.region in s.regions
  {
    hide HasQuorum;
  }

  lemma RefusalErrors(s: State, region: string, amount: int)
    requires region in s.regions
    ensures CaptureRefusal(s, region, amount).Some? ==> !CommittedAnyway(CaptureRefusal(s, region, amount))
  {
  }

  lemma {:induction false} FirstBadErrors(balances: map<Account, int>, lines: seq<Line>, n: nat)
    requires n <= |lines|
    ensures var e := FirstBad(balances, lines, n);
            e.None? || e.value == ErrInvalidPosting || e.value == ErrAmountOverflow
  {
    hide LineFits;
    if n > 0 {
      FirstBadErrors(balances, lines, n - 1);
    }
  }

  lemma PostErrors(l: Ledger, effect: EffectId, kind: Kind, request: Fingerprint, lines: seq<Line>)
    ensures match Post(l, effect, kind, request, lines)
            case Rejected(e) => !CommittedAnyway(Some(e))
            case Posted(ledger, receipt) => effect in ledger.effects
  {
    hide FirstBad, Balanced, Moved;
    FirstBadErrors(l.balances, lines, |lines|);
  }

  lemma SagaPayKeeps(s: State, g: Saga)
    requires Inv(s)
    ensures var (after, reply) := SagaPay(s, g);
            && Inv(after) && after.sagas == s.sagas
            && (CommittedAnyway(reply.error) ==> PaymentEffect(g.operation) in after.ledger.effects)
  {
    hide Inv, Pay, SagaKey;
    if g.region in s.regions && s.regions[g.region].running {
      PayKeeps(s, Fence(g.region, s.regions[g.region].epoch), SagaKey(g.id), g.operation, g.amount);
      PaidEffect(s, Fence(g.region, s.regions[g.region].epoch), SagaKey(g.id), g.operation, g.amount);
    }
  }

  lemma SagaStored(s: State, id: string)
    requires Inv(s) && id in s.sagas
    ensures SagaOk(s.ledger.effects, id, s.sagas[id])
  {
    hide LedgerOk, EffectsLinked, PaymentsOk, TransfersOk, OutboxOk, InboxOk, AllHonest, RegionsOk, AnswersProven,
         MoneyOk, AuthorityOk, VerdictsOk, CashbackOk, Total, SagaOk;
  }

  lemma AdvanceSagaKeeps(s: State, id: string)
    requires Inv(s)
    ensures Inv(AdvanceSaga(s, id).0)
  {
    hide Inv, SagaPay, Spend, Pending;
    if s.coordinatorRunning && id in s.sagas {
      var g := s.sagas[id];
      SagaStored(s, id);
      if g.nextStep == 0 {
        SagaPayKeeps(s, g);
        var (paid, reply) := SagaPay(s, g);
        if CommittedAnyway(reply.error) {
          if Pending(paid.faults.coordinatorCrash, id) {
            Unread(paid, AdvanceSaga(s, id).0);
          } else {
            SagaKeeps(paid, id, g.(receipt := reply.receipt, nextStep := 1));
          }
        }
      } else if g.nextStep == 1 {
        SagaKeeps(s, id, g.(nextStep := 2, completed := true));
      }
    }
  }

  // ----- consumption under a foreign message -------------------------------------------

  lemma NewInbox(s: State, m: MessageId, c: Certificate)
    requires c.destination in s.regions && c.transfer in s.transfers && ConsumeNew(s, m, c).1.error.None?
    ensures !s.transfers[c.transfer].consumed
    ensures forall k | k in ConsumeNew(s, m, c).0.inbox :: k == m || k in s.inbox
  {
    hide Post, InLines, FinishConsume, Add;
    var posted := Post(s.ledger, TransferInEffect(c.transfer), TransferInKind, TransferInRequest(c.transfer, c.proof),
                       InLines(s, c.destination, c.amount));
    if s.transfers[c.transfer].consumed || !s.transfers[c.transfer].inTransit {
    } else if Add(s.regions[c.destination].rights, c.amount).None? {
    } else if posted.Posted? {
      FinishConsumeFrame(AfterConsume(s, m, c, posted.ledger, posted.receipt), m, c.destination, posted.receipt, false);
    } else {
    }
  }

  /**
    A first consumption passes the audit exactly when it arrives under the message that carries the transfer: the audit
    looks for the inbox record under that name. The network is exported, so nothing else enforces it.
   */
  lemma AuditedUnderItsOwnMessage(s: State, m: MessageId, c: Certificate)
    requires Inv(s) && m !in s.inbox && Consume(s, m, c).1.error.None?
    ensures FinancialInvariants(Consume(s, m, c).0) <==> m == TransferMessage(c.transfer)
  {
    hide Inv, ConsumeNew, ConsumeRefusal, JournalConsistent, BalancesExplained, EffectsProven, AnswersProven,
         AvailableMatches, RightsMatch, RightsConserved, PaymentsBounded, CashbackBounded, OutboxLinked, InboxLinked,
         SagasSound, EffectCount, Verified;
    ConsumeEvolves(s, m, c);
    ConsumableHere(s, c);
    if m == TransferMessage(c.transfer) {
      ConsumeKeeps(s, c);
      InvPassesAudit(Consume(s, m, c).0);
    } else {
      NewInbox(s, m, c);
      InboxConsumedOnly(s, c.transfer);
      assert !TransferSound(Consume(s, m, c).0, c.transfer);
    }
  }
}
