/** Recovery: once faults are repaired, one pump round consumes and acknowledges every transfer. */
module Recovery {
  import opened Amounts
  import opened Totals
  import opened Names
  import opened Journal
  import opened Network
  import opened Protocol
  import opened Invariants
  import opened Preservation
  import opened Delivery

  /** All regions run, the quorum holds, links are healed, and no drop or crash counter is pending. */
  ghost predicate Repaired(s: State) {
    && (forall r | r in s.regions :: s.regions[r].running)
    && HasQuorum(s)
    && Clear(s.net, s.regions.Keys)
    && (forall m :: !Pending(s.faults.consumerCrash, m))
  }

  ghost predicate Clear(n: Net, nodes: set<string>) {
    && n.partitions == {} && n.down !! nodes && n.dropPercent == 0
    && (forall m :: Get(n.dropNext, m) <= 0)
  }

  /** One round of the pump: dispatch everything that waits, then deliver twice. */
  function PumpRound(s: State, ids: seq<MessageId>): State
    requires forall i | 0 <= i < |ids| :: ids[i] in s.outbox
  {
    Deliver(Deliver(Dispatch(s, ids).0).0).0
  }

  ghost predicate CommandIn(es: seq<Envelope>, id: string) {
    exists i | 0 <= i < |es| :: es[i].kind == Command && es[i].id == TransferMessage(id)
  }

  ghost predicate AckIn(es: seq<Envelope>, id: string) {
    exists i | 0 <= i < |es| :: es[i].kind == Ack && es[i].correlation == TransferMessage(id)
  }

  /** The transfer is settled, or the acknowledgement that will settle it is queued. */
  ghost predicate Answered(s: State, id: string) {
    id in s.transfers && s.transfers[id].consumed && (s.transfers[id].acknowledged || AckIn(s.net.queue, id))
  }

  /** What delivery never takes back. */
  ghost predicate Forward(s: State, s': State) {
    && s'.transfers.Keys == s.transfers.Keys
    && (forall id | id in s.transfers ::
          && (s.transfers[id].consumed ==> s'.transfers[id].consumed)
          && (s.transfers[id].acknowledged ==> s'.transfers[id].acknowledged))
    && s.net.queue <= s'.net.queue
  }

  lemma ForwardOn(a: State, b: State, c: State)
    requires Forward(a, b) && Forward(b, c)
    ensures Forward(a, c)
  {
  }

  lemma AnsweredForward(s: State, s': State, id: string)
    requires Answered(s, id) && Forward(s, s')
    ensures Answered(s', id)
  {
    if AckIn(s.net.queue, id) {
      var i :| 0 <= i < |s.net.queue| && s.net.queue[i].kind == Ack
      && s.net.queue[i].correlation == TransferMessage(id);
      assert s'.net.queue[i] == s.net.queue[i];
    }
  }

  // ----- sending on a clear network -------------------------------------------------

  lemma ClearSend(n: Net, nodes: set<string>, e: Envelope)
    requires Clear(n, nodes) && e.kind != Response
    requires e.from in nodes && e.to in nodes && e.from != "" && e.to != ""
    ensures Sent(n, e).1.None? && Clear(Sent(n, e).0, nodes)
    ensures n.queue <= Sent(n, e).0.queue && |Sent(n, e).0.queue| > |n.queue|
    ensures SameMessage(Sent(n, e).0.queue[|n.queue|], e)
  {
    hide Accepted, SameMessage;
    assert Get(n.dropNext, e.id) <= 0;
    assert Sent(n, e).1.None?;
    SentQueue(n, e);
    SentAppends(n, e);
  }

  // ----- consumption cannot fail -----------------------------------------------------

  lemma InLinesPost(l: Ledger, asset: string, region: string, amount: int, effect: EffectId, kind: Kind,
                    request: Fingerprint)
    requires effect !in l.effects && effect != NoEffect && asset != "" && amount > 0 && Fits(amount)
    requires amount <= Get(l.balances, Transit) < LIMIT
    requires 0 <= Get(l.balances, Regional(region)) && Fits(Get(l.balances, Regional(region)) + amount)
    ensures Post(l, effect, kind, request,
                 [Line(Transit, asset, Debit, amount), Line(Regional(region), asset, Credit, amount)]).Posted?
  {
    var l0, l1 := Line(Transit, asset, Debit, amount), Line(Regional(region), asset, Credit, amount);
    var lines := [l0, l1];
    Change2(l0, l1, Regional(region));
    assert Change(lines, 1, Transit) == -amount;
    assert SideSum(lines, 1, asset, Debit) == amount && SideSum(lines, 1, asset, Credit) == 0;
    assert SideSum(lines, 2, asset, Debit) == amount && SideSum(lines, 2, asset, Credit) == amount;
    assert LineFits(Get(l.balances, Transit), lines, 0) && LineFits(Get(l.balances, Regional(region)), lines, 1);
    FirstBadNone(l.balances, lines, 2);
  }

  /** An in-transit certificate always fits into its destination. */
  lemma TransitRoom(s: State, id: string)
    requires Inv(s) && id in s.transfers && s.transfers[id].inTransit
    ensures var c := s.transfers[id].certificate;
            && c.destination in s.regions && c.amount > 0 && Fits(c.amount)
            && c.amount <= Get(s.ledger.balances, Transit) < LIMIT
            && 0 <= s.regions[c.destination].rights == Get(s.ledger.balances, Regional(c.destination))
            && Fits(s.regions[c.destination].rights + c.amount)
  {
    hide LedgerOk, EffectsLinked, PaymentsOk, OutboxOk, InboxOk, SagasOk, AllHonest, AnswersProven, MoneyOk,
         CashbackOk, VerdictsOk, Total;
    TransitNonNegative(s);
    TotalBounds(InTransitOf(s.transfers));
    RegionalBounds(s.regions, s.ledger.balances);
    assert TransferOk(s.key, s.asset, s.regions, id, s.transfers[id]);
    assert InTransitOf(s.transfers)[id] == s.transfers[id].certificate.amount;
  }

  lemma StoredVerified(s: State, id: string)
    requires Inv(s) && id in s.transfers
    ensures var t := s.transfers[id];
            && Verified(s.key, s.asset, t.certificate) && t.certificate.transfer == id
            && t.certificate.source in s.regions && t.certificate.destination in s.regions && t.inTransit != t.consumed
            && TransferMessage(id) in s.outbox
    ensures TransferInEffect(id) in s.ledger.effects <==> s.transfers[id].consumed
  {
    hide LedgerOk, PaymentsOk, InboxOk, SagasOk, AllHonest, AnswersProven, RegionsOk, MoneyOk, AuthorityOk, CashbackOk,
         VerdictsOk, Total, Verified;
    assert TransferOk(s.key, s.asset, s.regions, id, s.transfers[id]);
  }

  lemma FinishConsumeClean(s: State, m: MessageId, region: string, receipt: Receipt, duplicate: bool)
    requires region in s.regions && !Pending(s.faults.consumerCrash, m)
    ensures FinishConsume(s, m, region, receipt, duplicate) == (s, ConsumeReply(receipt, duplicate, None))
  {
  }

  ghost predicate ConsumedCleanly(s: State, id: string, r: (State, ConsumeReply)) {
    && id in s.transfers
    && r.1.error.None? && r.0.faults == s.faults && r.0.net == s.net && r.0.dcHealthy == s.dcHealthy
    && r.0.regions.Keys == s.regions.Keys
    && (forall n | n in s.regions :: r.0.regions[n].running == s.regions[n].running)
    && r.0.transfers.Keys == s.transfers.Keys
    && r.0.transfers[id].consumed && r.0.transfers[id].certificate == s.transfers[id].certificate
    && r.0.transfers[id].acknowledged == s.transfers[id].acknowledged
    && (forall k | k in s.transfers && k != id :: r.0.transfers[k] == s.transfers[k])
  }

  lemma ConsumeAgainWorks(s: State, id: string)
    requires Inv(s) && id in s.transfers && TransferMessage(id) in s.inbox
             && s.transfers[id].certificate.destination in s.regions
    requires !Pending(s.faults.consumerCrash, TransferMessage(id)) && s.transfers[id].certificate.transfer == id
    ensures ConsumedCleanly(s, id, ConsumeAgain(s, TransferMessage(id), s.transfers[id].certificate))
  {
    hide Inv, FinishConsume, Pending;
    var c, m := s.transfers[id].certificate, TransferMessage(id);
    InboxConsumedOnly(s, id);
    FinishConsumeClean(s.(inbox := s.inbox[m := s.inbox[m].(duplicates := s.inbox[m].duplicates + 1)]),
                       m, c.destination, s.transfers[id].receipt.(duplicate := true), true);
  }

  lemma ConsumeNewWorks(s: State, m: MessageId, id: string)
    requires Inv(s) && id in s.transfers && s.transfers[id].inTransit && !s.transfers[id].consumed
    requires s.transfers[id].certificate.destination in s.regions && s.transfers[id].certificate.transfer == id
    requires TransferInEffect(id) !in s.ledger.effects && !Pending(s.faults.consumerCrash, m)
    ensures ConsumedCleanly(s, id, ConsumeNew(s, m, s.transfers[id].certificate))
  {
    hide Inv, Post, FinishConsume, Pending;
    var c := s.transfers[id].certificate;
    TransitRoom(s, id);
    InLinesPost(s.ledger, AuthorityAsset(s), c.destination, c.amount, TransferInEffect(id), TransferInKind,
                TransferInRequest(id, c.proof));
    var posted :=
      Post(s.ledger, TransferInEffect(id), TransferInKind, TransferInRequest(id, c.proof),
           InLines(s, c.destination, c.amount));
    FinishConsumeClean(AfterConsume(s, m, c, posted.ledger, posted.receipt), m, c.destination, posted.receipt, false);
  }

  /** On repaired nodes a stored certificate is always consumed or recognised, without a fault. */
  lemma ConsumeWorks(s: State, id: string)
    requires Inv(s) && Repaired(s) && id in s.transfers
    ensures ConsumedCleanly(s, id, Consume(s, TransferMessage(id), s.transfers[id].certificate))
  {
    hide Inv, HasQuorum, Verified, ConsumeAgain, ConsumeNew, Pending, Clear, ConsumedCleanly;
    var c, m := s.transfers[id].certificate, TransferMessage(id);
    StoredVerified(s, id);
    InboxConsumedOnly(s, id);
    if m in s.inbox {
      ConsumeAgainWorks(s, id);
    } else {
      ConsumeNewWorks(s, m, id);
    }
  }

  // ----- one delivery -------------------------------------------------------------------

  lemma RepairedAfter(s: State, s': State)
    requires Repaired(s) && s'.regions.Keys == s.regions.Keys && forall r | r in s.regions :: s'.regions[r].running
    requires s'.faults == s.faults && s'.dcHealthy == s.dcHealthy && Clear(s'.net, s.regions.Keys)
    ensures Repaired(s')
  {
    hide HealthyReplicas, Pending, Clear;
  }

  lemma RegionsNamed(s: State)
    requires Inv(s)
    ensures "" !in s.regions
  {
    hide LedgerOk, EffectsLinked, PaymentsOk, TransfersOk, OutboxOk, InboxOk, SagasOk, AllHonest, AnswersProven,
         MoneyOk, AuthorityOk, CashbackOk, VerdictsOk, Total;
  }

  lemma DeliverCommandWorks(s: State, e: Envelope)
    requires Inv(s) && Repaired(s) && Honest(e, s.transfers) && e.kind == Command
    ensures var s' := DeliverOne(s, e).0;
            && Repaired(s') && Forward(s, s') && Answered(s', e.id.transfer)
  {
    hide Inv, Consume, Sent, Clear, Repaired, SameMessage;
    var id := e.id.transfer;
    var c := s.transfers[id].certificate;
    StoredVerified(s, id);
    ConsumeWorks(s, id);
    RegionsNamed(s);
    var after := Consume(s, e.id, c).0;
    RepairedClear(s);
    ClearSend(after.net, s.regions.Keys, AckFor(e.id, c));
    var s' := DeliverOne(s, e).0;
    RepairedAfter(s, s');
    AckQueued(s'.net.queue, |s.net.queue|, e.id, c);
  }

  lemma AckQueued(queue: seq<Envelope>, i: nat, m: MessageId, c: Certificate)
    requires i < |queue| && SameMessage(queue[i], AckFor(m, c)) && m.TransferMessage?
    ensures AckIn(queue, m.transfer)
  {
  }

  lemma RepairedClear(s: State)
    requires Repaired(s)
    ensures Clear(s.net, s.regions.Keys) && HasQuorum(s)
    ensures forall r | r in s.regions :: s.regions[r].running
  {
    hide Clear, HasQuorum;
  }

  lemma DeliverAckWorks(s: State, e: Envelope)
    requires Inv(s) && Repaired(s) && Honest(e, s.transfers) && e.kind == Ack
    ensures var s' := DeliverOne(s, e).0;
            && Repaired(s') && Forward(s, s') && s'.transfers[e.correlation.transfer].acknowledged
  {
    hide Inv, Clear, HasQuorum;
    var m, id := e.correlation, e.correlation.transfer;
    StoredVerified(s, id);
    TransferOutbox(s, m);
    assert AckAccepted(s, e);
    RepairedClear(s);
    hide Repaired;
    RepairedAfter(s, DeliverOne(s, e).0);
  }

  /** Delivering honest envelopes on a repaired world settles what they carry and loses nothing. */
  lemma {:induction false} DeliverEachWorks(s: State, es: seq<Envelope>, k: nat)
    requires Inv(s) && Repaired(s) && AllHonest(es, s.transfers) && k <= |es|
    ensures var s' := DeliverEach(s, es, k).0;
            && Inv(s') && Repaired(s') && Evolves(s.transfers, s'.transfers) && Forward(s, s')
            && (forall i | 0 <= i < k && es[i].kind == Command :: Answered(s', es[i].id.transfer))
            && (forall i | 0 <= i < k && es[i].kind == Ack ::
                  es[i].correlation.transfer in s'.transfers && s'.transfers[es[i].correlation.transfer].acknowledged)
  {
    hide Inv, Repaired, DeliverOne, Answered;
    if k > 0 {
      DeliverEachWorks(s, es, k - 1);
      var before := DeliverEach(s, es, k - 1).0;
      var after, e := DeliverOne(before, es[k - 1]).0, es[k - 1];
      HonestEvolves(es, s.transfers, before.transfers);
      DeliverOneKeeps(before, e);
      EvolvesOn(s.transfers, before.transfers, after.transfers);
      if e.kind == Command {
        DeliverCommandWorks(before, e);
      } else {
        DeliverAckWorks(before, e);
      }
      ForwardOn(s, before, after);
      forall i | 0 <= i < k && es[i].kind == Command ensures Answered(after, es[i].id.transfer) {
        if i < k - 1 {
          AnsweredForward(before, after, es[i].id.transfer);
        }
      }
    }
  }

  // ----- whole rounds --------------------------------------------------------------------

  /** On a repaired network nothing stays behind in the queue. */
  lemma DrainAll(s: State)
    requires Inv(s) && Repaired(s)
    ensures Drained(s.net).0.queue == [] && Clear(Drained(s.net).0, s.regions.Keys)
    ensures forall e | e in s.net.queue :: e in Drained(s.net).1
    ensures AllHonest(Drained(s.net).1, s.transfers)
  {
    hide Inv, Selected, NewestFirst, HasQuorum;
    InvQueue(s);
    HonestParts(s.net, s.transfers);
    DrainPartitions(s.net);
    forall i | 0 <= i < |s.net.queue| ensures !Cut(s.net.down, s.net.partitions, s.net.queue[i]) {
      var e := s.net.queue[i];
      assert Honest(e, s.transfers);
      StoredVerified(s, if e.kind == Command then e.id.transfer else e.correlation.transfer);
    }
    NothingKept(s.net, |s.net.queue|);
  }

  /** After one delivery every queued command is answered and every queued acknowledgement is settled. */
  lemma DeliverWorks(s: State)
    requires Inv(s) && Repaired(s)
    ensures var s' := Deliver(s).0;
            && Inv(s') && Repaired(s') && s'.transfers.Keys == s.transfers.Keys
            && (forall id | id in s.transfers && s.transfers[id].acknowledged :: s'.transfers[id].acknowledged)
            && (forall id | CommandIn(s.net.queue, id) :: Answered(s', id))
            && (forall id | AckIn(s.net.queue, id) :: id in s'.transfers && s'.transfers[id].acknowledged)
  {
    hide Inv, Drained, DeliverEach, Clear, Answered, Repaired, AllHonest;
    var (net, es) := Drained(s.net);
    var mid := s.(net := net);
    DrainAll(s);
    RepairedAfterDrain(s, net);
    InvQueue(s);
    HonestParts(s.net, s.transfers);
    NetKeeps(s, net);
    DeliverEachWorks(mid, es, |es|);
    var s' := DeliverEach(mid, es, |es|).0;
    forall id | CommandIn(s.net.queue, id) ensures Answered(s', id) {
      var i :| 0 <= i < |s.net.queue| && s.net.queue[i].kind == Command && s.net.queue[i].id == TransferMessage(id);
      assert s.net.queue[i] in es;
      var j :| 0 <= j < |es| && es[j] == s.net.queue[i];
    }
    forall id | AckIn(s.net.queue, id) ensures id in s'.transfers && s'.transfers[id].acknowledged {
      var i :| 0 <= i < |s.net.queue| && s.net.queue[i].kind == Ack
      && s.net.queue[i].correlation == TransferMessage(id);
      assert s.net.queue[i] in es;
      var j :| 0 <= j < |es| && es[j] == s.net.queue[i];
    }
  }

  lemma RepairedAfterDrain(s: State, net: Net)
    requires Repaired(s) && Clear(net, s.regions.Keys)
    ensures Repaired(s.(net := net))
  {
    hide Clear, HealthyReplicas, Pending;
  }

  lemma {:induction false} SendEachWorks(s: State, ids: seq<MessageId>, k: nat)
    requires Inv(s) && Repaired(s) && k <= |ids|
    requires forall i | 0 <= i < |ids| :: ids[i] in s.outbox && ids[i].TransferMessage?
    ensures var n := SendEach(s.net, s.outbox, ids, k).0;
            && Clear(n, s.regions.Keys) && s.net.queue <= n.queue
            && (forall i | 0 <= i < k :: CommandIn(n.queue, ids[i].transfer))
  {
    hide Inv, Sent, Clear, Repaired, CommandIn, SameMessage;
    RepairedClear(s);
    if k > 0 {
      SendEachWorks(s, ids, k - 1);
      var before, m := SendEach(s.net, s.outbox, ids, k - 1).0, ids[k - 1];
      TransferOutbox(s, m);
      StoredVerified(s, m.transfer);
      RegionsNamed(s);
      ClearSend(before, s.regions.Keys, CommandFor(s.outbox[m]));
      var after := SendEach(s.net, s.outbox, ids, k).0;
      CommandQueued(after.queue, |before.queue|, s.outbox[m], m);
      forall i | 0 <= i < k ensures CommandIn(after.queue, ids[i].transfer) {
        if i < k - 1 {
          CommandStays(before.queue, after.queue, ids[i].transfer);
        }
      }
    }
  }

  lemma CommandQueued(queue: seq<Envelope>, i: nat, r: OutboxRecord, m: MessageId)
    requires i < |queue| && SameMessage(queue[i], CommandFor(r)) && r.id == m && m.TransferMessage?
    ensures CommandIn(queue, m.transfer)
  {
  }

  lemma CommandStays(queue: seq<Envelope>, longer: seq<Envelope>, id: string)
    requires CommandIn(queue, id) && queue <= longer
    ensures CommandIn(longer, id)
  {
    var i :| 0 <= i < |queue| && queue[i].kind == Command && queue[i].id == TransferMessage(id);
    assert longer[i] == queue[i];
  }

  lemma DispatchWorks(s: State, ids: seq<MessageId>)
    requires Inv(s) && Repaired(s)
    requires forall i | 0 <= i < |ids| :: ids[i] in s.outbox && Waiting(s.outbox[ids[i]])
    ensures var s' := Dispatch(s, ids).0;
            && Inv(s') && Repaired(s') && s'.transfers == s.transfers
            && (forall i | 0 <= i < |ids| :: ids[i].TransferMessage? && CommandIn(s'.net.queue, ids[i].transfer))
  {
    hide Inv, SendEach, Attempted, Repaired, CommandIn, Clear;
    forall i | 0 <= i < |ids| ensures ids[i].TransferMessage? {
      TransferOutbox(s, ids[i]);
    }
    DispatchKeeps(s, ids);
    SendEachWorks(s, ids, |ids|);
    var net := SendEach(s.net, s.outbox, ids, |ids|).0;
    RepairedAfterDrain(s, net);
    RepairedOutbox(s.(net := net), Attempted(s.outbox));
  }

  lemma RepairedOutbox(s: State, outbox: map<MessageId, OutboxRecord>)
    requires Repaired(s)
    ensures Repaired(s.(outbox := outbox))
  {
    hide Clear, HealthyReplicas, Pending;
  }

  /**
    From every state of the invariant whose faults are repaired, whatever stale, duplicated or reordered
    envelopes are still queued, one pump round leaves every transfer consumed and acknowledged.
   */
  lemma OneRoundSettlesEverything(s: State, ids: seq<MessageId>)
    requires Inv(s) && Repaired(s)
    requires forall i | 0 <= i < |ids| :: ids[i] in s.outbox && Waiting(s.outbox[ids[i]])
    requires forall m | m in s.outbox && Waiting(s.outbox[m]) :: m in ids
    ensures var s' := PumpRound(s, ids);
            && Inv(s') && s'.transfers.Keys == s.transfers.Keys
            && (forall id | id in s'.transfers ::
                  && s'.transfers[id].consumed && s'.transfers[id].acknowledged
                  && EffectCount(s'.ledger.journal, |s'.ledger.journal|, TransferInEffect(id)) == 1)
  {
    hide Inv, Dispatch, Deliver, Repaired, CommandIn, AckIn, EffectCount;
    DispatchWorks(s, ids);
    var s1 := Dispatch(s, ids).0;
    DeliverWorks(s1);
    var s2 := Deliver(s1).0;
    DeliverWorks(s2);
    var s' := Deliver(s2).0;
    forall id | id in s'.transfers
      ensures s'.transfers[id].consumed && s'.transfers[id].acknowledged
      ensures EffectCount(s'.ledger.journal, |s'.ledger.journal|, TransferInEffect(id)) == 1
    {
      if !s.transfers[id].acknowledged {
        StoredVerified(s, id);
        TransferOutbox(s, TransferMessage(id));
        var i :| 0 <= i < |ids| && ids[i] == TransferMessage(id);
        assert Answered(s2, id);
      }
      assert s'.transfers[id].acknowledged;
      ConsumedOnce(s', id);
    }
  }

  lemma ConsumedOnce(s: State, id: string)
    requires Inv(s) && id in s.transfers && s.transfers[id].acknowledged
    ensures s.transfers[id].consumed && EffectCount(s.ledger.journal, |s.ledger.journal|, TransferInEffect(id)) == 1
  {
    hide FinancialInvariants, EffectsLinked, PaymentsOk, OutboxOk, InboxOk, SagasOk, AllHonest, AnswersProven,
         RegionsOk, MoneyOk, AuthorityOk, CashbackOk, VerdictsOk, Total, Verified, LedgerOk, EffectCount;
    assert TransferOk(s.key, s.asset, s.regions, id, s.transfers[id]);
    NotIssued(s, id);
    EffectOnce(s.ledger, TransferInEffect(id));
  }
}
