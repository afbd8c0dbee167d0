/** Every operation of the protocol world keeps the inductive invariant. */
module Preservation {
  import opened Amounts
  import opened Totals
  import opened Names
  import opened Journal
  import opened Network
  import opened Protocol
  import opened Invariants

  // ----- updating the summed views -------------------------------------------

  lemma RightsUpdate(regions: map<string, Region>, r: string, x: Region)
    requires r in regions
    ensures Total(RightsOf(regions[r := x])) == Total(RightsOf(regions)) - regions[r].rights + x.rights
  {
    assert RightsOf(regions[r := x]) == RightsOf(regions)[r := x.rights];
    TotalUpdate(RightsOf(regions), r, x.rights);
  }

  lemma OutstandingUpdate(payments: map<string, Payment>, op: string, p: Payment)
    ensures Total(OutstandingOf(payments[op := p])) ==
            Total(OutstandingOf(payments)) - (if op in payments then Outstanding(payments[op]) else 0) + Outstanding(p)
  {
    assert OutstandingOf(payments[op := p]) == OutstandingOf(payments)[op := Outstanding(p)];
    TotalUpdate(OutstandingOf(payments), op, Outstanding(p));
  }

  function Carried(t: Transfer): int {
    if t.inTransit then t.certificate.amount else 0
  }

  lemma TransitUpdate(transfers: map<string, Transfer>, id: string, t: Transfer)
    ensures Total(InTransitOf(transfers[id := t])) ==
            Total(InTransitOf(transfers)) - (if id in transfers then Carried(transfers[id]) else 0) + Carried(t)
  {
    assert InTransitOf(transfers[id := t]) == InTransitOf(transfers)[id := Carried(t)];
    TotalUpdate(InTransitOf(transfers), id, Carried(t));
  }

  // ----- what each posting moves ----------------------------------------------

  lemma CaptureMoves(s: State, region: string, amount: int)
    ensures forall a :: Change(CaptureLines(s, region, amount), 4, a) ==
              if a == User || a == Regional(region) then -amount
              else if a == Merchant || a == Consumed then amount else 0
  {
    var ls := CaptureLines(s, region, amount);
    forall a { Change4(ls[0], ls[1], ls[2], ls[3], a); }
  }

  lemma RaiseMoves(s: State, from: Account, authority: Account, region: string, amount: int)
    requires from == Funding || from == Merchant || from == CashbackExpense
    requires authority == Issuer || authority == Consumed
    ensures forall a :: Change(RaiseLines(s, from, authority, region, amount), 4, a) ==
              if a == User || a == Regional(region) then amount
              else if a == from || a == authority then -amount else 0
  {
    var ls := RaiseLines(s, from, authority, region, amount);
    forall a { Change4(ls[0], ls[1], ls[2], ls[3], a); }
  }

  lemma OutMoves(s: State, region: string, amount: int)
    ensures forall a :: Change(OutLines(s, region, amount), 2, a) ==
              if a == Regional(region) then -amount else if a == Transit then amount else 0
  {
    var ls := OutLines(s, region, amount);
    forall a { Change2(ls[0], ls[1], a); }
  }

  lemma InMoves(s: State, region: string, amount: int)
    ensures forall a :: Change(InLines(s, region, amount), 2, a) ==
              if a == Regional(region) then amount else if a == Transit then -amount else 0
  {
    var ls := InLines(s, region, amount);
    forall a { Change2(ls[0], ls[1], a); }
  }

  // ----- components under a growing ledger ------------------------------------

  /** What a committed posting adds to the ledger, as the other views see it. */
  ghost predicate Grown(l: Ledger, ledger: Ledger, effect: EffectId, request: Fingerprint, receipt: Receipt) {
    && receipt == CommitReceipt(l, effect)
    && l.sequence == |l.journal| && |ledger.journal| == |l.journal| + 1
    && effect !in l.effects && effect != NoEffect
    && ledger.effects == l.effects[effect := Effect(request, receipt)]
  }

  lemma Commits(l: Ledger, effect: EffectId, kind: Kind, request: Fingerprint, lines: seq<Line>, ledger: Ledger,
                receipt: Receipt)
    requires LedgerOk(l) && effect !in l.effects && EffectOf(request) == effect
    requires Post(l, effect, kind, request, lines) == Posted(ledger, receipt)
    ensures LedgerOk(ledger) && Grown(l, ledger, effect, request, receipt)
    ensures forall a :: Get(ledger.balances, a) == Get(l.balances, a) + Change(lines, |lines|, a)
  {
    PostKeeps(l, effect, kind, request, lines);
  }

  lemma AnswersGrow(answers: map<string, Answered>, l: Ledger, ledger: Ledger, effect: EffectId, request: Fingerprint,
                    receipt: Receipt)
    requires AnswersProven(answers, l.effects) && Grown(l, ledger, effect, request, receipt)
    ensures AnswersProven(answers, ledger.effects)
    ensures forall key :: AnswersProven(answers[key := Answered(request, receipt.(key := key))], ledger.effects)
  {
    forall k | k in answers ensures AnswerProven(ledger.effects, answers[k]) {
      assert AnswerProven(l.effects, answers[k]);
    }
  }

  lemma SagasGrow(effects: map<EffectId, Effect>, more: map<EffectId, Effect>, sagas: map<string, Saga>)
    requires SagasOk(effects, sagas) && effects.Keys <= more.Keys
    ensures SagasOk(more, sagas)
  {
    forall g | g in sagas ensures SagaOk(more, g, sagas[g]) {
      assert SagaOk(effects, g, sagas[g]);
    }
  }

  lemma OutboxGrows(outbox: map<MessageId, OutboxRecord>, transfers: map<string, Transfer>, commits: nat,
                    r: OutboxRecord)
    requires OutboxOk(outbox, transfers, commits)
    requires r.id.EventMessage? && r.kind != RightsTransferEvent && r.parent == Tx(commits + 1)
    ensures OutboxOk(outbox[r.id := r], transfers, commits + 1)
  {
    var grown := outbox[r.id := r];
    forall m | m in grown ensures OutboxRecordOk(m, grown[m], transfers, commits + 1) {
      if m != r.id {
        assert OutboxRecordOk(m, outbox[m], transfers, commits);
      }
    }
  }

  lemma PaymentsRegions(payments: map<string, Payment>, regions: map<string, Region>, more: map<string, Region>)
    requires PaymentsOk(payments, regions) && regions.Keys <= more.Keys
    ensures PaymentsOk(payments, more)
  {
    forall op | op in payments ensures PaymentOk(op, payments[op], more) {
      assert PaymentOk(op, payments[op], regions);
    }
  }

  lemma TransfersRegions(key: string, asset: string, regions: map<string, Region>, more: map<string, Region>,
                         transfers: map<string, Transfer>)
    requires TransfersOk(key, asset, regions, transfers) && regions.Keys <= more.Keys
    ensures TransfersOk(key, asset, more, transfers)
  {
    forall id | id in transfers ensures TransferOk(key, asset, more, id, transfers[id]) {
      assert TransferOk(key, asset, regions, id, transfers[id]);
    }
  }

  // ----- parts of the state the invariant does not read ------------------------

  /** Faults, refund amounts, clocks, data centres and network settings do not matter to the invariant. */
  lemma Unread(s: State, s': State)
    requires Inv(s)
    requires s' == s.(refunds := s'.refunds, faults := s'.faults, coordinatorRunning := s'.coordinatorRunning,
                      tick := s'.tick, dcHealthy := s'.dcHealthy, net := s'.net)
    requires s'.net.queue == s.net.queue
    ensures Inv(s')
  {
  }

  lemma FlipRegion(s: State, region: string, epoch: nat, running: bool)
    requires Inv(s) && region in s.regions && epoch > 0
    ensures Inv(s.(regions := s.regions[region := Region(epoch, running, s.regions[region].rights)]))
  {
    hide LedgerOk, EffectsLinked, PaymentsOk, TransfersOk, OutboxOk, InboxOk, SagasOk, AllHonest, AnswersProven,
         MoneyOk, AuthorityOk, CashbackOk, VerdictsOk, Total;
    var regions := s.regions[region := Region(epoch, running, s.regions[region].rights)];
    RightsUpdate(s.regions, region, regions[region]);
    PaymentsRegions(s.payments, s.regions, regions);
    TransfersRegions(s.key, s.asset, s.regions, regions, s.transfers);
  }

  lemma CrashNodeKeeps(s: State, region: string)
    requires Inv(s) && region in s.regions
    ensures Inv(CrashNode(s, region))
  {
    var r := s.regions[region];
    FlipRegion(s, region, r.epoch, false);
    Unread(s.(regions := s.regions[region := r.(running := false)]), CrashNode(s, region));
  }

  lemma RestartKeeps(s: State, region: string)
    requires Inv(s)
    ensures Inv(RestartRegion(s, region))
  {
    if region in s.regions {
      var r := s.regions[region];
      FlipRegion(s, region, r.epoch + 1, true);
      Unread(s.(regions := s.regions[region := Region(r.epoch + 1, true, r.rights)]), RestartRegion(s, region));
    }
  }

  /** Replaying the receipt of a known effect under a new key is a proven answer. */
  lemma ReplayProven(answers: map<string, Answered>, l: Ledger, key: string, e: EffectId)
    requires AnswersProven(answers, l.effects) && LedgerOk(l) && e in l.effects
    ensures var effect := l.effects[e];
            AnswersProven(answers[key := Answered(effect.request, effect.receipt.(key := key, duplicate := true))],
                          l.effects)
  {
    hide JournalConsistent, BalancesExplained, Receipted, Fingerprinted;
    assert Proven(l.journal, e, l.effects[e]);
  }

  lemma AnswerAgainKeeps(s: State, key: string, request: Fingerprint)
    requires Inv(s) && Known(s, key, request)
    ensures Inv(AnswerAgain(s, key, request).0)
  {
    hide LedgerOk, EffectsLinked, PaymentsOk, TransfersOk, OutboxOk, InboxOk, SagasOk, AllHonest, RegionsOk,
         AnswersProven, MoneyOk, AuthorityOk, VerdictsOk, CashbackOk, Total;
    if key in s.idempotency {
    } else {
      ReplayProven(s.idempotency, s.ledger, key, EffectOf(request));
      if s.ledger.effects[EffectOf(request)].request == request {
      } else {
      }
    }
  }

  // ----- payment ---------------------------------------------------------------

  /** In every state of the invariant the regional check alone already guarantees the global one. */
  lemma LocalImpliesGlobal(s: State, region: string, amount: int)
    requires Inv(s) && region in s.regions && amount <= s.regions[region].rights
    ensures Add(Get(s.ledger.balances, User), s.creditLimit).Some?
    ensures amount <= Get(s.ledger.balances, User) + s.creditLimit
    ensures amount > 0 ==> CaptureRefusal(s, region, amount).None?
  {
    hide LedgerOk, EffectsLinked, PaymentsOk, TransfersOk, OutboxOk, InboxOk, SagasOk, AllHonest, AnswersProven,
         MoneyOk, CashbackOk, VerdictsOk, Total;
    RightsWithinAuthority(s);
  }

  lemma CaptureMoney(b: map<Account, int>, b': map<Account, int>, payments: map<string, Payment>,
                     paid: map<string, int>,
                     region: string, op: string, p: Payment)
    requires MoneyOk(b, payments, paid) && op !in payments
    requires forall a :: Get(b', a) == Get(b, a) +
               if a == User || a == Regional(region) then -Outstanding(p)
               else if a == Merchant || a == Consumed then Outstanding(p) else 0
    ensures MoneyOk(b', payments[op := p], paid)
  {
    OutstandingUpdate(payments, op, p);
  }

  lemma NewPaymentOk(payments: map<string, Payment>, regions: map<string, Region>, op: string, region: string,
                     amount: int, receipt: Receipt)
    requires PaymentsOk(payments, regions) && region in regions && amount > 0 && Fits(amount) && receipt.tx != NoTx
    ensures PaymentsOk(payments[op := NewPayment(op, region, amount, receipt)], regions)
  {
  }

  /** Moving one region's rights moves the sums and leaves every other region alone. */
  lemma RightsMove(b: map<Account, int>, b': map<Account, int>, regions: map<string, Region>, region: string,
                   rights: int)
    requires RegionsOk(regions, b) && region in regions && rights >= 0
    requires forall r ::
               Get(b', Regional(r)) == Get(b, Regional(r)) + if r == region then rights - regions[region].rights else 0
    ensures RegionsOk(regions[region := regions[region].(rights := rights)], b')
    ensures Total(RightsOf(regions[region := regions[region].(rights := rights)])) ==
            Total(RightsOf(regions)) - regions[region].rights + rights
  {
    RightsUpdate(regions, region, regions[region].(rights := rights));
  }

  lemma LinkPayment(l: Ledger, ledger: Ledger, payments: map<string, Payment>, transfers: map<string, Transfer>,
                    verdicts: map<string, Verdict>, op: string, p: Payment, request: Fingerprint, receipt: Receipt)
    requires EffectsLinked(l.effects, payments, transfers, verdicts)
    requires Grown(l, ledger, PaymentEffect(op), request, receipt)
    ensures op !in payments
    ensures EffectsLinked(ledger.effects, payments[op := p], transfers, verdicts)
    ensures VerdictsOk(verdicts, payments) ==> VerdictsOk(verdicts, payments[op := p])
  {
  }

  /** The parts of the invariant that speak of balances and sums. */
  ghost predicate BalancesOk(s: State) {
    && RegionsOk(s.regions, s.ledger.balances)
    && MoneyOk(s.ledger.balances, s.payments, s.cashbackPaid)
    && AuthorityOk(s.ledger.balances, Total(RightsOf(s.regions)), Total(InTransitOf(s.transfers)),
                   s.unallocated, s.creditLimit, s.authorityTotal)
  }

  lemma CaptureAuthority(s: State, b': map<Account, int>, region: string, amount: int, rights: int)
    requires AuthorityOk(s.ledger.balances, Total(RightsOf(s.regions)), Total(InTransitOf(s.transfers)),
                         s.unallocated, s.creditLimit, s.authorityTotal)
    requires Fits(s.authorityTotal - amount) && rights == Total(RightsOf(s.regions)) - amount
    requires forall a :: Get(b', a) == Get(s.ledger.balances, a) +
               if a == User || a == Regional(region) then -amount
               else if a == Merchant || a == Consumed then amount else 0
    ensures AuthorityOk(b', rights, Total(InTransitOf(s.transfers)), s.unallocated, s.creditLimit,
                        s.authorityTotal - amount)
  {
    hide Total, RightsOf, InTransitOf;
  }

  lemma CaptureBalances(s: State, s': State, region: string, op: string, amount: int, p: Payment)
    requires BalancesOk(s) && region in s.regions && op !in s.payments && 0 < amount <= s.regions[region].rights
    requires Fits(s.authorityTotal - amount)
    requires s'.regions == WithRights(s, region, s.regions[region].rights - amount)
    requires s'.authorityTotal == s.authorityTotal - amount && s'.transfers == s.transfers
    requires s'.unallocated == s.unallocated && s'.creditLimit == s.creditLimit && s'.cashbackPaid == s.cashbackPaid
    requires Outstanding(p) == amount && s'.payments == s.payments[op := p]
    requires forall a :: Get(s'.ledger.balances, a) == Get(s.ledger.balances, a) +
               if a == User || a == Regional(region) then -amount
               else if a == Merchant || a == Consumed then amount else 0
    ensures BalancesOk(s')
  {
    hide RegionsOk, MoneyOk, AuthorityOk, Total, RightsOf, InTransitOf, Outstanding, Get;
    var b, b' := s.ledger.balances, s'.ledger.balances;
    RightsMove(b, b', s.regions, region, s.regions[region].rights - amount);
    CaptureAuthority(s, b', region, amount, Total(RightsOf(s'.regions)));
    CaptureMoney(b, b', s.payments, s.cashbackPaid, region, op, p);
  }

  lemma CaptureFields(s: State, region: string, key: string, op: string, amount: int, ledger: Ledger, receipt: Receipt)
    requires region in s.regions
    ensures var s' := AfterCapture(s, region, key, op, amount, ledger, receipt);
            var event := EventRecord(receipt, PaymentCapturedEvent, region, EffectName(PaymentEffect(op)));
            && s'.asset == s.asset && s'.key == s.key && s'.creditLimit == s.creditLimit
            && s'.unallocated == s.unallocated
            && s'.transfers == s.transfers && s'.inbox == s.inbox && s'.sagas == s.sagas && s'.net == s.net
            && s'.verdicts == s.verdicts && s'.cashbackPaid == s.cashbackPaid && s'.cashbackRules == s.cashbackRules
            && s'.regions == WithRights(s, region, s.regions[region].rights - amount)
            && s'.authorityTotal == s.authorityTotal - amount && s'.ledger == ledger
            && s'.payments == s.payments[op := NewPayment(op, region, amount, receipt)]
            && s'.outbox == s.outbox[event.id := event]
            && s'.idempotency == Answer(s, key, PaymentRequest(op, amount), receipt)
  {
    hide EffectName, Answer;
  }

  lemma AfterCaptureKeeps(s: State, region: string, key: string, op: string, amount: int, ledger: Ledger,
                          receipt: Receipt)
    requires Inv(s) && region in s.regions && 0 < amount <= s.regions[region].rights && Fits(amount)
    requires PaymentEffect(op) !in s.ledger.effects
    requires Post(s.ledger, PaymentEffect(op), CaptureKind, PaymentRequest(op, amount), CaptureLines(s, region, amount))
             == Posted(ledger, receipt)
    ensures Inv(AfterCapture(s, region, key, op, amount, ledger, receipt))
  {
    hide LedgerOk, Post, EffectsLinked, PaymentsOk, TransfersOk, OutboxOk, InboxOk, SagasOk, AllHonest, RegionsOk,
         AnswersProven, EffectName, MoneyOk, AuthorityOk, VerdictsOk, CashbackOk, Total, AfterCapture;
    var after := AfterCapture(s, region, key, op, amount, ledger, receipt);
    var request := PaymentRequest(op, amount);
    CaptureFields(s, region, key, op, amount, ledger, receipt);
    Commits(s.ledger, PaymentEffect(op), CaptureKind, request, CaptureLines(s, region, amount), ledger, receipt);
    CaptureMoves(s, region, amount);
    FitsRights(s, region);
    LinkPayment(s.ledger, ledger, s.payments, s.transfers, s.verdicts, op, after.payments[op], request, receipt);
    CaptureBalances(s, after, region, op, amount, after.payments[op]);
    AnswersGrow(s.idempotency, s.ledger, ledger, PaymentEffect(op), request, receipt);
    SagasGrow(s.ledger.effects, ledger.effects, s.sagas);
    OutboxGrows(s.outbox, s.transfers, |s.ledger.journal|,
                EventRecord(receipt, PaymentCapturedEvent, region, EffectName(PaymentEffect(op))));
    PaymentsRegions(s.payments, s.regions, after.regions);
    NewPaymentOk(s.payments, after.regions, op, region, amount, receipt);
    TransfersRegions(s.key, s.asset, s.regions, after.regions, s.transfers);
  }

  lemma FinishPayKeeps(s: State, region: string, key: string, receipt: Receipt)
    requires Inv(s) && region in s.regions
    ensures Inv(FinishPay(s, region, key, receipt).0)
  {
    hide Inv, Spend, Pending, CrashNode;
    var after := s.(faults := s.faults.(crashAfter := Spend(s.faults.crashAfter, key),
                                        loseResponses := Spend(s.faults.loseResponses, key)));
    Unread(s, after);
    CrashNodeKeeps(after, region);
    if Pending(s.faults.crashAfter, key) {
    } else {
    }
  }

  lemma CaptureKeeps(s: State, region: string, key: string, op: string, amount: int)
    requires Inv(s) && region in s.regions && amount > 0 && CaptureRefusal(s, region, amount).None?
    requires PaymentEffect(op) !in s.ledger.effects
    ensures Inv(Capture(s, region, key, op, amount).0)
  {
    hide Inv, FinishPay, Post, CaptureLines, AfterCapture;
    var posted :=
      Post(s.ledger, PaymentEffect(op), CaptureKind, PaymentRequest(op, amount), CaptureLines(s, region, amount));
    if posted.Posted? {
      FitsRights(s, region);
      AfterCaptureKeeps(s, region, key, op, amount, posted.ledger, posted.receipt);
      AfterCaptureRegions(s, region, key, op, amount, posted.ledger, posted.receipt);
      FinishPayKeeps(AfterCapture(s, region, key, op, amount, posted.ledger, posted.receipt), region, key,
                     posted.receipt.(key := key));
    } else {
    }
  }

  lemma AfterCaptureRegions(s: State, region: string, key: string, op: string, amount: int, ledger: Ledger,
                            receipt: Receipt)
    requires region in s.regions
    ensures region in AfterCapture(s, region, key, op, amount, ledger, receipt).regions
  {
  }

  lemma PayNewKeeps(s: State, region: string, key: string, op: string, amount: int)
    requires Inv(s) && region in s.regions && amount > 0 && PaymentEffect(op) !in s.ledger.effects
    ensures Inv(PayNew(s, region, key, op, amount).0)
  {
    hide Inv, Capture, CrashNode, Spend, Pending, CaptureRefusal;
    if Pending(s.faults.crashBefore, key) {
      var before := s.(faults := s.faults.(crashBefore := Spend(s.faults.crashBefore, key)));
      Unread(s, before);
      CrashNodeKeeps(before, region);
    } else if CaptureRefusal(s, region, amount).None? {
      CaptureKeeps(s, region, key, op, amount);
    } else {
    }
  }

  lemma PayAgainKeeps(s: State, key: string)
    requires Inv(s) && key in s.idempotency
    ensures Inv(PayAgain(s, key).0)
  {
    hide Inv, Spend, Pending;
    Unread(s, s.(faults := s.faults.(loseResponses := Spend(s.faults.loseResponses, key))));
    if Pending(s.faults.loseResponses, key) {
    } else {
    }
  }

  lemma PayKeeps(s: State, fence: Fence, key: string, op: string, amount: int)
    requires Inv(s)
    ensures Inv(Pay(s, fence, key, op, amount).0)
  {
    hide Inv, PayNew, PayAgain, AnswerAgain, Guard;
    var request := PaymentRequest(op, amount);
    if Guard(s, fence).Some? {
    } else if key == "" || op == "" || amount <= 0 {
    } else if key in s.idempotency && s.idempotency[key].request == request {
      PayAgainKeeps(s, key);
    } else if Known(s, key, request) {
      AnswerAgainKeeps(s, key, request);
    } else {
      RegionGuarded(s, fence);
      PayNewKeeps(s, fence.region, key, op, amount);
    }
  }

  lemma FitsRights(s: State, region: string)
    requires Inv(s) && region in s.regions
    ensures 0 <= s.regions[region].rights <= s.authorityTotal < LIMIT
  {
    hide LedgerOk, EffectsLinked, PaymentsOk, TransfersOk, OutboxOk, InboxOk, SagasOk, AllHonest, AnswersProven,
         MoneyOk, CashbackOk, VerdictsOk, Total;
    RightsWithinAuthority(s);
  }

  // ----- operations that raise rights --------------------------------------------

  lemma RaiseAuthority(s: State, b': map<Account, int>, region: string, amount: int, from: Account, authority: Account,
                       rights: int)
    requires AuthorityOk(s.ledger.balances, Total(RightsOf(s.regions)), Total(InTransitOf(s.transfers)),
                         s.unallocated, s.creditLimit, s.authorityTotal)
    requires Fits(s.authorityTotal + amount) && rights == Total(RightsOf(s.regions)) + amount
    requires from == Funding || from == Merchant || from == CashbackExpense
    requires authority == Issuer || authority == Consumed
    requires forall a :: Get(b', a) == Get(s.ledger.balances, a) +
               if a == User || a == Regional(region) then amount
               else if a == from || a == authority then -amount else 0
    ensures AuthorityOk(b', rights, Total(InTransitOf(s.transfers)), s.unallocated, s.creditLimit,
                        s.authorityTotal + amount)
  {
    hide Total, RightsOf, InTransitOf;
  }

  lemma RaiseBalances(s: State, s': State, region: string, amount: int, from: Account, authority: Account)
    requires BalancesOk(s) && region in s.regions && amount > 0 && s.regions[region].rights >= 0
             && Fits(s.authorityTotal + amount)
    requires from == Funding || from == Merchant || from == CashbackExpense
    requires authority == Issuer || authority == Consumed
    requires s'.regions == WithRights(s, region, s.regions[region].rights + amount)
    requires s'.authorityTotal == s.authorityTotal + amount && s'.transfers == s.transfers
    requires s'.unallocated == s.unallocated && s'.creditLimit == s.creditLimit
    requires MoneyOk(s'.ledger.balances, s'.payments, s'.cashbackPaid)
    requires forall a :: Get(s'.ledger.balances, a) == Get(s.ledger.balances, a) +
               if a == User || a == Regional(region) then amount
               else if a == from || a == authority then -amount else 0
    ensures BalancesOk(s')
  {
    hide RegionsOk, MoneyOk, AuthorityOk, Total, RightsOf, InTransitOf, Get;
    RightsMove(s.ledger.balances, s'.ledger.balances, s.regions, region, s.regions[region].rights + amount);
    RaiseAuthority(s, s'.ledger.balances, region, amount, from, authority, Total(RightsOf(s'.regions)));
  }

  /** What every rights-raising commit does to the state, apart from its own records. */
  ghost predicate Raised(s: State, s': State, region: string, amount: int, event: OutboxRecord)
    requires region in s.regions
  {
    && s'.asset == s.asset && s'.key == s.key && s'.creditLimit == s.creditLimit && s'.unallocated == s.unallocated
    && s'.transfers == s.transfers && s'.inbox == s.inbox && s'.sagas == s.sagas && s'.net == s.net
    && s'.regions == WithRights(s, region, s.regions[region].rights + amount)
    && s'.authorityTotal == s.authorityTotal + amount
    && s'.outbox == s.outbox[event.id := event]
  }

  /** A rights-raising commit keeps the invariant once its own records are shown consistent. */
  lemma RaiseKeeps(s: State, s': State, effect: EffectId, kind: Kind, request: Fingerprint, from: Account,
                   authority: Account,
                   region: string, amount: int, receipt: Receipt, event: OutboxRecord, key: string)
    requires Inv(s) && region in s.regions && amount > 0 && !RaiseOverflows(s, region, amount)
    requires from == Funding || from == Merchant || from == CashbackExpense
    requires authority == Issuer || authority == Consumed
    requires effect !in s.ledger.effects && EffectOf(request) == effect
    requires Post(s.ledger, effect, kind, request, RaiseLines(s, from, authority, region, amount)) ==
             Posted(s'.ledger, receipt)
    requires Raised(s, s', region, amount, event)
    requires s'.idempotency == s.idempotency || s'.idempotency == Answer(s, key, request, receipt)
    requires event.id.EventMessage? && event.kind != RightsTransferEvent && event.parent == receipt.tx
    requires MoneyOk(s'.ledger.balances, s'.payments, s'.cashbackPaid) && PaymentsOk(s'.payments, s.regions)
    requires EffectsLinked(s'.ledger.effects, s'.payments, s.transfers, s'.verdicts)
    requires VerdictsOk(s'.verdicts, s'.payments) && CashbackOk(s'.cashbackPaid, s'.cashbackRules)
    ensures Inv(s')
  {
    hide LedgerOk, Post, EffectsLinked, PaymentsOk, TransfersOk, OutboxOk, InboxOk, SagasOk, AllHonest, RegionsOk,
         AnswersProven, MoneyOk, AuthorityOk, VerdictsOk, CashbackOk, Total;
    Commits(s.ledger, effect, kind, request, RaiseLines(s, from, authority, region, amount), s'.ledger, receipt);
    RaiseMoves(s, from, authority, region, amount);
    FitsRights(s, region);
    RaiseBalances(s, s', region, amount, from, authority);
    AnswersGrow(s.idempotency, s.ledger, s'.ledger, effect, request, receipt);
    SagasGrow(s.ledger.effects, s'.ledger.effects, s.sagas);
    OutboxGrows(s.outbox, s.transfers, |s.ledger.journal|, event);
    PaymentsRegions(s'.payments, s.regions, s'.regions);
    TransfersRegions(s.key, s.asset, s.regions, s'.regions, s.transfers);
  }

  /** A new effect that no view is indexed by leaves the links between effects and views as they were. */
  lemma LinkOther(l: Ledger, ledger: Ledger, effect: EffectId, request: Fingerprint, receipt: Receipt,
                  payments: map<string, Payment>, payments': map<string, Payment>,
                  transfers: map<string, Transfer>, verdicts: map<string, Verdict>)
    requires EffectsLinked(l.effects, payments, transfers, verdicts) && Grown(l, ledger, effect, request, receipt)
    requires effect.DepositEffect? || effect.ReleaseEffect? || effect.CashbackEffect?
    requires payments'.Keys == payments.Keys
    ensures EffectsLinked(ledger.effects, payments', transfers, verdicts)
  {
  }

  lemma DepositMoney(s: State, b': map<Account, int>, region: string, amount: int)
    requires MoneyOk(s.ledger.balances, s.payments, s.cashbackPaid)
    requires forall a :: Get(b', a) == Get(s.ledger.balances, a) +
               if a == User || a == Regional(region) then amount
               else if a == Funding || a == Issuer then -amount else 0
    ensures MoneyOk(b', s.payments, s.cashbackPaid)
  {
  }

  lemma DepositRaises(s: State, region: string, key: string, op: string, amount: int, ledger: Ledger, receipt: Receipt)
    requires region in s.regions
    ensures var s' := AfterDeposit(s, region, key, op, amount, ledger, receipt);
            && Raised(s, s', region, amount,
                      EventRecord(receipt, DepositConfirmedEvent, region, EffectName(DepositEffect(op))))
            && s'.ledger == ledger && s'.payments == s.payments && s'.verdicts == s.verdicts
            && s'.cashbackPaid == s.cashbackPaid && s'.cashbackRules == s.cashbackRules
            && s'.idempotency == Answer(s, key, DepositRequest(op, amount), receipt)
  {
    hide EffectName, Answer;
  }

  lemma AfterDepositKeeps(s: State, region: string, key: string, op: string, amount: int, ledger: Ledger,
                          receipt: Receipt)
    requires Inv(s) && region in s.regions && amount > 0 && !RaiseOverflows(s, region, amount)
    requires DepositEffect(op) !in s.ledger.effects
    requires Post(s.ledger, DepositEffect(op), DepositKind, DepositRequest(op, amount),
                  RaiseLines(s, Funding, Issuer, region, amount))
             == Posted(ledger, receipt)
    ensures Inv(AfterDeposit(s, region, key, op, amount, ledger, receipt))
  {
    hide LedgerOk, Post, EffectsLinked, PaymentsOk, TransfersOk, OutboxOk, InboxOk, SagasOk, AllHonest, RegionsOk,
         AnswersProven, MoneyOk, AuthorityOk, VerdictsOk, CashbackOk, Total, EffectName, RaiseOverflows, AfterDeposit,
         Raised, Answer;
    var effect, request := DepositEffect(op), DepositRequest(op, amount);
    DepositRaises(s, region, key, op, amount, ledger, receipt);
    Commits(s.ledger, effect, DepositKind, request, RaiseLines(s, Funding, Issuer, region, amount), ledger, receipt);
    RaiseMoves(s, Funding, Issuer, region, amount);
    DepositMoney(s, ledger.balances, region, amount);
    LinkOther(s.ledger, ledger, effect, request, receipt, s.payments, s.payments, s.transfers, s.verdicts);
    RaiseKeeps(s, AfterDeposit(s, region, key, op, amount, ledger, receipt), effect, DepositKind, request, Funding,
               Issuer,
               region, amount, receipt, EventRecord(receipt, DepositConfirmedEvent, region, EffectName(effect)), key);
  }

  lemma DepositNewKeeps(s: State, region: string, key: string, op: string, amount: int)
    requires Inv(s) && region in s.regions && amount > 0 && DepositEffect(op) !in s.ledger.effects
    ensures Inv(DepositNew(s, region, key, op, amount).0)
  {
    hide Inv, Post, RaiseLines, RaiseOverflows, AfterDeposit;
    var posted :=
      Post(s.ledger, DepositEffect(op), DepositKind, DepositRequest(op, amount),
           RaiseLines(s, Funding, Issuer, region, amount));
    if RaiseOverflows(s, region, amount) {
    } else if posted.Posted? {
      AfterDepositKeeps(s, region, key, op, amount, posted.ledger, posted.receipt);
    } else {
    }
  }

  lemma DepositKeeps(s: State, fence: Fence, key: string, op: string, amount: int)
    requires Inv(s)
    ensures Inv(Deposit(s, fence, key, op, amount).0)
  {
    hide Inv, DepositNew, AnswerAgain, Guard;
    if Guard(s, fence).Some? {
    } else if key == "" || op == "" || amount <= 0 {
    } else if Known(s, key, DepositRequest(op, amount)) {
      AnswerAgainKeeps(s, key, DepositRequest(op, amount));
    } else {
      RegionGuarded(s, fence);
      DepositNewKeeps(s, fence.region, key, op, amount);
    }
  }

  lemma ReleasedOk(op: string, p: Payment, regions: map<string, Region>, kind: ReleaseKind, amount: int)
    requires PaymentOk(op, p, regions) && amount > 0 && !ReleaseExceeds(p, amount)
    ensures PaymentOk(op, Released(p, kind, amount), regions)
    ensures Outstanding(Released(p, kind, amount)) == Outstanding(p) - amount
  {
  }

  lemma ReleasePayments(s: State, b': map<Account, int>, region: string, payment: string, kind: ReleaseKind,
                        amount: int)
    requires MoneyOk(s.ledger.balances, s.payments, s.cashbackPaid) && PaymentsOk(s.payments, s.regions)
    requires payment in s.payments && amount > 0 && !ReleaseExceeds(s.payments[payment], amount)
    requires forall a :: Get(b', a) == Get(s.ledger.balances, a) +
               if a == User || a == Regional(region) then amount
               else if a == Merchant || a == Consumed then -amount else 0
    ensures var payments := s.payments[payment := Released(s.payments[payment], kind, amount)];
            MoneyOk(b', payments, s.cashbackPaid) && PaymentsOk(payments, s.regions)
  {
    hide PaymentOk, Released, Outstanding, ReleaseExceeds, Total;
    var p := s.payments[payment];
    var payments := s.payments[payment := Released(p, kind, amount)];
    assert PaymentOk(payment, p, s.regions);
    ReleasedOk(payment, p, s.regions, kind, amount);
    OutstandingUpdate(s.payments, payment, Released(p, kind, amount));
  }

  lemma ReleaseRaises(s: State, region: string, key: string, release: string, payment: string, amount: int,
                      kind: ReleaseKind,
                      ledger: Ledger, receipt: Receipt)
    requires region in s.regions && payment in s.payments
    ensures var s' := AfterRelease(s, region, key, release, payment, amount, kind, ledger, receipt);
            && Raised(s, s', region, amount,
                      EventRecord(receipt, ReleaseConfirmedEvent(kind), region,
                                  EffectName(ReleaseEffect(kind, release))))
            && s'.ledger == ledger && s'.payments == s.payments[payment := Released(s.payments[payment], kind, amount)]
            && s'.verdicts == s.verdicts && s'.cashbackPaid == s.cashbackPaid && s'.cashbackRules == s.cashbackRules
            && s'.idempotency == Answer(s, key, ReleaseRequest(kind, release, payment, amount), receipt)
  {
    hide EffectName, Answer, Released;
  }

  lemma AfterReleaseKeeps(s: State, region: string, key: string, release: string, payment: string, amount: int,
                          kind: ReleaseKind,
                          ledger: Ledger, receipt: Receipt)
    requires Inv(s) && region in s.regions && amount > 0 && !RaiseOverflows(s, region, amount)
    requires payment in s.payments && !ReleaseExceeds(s.payments[payment], amount)
             && ReleaseEffect(kind, release) !in s.ledger.effects
    requires Post(s.ledger, ReleaseEffect(kind, release), ReleaseKindOf(kind),
                  ReleaseRequest(kind, release, payment, amount),
                  RaiseLines(s, Merchant, Consumed, region, amount)) == Posted(ledger, receipt)
    ensures Inv(AfterRelease(s, region, key, release, payment, amount, kind, ledger, receipt))
  {
    hide LedgerOk, Post, EffectsLinked, PaymentsOk, TransfersOk, OutboxOk, InboxOk, SagasOk, AllHonest, RegionsOk,
         AnswersProven, MoneyOk, AuthorityOk, VerdictsOk, CashbackOk, Total, EffectName, RaiseOverflows,
         ReleaseExceeds, Released, AfterRelease, Raised, Answer;
    var effect, request := ReleaseEffect(kind, release), ReleaseRequest(kind, release, payment, amount);
    ReleaseRaises(s, region, key, release, payment, amount, kind, ledger, receipt);
    var after := AfterRelease(s, region, key, release, payment, amount, kind, ledger, receipt);
    Commits(s.ledger, effect, ReleaseKindOf(kind), request, RaiseLines(s, Merchant, Consumed, region, amount), ledger,
            receipt);
    RaiseMoves(s, Merchant, Consumed, region, amount);
    ReleasePayments(s, ledger.balances, region, payment, kind, amount);
    LinkOther(s.ledger, ledger, effect, request, receipt, s.payments, after.payments, s.transfers, s.verdicts);
    VerdictsStay(s.verdicts, s.payments, after.payments);
    RaiseKeeps(s, after, effect, ReleaseKindOf(kind), request, Merchant, Consumed, region, amount, receipt,
               EventRecord(receipt, ReleaseConfirmedEvent(kind), region, EffectName(effect)), key);
  }

  lemma VerdictsStay(verdicts: map<string, Verdict>, payments: map<string, Payment>, payments': map<string, Payment>)
    requires VerdictsOk(verdicts, payments) && payments'.Keys == payments.Keys
    ensures VerdictsOk(verdicts, payments')
  {
  }

  lemma ReleaseNewKeeps(s: State, region: string, key: string, release: string, payment: string, amount: int,
                        kind: ReleaseKind)
    requires Inv(s) && region in s.regions && amount > 0 && ReleaseEffect(kind, release) !in s.ledger.effects
    ensures Inv(ReleaseNew(s, region, key, release, payment, amount, kind).0)
  {
    hide Inv, Post, RaiseLines, RaiseOverflows, AfterRelease, ReleaseExceeds;
    var posted :=
      Post(s.ledger, ReleaseEffect(kind, release), ReleaseKindOf(kind), ReleaseRequest(kind, release, payment, amount),
                       RaiseLines(s, Merchant, Consumed, region, amount));
    if payment !in s.payments {
    } else if ReleaseExceeds(s.payments[payment], amount) {
    } else if RaiseOverflows(s, region, amount) {
    } else if posted.Posted? {
      AfterReleaseKeeps(s, region, key, release, payment, amount, kind, posted.ledger, posted.receipt);
    } else {
    }
  }

  lemma ReleaseKeeps(s: State, fence: Fence, key: string, release: string, payment: string, amount: int,
                     kind: ReleaseKind)
    requires Inv(s)
    ensures Inv(Release(s, fence, key, release, payment, amount, kind).0)
  {
    hide Inv, ReleaseNew, AnswerAgain, Guard;
    if Guard(s, fence).Some? {
    } else if key == "" || release == "" || payment == "" || amount <= 0 {
    } else if Known(s, key, ReleaseRequest(kind, release, payment, amount)) {
      AnswerAgainKeeps(s, key, ReleaseRequest(kind, release, payment, amount));
    } else {
      RegionGuarded(s, fence);
      ReleaseNewKeeps(s, fence.region, key, release, payment, amount, kind);
    }
  }

  lemma CashbackMoney(s: State, b': map<Account, int>, region: string, op: string, amount: int, maximum: int)
    requires MoneyOk(s.ledger.balances, s.payments, s.cashbackPaid) && CashbackOk(s.cashbackPaid, s.cashbackRules)
    requires amount > 0 && !CashbackExceeds(s, op, amount, maximum)
    requires op in s.cashbackRules ==> s.cashbackRules[op] == maximum
    requires forall a :: Get(b', a) == Get(s.ledger.balances, a) +
               if a == User || a == Regional(region) then amount
               else if a == CashbackExpense || a == Issuer then -amount else 0
    ensures MoneyOk(b', s.payments, s.cashbackPaid[op := Get(s.cashbackPaid, op) + amount])
    ensures CashbackOk(s.cashbackPaid[op := Get(s.cashbackPaid, op) + amount], s.cashbackRules[op := maximum])
  {
    TotalUpdate(s.cashbackPaid, op, Get(s.cashbackPaid, op) + amount);
  }

  lemma CashbackRaises(s: State, region: string, key: string, grant: string, op: string, amount: int, maximum: int,
                       ledger: Ledger, receipt: Receipt)
    requires region in s.regions
    ensures var s' := AfterCashback(s, region, key, grant, op, amount, maximum, ledger, receipt);
            && Raised(s, s', region, amount, EventRecord(receipt, CashbackGrantedEvent, region, grant))
            && s'.ledger == ledger && s'.payments == s.payments && s'.verdicts == s.verdicts
            && s'.cashbackPaid == s.cashbackPaid[op := Get(s.cashbackPaid, op) + amount]
            && s'.cashbackRules == s.cashbackRules[op := maximum]
            && s'.idempotency == Answer(s, key, CashbackRequest(grant, op, amount, maximum), receipt)
  {
    hide Answer, Get;
  }

  lemma AfterCashbackKeeps(s: State, region: string, key: string, grant: string, op: string, amount: int, maximum: int,
                           ledger: Ledger, receipt: Receipt)
    requires Inv(s) && region in s.regions && amount > 0 && !RaiseOverflows(s, region, amount)
    requires op in s.cashbackRules ==> s.cashbackRules[op] == maximum
    requires !CashbackExceeds(s, op, amount, maximum) && CashbackEffect(grant) !in s.ledger.effects
    requires Post(s.ledger, CashbackEffect(grant), CashbackKind, CashbackRequest(grant, op, amount, maximum),
                  RaiseLines(s, CashbackExpense, Issuer, region, amount)) == Posted(ledger, receipt)
    ensures Inv(AfterCashback(s, region, key, grant, op, amount, maximum, ledger, receipt))
  {
    hide LedgerOk, Post, EffectsLinked, PaymentsOk, TransfersOk, OutboxOk, InboxOk, SagasOk, AllHonest, RegionsOk,
         AnswersProven, MoneyOk, AuthorityOk, VerdictsOk, CashbackOk, Total, RaiseOverflows, CashbackExceeds,
         AfterCashback, Raised, Answer;
    CashbackRaises(s, region, key, grant, op, amount, maximum, ledger, receipt);
    var effect, request := CashbackEffect(grant), CashbackRequest(grant, op, amount, maximum);
    Commits(s.ledger, effect, CashbackKind, request, RaiseLines(s, CashbackExpense, Issuer, region, amount), ledger,
            receipt);
    RaiseMoves(s, CashbackExpense, Issuer, region, amount);
    CashbackMoney(s, ledger.balances, region, op, amount, maximum);
    LinkOther(s.ledger, ledger, effect, request, receipt, s.payments, s.payments, s.transfers, s.verdicts);
    RaiseKeeps(s, AfterCashback(s, region, key, grant, op, amount, maximum, ledger, receipt), effect, CashbackKind,
               request,
               CashbackExpense, Issuer, region, amount, receipt,
               EventRecord(receipt, CashbackGrantedEvent, region, grant), key);
  }

  lemma CashbackNewKeeps(s: State, region: string, key: string, grant: string, op: string, amount: int, maximum: int)
    requires Inv(s) && region in s.regions && amount > 0 && CashbackEffect(grant) !in s.ledger.effects
    ensures Inv(CashbackNew(s, region, key, grant, op, amount, maximum).0)
  {
    hide Inv, Post, RaiseLines, RaiseOverflows, AfterCashback, CashbackExceeds;
    var posted := Post(s.ledger, CashbackEffect(grant), CashbackKind, CashbackRequest(grant, op, amount, maximum),
                       RaiseLines(s, CashbackExpense, Issuer, region, amount));
    if op in s.cashbackRules && s.cashbackRules[op] != maximum {
    } else if CashbackExceeds(s, op, amount, maximum) {
    } else if RaiseOverflows(s, region, amount) {
    } else if posted.Posted? {
      AfterCashbackKeeps(s, region, key, grant, op, amount, maximum, posted.ledger, posted.receipt);
    } else {
    }
  }

  lemma CashbackKeeps(s: State, fence: Fence, key: string, grant: string, op: string, amount: int, maximum: int)
    requires Inv(s)
    ensures Inv(Cashback(s, fence, key, grant, op, amount, maximum).0)
  {
    hide Inv, CashbackNew, AnswerAgain, Guard;
    if Guard(s, fence).Some? {
    } else if key == "" || grant == "" || op == "" || amount <= 0 || maximum < 0 {
    } else if Known(s, key, CashbackRequest(grant, op, amount, maximum)) {
      AnswerAgainKeeps(s, key, CashbackRequest(grant, op, amount, maximum));
    } else {
      RegionGuarded(s, fence);
      CashbackNewKeeps(s, fence.region, key, grant, op, amount, maximum);
    }
  }

  // ----- delayed fraud verdicts ----------------------------------------------------

  lemma SettleKeeps(s: State, event: string)
    requires Inv(s) && event in s.verdicts
    ensures Inv(Settle(s, event))
  {
    hide LedgerOk, PaymentsOk, TransfersOk, OutboxOk, InboxOk, SagasOk, AllHonest, RegionsOk, AnswersProven, MoneyOk,
         AuthorityOk, CashbackOk, Total;
  }

  lemma LinkFraud(l: Ledger, ledger: Ledger, event: string, request: Fingerprint, receipt: Receipt,
                  payments: map<string, Payment>, payments': map<string, Payment>,
                  transfers: map<string, Transfer>, verdicts: map<string, Verdict>, verdicts': map<string, Verdict>)
    requires EffectsLinked(l.effects, payments, transfers, verdicts)
    requires Grown(l, ledger, FraudEffect(event), request, receipt)
    requires payments'.Keys == payments.Keys
    requires event in verdicts && verdicts' == verdicts[event := verdicts[event].(processed := true)]
    ensures EffectsLinked(ledger.effects, payments', transfers, verdicts')
  {
  }

  lemma RestOfPayment(payment: string, p: Payment, regions: map<string, Region>)
    requires PaymentOk(payment, p, regions)
    ensures p.region in regions && Outstanding(p) >= 0
    ensures Sub(p.captured, Sum3(p.refunded, p.reversed, p.chargedBack).GetOr(0)) == Some(Outstanding(p))
    ensures Outstanding(p) > 0 ==> !ReleaseExceeds(p, Outstanding(p))
  {
  }

  lemma PaymentRemaining(s: State, payment: string)
    requires Inv(s) && payment in s.payments
    ensures var p := s.payments[payment];
            && p.region in s.regions && Outstanding(p) >= 0
            && Sub(p.captured, Sum3(p.refunded, p.reversed, p.chargedBack).GetOr(0)) == Some(Outstanding(p))
            && (Outstanding(p) > 0 ==> !ReleaseExceeds(p, Outstanding(p)))
  {
    hide LedgerOk, EffectsLinked, TransfersOk, OutboxOk, InboxOk, SagasOk, AllHonest, AnswersProven, MoneyOk,
         AuthorityOk, RegionsOk, CashbackOk, VerdictsOk, Total, PaymentOk, Outstanding, ReleaseExceeds, Sum3, Sub;
    RestOfPayment(payment, s.payments[payment], s.regions);
  }

  lemma ReverseRestKeeps(s: State, event: string, payment: string, rest: int)
    requires Inv(s) && event in s.verdicts && payment in s.payments
    requires rest > 0 && !ReleaseExceeds(s.payments[payment], rest) && s.payments[payment].region in s.regions
    ensures Inv(ReverseRest(s, event, payment, rest).0)
  {
    hide Inv, Post, RaiseOverflows, ReleaseExceeds, RaiseLines, AfterFraud, Settle;
    var p, effect := s.payments[payment], FraudEffect(event);
    var request, lines := FraudRequest(event, p.operation, rest), RaiseLines(s, Merchant, Consumed, p.region, rest);
    var posted := Post(s.ledger, effect, FraudKind, request, lines);
    SettleKeeps(s, event);
    if RaiseOverflows(s, p.region, rest) {
    } else if posted.Posted? {
      DuplicateIffKnown(s.ledger, effect, FraudKind, request, lines);
      if effect !in s.ledger.effects {
        FraudKeeps(s, event, payment, p, rest, posted.ledger, posted.receipt);
      }
    } else {
    }
  }

  lemma JudgeOneKeeps(s: State, event: string)
    requires Inv(s) && event in s.verdicts
    ensures Inv(JudgeOne(s, event).0)
  {
    hide Inv, ReleaseExceeds, HasQuorum, Sum3, Sub, Outstanding, ReverseRest, Settle;
    var v := s.verdicts[event];
    SettleKeeps(s, event);
    if v.payment in s.payments {
      PaymentRemaining(s, v.payment);
      var p := s.payments[v.payment];
      var rest := Sub(p.captured, Sum3(p.refunded, p.reversed, p.chargedBack).GetOr(0));
      if rest.Some? && rest.value > 0 {
        ReverseRestKeeps(s, event, v.payment, rest.value);
      }
    }
  }

  lemma DuplicateIffKnown(l: Ledger, effect: EffectId, kind: Kind, request: Fingerprint, lines: seq<Line>)
    requires Post(l, effect, kind, request, lines).Posted?
    ensures Post(l, effect, kind, request, lines).receipt.duplicate <==> effect in l.effects
  {
  }

  lemma FraudViews(s: State, event: string, payment: string, region: string, amount: int, request: Fingerprint,
                   ledger: Ledger, receipt: Receipt)
    requires LedgerOk(s.ledger) && MoneyOk(s.ledger.balances, s.payments, s.cashbackPaid)
             && PaymentsOk(s.payments, s.regions)
    requires EffectsLinked(s.ledger.effects, s.payments, s.transfers, s.verdicts) && VerdictsOk(s.verdicts, s.payments)
    requires FraudEffect(event) !in s.ledger.effects && event in s.verdicts && EffectOf(request) == FraudEffect(event)
    requires payment in s.payments && amount > 0 && !ReleaseExceeds(s.payments[payment], amount)
    requires Post(s.ledger, FraudEffect(event), FraudKind, request,
                  RaiseLines(s, Merchant, Consumed, region, amount)) == Posted(ledger, receipt)
    ensures var payments := s.payments[payment := Released(s.payments[payment], Chargeback, amount)];
            var verdicts := s.verdicts[event := s.verdicts[event].(processed := true)];
            && MoneyOk(ledger.balances, payments, s.cashbackPaid) && PaymentsOk(payments, s.regions)
            && EffectsLinked(ledger.effects, payments, s.transfers, verdicts) && VerdictsOk(verdicts, payments)
  {
    hide LedgerOk, Post, EffectsLinked, PaymentsOk, MoneyOk, ReleaseExceeds, Released;
    var payments := s.payments[payment := Released(s.payments[payment], Chargeback, amount)];
    var verdicts := s.verdicts[event := s.verdicts[event].(processed := true)];
    Commits(s.ledger, FraudEffect(event), FraudKind, request, RaiseLines(s, Merchant, Consumed, region, amount), ledger,
            receipt);
    RaiseMoves(s, Merchant, Consumed, region, amount);
    ReleasePayments(s, ledger.balances, region, payment, Chargeback, amount);
    LinkFraud(s.ledger, ledger, event, request, receipt, s.payments, payments, s.transfers, s.verdicts, verdicts);
  }

  lemma FraudRaises(s: State, event: string, payment: string, amount: int, ledger: Ledger, receipt: Receipt)
    requires event in s.verdicts && payment in s.payments && s.payments[payment].region in s.regions
    ensures var s', p := AfterFraud(s, event, payment, amount, ledger, receipt), s.payments[payment];
            && Raised(s, s', p.region, amount, EventRecord(receipt, FraudReversalEvent, p.region, event))
            && s'.ledger == ledger && s'.payments == s.payments[payment := Released(p, Chargeback, amount)]
            && s'.verdicts == s.verdicts[event := s.verdicts[event].(processed := true)]
            && s'.cashbackPaid == s.cashbackPaid && s'.cashbackRules == s.cashbackRules
            && s'.idempotency == s.idempotency
  {
    hide Released;
  }

  lemma FraudKeeps(s: State, event: string, payment: string, p: Payment, amount: int, ledger: Ledger, receipt: Receipt)
    requires Inv(s) && event in s.verdicts && payment in s.payments && p == s.payments[payment] && p.region in s.regions
    requires FraudEffect(event) !in s.ledger.effects
    requires amount > 0 && !ReleaseExceeds(p, amount) && !RaiseOverflows(s, p.region, amount)
    requires Post(s.ledger, FraudEffect(event), FraudKind, FraudRequest(event, p.operation, amount),
                  RaiseLines(s, Merchant, Consumed, p.region, amount)) == Posted(ledger, receipt)
    ensures Inv(AfterFraud(s, event, payment, amount, ledger, receipt))
  {
    hide LedgerOk, Post, EffectsLinked, PaymentsOk, TransfersOk, OutboxOk, InboxOk, SagasOk, AllHonest, RegionsOk,
         VerdictsOk, AnswersProven, MoneyOk, AuthorityOk, CashbackOk, Total, RaiseOverflows, ReleaseExceeds, Released,
         RaiseLines, AfterFraud, Raised;
    var request := FraudRequest(event, p.operation, amount);
    FraudRaises(s, event, payment, amount, ledger, receipt);
    FraudViews(s, event, payment, p.region, amount, request, ledger, receipt);
    RaiseKeeps(s, AfterFraud(s, event, payment, amount, ledger, receipt), FraudEffect(event), FraudKind, request,
               Merchant, Consumed,
               p.region, amount, receipt, EventRecord(receipt, FraudReversalEvent, p.region, event), "");
  }

  lemma {:induction false} JudgeEachKeeps(s: State, events: seq<string>, k: nat)
    requires Inv(s) && k <= |events| && forall i | 0 <= i < |events| :: events[i] in s.verdicts
    ensures Inv(JudgeEach(s, events, k).0)
  {
    hide Inv, JudgeOne;
    if k > 0 {
      JudgeEachKeeps(s, events, k - 1);
      JudgeOneKeeps(JudgeEach(s, events, k - 1).0, events[k - 1]);
    }
  }

  lemma AdvanceTicksKeeps(s: State, ticks: nat, events: seq<string>)
    requires Inv(s) && forall i | 0 <= i < |events| :: events[i] in s.verdicts
    ensures Inv(AdvanceTicks(s, ticks, events).0)
  {
    hide Inv, JudgeEach;
    Unread(s, Later(s, ticks));
    JudgeEachKeeps(Later(s, ticks), events, |events|);
  }

  lemma ScheduleKeeps(s: State, event: string, payment: string, fraudulent: bool, delay: nat)
    requires Inv(s)
    ensures Inv(ScheduleVerdict(s, event, payment, fraudulent, delay).0)
  {
    hide LedgerOk, PaymentsOk, TransfersOk, OutboxOk, InboxOk, SagasOk, AllHonest, RegionsOk, AnswersProven, MoneyOk,
         AuthorityOk, CashbackOk, Total;
  }

  // ----- rights transfer -------------------------------------------------------------

  lemma MoneyStays(b: map<Account, int>, b': map<Account, int>, payments: map<string, Payment>, paid: map<string, int>)
    requires MoneyOk(b, payments, paid)
    requires Get(b', User) == Get(b, User) && Get(b', Merchant) == Get(b, Merchant)
             && Get(b', Funding) == Get(b, Funding)
    requires Get(b', Consumed) == Get(b, Consumed) && Get(b', CashbackExpense) == Get(b, CashbackExpense)
    ensures MoneyOk(b', payments, paid)
  {
  }

  /** Rights leave a region for transit, or arrive from it when the amount is negative. */
  lemma AuthorityShifts(s: State, b': map<Account, int>, amount: int, region: string, rights: int, transit: int)
    requires AuthorityOk(s.ledger.balances, Total(RightsOf(s.regions)), Total(InTransitOf(s.transfers)),
                         s.unallocated, s.creditLimit, s.authorityTotal)
    requires rights == Total(RightsOf(s.regions)) - amount && transit == Total(InTransitOf(s.transfers)) + amount
    requires forall a :: Get(b', a) == Get(s.ledger.balances, a) +
               if a == Regional(region) then -amount else if a == Transit then amount else 0
    ensures AuthorityOk(b', rights, transit, s.unallocated, s.creditLimit, s.authorityTotal)
  {
    hide Total, RightsOf, InTransitOf;
  }

  lemma OutBalances(s: State, s': State, region: string, id: string, t: Transfer, amount: int)
    requires BalancesOk(s) && region in s.regions && id !in s.transfers && 0 < amount <= s.regions[region].rights
    requires t.inTransit && t.certificate.amount == amount
    requires s'.regions == WithRights(s, region, s.regions[region].rights - amount)
    requires s'.transfers == s.transfers[id := t] && s'.payments == s.payments && s'.cashbackPaid == s.cashbackPaid
    requires s'.authorityTotal == s.authorityTotal && s'.unallocated == s.unallocated && s'.creditLimit == s.creditLimit
    requires forall a :: Get(s'.ledger.balances, a) == Get(s.ledger.balances, a) +
               if a == Regional(region) then -amount else if a == Transit then amount else 0
    ensures BalancesOk(s')
  {
    hide RegionsOk, MoneyOk, AuthorityOk, Total, RightsOf, InTransitOf, Get;
    var b, b' := s.ledger.balances, s'.ledger.balances;
    RightsMove(b, b', s.regions, region, s.regions[region].rights - amount);
    TransitUpdate(s.transfers, id, t);
    MoneyStays(b, b', s.payments, s.cashbackPaid);
    AuthorityShifts(s, b', amount, region, Total(RightsOf(s'.regions)), Total(InTransitOf(s'.transfers)));
  }

  lemma InBalances(s: State, s': State, region: string, id: string, t: Transfer, amount: int)
    requires BalancesOk(s) && region in s.regions && s.regions[region].rights >= 0 && amount > 0
    requires id in s.transfers && Carried(s.transfers[id]) == amount && !t.inTransit
    requires s'.regions == WithRights(s, region, s.regions[region].rights + amount)
    requires s'.transfers == s.transfers[id := t] && s'.payments == s.payments && s'.cashbackPaid == s.cashbackPaid
    requires s'.authorityTotal == s.authorityTotal && s'.unallocated == s.unallocated && s'.creditLimit == s.creditLimit
    requires forall a :: Get(s'.ledger.balances, a) == Get(s.ledger.balances, a) +
               if a == Regional(region) then amount else if a == Transit then -amount else 0
    ensures BalancesOk(s')
  {
    hide RegionsOk, MoneyOk, AuthorityOk, Total, RightsOf, InTransitOf, Get;
    var b, b' := s.ledger.balances, s'.ledger.balances;
    RightsMove(b, b', s.regions, region, s.regions[region].rights + amount);
    TransitUpdate(s.transfers, id, t);
    MoneyStays(b, b', s.payments, s.cashbackPaid);
    AuthorityShifts(s, b', -amount, region, Total(RightsOf(s'.regions)), Total(InTransitOf(s'.transfers)));
  }

  /** Transfers are never dropped or rewritten, and consumption is never undone. */
  ghost predicate Evolves(before: map<string, Transfer>, after: map<string, Transfer>) {
    forall id | id in before ::
      id in after && after[id].certificate == before[id].certificate && (before[id].consumed ==> after[id].consumed)
  }

  lemma HonestEvolves(es: seq<Envelope>, before: map<string, Transfer>, after: map<string, Transfer>)
    requires AllHonest(es, before) && Evolves(before, after)
    ensures AllHonest(es, after)
  {
    forall i | 0 <= i < |es| ensures Honest(es[i], after) {
      assert Honest(es[i], before);
    }
  }

  lemma OutboxTransfer(outbox: map<MessageId, OutboxRecord>, transfers: map<string, Transfer>, commits: nat,
                       id: string, t: Transfer, r: OutboxRecord)
    requires OutboxOk(outbox, transfers, commits) && id !in transfers && t.certificate.transfer == id
    requires r == TransferRecord(Receipt("", TransferOutEffect(id), Tx(commits + 1), commits + 1, false), t.certificate)
             && !t.acknowledged
    ensures OutboxOk(outbox[r.id := r], transfers[id := t], commits + 1)
  {
    var grown := outbox[r.id := r];
    forall m | m in grown ensures OutboxRecordOk(m, grown[m], transfers[id := t], commits + 1) {
      if m != r.id {
        assert OutboxRecordOk(m, outbox[m], transfers, commits);
      }
    }
  }

  lemma LinkOut(l: Ledger, ledger: Ledger, id: string, t: Transfer, request: Fingerprint, receipt: Receipt,
                payments: map<string, Payment>, transfers: map<string, Transfer>, verdicts: map<string, Verdict>)
    requires EffectsLinked(l.effects, payments, transfers, verdicts) && !t.consumed
    requires Grown(l, ledger, TransferOutEffect(id), request, receipt)
    ensures id !in transfers
    ensures EffectsLinked(ledger.effects, payments, transfers[id := t], verdicts)
  {
  }

  lemma NewTransferOk(key: string, asset: string, regions: map<string, Region>, transfers: map<string, Transfer>,
                      id: string, t: Transfer)
    requires TransfersOk(key, asset, regions, transfers) && TransferOk(key, asset, regions, id, t)
    ensures TransfersOk(key, asset, regions, transfers[id := t])
  {
  }

  lemma FreshInbox(inbox: map<MessageId, InboxRecord>, transfers: map<string, Transfer>, id: string, t: Transfer)
    requires InboxOk(inbox, transfers) && id !in transfers && !t.consumed
    ensures InboxOk(inbox, transfers[id := t]) && Evolves(transfers, transfers[id := t])
  {
  }

  lemma CertifyOk(s: State, fence: Fence, id: string, destination: string, amount: int, commit: nat)
    requires s.asset != "" && RegionsOk(s.regions, s.ledger.balances) && Guard(s, fence).None?
    requires id != "" && destination in s.regions && fence.region != destination && amount > 0 && Fits(amount)
             && commit > 0
    ensures TransferOk(s.key, s.asset, s.regions, id,
                       Transfer(Certify(s, fence, id, destination, amount, commit), true, false, false, NO_RECEIPT))
  {
    hide HasQuorum;
  }

  lemma InitiateNewKeeps(s: State, fence: Fence, id: string, destination: string, amount: int)
    requires Inv(s) && Guard(s, fence).None? && fence.region in s.regions && id != "" && fence.region != destination
             && amount > 0
    requires destination in s.regions && id !in s.transfers
    ensures Inv(InitiateNew(s, fence, id, destination, amount).0)
  {
    hide Inv, Guard, Post, OutLines, Certify, AfterIssue, Sub;
    var posted := Post(s.ledger, TransferOutEffect(id), TransferOutKind,
                       TransferOutRequest(id, fence.region, destination, amount), OutLines(s, fence.region, amount));
    if s.regions[fence.region].rights < amount {
    } else if Sub(s.regions[fence.region].rights, amount).None? {
    } else if posted.Posted? {
      CertifiedFields(s, fence, id, destination, amount, posted.receipt.commit);
      IssueKeeps(s, fence, id, destination, amount, posted.ledger, posted.receipt);
    } else {
    }
  }

  lemma InitiateKeeps(s: State, fence: Fence, id: string, destination: string, amount: int)
    requires Inv(s)
    ensures Inv(Initiate(s, fence, id, destination, amount).0)
  {
    hide Inv, Guard, InitiateNew;
    if Guard(s, fence).Some? {
    } else if id == "" || destination == "" || fence.region == destination || amount <= 0 {
    } else if destination !in s.regions {
    } else if id in s.transfers {
    } else {
      RegionGuarded(s, fence);
      InitiateNewKeeps(s, fence, id, destination, amount);
    }
  }

  lemma CertifiedFields(s: State, fence: Fence, id: string, destination: string, amount: int, commit: nat)
    ensures var c := Certify(s, fence, id, destination, amount, commit);
            c.transfer == id && c.source == fence.region && c.destination == destination && c.amount == amount
  {
  }

  lemma IssueFields(s: State, c: Certificate, ledger: Ledger, receipt: Receipt)
    requires c.source in s.regions
    ensures var s' := AfterIssue(s, c, ledger, receipt);
            && s'.asset == s.asset && s'.key == s.key && s'.creditLimit == s.creditLimit
            && s'.unallocated == s.unallocated
            && s'.authorityTotal == s.authorityTotal && s'.inbox == s.inbox && s'.sagas == s.sagas && s'.net == s.net
            && s'.payments == s.payments && s'.verdicts == s.verdicts && s'.idempotency == s.idempotency
            && s'.cashbackPaid == s.cashbackPaid && s'.cashbackRules == s.cashbackRules && s'.ledger == ledger
            && s'.regions == WithRights(s, c.source, s.regions[c.source].rights - c.amount)
            && s'.transfers == s.transfers[c.transfer := Transfer(c, true, false, false, NO_RECEIPT)]
            && s'.outbox == s.outbox[TransferMessage(c.transfer) := TransferRecord(receipt, c)]
  {
  }

  lemma IssueKeeps(s: State, fence: Fence, id: string, destination: string, amount: int, ledger: Ledger,
                   receipt: Receipt)
    requires Inv(s) && Guard(s, fence).None? && id != "" && fence.region != destination && amount > 0
    requires destination in s.regions && id !in s.transfers && amount <= s.regions[fence.region].rights
    requires Post(s.ledger, TransferOutEffect(id), TransferOutKind,
                  TransferOutRequest(id, fence.region, destination, amount),
                  OutLines(s, fence.region, amount)) == Posted(ledger, receipt)
    requires Certify(s, fence, id, destination, amount, receipt.commit).source in s.regions
    ensures Inv(AfterIssue(s, Certify(s, fence, id, destination, amount, receipt.commit), ledger, receipt))
  {
    hide LedgerOk, Post, EffectsLinked, PaymentsOk, TransfersOk, OutboxOk, InboxOk, SagasOk, AllHonest, RegionsOk,
         AnswersProven, MoneyOk, AuthorityOk, VerdictsOk, CashbackOk, Total, Guard, HasQuorum, TransferOk, ProofOf,
         Evolves, AfterIssue, Certify;
    var region, request, effect :=
      fence.region, TransferOutRequest(id, fence.region, destination, amount), TransferOutEffect(id);
    var c := Certify(s, fence, id, destination, amount, receipt.commit);
    CertifiedFields(s, fence, id, destination, amount, receipt.commit);
    IssueFields(s, c, ledger, receipt);
    var s' := AfterIssue(s, c, ledger, receipt);
    var t := s'.transfers[id];
    RegionGuarded(s, fence);
    NotIssued(s, id);
    Commits(s.ledger, effect, TransferOutKind, request, OutLines(s, region, amount), ledger, receipt);
    OutMoves(s, region, amount);
    FitsRights(s, region);
    OutBalances(s, s', region, id, t, amount);
    CertifyOk(s, fence, id, destination, amount, receipt.commit);
    NewTransferOk(s.key, s.asset, s.regions, s.transfers, id, t);
    TransfersRegions(s.key, s.asset, s.regions, s'.regions, s'.transfers);
    PaymentsRegions(s.payments, s.regions, s'.regions);
    LinkOut(s.ledger, ledger, id, t, request, receipt, s.payments, s.transfers, s.verdicts);
    AnswersGrow(s.idempotency, s.ledger, ledger, effect, request, receipt);
    SagasGrow(s.ledger.effects, ledger.effects, s.sagas);
    OutboxTransfer(s.outbox, s.transfers, |s.ledger.journal|, id, t, TransferRecord(receipt, t.certificate));
    FreshInbox(s.inbox, s.transfers, id, t);
    HonestEvolves(s.net.queue, s.transfers, s'.transfers);
  }

  lemma RegionGuarded(s: State, fence: Fence)
    requires Guard(s, fence).None?
    ensures fence.region in s.regions
  {
    hide HasQuorum;
  }

  lemma NotIssued(s: State, id: string)
    requires EffectsLinked(s.ledger.effects, s.payments, s.transfers, s.verdicts)
    ensures TransferOutEffect(id) in s.ledger.effects <==> id in s.transfers
    ensures TransferInEffect(id) in s.ledger.effects <==> id in s.transfers && s.transfers[id].consumed
    ensures forall op :: PaymentEffect(op) in s.ledger.effects <==> op in s.payments
  {
  }

  lemma LinkIn(l: Ledger, ledger: Ledger, id: string, t: Transfer, request: Fingerprint, receipt: Receipt,
               payments: map<string, Payment>, transfers: map<string, Transfer>, verdicts: map<string, Verdict>)
    requires EffectsLinked(l.effects, payments, transfers, verdicts) && id in transfers && t.consumed
    requires Grown(l, ledger, TransferInEffect(id), request, receipt)
    ensures EffectsLinked(ledger.effects, payments, transfers[id := t], verdicts)
  {
  }

  lemma OutboxConsumed(outbox: map<MessageId, OutboxRecord>, transfers: map<string, Transfer>, commits: nat, id: string,
                       t: Transfer)
    requires OutboxOk(outbox, transfers, commits) && id in transfers
    requires t.certificate == transfers[id].certificate && t.acknowledged == transfers[id].acknowledged
    ensures OutboxOk(outbox, transfers[id := t], commits + 1)
  {
    forall m | m in outbox ensures OutboxRecordOk(m, outbox[m], transfers[id := t], commits + 1) {
      assert OutboxRecordOk(m, outbox[m], transfers, commits);
    }
  }

  lemma InboxConsumed(inbox: map<MessageId, InboxRecord>, transfers: map<string, Transfer>, id: string, t: Transfer)
    requires InboxOk(inbox, transfers) && id in transfers && t.consumed && t.certificate == transfers[id].certificate
    ensures InboxOk(inbox[TransferMessage(id) := InboxRecord(TransferMessage(id), CertificatePayload(t.certificate),
                                                             TransferInEffect(id), 0)],
                    transfers[id := t])
    ensures Evolves(transfers, transfers[id := t])
  {
  }

  lemma FinishConsumeKeeps(s: State, m: MessageId, region: string, receipt: Receipt, duplicate: bool)
    requires Inv(s) && region in s.regions
    ensures Inv(FinishConsume(s, m, region, receipt, duplicate).0)
  {
    hide Inv, Spend, Pending;
    var after := s.(faults := s.faults.(consumerCrash := Spend(s.faults.consumerCrash, m)));
    Unread(s, after);
    CrashNodeKeeps(after, region);
  }

  lemma DuplicateConsumeKeeps(s: State, m: MessageId)
    requires Inv(s) && m in s.inbox
    ensures Inv(s.(inbox := s.inbox[m := s.inbox[m].(duplicates := s.inbox[m].duplicates + 1)]))
  {
    hide LedgerOk, EffectsLinked, PaymentsOk, TransfersOk, OutboxOk, SagasOk, AllHonest, RegionsOk, AnswersProven,
         MoneyOk, AuthorityOk, VerdictsOk, CashbackOk, Total;
  }

  lemma AfterConsumeKeeps(s: State, c: Certificate, ledger: Ledger, receipt: Receipt)
    requires Inv(s) && c.destination in s.regions && c.transfer in s.transfers
    requires s.transfers[c.transfer].certificate == c && !s.transfers[c.transfer].consumed
             && s.transfers[c.transfer].inTransit
    requires Post(s.ledger, TransferInEffect(c.transfer), TransferInKind, TransferInRequest(c.transfer, c.proof),
                  InLines(s, c.destination, c.amount)) == Posted(ledger, receipt)
    ensures Inv(AfterConsume(s, TransferMessage(c.transfer), c, ledger, receipt))
  {
    hide LedgerOk, Post, EffectsLinked, PaymentsOk, TransfersOk, OutboxOk, InboxOk, SagasOk, AllHonest, RegionsOk,
         AnswersProven, MoneyOk, AuthorityOk, VerdictsOk, CashbackOk, Total, Evolves;
    var id, request, effect := c.transfer, TransferInRequest(c.transfer, c.proof), TransferInEffect(c.transfer);
    var s' := AfterConsume(s, TransferMessage(id), c, ledger, receipt);
    var t := s'.transfers[id];
    NotIssued(s, id);
    StoredTransfer(s, id);
    hide TransferOk, Verified;
    Commits(s.ledger, effect, TransferInKind, request, InLines(s, c.destination, c.amount), ledger, receipt);
    InMoves(s, c.destination, c.amount);
    FitsRights(s, c.destination);
    InBalances(s, s', c.destination, id, t, c.amount);
    NewTransferOk(s.key, s.asset, s.regions, s.transfers, id, t);
    TransfersRegions(s.key, s.asset, s.regions, s'.regions, s'.transfers);
    PaymentsRegions(s.payments, s.regions, s'.regions);
    LinkIn(s.ledger, ledger, id, t, request, receipt, s.payments, s.transfers, s.verdicts);
    AnswersGrow(s.idempotency, s.ledger, ledger, effect, request, receipt);
    SagasGrow(s.ledger.effects, ledger.effects, s.sagas);
    OutboxConsumed(s.outbox, s.transfers, |s.ledger.journal|, id, t);
    InboxConsumed(s.inbox, s.transfers, id, t);
    HonestEvolves(s.net.queue, s.transfers, s'.transfers);
  }

  lemma StoredTransfer(s: State, id: string)
    requires TransfersOk(s.key, s.asset, s.regions, s.transfers) && id in s.transfers
    ensures var t := s.transfers[id];
            && t.certificate.amount > 0 && t.certificate.transfer == id
            && t.certificate.source in s.regions && t.certificate.destination in s.regions
            && t.inTransit != t.consumed && (t.acknowledged ==> t.consumed)
            && (forall receipt :: t.inTransit ==>
                  TransferOk(s.key, s.asset, s.regions, id,
                             t.(inTransit := false, consumed := true, receipt := receipt)))
            && (t.consumed ==> TransferOk(s.key, s.asset, s.regions, id, t.(acknowledged := true)))
  {
    assert TransferOk(s.key, s.asset, s.regions, id, s.transfers[id]);
  }

  lemma ConsumeAgainKeeps(s: State, m: MessageId, c: Certificate)
    requires Inv(s) && m in s.inbox && c.destination in s.regions && c.transfer in s.transfers
    ensures Inv(ConsumeAgain(s, m, c).0)
  {
    hide Inv, FinishConsume;
    if s.inbox[m].payload == CertificatePayload(c) {
      DuplicateConsumeKeeps(s, m);
      FinishConsumeKeeps(s.(inbox := s.inbox[m := s.inbox[m].(duplicates := s.inbox[m].duplicates + 1)]),
                         m, c.destination, s.transfers[c.transfer].receipt.(duplicate := true), true);
    } else {
    }
  }

  lemma ConsumeNewKeeps(s: State, c: Certificate)
    requires Inv(s) && c.destination in s.regions && c.transfer in s.transfers
             && s.transfers[c.transfer].certificate == c
    ensures Inv(ConsumeNew(s, TransferMessage(c.transfer), c).0)
  {
    hide Inv, Post, InLines, FinishConsume, AfterConsume, Add;
    var m := TransferMessage(c.transfer);
    var posted := Post(s.ledger, TransferInEffect(c.transfer), TransferInKind, TransferInRequest(c.transfer, c.proof),
                       InLines(s, c.destination, c.amount));
    if s.transfers[c.transfer].consumed || !s.transfers[c.transfer].inTransit {
    } else if Add(s.regions[c.destination].rights, c.amount).None? {
    } else if posted.Posted? {
      AfterConsumeKeeps(s, c, posted.ledger, posted.receipt);
      AfterConsumeRegions(s, m, c, posted.ledger, posted.receipt);
      FinishConsumeKeeps(AfterConsume(s, m, c, posted.ledger, posted.receipt), m, c.destination, posted.receipt, false);
    } else {
    }
  }

  lemma AfterConsumeRegions(s: State, m: MessageId, c: Certificate, ledger: Ledger, receipt: Receipt)
    requires c.destination in s.regions && c.transfer in s.transfers
    ensures c.destination in AfterConsume(s, m, c, ledger, receipt).regions
  {
  }

  lemma ConsumableHere(s: State, c: Certificate)
    requires ConsumeRefusal(s, c).None?
    ensures c.destination in s.regions && c.transfer in s.transfers && s.transfers[c.transfer].certificate == c
  {
    hide HasQuorum, Verified;
  }

  /** Consumption under the message that carries the transfer keeps the invariant. */
  lemma ConsumeKeeps(s: State, c: Certificate)
    requires Inv(s)
    ensures Inv(Consume(s, TransferMessage(c.transfer), c).0)
  {
    hide Inv, ConsumeRefusal, ConsumeAgain, ConsumeNew;
    if ConsumeRefusal(s, c).Some? {
    } else {
      ConsumableHere(s, c);
      if TransferMessage(c.transfer) in s.inbox {
        ConsumeAgainKeeps(s, TransferMessage(c.transfer), c);
      } else {
        ConsumeNewKeeps(s, c);
      }
    }
  }
}
