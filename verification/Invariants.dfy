/** What the world audits after every transition, and the stronger invariant that every transition keeps. */
module Invariants {
  import opened Amounts
  import opened Totals
  import opened Names
  import opened Journal
  import opened Network
  import opened Protocol

  // ----- projections that are summed -----------------------------------------

  ghost function RightsOf(regions: map<string, Region>): map<string, int> {
    map r | r in regions :: regions[r].rights
  }

  ghost function InTransitOf(transfers: map<string, Transfer>): map<string, int> {
    map t | t in transfers :: if transfers[t].inTransit then transfers[t].certificate.amount else 0
  }

  /** What a payment still owes its merchant: captured and not released. */
  function Outstanding(p: Payment): int {
    p.captured - p.refunded - p.reversed - p.chargedBack
  }

  ghost function OutstandingOf(payments: map<string, Payment>): map<string, int> {
    map p | p in payments :: Outstanding(payments[p])
  }

  function EffectCount(journal: seq<Transaction>, n: nat, e: EffectId): nat
    requires n <= |journal|
  {
    if n == 0 then 0 else EffectCount(journal, n - 1, e) + if journal[n - 1].effect == e then 1 else 0
  }

  // ----- the audited conditions, in the order of the audit -------------------

  /** A durable answer repeats the receipt of the effect it claims. */
  predicate AnswerProven(effects: map<EffectId, Effect>, a: Answered) {
    && a.receipt.effect in effects
    && var effect := effects[a.receipt.effect];
    && a.request == effect.request
    && effect.receipt.tx == a.receipt.tx && effect.receipt.commit == a.receipt.commit
  }

  ghost predicate AnswersProven(answers: map<string, Answered>, effects: map<EffectId, Effect>) {
    forall k | k in answers :: AnswerProven(effects, answers[k])
  }

  /** Balance plus credit is never negative and is exactly the spendable authority. */
  predicate AvailableMatches(s: State) {
    var available := Get(s.ledger.balances, User) + s.creditLimit;
    Fits(available) && available >= 0 && available == s.authorityTotal
  }

  ghost predicate RightsMatch(s: State) {
    forall r | r in s.regions ::
      s.regions[r].rights >= 0 && Get(s.ledger.balances, Regional(r)) == s.regions[r].rights
  }

  predicate TransferSound(s: State, id: string)
    requires id in s.transfers
  {
    var t := s.transfers[id];
    && Verified(s.key, s.asset, t.certificate)
    && t.inTransit != t.consumed
    && (t.acknowledged ==> t.consumed)
    && (t.consumed ==> TransferMessage(id) in s.inbox &&
                       EffectCount(s.ledger.journal, |s.ledger.journal|, TransferInEffect(id)) == 1)
  }

  ghost predicate TransfersSound(s: State) {
    forall id | id in s.transfers :: TransferSound(s, id)
  }

  /** Unallocated, regional and in-transit rights add up to the authority total, and the journal agrees. */
  ghost predicate RightsConserved(s: State) {
    var rights, transit := Total(RightsOf(s.regions)), Total(InTransitOf(s.transfers));
    && Fits(s.unallocated + rights) && Fits(transit)
    && s.unallocated + rights + transit == s.authorityTotal && Fits(s.authorityTotal)
    && Get(s.ledger.balances, Transit) == transit
    && Get(s.ledger.balances, Unallocated) == s.unallocated
  }

  predicate PaymentBounded(p: Payment) {
    && p.captured <= p.authorized
    && var released := Sum3(p.refunded, p.reversed, p.chargedBack);
    && released.Some? && released.value <= p.captured
    && p.receipt.tx != NoTx
  }

  ghost predicate PaymentsBounded(s: State) {
    forall p | p in s.payments :: PaymentBounded(s.payments[p])
  }

  ghost predicate CashbackBounded(s: State) {
    forall op | op in s.cashbackPaid :: op in s.cashbackRules && s.cashbackPaid[op] <= s.cashbackRules[op]
  }

  ghost predicate InJournal(journal: seq<Transaction>, tx: TxId) {
    exists t | 0 <= t < |journal| :: journal[t].id == tx
  }

  ghost predicate OutboxLinked(s: State) {
    forall m | m in s.outbox :: s.outbox[m].id == m && InJournal(s.ledger.journal, s.outbox[m].parent)
  }

  ghost predicate InboxLinked(s: State) {
    forall m | m in s.inbox ::
      s.inbox[m].id == m && s.inbox[m].effect != NoEffect && s.inbox[m].effect in s.ledger.effects
  }

  predicate SagaSound(effects: map<EffectId, Effect>, g: Saga) {
    && 0 <= g.nextStep <= 2
    && (g.completed ==> g.nextStep == 2)
    && (g.nextStep > 0 ==> PaymentEffect(g.operation) in effects)
  }

  ghost predicate SagasSound(s: State) {
    forall g | g in s.sagas :: SagaSound(s.ledger.effects, s.sagas[g])
  }

  /** Everything the financial audit checks. */
  ghost predicate FinancialInvariants(s: State) {
    && JournalConsistent(s.ledger) && BalancesExplained(s.ledger) && EffectsProven(s.ledger)
    && AnswersProven(s.idempotency, s.ledger.effects) && AvailableMatches(s) && RightsMatch(s)
    && TransfersSound(s) && RightsConserved(s)
    && PaymentsBounded(s) && CashbackBounded(s)
    && OutboxLinked(s) && InboxLinked(s) && SagasSound(s)
  }

  // ----- the inductive invariant ---------------------------------------------

  ghost predicate ConfigOk(s: State) {
    s.asset != "" && 0 <= s.creditLimit < LIMIT && s.unallocated >= 0
  }

  ghost predicate RegionsOk(regions: map<string, Region>, balances: map<Account, int>) {
    forall r | r in regions ::
      r != "" && regions[r].epoch > 0 && regions[r].rights >= 0 && Get(balances, Regional(r)) == regions[r].rights
  }

  /** Where all money and all authority is: every counter-account equals its own view. */
  ghost predicate MoneyOk(balances: map<Account, int>, payments: map<string, Payment>, cashbackPaid: map<string, int>) {
    && Get(balances, Merchant) == Total(OutstandingOf(payments))
    && Get(balances, Consumed) == Total(OutstandingOf(payments))
    && Get(balances, CashbackExpense) == -Total(cashbackPaid)
    && Get(balances, User) + Get(balances, Merchant) + Get(balances, Funding) + Get(balances, CashbackExpense) == 0
  }

  ghost predicate AuthorityOk(balances: map<Account, int>, rights: int, transit: int,
                              unallocated: int, credit: int, authority: int)
  {
    && unallocated + rights + transit == authority && Fits(authority)
    && Get(balances, User) + credit == authority
    && Get(balances, Transit) == transit && Get(balances, Unallocated) == unallocated
    && Get(balances, Issuer) + Get(balances, Consumed) + authority == 0
  }

  predicate PaymentOk(op: string, p: Payment, regions: map<string, Region>) {
    && p.operation == op && p.region in regions
    && 0 < p.captured == p.authorized && Fits(p.captured)
    && p.refunded >= 0 && p.reversed >= 0 && p.chargedBack >= 0
    && Outstanding(p) >= 0
    && p.status == Status(p) && p.receipt.tx != NoTx
  }

  ghost predicate PaymentsOk(payments: map<string, Payment>, regions: map<string, Region>) {
    forall op | op in payments :: PaymentOk(op, payments[op], regions)
  }

  /** Effects and the views they created imply each other. */
  ghost predicate EffectsLinked(effects: map<EffectId, Effect>, payments: map<string, Payment>,
                                transfers: map<string, Transfer>, verdicts: map<string, Verdict>)
  {
    && (forall op :: PaymentEffect(op) in effects <==> op in payments)
    && (forall id :: TransferOutEffect(id) in effects <==> id in transfers)
    && (forall id :: TransferInEffect(id) in effects <==> id in transfers && transfers[id].consumed)
    && (forall e :: FraudEffect(e) in effects ==> e in verdicts && verdicts[e].processed)
  }

  predicate TransferOk(key: string, asset: string, regions: map<string, Region>, id: string, t: Transfer) {
    && Verified(key, asset, t.certificate) && Fits(t.certificate.amount)
    && t.certificate.transfer == id
    && t.certificate.source in regions && t.certificate.destination in regions
    && t.inTransit != t.consumed && (t.acknowledged ==> t.consumed)
  }

  ghost predicate TransfersOk(key: string, asset: string, regions: map<string, Region>,
                              transfers: map<string, Transfer>) {
    forall id | id in transfers :: TransferOk(key, asset, regions, id, transfers[id])
  }

  predicate OutboxRecordOk(m: MessageId, r: OutboxRecord, transfers: map<string, Transfer>, commits: nat) {
    && r.id == m && r.parent.Tx? && 0 < r.parent.sequence <= commits
    && (r.kind == RightsTransferEvent <==> m.TransferMessage?)
    && (m.TransferMessage? ==>
          m.transfer in transfers &&
          var t := transfers[m.transfer];
          && r.source == t.certificate.source && r.destination == t.certificate.destination
          && r.payload == CertificatePayload(t.certificate) && r.acknowledged == t.acknowledged)
  }

  ghost predicate OutboxOk(outbox: map<MessageId, OutboxRecord>, transfers: map<string, Transfer>, commits: nat) {
    && (forall m | m in outbox :: OutboxRecordOk(m, outbox[m], transfers, commits))
    && (forall id | id in transfers :: TransferMessage(id) in outbox)
  }

  /** The inbox holds exactly the consumed transfers, each with the payload it was consumed under. */
  ghost predicate InboxOk(inbox: map<MessageId, InboxRecord>, transfers: map<string, Transfer>) {
    && (forall m | m in inbox ::
          && m.TransferMessage? && inbox[m].id == m && inbox[m].effect == TransferInEffect(m.transfer)
          && m.transfer in transfers && transfers[m.transfer].consumed
          && inbox[m].payload == CertificatePayload(transfers[m.transfer].certificate))
    && (forall id | id in transfers && transfers[id].consumed :: TransferMessage(id) in inbox)
  }

  ghost predicate CashbackOk(paid: map<string, int>, rules: map<string, int>) {
    forall op | op in paid :: op in rules && 0 <= paid[op] <= rules[op]
  }

  ghost predicate VerdictsOk(verdicts: map<string, Verdict>, payments: map<string, Payment>) {
    forall e | e in verdicts :: verdicts[e].payment in payments
  }

  predicate SagaOk(effects: map<EffectId, Effect>, id: string, g: Saga) {
    g.id == id && SagaSound(effects, g)
  }

  ghost predicate SagasOk(effects: map<EffectId, Effect>, sagas: map<string, Saga>) {
    forall g | g in sagas :: SagaOk(effects, g, sagas[g])
  }

  /** Every envelope in flight was sent by the world: a command of a known transfer or the answer to one. */
  predicate Honest(e: Envelope, transfers: map<string, Transfer>) {
    match e.kind
    case Command =>
      && e.id.TransferMessage? && e.id.transfer in transfers
      && var c := transfers[e.id.transfer].certificate;
      e.payload == CertificatePayload(c) && e.from == c.source && e.to == c.destination
    case Ack =>
      && e.correlation.TransferMessage? && e.correlation.transfer in transfers
      && transfers[e.correlation.transfer].consumed
      && var c := transfers[e.correlation.transfer].certificate;
      e.payload == ProofPayload(c.proof) && e.from == c.destination && e.to == c.source
    case Event => false
    case Response => false
  }

  ghost predicate AllHonest(es: seq<Envelope>, transfers: map<string, Transfer>) {
    forall i | 0 <= i < |es| :: Honest(es[i], transfers)
  }

  ghost predicate Inv(s: State) {
    && ConfigOk(s) && LedgerOk(s.ledger) && AnswersProven(s.idempotency, s.ledger.effects)
    && RegionsOk(s.regions, s.ledger.balances)
    && MoneyOk(s.ledger.balances, s.payments, s.cashbackPaid)
    && AuthorityOk(s.ledger.balances, Total(RightsOf(s.regions)), Total(InTransitOf(s.transfers)),
                   s.unallocated, s.creditLimit, s.authorityTotal)
    && PaymentsOk(s.payments, s.regions)
    && EffectsLinked(s.ledger.effects, s.payments, s.transfers, s.verdicts)
    && TransfersOk(s.key, s.asset, s.regions, s.transfers)
    && OutboxOk(s.outbox, s.transfers, |s.ledger.journal|) && InboxOk(s.inbox, s.transfers)
    && CashbackOk(s.cashbackPaid, s.cashbackRules) && VerdictsOk(s.verdicts, s.payments)
    && SagasOk(s.ledger.effects, s.sagas)
    && AllHonest(s.net.queue, s.transfers)
  }

  // ----- the invariant implies the audit -------------------------------------

  lemma {:induction false} CountBefore(l: Ledger, n: nat, e: EffectId)
    requires LedgerOk(l) && n <= |l.journal| && e in l.effects
    ensures EffectCount(l.journal, n, e) == if l.effects[e].receipt.commit <= n then 1 else 0
  {
    if n > 0 {
      CountBefore(l, n - 1, e);
      var t := l.journal[n - 1];
      assert Proven(l.journal, e, l.effects[e]);
      assert t.effect == e <==> l.effects[e].receipt.commit == n;
    }
  }

  /** An effect with a receipt is in the journal exactly once. */
  lemma EffectOnce(l: Ledger, e: EffectId)
    requires LedgerOk(l) && e in l.effects
    ensures EffectCount(l.journal, |l.journal|, e) == 1
  {
    CountBefore(l, |l.journal|, e);
    assert Proven(l.journal, e, l.effects[e]);
  }

  lemma TransitNonNegative(s: State)
    requires TransfersOk(s.key, s.asset, s.regions, s.transfers)
    ensures NonNegative(InTransitOf(s.transfers))
  {
    forall id | id in s.transfers ensures InTransitOf(s.transfers)[id] >= 0 {
      assert TransferOk(s.key, s.asset, s.regions, id, s.transfers[id]);
    }
  }

  lemma RegionalBounds(regions: map<string, Region>, balances: map<Account, int>)
    requires RegionsOk(regions, balances)
    ensures 0 <= Total(RightsOf(regions))
    ensures forall r | r in regions :: 0 <= regions[r].rights <= Total(RightsOf(regions))
  {
    TotalBounds(RightsOf(regions));
    forall r | r in regions ensures regions[r].rights <= Total(RightsOf(regions)) {
      assert RightsOf(regions)[r] == regions[r].rights;
    }
  }

  /** Rights of every region, and anything in transit, stay within balance plus credit. */
  lemma RightsWithinAuthority(s: State)
    requires ConfigOk(s) && RegionsOk(s.regions, s.ledger.balances)
    requires TransfersOk(s.key, s.asset, s.regions, s.transfers)
    requires AuthorityOk(s.ledger.balances, Total(RightsOf(s.regions)), Total(InTransitOf(s.transfers)),
                         s.unallocated, s.creditLimit, s.authorityTotal)
    ensures 0 <= Total(RightsOf(s.regions)) && 0 <= Total(InTransitOf(s.transfers))
    ensures s.unallocated + Total(RightsOf(s.regions)) + Total(InTransitOf(s.transfers)) ==
            Get(s.ledger.balances, User) + s.creditLimit
    ensures forall r | r in s.regions :: 0 <= s.regions[r].rights <= Get(s.ledger.balances, User) + s.creditLimit
  {
    TransitNonNegative(s);
    TotalBounds(InTransitOf(s.transfers));
    RegionalBounds(s.regions, s.ledger.balances);
  }

  lemma OutboxPasses(s: State)
    requires OutboxOk(s.outbox, s.transfers, |s.ledger.journal|) && Receipted(s.ledger)
    ensures OutboxLinked(s)
  {
    forall m | m in s.outbox ensures s.outbox[m].id == m && InJournal(s.ledger.journal, s.outbox[m].parent) {
      assert OutboxRecordOk(m, s.outbox[m], s.transfers, |s.ledger.journal|);
      assert s.ledger.journal[s.outbox[m].parent.sequence - 1].id == s.outbox[m].parent;
    }
  }

  lemma TransfersPass(s: State)
    requires LedgerOk(s.ledger) && InboxOk(s.inbox, s.transfers)
    requires EffectsLinked(s.ledger.effects, s.payments, s.transfers, s.verdicts)
    requires TransfersOk(s.key, s.asset, s.regions, s.transfers)
    ensures TransfersSound(s)
  {
    forall id | id in s.transfers ensures TransferSound(s, id) {
      assert TransferOk(s.key, s.asset, s.regions, id, s.transfers[id]);
      if s.transfers[id].consumed {
        assert TransferInEffect(id) in s.ledger.effects;
        EffectOnce(s.ledger, TransferInEffect(id));
      }
    }
  }

  lemma PaymentsPass(s: State)
    requires PaymentsOk(s.payments, s.regions)
    ensures PaymentsBounded(s)
  {
    forall p | p in s.payments ensures PaymentBounded(s.payments[p]) {
      assert PaymentOk(p, s.payments[p], s.regions);
    }
  }

  lemma SagasPass(s: State)
    requires SagasOk(s.ledger.effects, s.sagas)
    ensures SagasSound(s)
  {
    forall g | g in s.sagas ensures SagaSound(s.ledger.effects, s.sagas[g]) {
      assert SagaOk(s.ledger.effects, g, s.sagas[g]);
    }
  }

  lemma InboxPasses(s: State)
    requires InboxOk(s.inbox, s.transfers)
    requires EffectsLinked(s.ledger.effects, s.payments, s.transfers, s.verdicts)
    ensures InboxLinked(s)
  {
    forall m | m in s.inbox ensures s.inbox[m].effect in s.ledger.effects {
      assert TransferInEffect(m.transfer) in s.ledger.effects;
    }
  }

  lemma RightsPass(s: State)
    requires ConfigOk(s) && RegionsOk(s.regions, s.ledger.balances)
    requires TransfersOk(s.key, s.asset, s.regions, s.transfers)
    requires AuthorityOk(s.ledger.balances, Total(RightsOf(s.regions)), Total(InTransitOf(s.transfers)),
                         s.unallocated, s.creditLimit, s.authorityTotal)
    ensures AvailableMatches(s) && RightsMatch(s) && RightsConserved(s)
  {
    RightsWithinAuthority(s);
  }

  /** The inductive invariant passes the whole audit. */
  lemma InvPassesAudit(s: State)
    requires Inv(s)
    ensures FinancialInvariants(s)
  {
    OutboxPasses(s);
    TransfersPass(s);
    PaymentsPass(s);
    SagasPass(s);
    InboxPasses(s);
    RightsPass(s);
  }
}
