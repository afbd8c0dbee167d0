/** The durable state of the protocol world and what each operation does to it. */
module Protocol {
  import opened Amounts
  import opened Names
  import opened Journal
  import opened Network

  datatype Fence = Fence(region: string, epoch: nat)

  datatype Region = Region(epoch: nat, running: bool, rights: int)

  datatype PaymentStatus = Captured | PartiallyRefunded | Refunded | Reversed | Disputed

  datatype Payment = Payment(
    operation: string, region: string, authorized: int, captured: int,
    refunded: int, reversed: int, chargedBack: int, status: PaymentStatus, receipt: Receipt)

  datatype Transfer = Transfer(
    certificate: Certificate, inTransit: bool, consumed: bool, acknowledged: bool, receipt: Receipt)

  datatype OutboxRecord = OutboxRecord(
    id: MessageId, kind: EventKind, source: string, destination: string,
    parent: TxId, payload: Payload, attempts: nat, acknowledged: bool)

  /** The stored payload stands for its hash. */
  datatype InboxRecord = InboxRecord(id: MessageId, payload: Payload, effect: EffectId, duplicates: nat)

  datatype Saga = Saga(
    id: string, region: string, operation: string, amount: int,
    nextStep: int, completed: bool, receipt: Receipt)

  datatype Verdict = Verdict(payment: string, fraudulent: bool, due: nat, processed: bool)

  datatype Answered = Answered(request: Fingerprint, receipt: Receipt)

  /** Injected faults: how often the next matching call loses its answer or crashes. */
  datatype Faults = Faults(
    loseResponses: map<string, int>, crashBefore: map<string, int>, crashAfter: map<string, int>,
    consumerCrash: map<MessageId, int>, coordinatorCrash: map<string, int>)

  datatype State = State(
    asset: string, creditLimit: int, unallocated: int, authorityTotal: int, key: string,
    regions: map<string, Region>, ledger: Ledger, idempotency: map<string, Answered>,
    payments: map<string, Payment>, refunds: map<string, int>,
    cashbackRules: map<string, int>, cashbackPaid: map<string, int>,
    transfers: map<string, Transfer>, outbox: map<MessageId, OutboxRecord>, inbox: map<MessageId, InboxRecord>,
    faults: Faults, coordinatorRunning: bool, sagas: map<string, Saga>,
    tick: nat, verdicts: map<string, Verdict>, dcHealthy: map<string, bool>, net: Net)

  datatype Reply = Reply(receipt: Receipt, error: Option<Error>)

  datatype TransferReply = TransferReply(certificate: Option<Certificate>, existing: bool, error: Option<Error>)

  datatype ConsumeReply = ConsumeReply(receipt: Receipt, duplicate: bool, error: Option<Error>)

  datatype SagaReply = SagaReply(snapshot: Option<Saga>, error: Option<Error>)

  function Failed(e: Error): Reply {
    Reply(NO_RECEIPT, Some(e))
  }

  const AUTHORITY_PREFIX := "AUTHORITY/"
  const REPLICAS: seq<string> := ["dc01", "dc02", "dc03", "dc04", "dc05", "dc06", "dc07"]
  const QUORUM := 4
  const TICKS := 0x1_0000_0000_0000_0000

  function AuthorityAsset(s: State): string {
    AUTHORITY_PREFIX + s.asset
  }

  function Pending<K>(counters: map<K, int>, key: K): bool {
    Get(counters, key) > 0
  }

  function Spend<K>(counters: map<K, int>, key: K): map<K, int> {
    if Pending(counters, key) then counters[key := Get(counters, key) - 1] else counters
  }

  // ----- guards ------------------------------------------------------------

  function HealthyReplicas(healthy: map<string, bool>, k: nat): nat
    requires k <= |REPLICAS|
  {
    if k == 0 then 0
    else HealthyReplicas(healthy, k - 1) + if REPLICAS[k - 1] in healthy && healthy[REPLICAS[k - 1]] then 1 else 0
  }

  predicate HasQuorum(s: State) {
    HealthyReplicas(s.dcHealthy, |REPLICAS|) >= QUORUM
  }

  /** Why a write under this fence is refused, if it is. */
  function Guard(s: State, fence: Fence): Option<Error> {
    if fence.region !in s.regions || !s.regions[fence.region].running then Some(ErrRegionDown)
    else if s.regions[fence.region].epoch != fence.epoch then Some(ErrStaleEpoch)
    else if !HasQuorum(s) then Some(ErrNoQuorum)
    else None
  }

  // ----- replay of answered requests ---------------------------------------

  /** The key was used before, or the effect of this request is already in the ledger. */
  predicate Known(s: State, key: string, request: Fingerprint) {
    key in s.idempotency || EffectOf(request) in s.ledger.effects
  }

  function AnswerAgain(s: State, key: string, request: Fingerprint): (State, Reply)
    requires Known(s, key, request)
  {
    if key in s.idempotency then
      if s.idempotency[key].request != request then (s, Failed(ErrIdempotencyConflict))
      else (s, Reply(s.idempotency[key].receipt.(duplicate := true), None))
    else
      var effect := s.ledger.effects[EffectOf(request)];
      if effect.request != request then (s, Failed(ErrEffectConflict))
      else
        var receipt := effect.receipt.(key := key, duplicate := true);
        (s.(idempotency := s.idempotency[key := Answered(request, receipt)]), Reply(receipt, None))
  }

  // ----- building blocks ---------------------------------------------------

  function CrashNode(s: State, region: string): State
    requires region in s.regions
  {
    s.(regions := s.regions[region := s.regions[region].(running := false)],
       net := s.net.(down := s.net.down + {region}))
  }

  function WithRights(s: State, region: string, rights: int): map<string, Region>
    requires region in s.regions
  {
    s.regions[region := s.regions[region].(rights := rights)]
  }

  function EventRecord(receipt: Receipt, kind: EventKind, region: string, text: string): OutboxRecord {
    OutboxRecord(EventMessage(receipt.tx, kind), kind, region, region, receipt.tx, TextPayload(text), 0, false)
  }

  function WithEvent(s: State, record: OutboxRecord): map<MessageId, OutboxRecord> {
    s.outbox[record.id := record]
  }

  function Answer(s: State, key: string, request: Fingerprint, receipt: Receipt): map<string, Answered> {
    s.idempotency[key := Answered(request, receipt.(key := key))]
  }

  // ----- payment -----------------------------------------------------------

  function CaptureLines(s: State, region: string, amount: int): seq<Line> {
    [Line(User, s.asset, Debit, amount), Line(Merchant, s.asset, Credit, amount),
     Line(Regional(region), AuthorityAsset(s), Debit, amount), Line(Consumed, AuthorityAsset(s), Credit, amount)]
  }

  function NewPayment(op: string, region: string, amount: int, receipt: Receipt): Payment {
    Payment(op, region, amount, amount, 0, 0, 0, Captured, receipt)
  }

  /** The state after a capture commits, before injected faults are considered. */
  function AfterCapture(s: State, region: string, key: string, op: string, amount: int, ledger: Ledger,
                        receipt: Receipt): State
    requires region in s.regions
  {
    s.(ledger := ledger,
       regions := WithRights(s, region, s.regions[region].rights - amount),
       authorityTotal := s.authorityTotal - amount,
       payments := s.payments[op := NewPayment(op, region, amount, receipt)],
       outbox := WithEvent(s, EventRecord(receipt, PaymentCapturedEvent, region, EffectName(PaymentEffect(op)))),
       idempotency := Answer(s, key, PaymentRequest(op, amount), receipt))
  }

  /** A committed capture may still crash its region or lose its answer. */
  function FinishPay(s: State, region: string, key: string, receipt: Receipt): (State, Reply)
    requires region in s.regions
  {
    var crash, lost := Pending(s.faults.crashAfter, key), Pending(s.faults.loseResponses, key);
    var after := s.(faults := s.faults.(crashAfter := Spend(s.faults.crashAfter, key),
                                        loseResponses := Spend(s.faults.loseResponses, key)));
    if crash then (CrashNode(after, region), Reply(receipt, Some(ErrCrashAfterCommit)))
    else if lost then (after, Reply(receipt, Some(ErrResponseLost)))
    else (after, Reply(receipt, None))
  }

  function PayAgain(s: State, key: string): (State, Reply)
    requires key in s.idempotency
  {
    var receipt := s.idempotency[key].receipt.(duplicate := true);
    if Pending(s.faults.loseResponses, key) then
      (s.(faults := s.faults.(loseResponses := Spend(s.faults.loseResponses, key))),
       Reply(receipt, Some(ErrResponseLost)))
    else (s, Reply(receipt, None))
  }

  /** The first reason to refuse a new capture: funds, then regional rights, then the authority total. */
  function CaptureRefusal(s: State, region: string, amount: int): Option<Error>
    requires region in s.regions
  {
    var available := Add(Get(s.ledger.balances, User), s.creditLimit);
    if available.None? then Some(ErrAmountOverflow)
    else if available.value < amount then Some(ErrInsufficientFunds)
    else if s.regions[region].rights < amount then Some(ErrInsufficientRights)
    else if Sub(s.regions[region].rights, amount).None? then Some(ErrAmountOverflow)
    else if Sub(s.authorityTotal, amount).None? || s.authorityTotal - amount < 0 then Some(ErrInsufficientRights)
    else None
  }

  function Capture(s: State, region: string, key: string, op: string, amount: int): (State, Reply)
    requires region in s.regions
  {
    match Post(s.ledger, PaymentEffect(op), CaptureKind, PaymentRequest(op, amount), CaptureLines(s, region, amount))
    case Rejected(e) => (s, Failed(e))
    case Posted(ledger, receipt) =>
      FinishPay(AfterCapture(s, region, key, op, amount, ledger, receipt), region, key, receipt.(key := key))
  }

  function PayNew(s: State, region: string, key: string, op: string, amount: int): (State, Reply)
    requires region in s.regions
  {
    if Pending(s.faults.crashBefore, key) then
      (CrashNode(s.(faults := s.faults.(crashBefore := Spend(s.faults.crashBefore, key))), region),
       Failed(ErrCrashBeforeCommit))
    else
      var refusal := CaptureRefusal(s, region, amount);
      if refusal.Some? then (s, Failed(refusal.value)) else Capture(s, region, key, op, amount)
  }

  function Pay(s: State, fence: Fence, key: string, op: string, amount: int): (State, Reply) {
    var request := PaymentRequest(op, amount);
    var guard := Guard(s, fence);
    if guard.Some? then (s, Failed(guard.value))
    else if key == "" || op == "" || amount <= 0 then (s, Failed(ErrInvalidPosting))
    else if key in s.idempotency && s.idempotency[key].request == request then PayAgain(s, key)
    else if Known(s, key, request) then AnswerAgain(s, key, request)
    else PayNew(s, fence.region, key, op, amount)
  }

  // ----- operations that raise rights: deposit, release, cashback -----------

  function RaiseLines(s: State, from: Account, authority: Account, region: string, amount: int): seq<Line> {
    [Line(from, s.asset, Debit, amount), Line(User, s.asset, Credit, amount),
     Line(authority, AuthorityAsset(s), Debit, amount), Line(Regional(region), AuthorityAsset(s), Credit, amount)]
  }

  predicate RaiseOverflows(s: State, region: string, amount: int)
    requires region in s.regions
  {
    Add(s.regions[region].rights, amount).None? || Add(s.authorityTotal, amount).None?
  }

  function AfterRaise(s: State, region: string, amount: int, ledger: Ledger, event: OutboxRecord): State
    requires region in s.regions
  {
    s.(ledger := ledger,
       regions := WithRights(s, region, s.regions[region].rights + amount),
       authorityTotal := s.authorityTotal + amount,
       outbox := WithEvent(s, event))
  }

  function AfterDeposit(s: State, region: string, key: string, op: string, amount: int, ledger: Ledger,
                        receipt: Receipt): State
    requires region in s.regions
  {
    AfterRaise(s, region, amount, ledger,
               EventRecord(receipt, DepositConfirmedEvent, region, EffectName(DepositEffect(op)))).(
      idempotency := Answer(s, key, DepositRequest(op, amount), receipt))
  }

  function DepositNew(s: State, region: string, key: string, op: string, amount: int): (State, Reply)
    requires region in s.regions
  {
    if RaiseOverflows(s, region, amount) then (s, Failed(ErrAmountOverflow))
    else match Post(s.ledger, DepositEffect(op), DepositKind, DepositRequest(op, amount),
                    RaiseLines(s, Funding, Issuer, region, amount))
      case Rejected(e) => (s, Failed(e))
      case Posted(ledger, receipt) =>
        (AfterDeposit(s, region, key, op, amount, ledger, receipt), Reply(receipt.(key := key), None))
  }

  function Deposit(s: State, fence: Fence, key: string, op: string, amount: int): (State, Reply) {
    var request := DepositRequest(op, amount);
    var guard := Guard(s, fence);
    if guard.Some? then (s, Failed(guard.value))
    else if key == "" || op == "" || amount <= 0 then (s, Failed(ErrInvalidPosting))
    else if Known(s, key, request) then AnswerAgain(s, key, request)
    else DepositNew(s, fence.region, key, op, amount)
  }

  function Status(p: Payment): PaymentStatus {
    var released := Sum3(p.refunded, p.reversed, p.chargedBack).GetOr(0);
    if p.chargedBack > 0 then Disputed
    else if p.reversed > 0 && released == p.captured then Reversed
    else if p.refunded == p.captured then Refunded
    else if released > 0 then PartiallyRefunded
    else Captured
  }

  /** The payment after one more release of the given kind, with its status recomputed. */
  function Released(p: Payment, kind: ReleaseKind, amount: int): Payment {
    var counted := match kind
      case Refund => p.(refunded := Add(p.refunded, amount).GetOr(0))
      case Reversal => p.(reversed := Add(p.reversed, amount).GetOr(0))
      case Chargeback => p.(chargedBack := Add(p.chargedBack, amount).GetOr(0));
    counted.(status := Status(counted))
  }

  predicate ReleaseExceeds(p: Payment, amount: int) {
    var earlier := Sum3(p.refunded, p.reversed, p.chargedBack);
    earlier.None? || Add(earlier.value, amount).None? || earlier.value + amount > p.captured
  }

  function AfterRelease(s: State, region: string, key: string, release: string, payment: string, amount: int,
                        kind: ReleaseKind,
                        ledger: Ledger, receipt: Receipt): State
    requires region in s.regions && payment in s.payments
  {
    AfterRaise(s, region, amount, ledger,
               EventRecord(receipt, ReleaseConfirmedEvent(kind), region, EffectName(ReleaseEffect(kind, release)))).(
      payments := s.payments[payment := Released(s.payments[payment], kind, amount)],
      refunds := if kind == Refund then s.refunds[release := amount] else s.refunds,
      idempotency := Answer(s, key, ReleaseRequest(kind, release, payment, amount), receipt))
  }

  function ReleaseNew(s: State, region: string, key: string, release: string, payment: string, amount: int,
                      kind: ReleaseKind): (State, Reply)
    requires region in s.regions
  {
    if payment !in s.payments then (s, Failed(ErrPaymentNotFound))
    else if ReleaseExceeds(s.payments[payment], amount) then (s, Failed(ErrRefundExceeded))
    else if RaiseOverflows(s, region, amount) then (s, Failed(ErrAmountOverflow))
    else match Post(s.ledger, ReleaseEffect(kind, release), ReleaseKindOf(kind),
                    ReleaseRequest(kind, release, payment, amount),
                    RaiseLines(s, Merchant, Consumed, region, amount))
      case Rejected(e) => (s, Failed(e))
      case Posted(ledger, receipt) =>
        (AfterRelease(s, region, key, release, payment, amount, kind, ledger, receipt),
         Reply(receipt.(key := key), None))
  }

  function Release(s: State, fence: Fence, key: string, release: string, payment: string, amount: int,
                   kind: ReleaseKind): (State, Reply) {
    var request := ReleaseRequest(kind, release, payment, amount);
    var guard := Guard(s, fence);
    if guard.Some? then (s, Failed(guard.value))
    else if key == "" || release == "" || payment == "" || amount <= 0 then (s, Failed(ErrInvalidPosting))
    else if Known(s, key, request) then AnswerAgain(s, key, request)
    else ReleaseNew(s, fence.region, key, release, payment, amount, kind)
  }

  predicate CashbackExceeds(s: State, op: string, amount: int, maximum: int) {
    Add(Get(s.cashbackPaid, op), amount).None? || Get(s.cashbackPaid, op) + amount > maximum
  }

  function AfterCashback(s: State, region: string, key: string, grant: string, op: string, amount: int, maximum: int,
                         ledger: Ledger, receipt: Receipt): State
    requires region in s.regions
  {
    AfterRaise(s, region, amount, ledger, EventRecord(receipt, CashbackGrantedEvent, region, grant)).(
      cashbackRules := s.cashbackRules[op := maximum],
      cashbackPaid := s.cashbackPaid[op := Get(s.cashbackPaid, op) + amount],
      idempotency := Answer(s, key, CashbackRequest(grant, op, amount, maximum), receipt))
  }

  function CashbackNew(s: State, region: string, key: string, grant: string, op: string, amount: int,
                       maximum: int): (State, Reply)
    requires region in s.regions
  {
    if op in s.cashbackRules && s.cashbackRules[op] != maximum then (s, Failed(ErrEffectConflict))
    else if CashbackExceeds(s, op, amount, maximum) then (s, Failed(ErrCashbackExceeded))
    else if RaiseOverflows(s, region, amount) then (s, Failed(ErrAmountOverflow))
    else match Post(s.ledger, CashbackEffect(grant), CashbackKind, CashbackRequest(grant, op, amount, maximum),
                    RaiseLines(s, CashbackExpense, Issuer, region, amount))
      case Rejected(e) => (s, Failed(e))
      case Posted(ledger, receipt) =>
        (AfterCashback(s, region, key, grant, op, amount, maximum, ledger, receipt), Reply(receipt.(key := key), None))
  }

  function Cashback(s: State, fence: Fence, key: string, grant: string, op: string, amount: int,
                    maximum: int): (State, Reply) {
    var request := CashbackRequest(grant, op, amount, maximum);
    var guard := Guard(s, fence);
    if guard.Some? then (s, Failed(guard.value))
    else if key == "" || grant == "" || op == "" || amount <= 0 || maximum < 0 then (s, Failed(ErrInvalidPosting))
    else if Known(s, key, request) then AnswerAgain(s, key, request)
    else CashbackNew(s, fence.region, key, grant, op, amount, maximum)
  }

  // ----- rights transfer ---------------------------------------------------

  function ProofOf(key: string, c: Certificate): Digest {
    CertificateMac(key, c.transfer, c.asset, c.source, c.destination, c.amount, c.epoch, c.commit)
  }

  predicate Verified(key: string, asset: string, c: Certificate) {
    && c.transfer != "" && c.asset == asset && c.source != "" && c.destination != ""
    && c.source != c.destination && c.amount > 0 && c.epoch != 0 && c.commit != 0
    && c.proof == ProofOf(key, c)
  }

  function Certify(s: State, fence: Fence, id: string, destination: string, amount: int, commit: nat): Certificate {
    var unsigned := Certificate(id, s.asset, fence.region, destination, amount, fence.epoch, commit, ZeroDigest);
    unsigned.(proof := ProofOf(s.key, unsigned))
  }

  function TransferRecord(receipt: Receipt, c: Certificate): OutboxRecord {
    OutboxRecord(TransferMessage(c.transfer), RightsTransferEvent, c.source, c.destination,
                 receipt.tx, CertificatePayload(c), 0, false)
  }

  function TransferFailed(e: Error): TransferReply {
    TransferReply(None, false, Some(e))
  }

  function OutLines(s: State, region: string, amount: int): seq<Line> {
    [Line(Regional(region), AuthorityAsset(s), Debit, amount), Line(Transit, AuthorityAsset(s), Credit, amount)]
  }

  /** The state after a transfer leaves its source: rights debited, certificate stored, command queued for dispatch. */
  function AfterIssue(s: State, c: Certificate, ledger: Ledger, receipt: Receipt): State
    requires c.source in s.regions
  {
    s.(ledger := ledger,
       regions := WithRights(s, c.source, s.regions[c.source].rights - c.amount),
       transfers := s.transfers[c.transfer := Transfer(c, true, false, false, NO_RECEIPT)],
       outbox := WithEvent(s, TransferRecord(receipt, c)))
  }

  function InitiateNew(s: State, fence: Fence, id: string, destination: string, amount: int): (State, TransferReply)
    requires fence.region in s.regions
  {
    if s.regions[fence.region].rights < amount then (s, TransferFailed(ErrInsufficientRights))
    else if Sub(s.regions[fence.region].rights, amount).None? then (s, TransferFailed(ErrAmountOverflow))
    else match Post(s.ledger, TransferOutEffect(id), TransferOutKind,
                    TransferOutRequest(id, fence.region, destination, amount), OutLines(s, fence.region, amount))
      case Rejected(e) => (s, TransferFailed(e))
      case Posted(ledger, receipt) =>
        var c := Certify(s, fence, id, destination, amount, receipt.commit);
        (AfterIssue(s, c, ledger, receipt), TransferReply(Some(c), false, None))
  }

  function Initiate(s: State, fence: Fence, id: string, destination: string, amount: int): (State, TransferReply) {
    var guard := Guard(s, fence);
    if guard.Some? then (s, TransferFailed(guard.value))
    else if id == "" || destination == "" || fence.region == destination || amount <= 0
    then (s, TransferFailed(ErrTransferInvalid))
    else if destination !in s.regions then (s, TransferFailed(ErrTransferInvalid))
    else if id in s.transfers then
      var c := s.transfers[id].certificate;
      if c.source != fence.region || c.destination != destination || c.amount != amount
      then (s, TransferFailed(ErrTransferConflict))
      else (s, TransferReply(Some(c), true, None))
    else InitiateNew(s, fence, id, destination, amount)
  }

  function ConsumeFailed(e: Error): ConsumeReply {
    ConsumeReply(NO_RECEIPT, false, Some(e))
  }

  function InLines(s: State, region: string, amount: int): seq<Line> {
    [Line(Transit, AuthorityAsset(s), Debit, amount), Line(Regional(region), AuthorityAsset(s), Credit, amount)]
  }

  /** Why a certificate is refused at its destination, if it is. */
  function ConsumeRefusal(s: State, c: Certificate): Option<Error> {
    if c.destination !in s.regions || !s.regions[c.destination].running then Some(ErrRegionDown)
    else if !HasQuorum(s) then Some(ErrNoQuorum)
    else if !Verified(s.key, s.asset, c) then Some(ErrTransferInvalid)
    else if c.transfer !in s.transfers || s.transfers[c.transfer].certificate != c then Some(ErrTransferConflict)
    else None
  }

  /** After a first or repeated consumption the destination may crash before it answers. */
  function FinishConsume(s: State, m: MessageId, region: string, receipt: Receipt,
                         duplicate: bool): (State, ConsumeReply)
    requires region in s.regions
  {
    var after := s.(faults := s.faults.(consumerCrash := Spend(s.faults.consumerCrash, m)));
    if Pending(s.faults.consumerCrash, m)
    then (CrashNode(after, region), ConsumeReply(receipt, duplicate, Some(ErrConsumerCrash)))
    else (after, ConsumeReply(receipt, duplicate, None))
  }

  /** The state right after the destination's first consumption commits under message m. */
  function AfterConsume(s: State, m: MessageId, c: Certificate, ledger: Ledger, receipt: Receipt): State
    requires c.destination in s.regions && c.transfer in s.transfers
  {
    var t := s.transfers[c.transfer];
    s.(ledger := ledger,
       regions := WithRights(s, c.destination, s.regions[c.destination].rights + c.amount),
       transfers := s.transfers[c.transfer := t.(inTransit := false, consumed := true, receipt := receipt)],
       inbox := s.inbox[m := InboxRecord(m, CertificatePayload(c), receipt.effect, 0)])
  }

  /** A message that was consumed before only counts as a duplicate, provided it repeats the same certificate. */
  function ConsumeAgain(s: State, m: MessageId, c: Certificate): (State, ConsumeReply)
    requires m in s.inbox && c.destination in s.regions && c.transfer in s.transfers
  {
    if s.inbox[m].payload != CertificatePayload(c) then (s, ConsumeFailed(ErrTransferConflict))
    else
      FinishConsume(s.(inbox := s.inbox[m := s.inbox[m].(duplicates := s.inbox[m].duplicates + 1)]),
                    m, c.destination, s.transfers[c.transfer].receipt.(duplicate := true), true)
  }

  function ConsumeNew(s: State, m: MessageId, c: Certificate): (State, ConsumeReply)
    requires c.destination in s.regions && c.transfer in s.transfers
  {
    if s.transfers[c.transfer].consumed || !s.transfers[c.transfer].inTransit
    then (s, ConsumeFailed(ErrTransferConflict))
    else if Add(s.regions[c.destination].rights, c.amount).None? then (s, ConsumeFailed(ErrAmountOverflow))
    else match Post(s.ledger, TransferInEffect(c.transfer), TransferInKind, TransferInRequest(c.transfer, c.proof),
                    InLines(s, c.destination, c.amount))
      case Rejected(e) => (s, ConsumeFailed(e))
      case Posted(ledger, receipt) =>
        FinishConsume(AfterConsume(s, m, c, ledger, receipt), m, c.destination, receipt, false)
  }

  function Consume(s: State, m: MessageId, c: Certificate): (State, ConsumeReply) {
    var refusal := ConsumeRefusal(s, c);
    if refusal.Some? then (s, ConsumeFailed(refusal.value))
    else if m in s.inbox then ConsumeAgain(s, m, c)
    else ConsumeNew(s, m, c)
  }

  // ----- dispatch, delivery and acknowledgement ------------------------------

  predicate Waiting(r: OutboxRecord) {
    r.kind == RightsTransferEvent && !r.acknowledged
  }

  function Attempted(outbox: map<MessageId, OutboxRecord>): map<MessageId, OutboxRecord> {
    map m | m in outbox :: if Waiting(outbox[m]) then outbox[m].(attempts := outbox[m].attempts + 1) else outbox[m]
  }

  function CommandFor(r: OutboxRecord): Envelope {
    Envelope(r.id, r.source, r.destination, Command, r.id, r.payload, 0, 0)
  }

  /** Sends the records of the first k listed messages, in list order. */
  function SendEach(net: Net, outbox: map<MessageId, OutboxRecord>, ids: seq<MessageId>, k: nat): (Net, seq<Error>)
    requires k <= |ids| && forall i | 0 <= i < |ids| :: ids[i] in outbox
  {
    if k == 0 then (net, [])
    else
      var (before, errors) := SendEach(net, outbox, ids, k - 1);
      var (after, error) := Sent(before, CommandFor(outbox[ids[k - 1]]));
      (after, if error.Some? then errors + [error.value] else errors)
  }

  function Dispatch(s: State, ids: seq<MessageId>): (State, seq<Error>)
    requires forall i | 0 <= i < |ids| :: ids[i] in s.outbox
  {
    var (net, errors) := SendEach(s.net, s.outbox, ids, |ids|);
    (s.(outbox := Attempted(s.outbox), net := net), errors)
  }

  function AckFor(m: MessageId, c: Certificate): Envelope {
    Envelope(AckMessage(c.transfer), c.destination, c.source, Ack, m, ProofPayload(c.proof), 0, 0)
  }

  predicate AckAccepted(s: State, e: Envelope) {
    && e.correlation in s.outbox && s.outbox[e.correlation].kind == RightsTransferEvent
    && e.correlation.TransferMessage?
    && e.correlation.transfer in s.transfers
    && s.transfers[e.correlation.transfer].consumed
    && e.payload == ProofPayload(s.transfers[e.correlation.transfer].certificate.proof)
  }

  function AcceptAck(s: State, e: Envelope): (State, Option<Error>) {
    if !AckAccepted(s, e) then (s, Some(ErrTransferInvalid))
    else
      var m, id := e.correlation, e.correlation.transfer;
      (s.(outbox := s.outbox[m := s.outbox[m].(acknowledged := true)],
          transfers := s.transfers[id := s.transfers[id].(acknowledged := true)]), None)
  }

  function DeliverOne(s: State, e: Envelope): (State, Option<Error>) {
    match e.kind
    case Command =>
      if !e.payload.CertificatePayload? then (s, Some(ErrUndecodable))
      else
        var c := e.payload.certificate;
        var (consumed, reply) := Consume(s, e.id, c);
        if reply.error.Some? then (consumed, reply.error)
        else
          var (net, error) := Sent(consumed.net, AckFor(e.id, c));
          (consumed.(net := net), error)
    case Ack => AcceptAck(s, e)
    case Event => (s, Some(ErrUnexpectedKind))
    case Response => (s, Some(ErrUnexpectedKind))
  }

  /** Delivers the first k envelopes in order. */
  function DeliverEach(s: State, es: seq<Envelope>, k: nat): (State, seq<Error>)
    requires k <= |es|
  {
    if k == 0 then (s, [])
    else
      var (before, errors) := DeliverEach(s, es, k - 1);
      var (after, error) := DeliverOne(before, es[k - 1]);
      (after, if error.Some? then errors + [error.value] else errors)
  }

  /** One broker round: drain the network, then consume commands and accept acknowledgements. */
  function Deliver(s: State): (State, seq<Error>) {
    var (net, es) := Drained(s.net);
    DeliverEach(s.(net := net), es, |es|)
  }

  // ----- sagas -------------------------------------------------------------

  function StartSaga(s: State, id: string, region: string, op: string, amount: int): (State, SagaReply) {
    if id == "" || op == "" || amount <= 0 then (s, SagaReply(None, Some(ErrInvalidPosting)))
    else if id in s.sagas then
      var g := s.sagas[id];
      if g.region != region || g.operation != op || g.amount != amount
      then (s, SagaReply(None, Some(ErrEffectConflict)))
      else (s, SagaReply(Some(g), None))
    else
      var g := Saga(id, region, op, amount, 0, false, NO_RECEIPT);
      (s.(sagas := s.sagas[id := g]), SagaReply(Some(g), None))
  }

  function SagaKey(id: string): string {
    "saga:" + id + ":payment"
  }

  predicate CommittedAnyway(e: Option<Error>) {
    e.None? || e.value == ErrResponseLost || e.value == ErrCrashAfterCommit
  }

  /** The payment of step zero, made under the fence its region holds at that moment. */
  function SagaPay(s: State, g: Saga): (State, Reply) {
    if g.region !in s.regions || !s.regions[g.region].running then (s, Failed(ErrRegionDown))
    else Pay(s, Fence(g.region, s.regions[g.region].epoch), SagaKey(g.id), g.operation, g.amount)
  }

  function AdvanceSaga(s: State, id: string): (State, SagaReply) {
    if !s.coordinatorRunning then (s, SagaReply(None, Some(ErrCoordinatorDown)))
    else if id !in s.sagas then (s, SagaReply(None, Some(ErrEffectConflict)))
    else
      var g := s.sagas[id];
      if g.nextStep == 0 then
        var (paid, reply) := SagaPay(s, g);
        if !CommittedAnyway(reply.error) then (paid, SagaReply(Some(g), reply.error))
        else if Pending(paid.faults.coordinatorCrash, id) then
          (paid.(faults := paid.faults.(coordinatorCrash := Spend(paid.faults.coordinatorCrash, id)),
                 coordinatorRunning := false),
           SagaReply(Some(g), Some(ErrCoordinatorCrash)))
        else
          var g' := g.(receipt := reply.receipt, nextStep := 1);
          (paid.(sagas := paid.sagas[id := g']), SagaReply(Some(g'), None))
      else if g.nextStep == 1 then
        var g' := g.(nextStep := 2, completed := true);
        (s.(sagas := s.sagas[id := g']), SagaReply(Some(g'), None))
      else (s, SagaReply(Some(g), None))
  }

  // ----- delayed fraud verdicts --------------------------------------------

  function ScheduleVerdict(s: State, event: string, payment: string, fraudulent: bool,
                           delay: nat): (State, Option<Error>) {
    if event == "" || payment == "" then (s, Some(ErrInvalidPosting))
    else if payment !in s.payments then (s, Some(ErrPaymentNotFound))
    else if event in s.verdicts then
      if s.verdicts[event].payment != payment || s.verdicts[event].fraudulent != fraudulent
      then (s, Some(ErrEffectConflict)) else (s, None)
    else (s.(verdicts := s.verdicts[event := Verdict(payment, fraudulent, (s.tick + delay) % TICKS, false)]), None)
  }

  function Settle(s: State, event: string): (after: State)
    requires event in s.verdicts
    ensures after.verdicts.Keys == s.verdicts.Keys
  {
    s.(verdicts := s.verdicts[event := s.verdicts[event].(processed := true)])
  }

  function AfterFraud(s: State, event: string, payment: string, rest: int, ledger: Ledger,
                      receipt: Receipt): (after: State)
    requires event in s.verdicts && payment in s.payments && s.payments[payment].region in s.regions
    ensures after.verdicts.Keys == s.verdicts.Keys
  {
    var p := s.payments[payment];
    AfterRaise(s, p.region, rest, ledger, EventRecord(receipt, FraudReversalEvent, p.region, event)).(
      payments := s.payments[payment := Released(p, Chargeback, rest)],
      verdicts := s.verdicts[event := s.verdicts[event].(processed := true)])
  }

  /** Reverses what is left of a fraudulent payment's capture in the region that captured it. */
  function ReverseRest(s: State, event: string, payment: string, rest: int): (r: (State, Option<Error>))
    requires event in s.verdicts && payment in s.payments
    ensures r.0.verdicts.Keys == s.verdicts.Keys
  {
    hide AfterFraud, Settle, AfterRaise, Post, RaiseOverflows, RaiseLines;
    var p := s.payments[payment];
    if p.region !in s.regions then (s, Some(ErrRegionDown))
    else if RaiseOverflows(s, p.region, rest) then (s, Some(ErrAmountOverflow))
    else match Post(s.ledger, FraudEffect(event), FraudKind, FraudRequest(event, p.operation, rest),
                    RaiseLines(s, Merchant, Consumed, p.region, rest))
      case Rejected(e) => (s, Some(e))
      case Posted(ledger, receipt) =>
        (if receipt.duplicate then Settle(s, event) else AfterFraud(s, event, payment, rest, ledger, receipt), None)
  }

  /** One due verdict: a fraudulent payment has whatever is left of its capture charged back. */
  function JudgeOne(s: State, event: string): (r: (State, Option<Error>))
    requires event in s.verdicts
    ensures r.0.verdicts.Keys == s.verdicts.Keys
  {
    hide Settle, ReverseRest, HasQuorum, Sum3, Sub;
    var v := s.verdicts[event];
    if !v.fraudulent then (Settle(s, event), None)
    else if !HasQuorum(s) then (s, Some(ErrNoQuorum))
    else if v.payment !in s.payments then (s, Some(ErrPaymentNotFound))
    else
      var p := s.payments[v.payment];
      var rest := Sub(p.captured, Sum3(p.refunded, p.reversed, p.chargedBack).GetOr(0));
      if rest.None? || rest.value < 0 then (s, Some(ErrRefundExceeded))
      else if rest.value == 0 then (Settle(s, event), None)
      else ReverseRest(s, event, v.payment, rest.value)
  }

  function JudgeEach(s: State, events: seq<string>, k: nat): (State, seq<Error>)
    requires k <= |events| && forall i | 0 <= i < |events| :: events[i] in s.verdicts
    ensures JudgeEach(s, events, k).0.verdicts.Keys == s.verdicts.Keys
  {
    if k == 0 then (s, [])
    else
      var (before, errors) := JudgeEach(s, events, k - 1);
      var (after, error) := JudgeOne(before, events[k - 1]);
      (after, if error.Some? then errors + [error.value] else errors)
  }

  function Later(s: State, ticks: nat): State {
    s.(tick := (s.tick + ticks) % TICKS)
  }

  function Due(s: State): set<string> {
    set e | e in s.verdicts && !s.verdicts[e].processed && s.verdicts[e].due <= s.tick
  }

  function AdvanceTicks(s: State, ticks: nat, events: seq<string>): (State, seq<Error>)
    requires forall i | 0 <= i < |events| :: events[i] in s.verdicts
  {
    JudgeEach(Later(s, ticks), events, |events|)
  }

  // ----- crashes and restarts ----------------------------------------------

  function CrashRegion(s: State, region: string): State {
    if region in s.regions then CrashNode(s, region) else s
  }

  function RestartRegion(s: State, region: string): State {
    if region !in s.regions then s
    else
      var r := s.regions[region];
      s.(regions := s.regions[region := r.(epoch := r.epoch + 1, running := true)],
         net := s.net.(down := s.net.down - {region}))
  }

  function SetDC(s: State, dc: string, healthy: bool): State {
    if dc in s.dcHealthy then s.(dcHealthy := s.dcHealthy[dc := healthy]) else s
  }

  // ----- genesis -----------------------------------------------------------

  datatype Config = Config(
    asset: string, initialBalance: Amount, creditLimit: Amount, unallocated: Amount,
    regionalRights: map<string, Amount>, key: string)

  function InitialRegions(config: Config): map<string, Region> {
    map["A" := Region(1, true, 0), "B" := Region(1, true, 0), "C" := Region(1, true, 0)] +
    map n | n in config.regionalRights :: Region(1, true, config.regionalRights[n])
  }

  function RegionLines(asset: string, regions: map<string, Region>, names: seq<string>, k: nat): seq<Line>
    requires k <= |names| && forall i | 0 <= i < |names| :: names[i] in regions
  {
    if k == 0 then []
    else
      var earlier := RegionLines(asset, regions, names, k - 1);
      if regions[names[k - 1]].rights > 0
      then earlier + [Line(Regional(names[k - 1]), asset, Credit, regions[names[k - 1]].rights)] else earlier
  }

  function MoneyLines(asset: string, balance: int): seq<Line> {
    if balance > 0 then [Line(Funding, asset, Debit, balance), Line(User, asset, Credit, balance)] else []
  }

  function AuthorityLines(asset: string, authority: int, unallocated: int, regions: map<string, Region>,
                          names: seq<string>): seq<Line>
    requires forall i | 0 <= i < |names| :: names[i] in regions
  {
    if authority > 0 then
      [Line(Issuer, asset, Debit, authority)] +
      (if unallocated > 0 then [Line(Unallocated, asset, Credit, unallocated)] else []) +
      RegionLines(asset, regions, names, |names|)
    else []
  }

  const NO_FAULTS := Faults(map[], map[], map[], map[], map[])

  function HealthyDCs(): map<string, bool> {
    map["dc01" := true, "dc02" := true, "dc03" := true, "dc04" := true, "dc05" := true, "dc06" := true,
        "dc07" := true, "dc08" := true, "dc09" := true, "dc10" := true, "dc11" := true, "dc12" := true]
  }

  function NewNet(lot: (nat, MessageId) -> nat): Net {
    Net(0, 0, 0, false, {}, {}, map[], map[], map[], [], lot)
  }

  /** Stands in for a missing certificate key. */
  const DEFAULT_KEY := "payment-platform/failuresim/deterministic-certificate-key/v1"

  /** The world before its genesis posting. */
  function Blank(config: Config, lot: (nat, MessageId) -> nat): State {
    State(config.asset, config.creditLimit, config.unallocated, config.initialBalance + config.creditLimit,
          if config.key == "" then DEFAULT_KEY else config.key,
          InitialRegions(config), EMPTY_LEDGER, map[], map[], map[], map[], map[], map[], map[], map[],
          NO_FAULTS, true, map[], 0, map[], HealthyDCs(), NewNet(lot))
  }
}
