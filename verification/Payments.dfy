/** The payment lifecycle of one cell, with the money and the spending rights each operation moves. */
module Payments {
  import opened Amounts
  import opened Totals
  import opened Escrow
  import opened Sorting

  datatype State =
    | Created | Authorized | Held | PartiallyCaptured | Captured | Settled | PartiallyRefunded
    | Refunded | Reversed | Disputed | ChargedBack | Failed | Unknown

  datatype Role = AvailableRole | HeldRole | MerchantRole | FeeRole | TaxRole | CashbackRole | FundingRole
      | SettlementRole

  datatype Account = Account(role: Role, book: string, asset: string, enforced: bool)

  /** The financial authority of one capture. */
  datatype CaptureRow = CaptureRow(captured: int, cashback: int, refunded: int, chargedBack: int)

  datatype Payment = Payment(
    scope: string, asset: string, available: string, held: string, merchant: string, region: string, state: State,
    authorized: int, captured: int, released: int, refunded: int, chargedBack: int,
    fee: int, tax: int, cashback: int, cashbackRule: int,
    holdCaptured: int, holdReleased: int, captures: map<string, CaptureRow>)

  datatype Request =
    | HoldRequest(book: string, asset: string, available: string, held: string, merchant: string,
                  amount: int, cashbackRule: int, region: string)
    | CaptureRequest(payment: string, book: string, asset: string, amount: int, fee: int, tax: int, cashback: int,
                     feeAccount: string, taxAccount: string, cashbackAccount: string)
    | ReleaseRequest(payment: string, book: string, asset: string, amount: int, reversal: bool)
    | ReturnRequest(payment: string, book: string, asset: string, capture: string, debit: string, amount: int,
                    chargeback: bool)

  datatype PaymentReceipt = PaymentReceipt(payment: string, state: State, amount: int, transaction: string,
                                           duplicate: bool)

  /** The operation names a request's idempotency scope is qualified with. */
  datatype Call = Call(scope: string, operation: string, key: string)

  datatype Answer = Answer(request: Request, receipt: PaymentReceipt)

  datatype TransferCall = TransferCall(id: string, payer: string, payee: string, asset: string, amount: int)

  datatype TransferReceipt = TransferReceipt(id: string, payerTx: string, payeeTx: string, crossBook: bool,
                                             duplicate: bool)

  datatype TransferKey = TransferKey(scope: string, key: string)

  datatype TransferAnswer = TransferAnswer(request: TransferCall, receipt: TransferReceipt)

  datatype Cell = Cell(
    accounts: map<string, Account>, balances: map<string, int>, books: map<Holder, Book>,
    settlements: map<Holder, string>, payments: map<string, Payment>, answers: map<Call, Answer>,
    transfers: map<TransferKey, TransferAnswer>)

  datatype Error =
    | ErrInvalidRequest | ErrNotFound | ErrInvalidTransition | ErrOverCapture | ErrOverRefund | ErrCashbackRule
    | ErrPosting | ErrRights | ErrConflict | ErrOverflow

  datatype Outcome = Done(cell: Cell, receipt: PaymentReceipt) | Refused(error: Error)

  // ----- the state machine ----------------------------------------------------------------

  function Edges(from: State): set<State> {
    match from
    case Created => {Authorized, Held, Failed, Unknown}
    case Authorized => {Held, Captured, Reversed, Failed, Unknown}
    case Held => {PartiallyCaptured, Captured, Reversed, Unknown}
    case PartiallyCaptured => {Captured, Reversed, Unknown}
    case Captured => {Settled, PartiallyRefunded, Refunded, Disputed, ChargedBack, Unknown}
    case Settled => {PartiallyRefunded, Refunded, Disputed, ChargedBack}
    case PartiallyRefunded => {Refunded, Disputed, ChargedBack}
    case Disputed => {ChargedBack, Settled, PartiallyRefunded, Refunded}
    case Unknown => {Authorized, Held, Captured, Settled, Failed, Reversed}
    case _ => {}
  }

  predicate CanTransition(from: State, to: State) {
    from == to || to in Edges(from)
  }

  function CaptureState(authorized: int, captured: int, released: int): Option<State> {
    if !Fits(captured + released) || captured + released > authorized then None
    else Some(if captured + released == authorized && captured > 0 then Captured else PartiallyCaptured)
  }

  function RefundState(captured: int, refunded: int, chargedBack: int): Option<State> {
    if !Fits(refunded + chargedBack) || refunded + chargedBack > captured then None
    else if refunded + chargedBack == captured
    then Some(if chargedBack > 0 && refunded == 0 then ChargedBack else Refunded)
    else Some(PartiallyRefunded)
  }

  // ----- moving money and rights -------------------------------------------------------------

  datatype Leg = Leg(from: string, to: string, amount: int)

  function Shift(b: map<string, int>, l: Leg): map<string, int> {
    var debited := b[l.from := Get(b, l.from) - l.amount];
    debited[l.to := Get(debited, l.to) + l.amount]
  }

  function Shifted(b: map<string, int>, legs: seq<Leg>, n: nat): map<string, int>
    requires n <= |legs|
  {
    if n == 0 then b else Shift(Shifted(b, legs, n - 1), legs[n - 1])
  }

  /** A leg stays inside one book and one asset and moves a positive amount. */
  predicate LegOk(accounts: map<string, Account>, book: string, asset: string, l: Leg) {
    && l.amount > 0 && l.from != l.to && l.from in accounts && l.to in accounts
    && accounts[l.from].book == book && accounts[l.to].book == book
    && accounts[l.from].asset == asset && accounts[l.to].asset == asset
  }

  /** A balance the ledger may store: representable, and not negative where the spend limit is enforced. */
  predicate BalanceOk(accounts: map<string, Account>, b: map<string, int>, a: string) {
    Fits(Get(b, a)) && (a in accounts && accounts[a].enforced ==> Get(b, a) >= 0)
  }

  /** One ledger transaction of one book, or nothing when the ledger refuses it. */
  function PostLegs(c: Cell, book: string, asset: string, legs: seq<Leg>): Option<map<string, int>> {
    var after := Shifted(c.balances, legs, |legs|);
    if legs != [] && (forall i | 0 <= i < |legs| :: LegOk(c.accounts, book, asset, legs[i])) &&
       (forall i | 0 <= i < |legs| ::
          BalanceOk(c.accounts, after, legs[i].from) && BalanceOk(c.accounts, after, legs[i].to))
    then Some(after) else None
  }

  /** The rights after a spend or a return in one region; unchanged when the payment names no region. */
  function MoveRights(books: map<Holder, Book>, kind: EffectKind, h: Holder, region: string,
                      amount: int): Option<map<Holder, Book>> {
    if region == "" then Some(books)
    else if h !in books then None
    else
      var (b, error) := Mutated(books[h], kind, region, amount);
      if error.Some? then None else Some(books[h := b])
  }

  predicate HasRole(c: Cell, a: string, role: Role) {
    a in c.accounts && c.accounts[a].role == role
  }

  predicate CaptureInvalid(q: Request)
    requires q.CaptureRequest?
  {
    || q.payment == "" || q.book == "" || q.asset == "" || q.amount <= 0 || q.fee < 0 || q.tax < 0 || q.cashback < 0
    || !Fits(q.fee + q.tax) || q.fee + q.tax > q.amount
    || (q.fee > 0 && q.feeAccount == "") || (q.tax > 0 && q.taxAccount == "")
    || (q.cashback > 0 && q.cashbackAccount == "")
  }

  predicate HoldInvalid(q: Request)
    requires q.HoldRequest?
  {
    || q.book == "" || q.asset == "" || q.available == "" || q.held == "" || q.merchant == ""
    || q.amount <= 0 || q.cashbackRule < 0
  }

  /** The checks made before anything is read. */
  predicate Malformed(q: Request) {
    match q
    case HoldRequest(_, _, _, _, _, _, _, _) => HoldInvalid(q)
    case CaptureRequest(_, _, _, _, _, _, _, _, _, _) => CaptureInvalid(q)
    case ReleaseRequest(payment, book, asset, amount, _) => payment == "" || book == "" || asset == "" || amount <= 0
    case ReturnRequest(payment, book, asset, capture, debit, amount, _) =>
      payment == "" || book == "" || asset == "" || capture == "" || debit == "" || amount <= 0
  }

  // ----- hold --------------------------------------------------------------------------------

  function NewPayment(scope: string, q: Request): Payment
    requires q.HoldRequest?
  {
    Payment(scope, q.asset, q.available, q.held, q.merchant, q.region, Held, q.amount, 0, 0, 0, 0, 0, 0, 0,
            q.cashbackRule, 0, 0, map[])
  }

  function Hold(c: Cell, scope: string, q: Request, id: string, tx: string): Outcome
    requires q.HoldRequest?
  {
    if Malformed(q) then Refused(ErrInvalidRequest)
    else if !HasRole(c, q.available, AvailableRole) || !HasRole(c, q.held, HeldRole)
            || !HasRole(c, q.merchant, MerchantRole)
    then Refused(ErrPosting)
    else
      var balances := PostLegs(c, q.book, q.asset, [Leg(q.available, q.held, q.amount)]);
      if balances.None? then Refused(ErrPosting)
      else
        var books := MoveRights(c.books, Spend, Holder(q.available, q.asset), q.region, q.amount);
        if books.None? then Refused(ErrRights)
        else Done(c.(balances := balances.value, books := books.value,
                     payments := c.payments[id := NewPayment(scope, q)]),
                  PaymentReceipt(id, Held, q.amount, tx, false))
  }

  // ----- capture -------------------------------------------------------------------------------

  function CaptureLegs(p: Payment, q: Request): seq<Leg>
    requires q.CaptureRequest?
  {
    (if q.amount - q.fee - q.tax > 0 then [Leg(p.held, p.merchant, q.amount - q.fee - q.tax)] else []) +
    (if q.fee > 0 then [Leg(p.held, q.feeAccount, q.fee)] else []) +
    (if q.tax > 0 then [Leg(p.held, q.taxAccount, q.tax)] else [])
  }

  predicate CaptureRoles(c: Cell, q: Request)
    requires q.CaptureRequest?
  {
    && (q.fee > 0 ==> HasRole(c, q.feeAccount, FeeRole)) && (q.tax > 0 ==> HasRole(c, q.taxAccount, TaxRole))
    && (q.cashback > 0 ==> HasRole(c, q.cashbackAccount, CashbackRole))
  }

  function AfterCapture(p: Payment, q: Request, tx: string, state: State): Payment
    requires q.CaptureRequest?
  {
    p.(captured := p.captured + q.amount, fee := p.fee + q.fee, tax := p.tax + q.tax,
       cashback := p.cashback + q.cashback,
       state := state, holdCaptured := p.captured + q.amount,
       captures := p.captures[tx := CaptureRow(q.amount, q.cashback, 0, 0)])
  }

  /** The balances after the capture and, when there is any, its cashback. */
  function CaptureMoney(c: Cell, p: Payment, q: Request): Option<map<string, int>>
    requires q.CaptureRequest?
  {
    var captured := PostLegs(c, q.book, q.asset, CaptureLegs(p, q));
    if captured.None? || q.cashback == 0 then captured
    else PostLegs(c.(balances := captured.value), q.book, q.asset, [Leg(q.cashbackAccount, p.available, q.cashback)])
  }

  function Capture(c: Cell, scope: string, q: Request, tx: string): Outcome
    requires q.CaptureRequest?
  {
    if Malformed(q) then Refused(ErrInvalidRequest)
    else if q.payment !in c.payments || c.payments[q.payment].scope != scope then Refused(ErrNotFound)
    else if c.payments[q.payment].asset != q.asset then Refused(ErrInvalidRequest)
    else if c.payments[q.payment].state !in {Held, PartiallyCaptured} then Refused(ErrInvalidTransition)
    else CaptureKnown(c, c.payments[q.payment], q, tx)
  }

  function CaptureKnown(c: Cell, p: Payment, q: Request, tx: string): Outcome
    requires q.CaptureRequest?
  {
    if !Fits(p.captured + q.amount) then Refused(ErrOverflow)
    else if CaptureState(p.authorized, p.captured + q.amount, p.released).None? then Refused(ErrOverCapture)
    else if !Fits(p.cashback + q.cashback) || p.cashback + q.cashback > p.cashbackRule then Refused(ErrCashbackRule)
    else if !CaptureRoles(c, q) then Refused(ErrPosting)
    else
      var state := CaptureState(p.authorized, p.captured + q.amount, p.released).value;
      var balances := CaptureMoney(c, p, q);
      if balances.None? then Refused(ErrPosting)
      else
        var books := if q.cashback == 0 then Some(c.books)
                     else MoveRights(c.books, Return, Holder(p.available, p.asset), p.region, q.cashback);
        if books.None? then Refused(ErrRights)
        else Done(c.(balances := balances.value, books := books.value,
                     payments := c.payments[q.payment := AfterCapture(p, q, tx, state)]),
                  PaymentReceipt(q.payment, state, q.amount, tx, false))
  }

  // ----- release and reversal ----------------------------------------------------------------------

  function ReleaseState(p: Payment, released: int): State {
    if p.captured + released == p.authorized then (if p.captured == 0 then Reversed else Captured)
    else if p.captured > 0 then PartiallyCaptured
    else Held
  }

  function Release(c: Cell, scope: string, q: Request, tx: string): Outcome
    requires q.ReleaseRequest?
  {
    if Malformed(q) then Refused(ErrInvalidRequest)
    else if q.payment !in c.payments || c.payments[q.payment].scope != scope then Refused(ErrNotFound)
    else if c.payments[q.payment].asset != q.asset then Refused(ErrInvalidRequest)
    else if c.payments[q.payment].state !in {Held, PartiallyCaptured} then Refused(ErrInvalidTransition)
    else if q.reversal && c.payments[q.payment].captured != 0 then Refused(ErrInvalidTransition)
    else ReleaseKnown(c, c.payments[q.payment], q, tx)
  }

  function ReleaseKnown(c: Cell, p: Payment, q: Request, tx: string): Outcome
    requires q.ReleaseRequest?
  {
    var released := p.released + q.amount;
    var used := p.captured + released;
    if !Fits(released) then Refused(ErrOverflow)
    else if !Fits(used) || used > p.authorized || (q.reversal && used != p.authorized) then Refused(ErrOverCapture)
    else
      var balances := PostLegs(c, q.book, q.asset, [Leg(p.held, p.available, q.amount)]);
      var books := MoveRights(c.books, Return, Holder(p.available, p.asset), p.region, q.amount);
      if balances.None? then Refused(ErrPosting)
      else if books.None? then Refused(ErrRights)
      else
        Done(c.(balances := balances.value, books := books.value,
                payments := c.payments[q.payment := AfterRelease(p, released)]),
             PaymentReceipt(q.payment, ReleaseState(p, released), q.amount, tx, false))
  }

  function AfterRelease(p: Payment, released: int): Payment {
    p.(released := released, state := ReleaseState(p, released), holdReleased := released)
  }

  // ----- refund and chargeback -----------------------------------------------------------------------

  ghost function RefundedOf(captures: map<string, CaptureRow>): map<string, int> {
    map t | t in captures :: captures[t].refunded
  }

  ghost function ChargedBackOf(captures: map<string, CaptureRow>): map<string, int> {
    map t | t in captures :: captures[t].chargedBack
  }

  function Returned(row: CaptureRow, amount: int, chargeback: bool): CaptureRow {
    if chargeback then row.(chargedBack := row.chargedBack + amount) else row.(refunded := row.refunded + amount)
  }

  ghost function GiveBack(c: Cell, q: Request, tx: string): Outcome
    requires q.ReturnRequest?
  {
    if Malformed(q) then Refused(ErrInvalidRequest)
    else if q.payment !in c.payments then Refused(ErrNotFound)
    else if c.payments[q.payment].asset != q.asset then Refused(ErrInvalidRequest)
    else if c.payments[q.payment].state in {Refunded, ChargedBack} then Refused(ErrOverRefund)
    else if c.payments[q.payment].state !in {Captured, Settled, PartiallyRefunded, Disputed}
    then Refused(ErrInvalidTransition)
    else ReturnKnown(c, c.payments[q.payment], q, tx)
  }

  /** The payment after one more return, its aggregates refolded from the capture rows. */
  ghost function AfterReturn(p: Payment, q: Request): Payment
    requires q.ReturnRequest? && q.capture in p.captures
  {
    var captures := p.captures[q.capture := Returned(p.captures[q.capture], q.amount, q.chargeback)];
    var refunded, chargedBack := Total(RefundedOf(captures)), Total(ChargedBackOf(captures));
    p.(captures := captures, refunded := refunded, chargedBack := chargedBack,
       state := RefundState(p.captured, refunded, chargedBack).GetOr(p.state))
  }

  ghost function ReturnKnown(c: Cell, p: Payment, q: Request, tx: string): Outcome
    requires q.ReturnRequest?
  {
    if q.capture !in p.captures then Refused(ErrInvalidRequest)
    else if p.captures[q.capture].refunded + p.captures[q.capture].chargedBack
            + q.amount > p.captures[q.capture].captured
    then Refused(ErrOverRefund)
    else
      var p' := AfterReturn(p, q);
      if RefundState(p.captured, p'.refunded, p'.chargedBack).None? then Refused(ErrOverRefund)
      else if !HasRole(c, q.debit, MerchantRole) then Refused(ErrPosting)
      else
        var balances := PostLegs(c, q.book, q.asset, [Leg(q.debit, p.available, q.amount)]);
        var books := MoveRights(c.books, Return, Holder(p.available, p.asset), p.region, q.amount);
        if balances.None? then Refused(ErrPosting)
        else if books.None? then Refused(ErrRights)
        else Done(c.(balances := balances.value, books := books.value, payments := c.payments[q.payment := p']),
                  PaymentReceipt(q.payment, p'.state, q.amount, tx, false))
  }

  // ----- one call ---------------------------------------------------------------------------------------

  ghost function Operate(c: Cell, scope: string, q: Request, id: string, tx: string): Outcome {
    match q
    case HoldRequest(_, _, _, _, _, _, _, _) => Hold(c, scope, q, id, tx)
    case CaptureRequest(_, _, _, _, _, _, _, _, _, _) => Capture(c, scope, q, tx)
    case ReleaseRequest(_, _, _, _, _) => Release(c, scope, q, tx)
    case ReturnRequest(_, _, _, _, _, _, _) => GiveBack(c, q, tx)
  }

  function OperationName(q: Request): string {
    match q
    case HoldRequest(_, _, _, _, _, _, _, _) => "hold"
    case CaptureRequest(_, _, _, _, _, _, _, _, _, _) => "capture"
    case ReleaseRequest(_, _, _, _, reversal) => if reversal then "REVERSAL" else "RELEASE"
    case ReturnRequest(_, _, _, _, _, _, chargeback) => if chargeback then "chargeback" else "refund"
  }

  /** Runs a request once per scope, operation and key, and answers every repetition from the record. */
  ghost function Execute(c: Cell, scope: string, key: string, q: Request, id: string, tx: string): Outcome {
    var call := Call(scope, OperationName(q), key);
    if scope == "" || key == "" || Malformed(q) then Refused(ErrInvalidRequest)
    else if call in c.answers then
      if c.answers[call].request != q then Refused(ErrConflict)
      else Done(c, c.answers[call].receipt.(duplicate := true))
    else
      match Operate(c, scope, q, id, tx)
      case Refused(e) => Refused(e)
      case Done(after, receipt) => Done(after.(answers := after.answers[call := Answer(q, receipt)]), receipt)
  }

  // ----- wallets, deposits and customer transfers --------------------------------------------------------

  /** Opens a customer's accounts at zero with zero authority in one region. */
  function OpenWallet(c: Cell, available: string, held: string, book: string, asset: string,
                      region: string): (Cell, Option<Error>) {
    if available == "" || held == "" || available == held || asset == "" || region == ""
    then (c, Some(ErrInvalidRequest))
    else if available in c.accounts || held in c.accounts || Holder(available, asset) in c.books
    then (c, Some(ErrConflict))
    else
      (c.(accounts := c.accounts[available := Account(AvailableRole, book, asset,
                                                      true)][held := Account(HeldRole, book, asset, true)],
          books := c.books[Holder(available, asset) := Book(0, 0, 0, map[region := Right(0, 0)])]), None)
  }

  /** Registers an account of another role; customers' accounts come from OpenWallet only. */
  function OpenAccount(c: Cell, name: string, account: Account): (Cell, Option<Error>) {
    if name == "" || account.role == AvailableRole || account.role == HeldRole then (c, Some(ErrInvalidRequest))
    else if name in c.accounts then (c, Some(ErrConflict))
    else if account.role != SettlementRole then (c.(accounts := c.accounts[name := account]), None)
    else if Holder(account.book, account.asset) in c.settlements then (c, Some(ErrConflict))
    else (c.(accounts := c.accounts[name := account],
             settlements := c.settlements[Holder(account.book, account.asset) := name]), None)
  }

  /** Credits a wallet from the funding account and raises its authority and regional right together. */
  function Deposit(c: Cell, account: string, asset: string, amount: int, region: string,
                   funding: string): (Cell, Option<Error>) {
    if account == "" || asset == "" || amount <= 0 || region == "" then (c, Some(ErrInvalidRequest))
    else if account !in c.accounts then (c, Some(ErrNotFound))
    else if !HasRole(c, funding, FundingRole) then (c, Some(ErrPosting))
    else
      var balances := PostLegs(c, c.accounts[account].book, asset, [Leg(funding, account, amount)]);
      var books := MoveRights(c.books, Return, Holder(account, asset), region, amount);
      if balances.None? then (c, Some(ErrPosting))
      else if books.None? then (c, Some(ErrRights))
      else (c.(balances := balances.value, books := books.value), None)
  }

  /** One planned ledger transaction of a transfer. */
  datatype Posting = Posting(book: string, leg: Leg)

  /** One transaction inside a book, or one in each book through its settlement account. */
  function PlanLegs(c: Cell, payer: string, payee: string, asset: string, amount: int): Option<seq<Posting>>
    requires payer in c.accounts && payee in c.accounts
  {
    var a, b := c.accounts[payer].book, c.accounts[payee].book;
    if a == b then Some([Posting(a, Leg(payer, payee, amount))])
    else if Holder(a, asset) !in c.settlements || Holder(b, asset) !in c.settlements then None
    else Some([Posting(a, Leg(payer, c.settlements[Holder(a, asset)], amount)),
               Posting(b, Leg(c.settlements[Holder(b, asset)], payee, amount))])
  }

  /** The fixed global order in which the books of a transfer are locked and written. */
  function InBookOrder(plan: seq<Posting>): seq<Posting> {
    if |plan| == 2 && Below(plan[1].book, plan[0].book) then [plan[1], plan[0]] else plan
  }

  function PostAll(c: Cell, asset: string, plan: seq<Posting>): Option<map<string, int>>
    decreases |plan|
  {
    if plan == [] then Some(c.balances)
    else
      var posted := PostLegs(c, plan[0].book, asset, [plan[0].leg]);
      if posted.None? then None else PostAll(c.(balances := posted.value), asset, plan[1..])
  }

  function TransferMoney(c: Cell, payer: string, payee: string, asset: string, amount: int): Option<map<string, int>>
    requires payer in c.accounts && payee in c.accounts
  {
    var plan := PlanLegs(c, payer, payee, asset, amount);
    if plan.None? then None else PostAll(c, asset, InBookOrder(plan.value))
  }

  function TransferRights(books: map<Holder, Book>, payer: string, payee: string, asset: string, region: string,
                          amount: int): Option<map<Holder, Book>> {
    var spent := MoveRights(books, Spend, Holder(payer, asset), region, amount);
    if spent.None? then None else MoveRights(spent.value, Return, Holder(payee, asset), region, amount)
  }

  /** Moves money and spending rights between two customers in one transaction. */
  function Transfer(c: Cell, q: TransferCall, payerTx: string, payeeTx: string,
                    region: string): (Cell, Option<TransferReceipt>, Option<Error>) {
    if q.payer == "" || q.payee == "" || q.asset == "" || q.amount <= 0 || q.payer == q.payee || region == ""
    then (c, None, Some(ErrInvalidRequest))
    else if q.payer !in c.accounts || q.payee !in c.accounts then (c, None, Some(ErrNotFound))
    else if c.accounts[q.payer].asset != q.asset || c.accounts[q.payee].asset != q.asset
    then (c, None, Some(ErrInvalidRequest))
    else
      var balances := TransferMoney(c, q.payer, q.payee, q.asset, q.amount);
      var books := TransferRights(c.books, q.payer, q.payee, q.asset, region, q.amount);
      if balances.None? then (c, None, Some(ErrPosting))
      else if books.None? then (c, None, Some(ErrRights))
      else
        var cross := c.accounts[q.payer].book != c.accounts[q.payee].book;
        (c.(balances := balances.value, books := books.value),
         Some(TransferReceipt(q.id, payerTx, if cross then payeeTx else payerTx, cross, false)), None)
  }

  /** Runs a transfer once per scope and key, and answers every repetition from the record. */
  function ExecuteTransfer(c: Cell, scope: string, key: string, q: TransferCall, payerTx: string, payeeTx: string,
                           region: string)
    : (Cell, Option<TransferReceipt>, Option<Error>)
  {
    if scope == "" || key == "" || q.id == "" then (c, None, Some(ErrInvalidRequest))
    else if TransferKey(scope, key) in c.transfers then
      var stored := c.transfers[TransferKey(scope, key)];
      if stored.request != q then (c, None, Some(ErrConflict))
      else (c, Some(stored.receipt.(duplicate := true)), None)
    else
      var (after, receipt, error) := Transfer(c, q, payerTx, payeeTx, region);
      if error.Some? || receipt.None? then (c, None, error)
      else (after.(transfers := after.transfers[TransferKey(scope, key) := TransferAnswer(q, receipt.value)]), receipt,
            None)
  }
}
