/** The tables of one payment cell as an object; operations write row by row and roll back together. */
module PaymentDesk {
  import opened Amounts
  import opened Totals
  import opened Escrow
  import opened Payments
  import opened Sorting
  import P = Payments

  /**
   * The state and the answer of a finished operation agree with its specification; a failed one only has to say why.
   */
  ghost predicate Follows(expected: Outcome, view: Cell, receipt: Option<PaymentReceipt>, error: Option<P.Error>) {
    match expected
    case Done(c, r) => view == c && receipt == Some(r) && error.None?
    case Refused(e) => receipt.None? && error == Some(e)
  }

  class Desk {
    var accounts: map<string, Account>
    var balances: map<string, int>
    var books: map<Holder, Book>
    var settlements: map<Holder, string>
    var payments: map<string, Payment>
    var answers: map<Call, Answer>
    var transfers: map<TransferKey, TransferAnswer>

    ghost function View(): Cell
      reads this
    {
      Cell(accounts, balances, books, settlements, payments, answers, transfers)
    }

    constructor (cell: Cell)
      ensures View() == cell
    {
      accounts, balances, books, settlements := cell.accounts, cell.balances, cell.books, cell.settlements;
      payments, answers, transfers := cell.payments, cell.answers, cell.transfers;
    }

    /** Posts the legs one after another, then checks every account they touched. */
    method Post(book: string, asset: string, legs: seq<Leg>) returns (ok: bool)
      modifies this`balances
      ensures ok <==> PostLegs(old(View()), book, asset, legs).Some?
      ensures ok ==> balances == PostLegs(old(View()), book, asset, legs).value
    {
      var i := 0;
      while i < |legs|
        invariant 0 <= i <= |legs|
        invariant forall j | 0 <= j < i :: LegOk(accounts, book, asset, legs[j])
        invariant balances == Shifted(old(balances), legs, i)
      {
        if !LegOk(accounts, book, asset, legs[i]) {
          return false;
        }
        balances := Shift(balances, legs[i]);
        i := i + 1;
      }
      i := 0;
      while i < |legs|
        invariant 0 <= i <= |legs|
        invariant forall j | 0 <= j < i ::
                    BalanceOk(accounts, balances, legs[j].from) && BalanceOk(accounts, balances, legs[j].to)
      {
        if !BalanceOk(accounts, balances, legs[i].from) || !BalanceOk(accounts, balances, legs[i].to) {
          return false;
        }
        i := i + 1;
      }
      ok := legs != [];
    }

    method Rights(kind: EffectKind, h: Holder, region: string, amount: int) returns (ok: bool)
      modifies this`books
      ensures ok <==> MoveRights(old(books), kind, h, region, amount).Some?
      ensures ok ==> books == MoveRights(old(books), kind, h, region, amount).value
    {
      hide Mutated;
      if region == "" {
        return true;
      }
      if h !in books {
        return false;
      }
      var (b, error) := Mutated(books[h], kind, region, amount);
      if error.Some? {
        return false;
      }
      books := books[h := b];
      ok := true;
    }

    method Hold(scope: string, q: Request, id: string, tx: string)
      returns (receipt: Option<PaymentReceipt>, error: Option<P.Error>)
      requires q.HoldRequest?
      modifies this
      ensures Follows(P.Hold(old(View()), scope, q, id, tx), View(), receipt, error)
    {
      hide PostLegs, MoveRights, Malformed;
      if Malformed(q) {
        return None, Some(ErrInvalidRequest);
      }
      if !HasRoleHere(q.available, AvailableRole) || !HasRoleHere(q.held, HeldRole)
         || !HasRoleHere(q.merchant, MerchantRole) {
        return None, Some(ErrPosting);
      }
      var posted := Post(q.book, q.asset, [Leg(q.available, q.held, q.amount)]);
      if !posted {
        return None, Some(ErrPosting);
      }
      payments := payments[id := NewPayment(scope, q)];
      var moved := Rights(Spend, Holder(q.available, q.asset), q.region, q.amount);
      if !moved {
        return None, Some(ErrRights);
      }
      receipt, error := Some(PaymentReceipt(id, State.Held, q.amount, tx, false)), None;
    }

    predicate HasRoleHere(a: string, role: Role)
      reads this`accounts
    {
      a in accounts && accounts[a].role == role
    }

    /** The legs of a capture, collected as the charges turn out positive. */
    static method LegsOf(p: Payment, q: Request) returns (legs: seq<Leg>)
      requires q.CaptureRequest?
      ensures legs == CaptureLegs(p, q)
    {
      legs := [];
      if q.amount - q.fee - q.tax > 0 {
        legs := legs + [Leg(p.held, p.merchant, q.amount - q.fee - q.tax)];
      }
      if q.fee > 0 {
        legs := legs + [Leg(p.held, q.feeAccount, q.fee)];
      }
      if q.tax > 0 {
        legs := legs + [Leg(p.held, q.taxAccount, q.tax)];
      }
    }

    method Capture(scope: string, q: Request, tx: string)
      returns (receipt: Option<PaymentReceipt>, error: Option<P.Error>)
      requires q.CaptureRequest?
      modifies this
      ensures Follows(P.Capture(old(View()), scope, q, tx), View(), receipt, error)
    {
      hide CaptureKnown, Malformed;
      if Malformed(q) {
        return None, Some(ErrInvalidRequest);
      }
      if q.payment !in payments || payments[q.payment].scope != scope {
        return None, Some(ErrNotFound);
      }
      if payments[q.payment].asset != q.asset {
        return None, Some(ErrInvalidRequest);
      }
      if payments[q.payment].state !in {State.Held, PartiallyCaptured} {
        return None, Some(ErrInvalidTransition);
      }
      receipt, error := CaptureRow(payments[q.payment], q, tx);
    }

    method CaptureRow(p: Payment, q: Request, tx: string)
      returns (receipt: Option<PaymentReceipt>, error: Option<P.Error>)
      requires q.CaptureRequest?
      modifies this
      ensures Follows(CaptureKnown(old(View()), p, q, tx), View(), receipt, error)
    {
      hide PostLegs, MoveRights, CaptureLegs, CaptureRoles, AfterCapture, CaptureState;
      if !Fits(p.captured + q.amount) {
        return None, Some(ErrOverflow);
      }
      var state := CaptureState(p.authorized, p.captured + q.amount, p.released);
      if state.None? {
        return None, Some(ErrOverCapture);
      }
      if !Fits(p.cashback + q.cashback) || p.cashback + q.cashback > p.cashbackRule {
        return None, Some(ErrCashbackRule);
      }
      if !CaptureRoles(Cell(accounts, balances, books, settlements, payments, answers, transfers), q) {
        return None, Some(ErrPosting);
      }
      var legs := LegsOf(p, q);
      var posted := Post(q.book, q.asset, legs);
      if !posted {
        return None, Some(ErrPosting);
      }
      if q.cashback != 0 {
        posted := Post(q.book, q.asset, [Leg(q.cashbackAccount, p.available, q.cashback)]);
        if !posted {
          return None, Some(ErrPosting);
        }
        var moved := Rights(Return, Holder(p.available, p.asset), p.region, q.cashback);
        if !moved {
          return None, Some(ErrRights);
        }
      }
      payments := payments[q.payment := AfterCapture(p, q, tx, state.value)];
      receipt, error := Some(PaymentReceipt(q.payment, state.value, q.amount, tx, false)), None;
    }

    method Release(scope: string, q: Request, tx: string)
      returns (receipt: Option<PaymentReceipt>, error: Option<P.Error>)
      requires q.ReleaseRequest?
      modifies this
      ensures Follows(P.Release(old(View()), scope, q, tx), View(), receipt, error)
    {
      hide ReleaseKnown, Malformed;
      if Malformed(q) {
        return None, Some(ErrInvalidRequest);
      }
      if q.payment !in payments || payments[q.payment].scope != scope {
        return None, Some(ErrNotFound);
      }
      var p := payments[q.payment];
      if p.asset != q.asset {
        return None, Some(ErrInvalidRequest);
      }
      if p.state !in {State.Held, PartiallyCaptured} || (q.reversal && p.captured != 0) {
        return None, Some(ErrInvalidTransition);
      }
      receipt, error := ReleaseRow(p, q, tx);
    }

    method ReleaseRow(p: Payment, q: Request, tx: string)
      returns (receipt: Option<PaymentReceipt>, error: Option<P.Error>)
      requires q.ReleaseRequest?
      modifies this
      ensures Follows(ReleaseKnown(old(View()), p, q, tx), View(), receipt, error)
    {
      hide PostLegs, MoveRights;
      var released := p.released + q.amount;
      if !Fits(released) {
        return None, Some(ErrOverflow);
      }
      var used := p.captured + released;
      if !Fits(used) || used > p.authorized || (q.reversal && used != p.authorized) {
        return None, Some(ErrOverCapture);
      }
      var state := State.Held;
      if used == p.authorized {
        if p.captured == 0 {
          state := Reversed;
        } else {
          state := Captured;
        }
      } else if p.captured > 0 {
        state := PartiallyCaptured;
      }
      var posted := Post(q.book, q.asset, [Leg(p.held, p.available, q.amount)]);
      if !posted {
        return None, Some(ErrPosting);
      }
      payments := payments[q.payment := p.(released := released, state := state, holdReleased := released)];
      var moved := Rights(Return, Holder(p.available, p.asset), p.region, q.amount);
      if !moved {
        return None, Some(ErrRights);
      }
      receipt, error := Some(PaymentReceipt(q.payment, state, q.amount, tx, false)), None;
    }

    /** The two sums over the capture rows of one payment. */
    static method Fold(captures: map<string, P.CaptureRow>) returns (refunded: int, chargedBack: int)
      ensures refunded == Total(RefundedOf(captures)) && chargedBack == Total(ChargedBackOf(captures))
    {
      hide Total;
      var left := captures.Keys;
      refunded, chargedBack := 0, 0;
      NoEntries(captures);
      while left != {}
        invariant left <= captures.Keys
        invariant refunded == Total(RefundedOf(captures) - left) && chargedBack == Total(ChargedBackOf(captures) - left)
        decreases |left|
      {
        var t :| t in left;
        TotalVisit(RefundedOf(captures), left, t);
        TotalVisit(ChargedBackOf(captures), left, t);
        refunded, chargedBack := refunded + captures[t].refunded, chargedBack + captures[t].chargedBack;
        left := left - {t};
      }
      assert RefundedOf(captures) - {} == RefundedOf(captures)
             && ChargedBackOf(captures) - {} == ChargedBackOf(captures);
    }

    static lemma NoEntries(captures: map<string, P.CaptureRow>)
      ensures Total(RefundedOf(captures) - captures.Keys) == 0 && Total(ChargedBackOf(captures) - captures.Keys) == 0
    {
      assert RefundedOf(captures) - captures.Keys == map[] && ChargedBackOf(captures) - captures.Keys == map[];
    }

    /** A refund or a chargeback. */
    method GiveBack(q: Request, tx: string) returns (receipt: Option<PaymentReceipt>, error: Option<P.Error>)
      requires q.ReturnRequest?
      modifies this
      ensures Follows(P.GiveBack(old(View()), q, tx), View(), receipt, error)
    {
      hide ReturnKnown, Malformed;
      if Malformed(q) {
        return None, Some(ErrInvalidRequest);
      }
      if q.payment !in payments {
        return None, Some(ErrNotFound);
      }
      var p := payments[q.payment];
      if p.asset != q.asset {
        return None, Some(ErrInvalidRequest);
      }
      if p.state in {Refunded, ChargedBack} {
        return None, Some(ErrOverRefund);
      }
      if p.state !in {Captured, Settled, PartiallyRefunded, Disputed} {
        return None, Some(ErrInvalidTransition);
      }
      receipt, error := ReturnRow(p, q, tx);
    }

    method ReturnRow(p: Payment, q: Request, tx: string)
      returns (receipt: Option<PaymentReceipt>, error: Option<P.Error>)
      requires q.ReturnRequest?
      modifies this
      ensures Follows(ReturnKnown(old(View()), p, q, tx), View(), receipt, error)
    {
      hide PostLegs, MoveRights, RefundState, Total;
      if q.capture !in p.captures {
        return None, Some(ErrInvalidRequest);
      }
      var row := p.captures[q.capture];
      if row.refunded + row.chargedBack + q.amount > row.captured {
        return None, Some(ErrOverRefund);
      }
      var captures := p.captures[q.capture := Returned(row, q.amount, q.chargeback)];
      var refunded, chargedBack := Fold(captures);
      var state := RefundState(p.captured, refunded, chargedBack);
      if state.None? {
        return None, Some(ErrOverRefund);
      }
      if !HasRoleHere(q.debit, MerchantRole) {
        return None, Some(ErrPosting);
      }
      var posted := Post(q.book, q.asset, [Leg(q.debit, p.available, q.amount)]);
      if !posted {
        return None, Some(ErrPosting);
      }
      payments :=
        payments[q.payment := p.(captures := captures, refunded := refunded, chargedBack := chargedBack,
                                 state := state.value)];
      var moved := Rights(Return, Holder(p.available, p.asset), p.region, q.amount);
      if !moved {
        return None, Some(ErrRights);
      }
      receipt, error := Some(PaymentReceipt(q.payment, state.value, q.amount, tx, false)), None;
    }

    method Operate(scope: string, q: Request, id: string, tx: string)
      returns (receipt: Option<PaymentReceipt>, error: Option<P.Error>)
      modifies this
      ensures Follows(P.Operate(old(View()), scope, q, id, tx), View(), receipt, error)
    {
      hide P.Hold, P.Capture, P.Release, P.GiveBack, Follows;
      match q
      case HoldRequest(_, _, _, _, _, _, _, _) => receipt, error := Hold(scope, q, id, tx);
      case CaptureRequest(_, _, _, _, _, _, _, _, _, _) => receipt, error := Capture(scope, q, tx);
      case ReleaseRequest(_, _, _, _, _) => receipt, error := Release(scope, q, tx);
      case ReturnRequest(_, _, _, _, _, _, _) => receipt, error := GiveBack(q, tx);
    }

    /** One serializable transaction: a refused operation leaves no trace of the rows it had written. */
    method Execute(scope: string, key: string, q: Request, id: string, tx: string)
      returns (receipt: Option<PaymentReceipt>, error: Option<P.Error>)
      modifies this
      ensures Follows(P.Execute(old(View()), scope, key, q, id, tx), View(), receipt, error)
      ensures error.Some? ==> View() == old(View())
    {
      hide P.Operate, Malformed;
      var call := Call(scope, OperationName(q), key);
      if scope == "" || key == "" || Malformed(q) {
        return None, Some(ErrInvalidRequest);
      }
      if call in answers {
        if answers[call].request != q {
          return None, Some(ErrConflict);
        }
        return Some(answers[call].receipt.(duplicate := true)), None;
      }
      var saved := (accounts, balances, books, settlements, payments, answers, transfers);
      receipt, error := Operate(scope, q, id, tx);
      if error.Some? {
        accounts, balances, books, settlements := saved.0, saved.1, saved.2, saved.3;
        payments, answers, transfers := saved.4, saved.5, saved.6;
        return None, error;
      }
      answers := answers[call := Answer(q, receipt.value)];
    }

    /** Credits a wallet; on an error the caller's transaction is rolled back here. */
    method Deposit(account: string, asset: string, amount: int, region: string, funding: string)
      returns (error: Option<P.Error>)
      modifies this
      ensures (View(), error) == P.Deposit(old(View()), account, asset, amount, region, funding)
    {
      hide PostLegs, MoveRights;
      if account == "" || asset == "" || amount <= 0 || region == "" {
        return Some(ErrInvalidRequest);
      }
      if account !in accounts {
        return Some(ErrNotFound);
      }
      if !HasRoleHere(funding, FundingRole) {
        return Some(ErrPosting);
      }
      var savedBalances, savedBooks := balances, books;
      var posted := Post(accounts[account].book, asset, [Leg(funding, account, amount)]);
      if !posted {
        balances := savedBalances;
        return Some(ErrPosting);
      }
      var raised := Rights(Return, Holder(account, asset), region, amount);
      if !raised {
        balances, books := savedBalances, savedBooks;
        return Some(ErrRights);
      }
      error := None;
    }

    /** Puts the legs of a transfer into book order in place. */
    static method SortPlan(plan: array<Posting>)
      requires plan.Length <= 2
      modifies plan
      ensures plan[..] == InBookOrder(old(plan[..]))
    {
      if plan.Length == 2 && Below(plan[1].book, plan[0].book) {
        plan[0], plan[1] := plan[1], plan[0];
      }
    }

    /** Posts every planned leg in turn, stopping at the first the ledger refuses. */
    method PostPlan(asset: string, plan: array<Posting>) returns (ok: bool)
      modifies this`balances
      ensures ok <==> PostAll(old(View()), asset, plan[..]).Some?
      ensures ok ==> balances == PostAll(old(View()), asset, plan[..]).value
    {
      hide PostLegs;
      assert plan[0..] == plan[..];
      var i := 0;
      while i < plan.Length
        invariant 0 <= i <= plan.Length
        invariant PostAll(View(), asset, plan[i..]) == PostAll(old(View()), asset, plan[..])
      {
        assert plan[i..][0] == plan[i] && plan[i..][1..] == plan[i + 1..];
        var posted := Post(plan[i].book, asset, [plan[i].leg]);
        if !posted {
          return false;
        }
        i := i + 1;
      }
      ok := true;
    }

    method Transfer(q: TransferCall, payerTx: string, payeeTx: string, region: string)
      returns (receipt: Option<TransferReceipt>, error: Option<P.Error>)
      modifies this
      ensures (View(), receipt, error) == P.Transfer(old(View()), q, payerTx, payeeTx, region)
    {
      hide PostAll, MoveRights, PostLegs;
      if q.payer == "" || q.payee == "" || q.asset == "" || q.amount <= 0 || q.payer == q.payee || region == "" {
        return None, Some(ErrInvalidRequest);
      }
      if q.payer !in accounts || q.payee !in accounts {
        return None, Some(ErrNotFound);
      }
      if accounts[q.payer].asset != q.asset || accounts[q.payee].asset != q.asset {
        return None, Some(ErrInvalidRequest);
      }
      var savedBalances, savedBooks := balances, books;
      var planned :=
        PlanLegs(Cell(accounts, balances, books, settlements, payments, answers, transfers), q.payer, q.payee, q.asset,
                 q.amount);
      if planned.None? {
        return None, Some(ErrPosting);
      }
      var plan := new Posting[|planned.value|](i requires 0 <= i < |planned.value| => planned.value[i]);
      assert plan[..] == planned.value;
      SortPlan(plan);
      var posted := PostPlan(q.asset, plan);
      if !posted {
        balances := savedBalances;
        return None, Some(ErrPosting);
      }
      var spent := Rights(Spend, Holder(q.payer, q.asset), region, q.amount);
      if spent {
        spent := Rights(Return, Holder(q.payee, q.asset), region, q.amount);
      }
      if !spent {
        balances, books := savedBalances, savedBooks;
        return None, Some(ErrRights);
      }
      var cross := accounts[q.payer].book != accounts[q.payee].book;
      receipt, error := Some(TransferReceipt(q.id, payerTx, if cross then payeeTx else payerTx, cross, false)), None;
    }

    method ExecuteTransfer(scope: string, key: string, q: TransferCall, payerTx: string, payeeTx: string,
                           region: string)
      returns (receipt: Option<TransferReceipt>, error: Option<P.Error>)
      modifies this
      ensures (View(), receipt, error) == P.ExecuteTransfer(old(View()), scope, key, q, payerTx, payeeTx, region)
    {
      hide P.Transfer;
      if scope == "" || key == "" || q.id == "" {
        return None, Some(ErrInvalidRequest);
      }
      var k := TransferKey(scope, key);
      if k in transfers {
        if transfers[k].request != q {
          return None, Some(ErrConflict);
        }
        return Some(transfers[k].receipt.(duplicate := true)), None;
      }
      AnswersExactly(View(), q, payerTx, payeeTx, region);
      receipt, error := Transfer(q, payerTx, payeeTx, region);
      if error.None? {
        transfers := transfers[k := TransferAnswer(q, receipt.value)];
      }
    }

    static lemma AnswersExactly(c: Cell, q: TransferCall, payerTx: string, payeeTx: string, region: string)
      ensures var (after, receipt, error) := P.Transfer(c, q, payerTx, payeeTx, region);
              (receipt.Some? <==> error.None?) && (error.Some? ==> after == c)
    {
      hide TransferMoney, TransferRights;
    }
  }
}
