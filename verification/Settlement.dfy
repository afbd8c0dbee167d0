/** Captures, releases and returns keep a cell's ledger, payments and rights together. */
module Settlement {
  import opened Amounts
  import opened Totals
  import opened Escrow
  import opened Payments
  import opened Lifecycle
  import opened Movements
  import opened Lockstep

  /** No payment disappears, and every state change is an edge of the state machine. */
  ghost predicate Advances(before: map<string, Payment>, after: map<string, Payment>) {
    forall id | id in before :: id in after && CanTransition(before[id].state, after[id].state)
  }

  lemma OneAdvances(payments: map<string, Payment>, id: string, p: Payment)
    requires id in payments ==> CanTransition(payments[id].state, p.state)
    ensures Advances(payments, payments[id := p])
  {
  }

  // ----- the money of a capture ----------------------------------------------------------------

  /** Every leg leaves the held account for an account that is neither a customer's nor a settlement account. */
  ghost predicate Outward(accounts: map<string, Account>, held: string, legs: seq<Leg>) {
    forall i | 0 <= i < |legs| ::
      && legs[i].from == held && legs[i].to in accounts && accounts[legs[i].to].role in {MerchantRole, FeeRole, TaxRole}
  }

  lemma CaptureLegsOutward(c: Cell, p: Payment, q: Request)
    requires q.CaptureRequest? && Placed(c, p) && CaptureRoles(c, q)
    ensures Outward(c.accounts, p.held, CaptureLegs(p, q))
  {
  }

  lemma CaptureLegsAmount(p: Payment, q: Request)
    requires q.CaptureRequest? && !CaptureInvalid(q)
    ensures AmountOf(CaptureLegs(p, q), |CaptureLegs(p, q)|) == q.amount
  {
    var net, fee, tax :=
      Leg(p.held, p.merchant, q.amount - q.fee - q.tax), Leg(p.held, q.feeAccount, q.fee),
      Leg(p.held, q.taxAccount, q.tax);
    var one := if q.amount - q.fee - q.tax > 0 then [net] else [];
    var two := if q.fee > 0 then [fee] else [];
    var three := if q.tax > 0 then [tax] else [];
    AmountAppend(one, two);
    AmountAppend(one + two, three);
    assert CaptureLegs(p, q) == one + two + three;
    AmountSingle(net);
    AmountSingle(fee);
    AmountSingle(tax);
  }

  lemma AmountSingle(l: Leg)
    ensures AmountOf([l], 1) == l.amount
  {
    assert AmountOf([l], 1) == AmountOf([l], 0) + [l][0].amount;
  }

  lemma AmountPrefix(legs: seq<Leg>, more: seq<Leg>, n: nat)
    requires n <= |legs|
    ensures AmountOf(legs + more, n) == AmountOf(legs, n)
  {
  }

  lemma {:induction false} AmountAppend(legs: seq<Leg>, more: seq<Leg>)
    ensures AmountOf(legs + more, |legs + more|) == AmountOf(legs, |legs|) + AmountOf(more, |more|)
  {
    if more == [] {
      assert legs + more == legs;
    } else {
      var init := more[..|more| - 1];
      AmountAppend(legs, init);
      AmountPrefix(legs + init, [more[|more| - 1]], |legs + init|);
      assert legs + more == legs + init + [more[|more| - 1]];
      AmountPrefix(init, [more[|more| - 1]], |init|);
      assert more == init + [more[|more| - 1]];
    }
  }

  /** What the transaction of a capture does to customers' accounts: it takes the amount from the held one. */
  lemma OutwardMoves(c: Cell, book: string, asset: string, held: string, legs: seq<Leg>, a: string)
    requires PostLegs(c, book, asset, legs).Some? && Outward(c.accounts, held, legs) && HasRole(c, held, HeldRole)
    requires a in c.accounts && c.accounts[a].role in {AvailableRole, HeldRole}
    ensures Get(PostLegs(c, book, asset, legs).value, a) ==
            Get(c.balances, a) - if a == held then AmountOf(legs, |legs|) else 0
  {
    hide PostLegs, SumOver;
    PostSum(c, book, asset, legs, {a});
    SumOne(c.balances, a);
    SumOne(PostLegs(c, book, asset, legs).value, a);
    if a == held {
      NetOut(legs, |legs|, {a});
    } else {
      NetZero(legs, |legs|, {a});
    }
  }

  lemma OutwardKeeps(c: Cell, book: string, asset: string, held: string, legs: seq<Leg>)
    requires PostLegs(c, book, asset, legs).Some? && Outward(c.accounts, held, legs) && HasRole(c, held, HeldRole)
    requires c.balances.Keys <= c.accounts.Keys && BooksBalance(c.accounts, c.balances)
             && SettlementsCancel(c.accounts, c.balances)
    ensures var b := PostLegs(c, book, asset, legs).value;
            b.Keys <= c.accounts.Keys && BooksBalance(c.accounts, b) && SettlementsCancel(c.accounts, b)
  {
    hide PostLegs, BooksBalance, SettlementsCancel;
    PostKeys(c, book, asset, legs);
    PostBalances(c, book, asset, legs);
    PostAvoids(c, book, asset, legs);
  }

  /** A capture takes its amount from the held account and gives its cashback to the available one. */
  lemma CaptureMoves(c: Cell, p: Payment, q: Request, a: string)
    requires q.CaptureRequest? && !CaptureInvalid(q) && Placed(c, p) && CaptureRoles(c, q)
             && CaptureMoney(c, p, q).Some?
    requires a in c.accounts && c.accounts[a].role in {AvailableRole, HeldRole}
    ensures Get(CaptureMoney(c, p, q).value, a)
            == Get(c.balances, a) - (if a == p.held then q.amount else 0) + if a == p.available then q.cashback else 0
  {
    hide PostLegs, CaptureLegs, CaptureInvalid;
    CaptureLegsOutward(c, p, q);
    CaptureLegsAmount(p, q);
    OutwardMoves(c, q.book, q.asset, p.held, CaptureLegs(p, q), a);
    if q.cashback != 0 {
      var b := PostLegs(c, q.book, q.asset, CaptureLegs(p, q)).value;
      assert q.cashback > 0 by { CashbackPositive(q); }
      PostOne(c.(balances := b), q.book, q.asset, Leg(q.cashbackAccount, p.available, q.cashback), a);
    }
  }

  lemma CashbackPositive(q: Request)
    requires q.CaptureRequest? && !CaptureInvalid(q) && q.cashback != 0
    ensures q.cashback > 0
  {
  }

  lemma CaptureMoneyKeeps(c: Cell, p: Payment, q: Request)
    requires q.CaptureRequest? && !CaptureInvalid(q) && Placed(c, p) && CaptureRoles(c, q)
             && CaptureMoney(c, p, q).Some?
    requires c.balances.Keys <= c.accounts.Keys && BooksBalance(c.accounts, c.balances)
             && SettlementsCancel(c.accounts, c.balances)
    ensures var b := CaptureMoney(c, p, q).value;
            b.Keys <= c.accounts.Keys && BooksBalance(c.accounts, b) && SettlementsCancel(c.accounts, b)
  {
    hide PostLegs, CaptureLegs, BooksBalance, SettlementsCancel, CaptureInvalid;
    CaptureLegsOutward(c, p, q);
    OutwardKeeps(c, q.book, q.asset, p.held, CaptureLegs(p, q));
    if q.cashback != 0 {
      var b := PostLegs(c, q.book, q.asset, CaptureLegs(p, q)).value;
      CashbackPositive(q);
      LegKeeps(c.(balances := b), q.book, q.asset, Leg(q.cashbackAccount, p.available, q.cashback));
    }
  }

  // ----- capture ------------------------------------------------------------------------------------

  function CaptureRights(c: Cell, p: Payment, q: Request): Option<map<Holder, Book>>
    requires q.CaptureRequest?
  {
    if q.cashback == 0 then Some(c.books)
    else MoveRights(c.books, Return, Holder(p.available, p.asset), p.region, q.cashback)
  }

  /** What an accepted capture has passed and what it leaves. */
  lemma CaptureParts(c: Cell, scope: string, q: Request, tx: string)
    requires q.CaptureRequest? && Capture(c, scope, q, tx).Done?
    ensures !CaptureInvalid(q) && q.payment in c.payments
    ensures var p := c.payments[q.payment];
            && p.state in {Held, PartiallyCaptured}
            && CaptureState(p.authorized, p.captured + q.amount, p.released).Some?
            && p.cashback + q.cashback <= p.cashbackRule && CaptureRoles(c, q)
            && CaptureMoney(c, p, q).Some? && CaptureRights(c, p, q).Some?
            && Capture(c, scope, q, tx).cell == c.(
                 balances := CaptureMoney(c, p, q).value, books := CaptureRights(c, p, q).value,
                 payments :=
                   c.payments[q.payment := AfterCapture(p, q, tx,
                                                        CaptureState(p.authorized, p.captured + q.amount,
                                                                     p.released).value)])
  {
    hide CaptureMoney, MoveRights, AfterCapture, CaptureRoles, CaptureInvalid, CaptureState;
  }

  lemma CaptureKept(c: Cell, scope: string, q: Request, tx: string)
    requires Inv(c) && q.CaptureRequest? && Capture(c, scope, q, tx).Done?
    requires q.payment in c.payments ==> tx !in c.payments[q.payment].captures
    ensures Inv(Capture(c, scope, q, tx).cell)
    ensures Advances(c.payments, Capture(c, scope, q, tx).cell.payments)
  {
    hide Capture, CaptureMoney, MoveRights, CaptureRoles, CaptureInvalid, CaptureState, PaymentOk, HeldMoney,
         BooksBalance, SettlementsCancel, CanTransition, Advances;
    CaptureParts(c, scope, q, tx);
    var p := c.payments[q.payment];
    assert Placed(c, p) && PaymentOk(p);
    var p' := AfterCapture(p, q, tx, CaptureState(p.authorized, p.captured + q.amount, p.released).value);
    CaptureKeeps(p, q, tx);
    OneAdvances(c.payments, q.payment, p');
    CaptureMoneyKeeps(c, p, q);
    forall a | a in c.accounts && c.accounts[a].role == HeldRole
      ensures Get(CaptureMoney(c, p, q).value, a) == Get(c.balances, a) + if a == p.held then -q.amount else 0
    {
      CaptureMoves(c, p, q, a);
    }
    CaptureRightsKeys(c, p, q);
    Assemble(c, CaptureMoney(c, p, q).value, CaptureRights(c, p, q).value, q.payment, p', -q.amount);
  }

  lemma CaptureRightsKeys(c: Cell, p: Payment, q: Request)
    requires q.CaptureRequest? && CaptureRights(c, p, q).Some?
    ensures CaptureRights(c, p, q).value.Keys == c.books.Keys
  {
    hide MoveRights;
    if q.cashback != 0 {
      RightsKeys(c.books, Return, Holder(p.available, p.asset), p.region, q.cashback);
    }
  }

  lemma CaptureInStep(c: Cell, scope: string, q: Request, tx: string)
    requires Linked(c) && InStep(c.balances, c.books) && Regional(c.payments) && q.CaptureRequest?
             && Capture(c, scope, q, tx).Done?
    ensures var c' := Capture(c, scope, q, tx).cell; InStep(c'.balances, c'.books)
  {
    hide Capture, CaptureMoney, MoveRights, CaptureRoles, CaptureInvalid, CaptureState, Spendable;
    CaptureParts(c, scope, q, tx);
    var p := c.payments[q.payment];
    assert Placed(c, p);
    var b, h := CaptureMoney(c, p, q).value, Holder(p.available, p.asset);
    forall g | g in c.books ensures Get(b, g.account) == Get(c.balances, g.account) + if g == h then q.cashback else 0 {
      CaptureMoves(c, p, q, g.account);
    }
    if q.cashback != 0 {
      CashbackPositive(q);
      RightsMove(c.balances, b, c.books, Return, h, p.region, q.cashback);
    } else {
      SameBalances(c.balances, b, c.books);
    }
  }

  lemma SameBalances(b: map<string, int>, b': map<string, int>, books: map<Holder, Book>)
    requires InStep(b, books) && forall h | h in books :: Get(b', h.account) == Get(b, h.account)
    ensures InStep(b', books)
  {
    hide Spendable;
    forall h | h in books ensures Level(b', h, books[h]) {
      assert Level(b, h, books[h]);
    }
  }

  // ----- release and return: one leg into the available account -----------------------------------------

  lemma InwardInStep(c: Cell, book: string, asset: string, p: Payment, from: string, amount: int)
    requires Linked(c) && InStep(c.balances, c.books) && Placed(c, p) && p.region != "" && amount > 0
    requires from in c.accounts && c.accounts[from].role != AvailableRole
    requires PostLegs(c, book, asset, [Leg(from, p.available, amount)]).Some?
    requires MoveRights(c.books, Return, Holder(p.available, p.asset), p.region, amount).Some?
    ensures InStep(PostLegs(c, book, asset, [Leg(from, p.available, amount)]).value,
                   MoveRights(c.books, Return, Holder(p.available, p.asset), p.region, amount).value)
  {
    hide PostLegs, MoveRights, InStep;
    var l, h := Leg(from, p.available, amount), Holder(p.available, p.asset);
    LegFrom(c, book, asset, l, AvailableRole);
    RightsMove(c.balances, PostLegs(c, book, asset, [l]).value, c.books, Return, h, p.region, amount);
  }

  lemma ReleaseParts(c: Cell, scope: string, q: Request, tx: string)
    requires q.ReleaseRequest? && Release(c, scope, q, tx).Done?
    ensures q.amount > 0 && q.payment in c.payments
    ensures var p := c.payments[q.payment];
            && p.state in {Held, PartiallyCaptured} && p.captured + p.released + q.amount <= p.authorized
            && PostLegs(c, q.book, q.asset, [Leg(p.held, p.available, q.amount)]).Some?
            && MoveRights(c.books, Return, Holder(p.available, p.asset), p.region, q.amount).Some?
            && Release(c, scope, q, tx).cell == c.(
                 balances := PostLegs(c, q.book, q.asset, [Leg(p.held, p.available, q.amount)]).value,
                 books := MoveRights(c.books, Return, Holder(p.available, p.asset), p.region, q.amount).value,
                 payments := c.payments[q.payment := AfterRelease(p, p.released + q.amount)])
  {
    hide PostLegs, MoveRights, AfterRelease, ReleaseState;
  }

  lemma ReleaseKept(c: Cell, scope: string, q: Request, tx: string)
    requires Inv(c) && q.ReleaseRequest? && Release(c, scope, q, tx).Done?
    ensures Inv(Release(c, scope, q, tx).cell)
    ensures Advances(c.payments, Release(c, scope, q, tx).cell.payments)
  {
    hide Release, PostLegs, MoveRights, PaymentOk, HeldMoney, BooksBalance, SettlementsCancel, CanTransition, Advances,
         ReleaseState;
    ReleaseParts(c, scope, q, tx);
    var p := c.payments[q.payment];
    assert Placed(c, p) && PaymentOk(p);
    var l := Leg(p.held, p.available, q.amount);
    ReleaseKeeps(p, q.amount);
    OneAdvances(c.payments, q.payment, AfterRelease(p, p.released + q.amount));
    LegKeeps(c, q.book, q.asset, l);
    LegFrom(c, q.book, q.asset, l, HeldRole);
    RightsKeys(c.books, Return, Holder(p.available, p.asset), p.region, q.amount);
    Assemble(c, PostLegs(c, q.book, q.asset, [l]).value,
             MoveRights(c.books, Return, Holder(p.available, p.asset), p.region, q.amount).value,
             q.payment, AfterRelease(p, p.released + q.amount), -q.amount);
  }

  lemma ReleaseInStep(c: Cell, scope: string, q: Request, tx: string)
    requires Linked(c) && InStep(c.balances, c.books) && Regional(c.payments) && q.ReleaseRequest?
             && Release(c, scope, q, tx).Done?
    ensures var c' := Release(c, scope, q, tx).cell; InStep(c'.balances, c'.books)
  {
    hide Release, PostLegs, MoveRights, InStep;
    ReleaseParts(c, scope, q, tx);
    assert Placed(c, c.payments[q.payment]);
    InwardInStep(c, q.book, q.asset, c.payments[q.payment], c.payments[q.payment].held, q.amount);
  }

  lemma ReturnParts(c: Cell, q: Request, tx: string)
    requires q.ReturnRequest? && GiveBack(c, q, tx).Done?
    ensures q.amount > 0 && q.payment in c.payments && HasRole(c, q.debit, MerchantRole)
    ensures var p := c.payments[q.payment];
            && p.state in {Captured, Settled, PartiallyRefunded, Disputed} && q.capture in p.captures
            && p.captures[q.capture].refunded + p.captures[q.capture].chargedBack
               + q.amount <= p.captures[q.capture].captured
            && PostLegs(c, q.book, q.asset, [Leg(q.debit, p.available, q.amount)]).Some?
            && MoveRights(c.books, Return, Holder(p.available, p.asset), p.region, q.amount).Some?
            && GiveBack(c, q, tx).cell == c.(
                 balances := PostLegs(c, q.book, q.asset, [Leg(q.debit, p.available, q.amount)]).value,
                 books := MoveRights(c.books, Return, Holder(p.available, p.asset), p.region, q.amount).value,
                 payments := c.payments[q.payment := AfterReturn(p, q)])
  {
    hide PostLegs, MoveRights, AfterReturn, RefundState;
  }

  lemma ReturnKept(c: Cell, q: Request, tx: string)
    requires Inv(c) && q.ReturnRequest? && GiveBack(c, q, tx).Done?
    ensures Inv(GiveBack(c, q, tx).cell)
    ensures Advances(c.payments, GiveBack(c, q, tx).cell.payments)
  {
    hide GiveBack, PostLegs, MoveRights, PaymentOk, HeldMoney, BooksBalance, SettlementsCancel, CanTransition,
         Advances, AfterReturn;
    ReturnParts(c, q, tx);
    var p := c.payments[q.payment];
    assert Placed(c, p) && PaymentOk(p);
    var l := Leg(q.debit, p.available, q.amount);
    ReturnKeeps(p, q);
    OneAdvances(c.payments, q.payment, AfterReturn(p, q));
    SamePlace(p, q);
    LegKeeps(c, q.book, q.asset, l);
    LegFrom(c, q.book, q.asset, l, HeldRole);
    RightsKeys(c.books, Return, Holder(p.available, p.asset), p.region, q.amount);
    Assemble(c, PostLegs(c, q.book, q.asset, [l]).value,
             MoveRights(c.books, Return, Holder(p.available, p.asset), p.region, q.amount).value,
             q.payment, AfterReturn(p, q), 0);
  }

  lemma SamePlace(p: Payment, q: Request)
    requires q.ReturnRequest? && q.capture in p.captures
    ensures var p' := AfterReturn(p, q);
            p'.held == p.held && p'.available == p.available && p'.merchant == p.merchant && p'.asset == p.asset
            && p'.region == p.region
            && Unsettled(p') == Unsettled(p)
  {
  }

  lemma ReturnInStep(c: Cell, q: Request, tx: string)
    requires Linked(c) && InStep(c.balances, c.books) && Regional(c.payments) && q.ReturnRequest?
             && GiveBack(c, q, tx).Done?
    ensures var c' := GiveBack(c, q, tx).cell; InStep(c'.balances, c'.books)
  {
    hide GiveBack, PostLegs, MoveRights, InStep;
    ReturnParts(c, q, tx);
    assert Placed(c, c.payments[q.payment]);
    InwardInStep(c, q.book, q.asset, c.payments[q.payment], q.debit, q.amount);
  }
}
