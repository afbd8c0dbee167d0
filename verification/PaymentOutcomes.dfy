/** What each payment operation answers and moves, account by account, for every request. */
module PaymentOutcomes {
  import opened Amounts
  import opened Totals
  import opened Escrow
  import opened Payments
  import opened Lifecycle
  import opened Movements
  import opened Lockstep
  import opened Settlement
  import opened Wallets
  import opened CellRuns

  function When(holds: bool, amount: int): int {
    if holds then amount else 0
  }

  // ----- one movement of money --------------------------------------------------------------------

  predicate InBookAndAsset(c: Cell, a: string, book: string, asset: string) {
    a in c.accounts && c.accounts[a].book == book && c.accounts[a].asset == asset
  }

  /** Both accounts are in the book and may carry their new balances. */
  predicate CanMove(c: Cell, book: string, asset: string, from: string, to: string, amount: int) {
    && from != to && InBookAndAsset(c, from, book, asset) && InBookAndAsset(c, to, book, asset)
    && Storable(c, from, Get(c.balances, from) - amount) && Storable(c, to, Get(c.balances, to) + amount)
  }

  ghost predicate MoneyMoves(b: map<string, int>, b': map<string, int>, from: string, to: string, amount: int) {
    forall a :: Get(b', a) == Get(b, a) - When(a == from, amount) + When(a == to, amount)
  }

  lemma MovesExactly(c: Cell, book: string, asset: string, from: string, to: string, amount: int)
    requires amount > 0
    ensures var b := PostLegs(c, book, asset, [Leg(from, to, amount)]);
            && (b.Some? <==> CanMove(c, book, asset, from, to, amount))
            && (b.Some? ==> MoneyMoves(c.balances, b.value, from, to, amount))
  {
    hide PostLegs, Fits;
    PostsOne(c, book, asset, Leg(from, to, amount));
  }

  // ----- one movement of rights ----------------------------------------------------------------------

  /** The wallet has the region and, when rights are taken, enough of them; its counters have room. */
  predicate RightsReady(books: map<Holder, Book>, h: Holder, region: string, delta: int) {
    region == "" ||
    (&& h in books && region in books[h].rights
     && books[h].version < MAX_INT64 && books[h].rights[region].version < MAX_INT64
     && if delta < 0
        then -delta <= books[h].rights[region].available && -delta <= books[h].total
             && books[h].unallocated <= books[h].total + delta
        else Fits(books[h].rights[region].available + delta) && Fits(books[h].total + delta))
  }

  /** A wallet whose total and one regional right have changed together. */
  function Adjusted(k: Book, region: string, delta: int): Book
    requires region in k.rights
  {
    var r := k.rights[region];
    Book(k.total + delta, k.unallocated, k.version + 1,
         k.rights[region := Right(r.available + delta, r.version + 1)])
  }

  /** One wallet is adjusted in one region, and no other wallet is touched. */
  ghost predicate RightsMoved(books: map<Holder, Book>, books': map<Holder, Book>, h: Holder, region: string,
                              delta: int) {
    if region == "" then books' == books
    else
      h in books && region in books[h].rights && books' == books[h := Adjusted(books[h], region, delta)]
  }

  lemma RightsExactly(books: map<Holder, Book>, kind: EffectKind, h: Holder, region: string, amount: int)
    requires kind != Allocate && amount > 0
    ensures var delta := if kind == Spend then -amount else amount;
            var moved := MoveRights(books, kind, h, region, amount);
            && (moved.Some? <==> RightsReady(books, h, region, delta))
            && (moved.Some? ==> RightsMoved(books, moved.value, h, region, delta))
  {
  }

  // ----- hold ---------------------------------------------------------------------------------------------

  /** A fresh payment over the held amount, of which nothing has been used. */
  predicate FreshPayment(p: Payment, scope: string, q: Request)
    requires q.HoldRequest?
  {
    && p.scope == scope && p.asset == q.asset && p.available == q.available && p.held == q.held
    && p.merchant == q.merchant && p.region == q.region && p.state == Held && p.authorized == q.amount
    && p.captured == p.released == p.refunded == p.chargedBack == 0 && p.fee == p.tax == p.cashback == 0
    && p.cashbackRule == q.cashbackRule && p.holdCaptured == p.holdReleased == 0 && p.captures == map[]
  }

  /** Money moves from the available to the held account and as much right leaves the region. */
  lemma HoldOutcome(c: Cell, scope: string, q: Request, id: string, tx: string)
    requires q.HoldRequest?
    ensures var r := Hold(c, scope, q, id, tx);
            if q.book == "" || q.asset == "" || q.available == "" || q.held == "" || q.merchant == "" || q.amount <= 0
               || q.cashbackRule < 0
            then r == Refused(ErrInvalidRequest)
            else if !HoldReady(c, q) then r == Refused(ErrPosting)
            else if !RightsReady(c.books, Holder(q.available, q.asset), q.region, -q.amount)
            then r == Refused(ErrRights)
            else
              && r.Done? && r.receipt == PaymentReceipt(id, Held, q.amount, tx, false)
              && MoneyMoves(c.balances, r.cell.balances, q.available, q.held, q.amount)
              && RightsMoved(c.books, r.cell.books, Holder(q.available, q.asset), q.region, -q.amount)
              && id in r.cell.payments && FreshPayment(r.cell.payments[id], scope, q)
              && r.cell == c.(balances := r.cell.balances, books := r.cell.books,
                              payments := c.payments[id := r.cell.payments[id]])
  {
    hide PostLegs, MoveRights, MoneyMoves, RightsMoved, RightsReady, Storable;
    if q.amount > 0 {
      MovesExactly(c, q.book, q.asset, q.available, q.held, q.amount);
      RightsExactly(c.books, Spend, Holder(q.available, q.asset), q.region, q.amount);
    }
  }

  // ----- capture --------------------------------------------------------------------------------------------

  /** What every account carries once a capture has left its held account. */
  function CapturedBalance(c: Cell, p: Payment, q: Request, a: string): int
    requires q.CaptureRequest?
  {
    Get(c.balances, a) - When(a == p.held, q.amount) + When(a == p.merchant, q.amount - q.fee - q.tax)
    + When(a == q.feeAccount, q.fee) + When(a == q.taxAccount, q.tax)
  }

  /** And once its cashback has reached the customer. */
  function RewardedBalance(c: Cell, p: Payment, q: Request, a: string): int
    requires q.CaptureRequest?
  {
    CapturedBalance(c, p, q, a) - When(a == q.cashbackAccount, q.cashback) + When(a == p.available, q.cashback)
  }

  /** An account that receives a share of the capture. */
  predicate Receives(p: Payment, q: Request, a: string)
    requires q.CaptureRequest?
  {
    (a == p.merchant && q.fee + q.tax < q.amount) || (a == q.feeAccount && q.fee > 0)
    || (a == q.taxAccount && q.tax > 0)
  }

  /** The held account and every receiver are in the book and may carry their new balances. */
  predicate CanCapture(c: Cell, p: Payment, q: Request)
    requires q.CaptureRequest?
  {
    && InBookAndAsset(c, p.held, q.book, q.asset) && Storable(c, p.held, CapturedBalance(c, p, q, p.held))
    && forall a | a in {p.merchant, q.feeAccount, q.taxAccount} && Receives(p, q, a) ::
         a != p.held && InBookAndAsset(c, a, q.book, q.asset) && Storable(c, a, CapturedBalance(c, p, q, a))
  }

  predicate CanReward(c: Cell, p: Payment, q: Request)
    requires q.CaptureRequest?
  {
    q.cashback != 0 ==>
      && q.cashbackAccount != p.available && InBookAndAsset(c, q.cashbackAccount, q.book, q.asset)
      && InBookAndAsset(c, p.available, q.book, q.asset)
      && Storable(c, q.cashbackAccount, RewardedBalance(c, p, q, q.cashbackAccount))
      && Storable(c, p.available, RewardedBalance(c, p, q, p.available))
  }

  lemma {:induction false} NetAppend(legs: seq<Leg>, l: Leg, s: set<string>, n: nat)
    requires n <= |legs|
    ensures Net(legs + [l], n, s) == Net(legs, n, s)
    ensures n == |legs| ==> Net(legs + [l], n + 1, s) == Net(legs, n, s) + Change(l, s)
  {
    hide Change;
    if n > 0 {
      NetAppend(legs, l, s, n - 1);
    }
  }

  lemma NetMaybe(legs: seq<Leg>, l: Leg, s: set<string>)
    requires l.amount >= 0
    ensures var more := legs + if l.amount > 0 then [l] else [];
            Net(more, |more|, s) == Net(legs, |legs|, s) + Change(l, s)
  {
    if l.amount > 0 {
      NetAppend(legs, l, s, |legs|);
    } else {
      assert legs + [] == legs;
    }
  }

  lemma CaptureNet(p: Payment, q: Request, a: string)
    requires q.CaptureRequest? && !CaptureInvalid(q)
    ensures Net(CaptureLegs(p, q), |CaptureLegs(p, q)|, {a}) ==
            When(a == p.merchant, q.amount - q.fee - q.tax) + When(a == q.feeAccount, q.fee)
            + When(a == q.taxAccount, q.tax) - When(a == p.held, q.amount)
  {
    hide Net;
    var net := Leg(p.held, p.merchant, q.amount - q.fee - q.tax);
    var fee, tax := Leg(p.held, q.feeAccount, q.fee), Leg(p.held, q.taxAccount, q.tax);
    var one := [] + if net.amount > 0 then [net] else [];
    var two := one + if fee.amount > 0 then [fee] else [];
    var three := two + if tax.amount > 0 then [tax] else [];
    NetMaybe([], net, {a});
    NetMaybe(one, fee, {a});
    NetMaybe(two, tax, {a});
    assert Net([], 0, {a}) == 0 by { NoNet({a}); }
    assert CaptureLegs(p, q) == three;
  }

  lemma NoNet(s: set<string>)
    ensures Net([], 0, s) == 0
  {
  }

  lemma ShiftedAt(b: map<string, int>, legs: seq<Leg>, a: string)
    ensures Get(Shifted(b, legs, |legs|), a) == Get(b, a) + Net(legs, |legs|, {a})
  {
    hide SumOver, Net, Shifted;
    SumShifted(b, legs, |legs|, {a});
    SumOne(b, a);
    SumOne(Shifted(b, legs, |legs|), a);
  }

  /** Every leg of a capture goes from the held account to a receiver, and every receiver has one. */
  lemma CaptureLegsReach(p: Payment, q: Request)
    requires q.CaptureRequest? && !CaptureInvalid(q)
    ensures CaptureLegs(p, q) != []
    ensures forall l | l in CaptureLegs(p, q) ::
              l.from == p.held && l.amount > 0 && l.to in {p.merchant, q.feeAccount, q.taxAccount}
              && Receives(p, q, l.to)
    ensures forall a | a in {p.merchant, q.feeAccount, q.taxAccount} && Receives(p, q, a) ::
              exists l :: l in CaptureLegs(p, q) && l.to == a
  {
    var legs := CaptureLegs(p, q);
    if q.fee + q.tax < q.amount {
      assert Leg(p.held, p.merchant, q.amount - q.fee - q.tax) in legs;
    }
    if q.fee > 0 {
      assert Leg(p.held, q.feeAccount, q.fee) in legs;
    }
    if q.tax > 0 {
      assert Leg(p.held, q.taxAccount, q.tax) in legs;
    }
  }

  lemma CapturePosts(c: Cell, p: Payment, q: Request)
    requires q.CaptureRequest? && !CaptureInvalid(q)
    ensures var b := PostLegs(c, q.book, q.asset, CaptureLegs(p, q));
            && (b.Some? <==> CanCapture(c, p, q))
            && (b.Some? ==> forall a :: Get(b.value, a) == CapturedBalance(c, p, q, a))
  {
    hide CaptureLegs, CaptureInvalid, Shifted, Fits, Receives, Net;
    var legs := CaptureLegs(p, q);
    var after := Shifted(c.balances, legs, |legs|);
    CaptureLegsReach(p, q);
    forall a ensures Get(after, a) == CapturedBalance(c, p, q, a) {
      ShiftedAt(c.balances, legs, a);
      CaptureNet(p, q, a);
    }
    if PostLegs(c, q.book, q.asset, legs).Some? {
      PostLegFacts(c, q.book, q.asset, legs, 0);
      assert legs[0] in legs;
      forall a | a in {p.merchant, q.feeAccount, q.taxAccount} && Receives(p, q, a)
        ensures a != p.held && InBookAndAsset(c, a, q.book, q.asset) && Storable(c, a, CapturedBalance(c, p, q, a))
      {
        var l :| l in legs && l.to == a;
        var i :| 0 <= i < |legs| && legs[i] == l;
        PostLegFacts(c, q.book, q.asset, legs, i);
      }
    }
    if CanCapture(c, p, q) {
      forall i | 0 <= i < |legs|
        ensures LegOk(c.accounts, q.book, q.asset, legs[i])
        ensures BalanceOk(c.accounts, after, legs[i].from) && BalanceOk(c.accounts, after, legs[i].to)
      {
        assert legs[i] in legs;
      }
    }
  }

  lemma CaptureMoneyExactly(c: Cell, p: Payment, q: Request)
    requires q.CaptureRequest? && !CaptureInvalid(q)
    ensures var b := CaptureMoney(c, p, q);
            && (b.Some? <==> CanCapture(c, p, q) && CanReward(c, p, q))
            && (b.Some? ==> forall a :: Get(b.value, a) == RewardedBalance(c, p, q, a))
  {
    hide CaptureLegs, PostLegs, CaptureInvalid, CanCapture, Fits;
    CapturePosts(c, p, q);
    if q.cashback != 0 && CanCapture(c, p, q) {
      CashbackPositive(q);
      var b := PostLegs(c, q.book, q.asset, CaptureLegs(p, q)).value;
      MovesExactly(c.(balances := b), q.book, q.asset, q.cashbackAccount, p.available, q.cashback);
    }
  }

  /** The counters after a capture; the payment is captured exactly when nothing of the hold is left. */
  predicate CaptureCounted(p: Payment, p': Payment, q: Request, tx: string)
    requires q.CaptureRequest?
  {
    && p'.captured == p'.holdCaptured == p.captured + q.amount && p'.fee == p.fee + q.fee && p'.tax == p.tax + q.tax
    && p'.cashback == p.cashback + q.cashback && p'.captures == p.captures[tx := CaptureRow(q.amount, q.cashback, 0, 0)]
    && p'.state == (if p'.captured + p.released == p.authorized then Captured else PartiallyCaptured)
    && p' == p.(captured := p'.captured, holdCaptured := p'.holdCaptured, fee := p'.fee, tax := p'.tax,
                cashback := p'.cashback, captures := p'.captures, state := p'.state)
  }

  predicate BadCapture(q: Request)
    requires q.CaptureRequest?
  {
    || q.payment == "" || q.book == "" || q.asset == "" || q.amount <= 0 || q.fee < 0 || q.tax < 0 || q.cashback < 0
    || q.fee + q.tax >= LIMIT || q.fee + q.tax > q.amount || (q.fee > 0 && q.feeAccount == "")
    || (q.tax > 0 && q.taxAccount == "") || (q.cashback > 0 && q.cashbackAccount == "")
  }

  lemma BadCaptureIs(q: Request)
    requires q.CaptureRequest?
    ensures CaptureInvalid(q) <==> BadCapture(q)
  {
  }

  lemma CaptureCounts(p: Payment, q: Request, tx: string)
    requires q.CaptureRequest? && q.amount > 0 && p.captured >= 0
    ensures var state := CaptureState(p.authorized, p.captured + q.amount, p.released);
            && (state.None? <==> !Fits(p.captured + q.amount + p.released)
                                 || p.captured + q.amount + p.released > p.authorized)
            && (state.Some? ==> CaptureCounted(p, AfterCapture(p, q, tx, state.value), q, tx))
  {
  }

  /**
   * An accepted capture, for every account: the held account loses the amount, merchant,
   fee and tax accounts gain their
   * shares, and the cashback account pays the customer; every refusal has its reason and changes nothing.
   */
  lemma CaptureOutcome(c: Cell, scope: string, q: Request, tx: string)
    requires PaymentsOk(c.payments) && q.CaptureRequest?
    ensures var r := Capture(c, scope, q, tx);
            if BadCapture(q) then r == Refused(ErrInvalidRequest)
            else if q.payment !in c.payments || c.payments[q.payment].scope != scope then r == Refused(ErrNotFound)
            else
              var p := c.payments[q.payment];
              if p.asset != q.asset then r == Refused(ErrInvalidRequest)
              else if p.state != Held && p.state != PartiallyCaptured then r == Refused(ErrInvalidTransition)
              else if !Fits(p.captured + q.amount) then r == Refused(ErrOverflow)
              else if p.captured + q.amount + p.released > p.authorized then r == Refused(ErrOverCapture)
              else if !Fits(p.cashback + q.cashback) || p.cashback + q.cashback > p.cashbackRule
              then r == Refused(ErrCashbackRule)
              else if !CaptureRoles(c, q) || !CanCapture(c, p, q) || !CanReward(c, p, q) then r == Refused(ErrPosting)
              else if q.cashback > 0 && !RightsReady(c.books, Holder(p.available, p.asset), p.region, q.cashback)
              then r == Refused(ErrRights)
              else
                && r.Done? && q.payment in r.cell.payments && CaptureCounted(p, r.cell.payments[q.payment], q, tx)
                && r.receipt == PaymentReceipt(q.payment, r.cell.payments[q.payment].state, q.amount, tx, false)
                && (forall a ::
                      Get(r.cell.balances, a) ==
                      Get(c.balances, a) - When(a == p.held, q.amount) + When(a == p.merchant, q.amount - q.fee - q.tax)
                      + When(a == q.feeAccount, q.fee) + When(a == q.taxAccount, q.tax)
                      - When(a == q.cashbackAccount, q.cashback) + When(a == p.available, q.cashback))
                && (if q.cashback == 0 then r.cell.books == c.books
                    else RightsMoved(c.books, r.cell.books, Holder(p.available, p.asset), p.region, q.cashback))
                && r.cell == c.(balances := r.cell.balances, books := r.cell.books,
                                payments := c.payments[q.payment := r.cell.payments[q.payment]])
  {
    hide CaptureInvalid, BadCapture, CaptureKnown, CanCapture, CanReward, CaptureRoles, PaymentOk, CaptureCounted,
         RightsMoved, RightsReady, Fits;
    BadCaptureIs(q);
    if !BadCapture(q) && q.payment in c.payments {
      assert PaymentOk(c.payments[q.payment]);
      CaptureKnownOutcome(c, c.payments[q.payment], q, tx);
    }
  }

  lemma CaptureKnownOutcome(c: Cell, p: Payment, q: Request, tx: string)
    requires PaymentOk(p) && q.CaptureRequest? && !CaptureInvalid(q)
    ensures var r := CaptureKnown(c, p, q, tx);
            if !Fits(p.captured + q.amount) then r == Refused(ErrOverflow)
            else if p.captured + q.amount + p.released > p.authorized then r == Refused(ErrOverCapture)
            else if !Fits(p.cashback + q.cashback) || p.cashback + q.cashback > p.cashbackRule
            then r == Refused(ErrCashbackRule)
            else if !CaptureRoles(c, q) || !CanCapture(c, p, q) || !CanReward(c, p, q) then r == Refused(ErrPosting)
            else if q.cashback > 0 && !RightsReady(c.books, Holder(p.available, p.asset), p.region, q.cashback)
            then r == Refused(ErrRights)
            else
              && r.Done? && q.payment in r.cell.payments && CaptureCounted(p, r.cell.payments[q.payment], q, tx)
              && r.receipt == PaymentReceipt(q.payment, r.cell.payments[q.payment].state, q.amount, tx, false)
              && (forall a :: Get(r.cell.balances, a) == RewardedBalance(c, p, q, a))
              && (if q.cashback == 0 then r.cell.books == c.books
                  else RightsMoved(c.books, r.cell.books, Holder(p.available, p.asset), p.region, q.cashback))
              && r.cell == c.(balances := r.cell.balances, books := r.cell.books,
                              payments := c.payments[q.payment := r.cell.payments[q.payment]])
  {
    hide CaptureInvalid, CaptureState, AfterCapture, CaptureMoney, MoveRights, CanCapture, CanReward, CaptureRoles,
         PaymentOk, CaptureCounted, RightsMoved, RightsReady, RewardedBalance;
    PositiveCapture(p, q);
    CaptureCounts(p, q, tx);
    CaptureMoneyExactly(c, p, q);
    if q.cashback > 0 {
      RightsExactly(c.books, Return, Holder(p.available, p.asset), p.region, q.cashback);
    }
    CountedState(p, q, tx);
  }

  lemma PositiveCapture(p: Payment, q: Request)
    requires PaymentOk(p) && q.CaptureRequest? && !CaptureInvalid(q)
    ensures q.amount > 0 && q.cashback >= 0 && p.captured >= 0 && p.released >= 0 && Fits(p.authorized)
  {
    hide Total;
  }

  lemma CountedState(p: Payment, q: Request, tx: string)
    requires q.CaptureRequest?
    ensures forall state :: AfterCapture(p, q, tx, state).state == state
  {
  }

  // ----- release and reversal -------------------------------------------------------------------------------------

  /** The released counter grows; the payment ends when nothing of the hold is left. */
  predicate ReleaseCounted(p: Payment, p': Payment, amount: int) {
    && p'.released == p'.holdReleased == p.released + amount
    && p'.state == (if p.captured + p'.released == p.authorized then (if p.captured == 0 then Reversed else Captured)
                    else if p.captured == 0 then Held else PartiallyCaptured)
    && p' == p.(released := p'.released, holdReleased := p'.holdReleased, state := p'.state)
  }

  /** Money and rights go back to where the hold took them from; a reversal releases an unused hold as a whole. */
  lemma ReleaseOutcome(c: Cell, scope: string, q: Request, tx: string)
    requires PaymentsOk(c.payments) && q.ReleaseRequest?
    ensures var r := Release(c, scope, q, tx);
            if q.payment == "" || q.book == "" || q.asset == "" || q.amount <= 0 then r == Refused(ErrInvalidRequest)
            else if q.payment !in c.payments || c.payments[q.payment].scope != scope then r == Refused(ErrNotFound)
            else
              var p := c.payments[q.payment];
              if p.asset != q.asset then r == Refused(ErrInvalidRequest)
              else if (p.state != Held && p.state != PartiallyCaptured) || (q.reversal && p.captured > 0)
              then r == Refused(ErrInvalidTransition)
              else if !Fits(p.released + q.amount) then r == Refused(ErrOverflow)
              else if p.captured + p.released + q.amount > p.authorized
                      || (q.reversal && p.released + q.amount != p.authorized)
              then r == Refused(ErrOverCapture)
              else if !CanMove(c, q.book, q.asset, p.held, p.available, q.amount) then r == Refused(ErrPosting)
              else if !RightsReady(c.books, Holder(p.available, p.asset), p.region, q.amount)
              then r == Refused(ErrRights)
              else
                && r.Done? && q.payment in r.cell.payments && ReleaseCounted(p, r.cell.payments[q.payment], q.amount)
                && r.receipt == PaymentReceipt(q.payment, r.cell.payments[q.payment].state, q.amount, tx, false)
                && MoneyMoves(c.balances, r.cell.balances, p.held, p.available, q.amount)
                && RightsMoved(c.books, r.cell.books, Holder(p.available, p.asset), p.region, q.amount)
                && r.cell == c.(balances := r.cell.balances, books := r.cell.books,
                                payments := c.payments[q.payment := r.cell.payments[q.payment]])
  {
    hide PostLegs, MoveRights, MoneyMoves, RightsMoved, RightsReady, CanMove, PaymentOk;
    if q.amount > 0 && q.payment in c.payments {
      var p := c.payments[q.payment];
      Bounded(c, q.payment);
      MovesExactly(c, q.book, q.asset, p.held, p.available, q.amount);
      RightsExactly(c.books, Return, Holder(p.available, p.asset), p.region, q.amount);
    }
  }

  lemma Bounded(c: Cell, id: string)
    requires PaymentsOk(c.payments) && id in c.payments
    ensures var p := c.payments[id];
            PaymentOk(p) && p.captured >= 0 && p.released >= 0 && p.captured + p.released <= p.authorized
            && Fits(p.authorized)
  {
    hide Total;
    assert PaymentOk(c.payments[id]);
  }

  // ----- refund and chargeback -------------------------------------------------------------------

  /**
   * A refund raises the refunded counters and a chargeback the charged-back ones, of the payment and of the one capture
   * it names; a fully returned payment is charged back exactly when nothing of it was ever refunded.
   */
  predicate ReturnCounted(p: Payment, p': Payment, q: Request)
    requires q.ReturnRequest? && q.capture in p.captures
  {
    var row, refund, chargeback := p.captures[q.capture], When(!q.chargeback, q.amount), When(q.chargeback, q.amount);
    && p'.refunded == p.refunded + refund && p'.chargedBack == p.chargedBack + chargeback
    && p'.captures == p.captures[q.capture := CaptureRow(row.captured, row.cashback, row.refunded + refund,
                                                         row.chargedBack + chargeback)]
    && p'.state == (if p'.refunded + p'.chargedBack < p.captured then PartiallyRefunded
                    else if p'.refunded == 0 then ChargedBack else Refunded)
    && p' == p.(refunded := p'.refunded, chargedBack := p'.chargedBack, captures := p'.captures, state := p'.state)
  }

  lemma ReturnCounts(p: Payment, q: Request)
    requires PaymentOk(p) && q.ReturnRequest? && q.amount > 0 && q.capture in p.captures
    requires p.state in {Captured, Settled, PartiallyRefunded, Disputed}
    requires p.captures[q.capture].refunded + p.captures[q.capture].chargedBack
             + q.amount <= p.captures[q.capture].captured
    ensures var p' := AfterReturn(p, q);
            RefundState(p.captured, p'.refunded, p'.chargedBack).Some? && ReturnCounted(p, p', q)
  {
    hide Total;
    ReturnKeeps(p, q);
    FoldUpdate(p.captures, q.capture, Returned(p.captures[q.capture], q.amount, q.chargeback));
  }

  /** A return moves money from the merchant's account and rights back to the region, within the capture it names. */
  lemma ReturnOutcome(c: Cell, q: Request, tx: string)
    requires PaymentsOk(c.payments) && q.ReturnRequest?
    ensures var r := GiveBack(c, q, tx);
            if q.payment == "" || q.book == "" || q.asset == "" || q.capture == "" || q.debit == "" || q.amount <= 0
            then r == Refused(ErrInvalidRequest)
            else if q.payment !in c.payments then r == Refused(ErrNotFound)
            else
              var p := c.payments[q.payment];
              if p.asset != q.asset then r == Refused(ErrInvalidRequest)
              else if p.state == Refunded || p.state == ChargedBack then r == Refused(ErrOverRefund)
              else if p.state !in {Captured, Settled, PartiallyRefunded, Disputed}
              then r == Refused(ErrInvalidTransition)
              else if q.capture !in p.captures then r == Refused(ErrInvalidRequest)
              else if p.captures[q.capture].captured <
                      p.captures[q.capture].refunded + p.captures[q.capture].chargedBack + q.amount
              then r == Refused(ErrOverRefund)
              else if !HasRole(c, q.debit, MerchantRole)
                      || !CanMove(c, q.book, q.asset, q.debit, p.available, q.amount)
              then r == Refused(ErrPosting)
              else if !RightsReady(c.books, Holder(p.available, p.asset), p.region, q.amount)
              then r == Refused(ErrRights)
              else
                && r.Done? && q.payment in r.cell.payments && ReturnCounted(p, r.cell.payments[q.payment], q)
                && r.receipt == PaymentReceipt(q.payment, r.cell.payments[q.payment].state, q.amount, tx, false)
                && MoneyMoves(c.balances, r.cell.balances, q.debit, p.available, q.amount)
                && RightsMoved(c.books, r.cell.books, Holder(p.available, p.asset), p.region, q.amount)
                && r.cell == c.(balances := r.cell.balances, books := r.cell.books,
                                payments := c.payments[q.payment := r.cell.payments[q.payment]])
  {
    hide PostLegs, MoveRights, MoneyMoves, RightsMoved, RightsReady, CanMove, PaymentOk, AfterReturn, RefundState,
         ReturnCounted;
    if q.amount > 0 && q.payment in c.payments {
      var p := c.payments[q.payment];
      Bounded(c, q.payment);
      MovesExactly(c, q.book, q.asset, q.debit, p.available, q.amount);
      RightsExactly(c.books, Return, Holder(p.available, p.asset), p.region, q.amount);
      if p.state in {Captured, Settled, PartiallyRefunded, Disputed} && q.capture in p.captures
         && p.captures[q.capture].refunded + p.captures[q.capture].chargedBack
            + q.amount <= p.captures[q.capture].captured {
        ReturnCounts(p, q);
      }
    }
  }

  // ----- deposit ---------------------------------------------------------------------------------

  /** A deposit moves money from the funding account and raises the region's right by as much, or changes nothing. */
  lemma DepositOutcome(c: Cell, account: string, asset: string, amount: int, region: string, funding: string)
    ensures var (c', error) := Deposit(c, account, asset, amount, region, funding);
            if account == "" || asset == "" || amount <= 0 || region == ""
            then (c', error) == (c, Some(ErrInvalidRequest))
            else if account !in c.accounts then (c', error) == (c, Some(ErrNotFound))
            else if !HasRole(c, funding, FundingRole)
                    || !CanMove(c, c.accounts[account].book, asset, funding, account, amount)
            then (c', error) == (c, Some(ErrPosting))
            else if !RightsReady(c.books, Holder(account, asset), region, amount)
            then (c', error) == (c, Some(ErrRights))
            else
              && error.None? && MoneyMoves(c.balances, c'.balances, funding, account, amount)
              && RightsMoved(c.books, c'.books, Holder(account, asset), region, amount)
              && c' == c.(balances := c'.balances, books := c'.books)
  {
    hide PostLegs, MoveRights, MoneyMoves, RightsMoved, RightsReady, CanMove;
    if amount > 0 && account in c.accounts {
      MovesExactly(c, c.accounts[account].book, asset, funding, account, amount);
      RightsExactly(c.books, Return, Holder(account, asset), region, amount);
    }
  }

  // ----- transfers between customers -------------------------------------------------------------

  function SettlementOf(c: Cell, account: string, asset: string): string
    requires account in c.accounts && Holder(c.accounts[account].book, asset) in c.settlements
  {
    c.settlements[Holder(c.accounts[account].book, asset)]
  }

  predicate CrossBook(c: Cell, q: TransferCall)
    requires q.payer in c.accounts && q.payee in c.accounts
  {
    c.accounts[q.payer].book != c.accounts[q.payee].book
  }

  /** The books meet through their settlement accounts, and all accounts may carry their new balances. */
  predicate CanTransfer(c: Cell, q: TransferCall)
    requires q.payer in c.accounts && q.payee in c.accounts
  {
    var a, b := c.accounts[q.payer].book, c.accounts[q.payee].book;
    if a == b then CanMove(c, a, q.asset, q.payer, q.payee, q.amount)
    else
      && Holder(a, q.asset) in c.settlements && Holder(b, q.asset) in c.settlements
      && CanMove(c, a, q.asset, q.payer, SettlementOf(c, q.payer, q.asset), q.amount)
      && CanMove(c, b, q.asset, SettlementOf(c, q.payee, q.asset), q.payee, q.amount)
  }

  /** The payer's settlement account takes the amount over and the payee's hands it out. */
  ghost predicate TransferMovesMoney(c: Cell, b: map<string, int>, q: TransferCall)
    requires q.payer in c.accounts && q.payee in c.accounts && CanTransfer(c, q)
  {
    forall a ::
      Get(b, a) == Get(c.balances, a) - When(a == q.payer, q.amount) + When(a == q.payee, q.amount)
                   + When(CrossBook(c, q) && a == SettlementOf(c, q.payer, q.asset), q.amount)
                   - When(CrossBook(c, q) && a == SettlementOf(c, q.payee, q.asset), q.amount)
  }

  lemma TransferMoneyExactly(c: Cell, q: TransferCall)
    requires SettlementsLinked(c) && q.payer in c.accounts && q.payee in c.accounts && q.amount > 0
    ensures var b := TransferMoney(c, q.payer, q.payee, q.asset, q.amount);
            (b.Some? <==> CanTransfer(c, q)) && (b.Some? ==> TransferMovesMoney(c, b.value, q))
  {
    hide PostLegs, TransferMoney, Storable, HasRole;
    OrderFree(c, q.payer, q.payee, q.asset, q.amount);
    var a, b := c.accounts[q.payer].book, c.accounts[q.payee].book;
    if a == b {
      MovesExactly(c, a, q.asset, q.payer, q.payee, q.amount);
    } else if Holder(a, q.asset) in c.settlements && Holder(b, q.asset) in c.settlements {
      var out, back := SettlementOf(c, q.payer, q.asset), SettlementOf(c, q.payee, q.asset);
      LinkedBooks(c, Holder(a, q.asset));
      LinkedBooks(c, Holder(b, q.asset));
      MovesExactly(c, a, q.asset, q.payer, out, q.amount);
      if CanMove(c, a, q.asset, q.payer, out, q.amount) {
        var half := c.(balances := PostLegs(c, a, q.asset, [Leg(q.payer, out, q.amount)]).value);
        MovesExactly(half, b, q.asset, back, q.payee, q.amount);
        MoveStays(c, half, b, q.asset, back, q.payee, q.amount);
      }
    } else {
    }
  }

  lemma LinkedBooks(c: Cell, h: Holder)
    requires SettlementsLinked(c) && h in c.settlements
    ensures c.settlements[h] in c.accounts && c.accounts[c.settlements[h]].book == h.account
  {
  }

  /** Whether money can move between two accounts depends on their own balances only. */
  lemma MoveStays(c: Cell, half: Cell, book: string, asset: string, from: string, to: string, amount: int)
    requires half.accounts == c.accounts && Get(half.balances, from) == Get(c.balances, from)
    requires Get(half.balances, to) == Get(c.balances, to)
    ensures CanMove(half, book, asset, from, to, amount) <==> CanMove(c, book, asset, from, to, amount)
  {
  }

  lemma TransferRightsExactly(books: map<Holder, Book>, payer: string, payee: string, asset: string, region: string,
                              amount: int)
    requires payer != payee && amount > 0 && region != ""
    ensures var h, k := Holder(payer, asset), Holder(payee, asset);
            var moved := TransferRights(books, payer, payee, asset, region, amount);
            && (moved.Some? <==> RightsReady(books, h, region, -amount) && RightsReady(books, k, region, amount))
            && (moved.Some? ==>
                  moved.value ==
                  books[h := Adjusted(books[h], region, -amount)][k := Adjusted(books[k], region, amount)])
  {
    hide MoveRights;
    var h, k := Holder(payer, asset), Holder(payee, asset);
    RightsExactly(books, Spend, h, region, amount);
    var spent := MoveRights(books, Spend, h, region, amount);
    if spent.Some? {
      RightsExactly(spent.value, Return, k, region, amount);
    }
  }

  /** A transfer moves money and rights from payer to payee together, through settlement when their books differ. */
  lemma TransferOutcome(c: Cell, q: TransferCall, payerTx: string, payeeTx: string, region: string)
    requires SettlementsLinked(c)
    ensures var (c', receipt, error) := Transfer(c, q, payerTx, payeeTx, region);
            if q.payer == "" || q.payee == "" || q.asset == "" || q.amount <= 0 || q.payer == q.payee || region == ""
            then (c', receipt, error) == (c, None, Some(ErrInvalidRequest))
            else if q.payer !in c.accounts || q.payee !in c.accounts
            then (c', receipt, error) == (c, None, Some(ErrNotFound))
            else if c.accounts[q.payer].asset != q.asset || c.accounts[q.payee].asset != q.asset
            then (c', receipt, error) == (c, None, Some(ErrInvalidRequest))
            else if !CanTransfer(c, q) then (c', receipt, error) == (c, None, Some(ErrPosting))
            else if !RightsReady(c.books, Holder(q.payer, q.asset), region, -q.amount)
                    || !RightsReady(c.books, Holder(q.payee, q.asset), region, q.amount)
            then (c', receipt, error) == (c, None, Some(ErrRights))
            else
              && error.None? && TransferMovesMoney(c, c'.balances, q)
              && receipt == Some(TransferReceipt(q.id, payerTx, if CrossBook(c, q) then payeeTx else payerTx,
                                                 CrossBook(c, q), false))
              && c'.books == c.books[Holder(q.payer, q.asset) :=
                                       Adjusted(c.books[Holder(q.payer, q.asset)], region, -q.amount)]
                                    [Holder(q.payee, q.asset) :=
                                       Adjusted(c.books[Holder(q.payee, q.asset)], region, q.amount)]
              && c' == c.(balances := c'.balances, books := c'.books)
  {
    hide TransferMoney, TransferRights, CanTransfer, TransferMovesMoney, Adjusted, SettlementsLinked;
    if q.amount > 0 && q.payer in c.accounts && q.payee in c.accounts && q.payer != q.payee && region != "" {
      TransferMoneyExactly(c, q);
      TransferRightsExactly(c.books, q.payer, q.payee, q.asset, region, q.amount);
    }
  }

  // ----- calls -----------------------------------------------------------------------------------

  /** Two requests share an idempotency record only if they are of one kind. */
  predicate SameKind(q: Request, r: Request) {
    || (q.HoldRequest? && r.HoldRequest?) || (q.CaptureRequest? && r.CaptureRequest?)
    || (q.ReleaseRequest? && r.ReleaseRequest? && q.reversal == r.reversal)
    || (q.ReturnRequest? && r.ReturnRequest? && q.chargeback == r.chargeback)
  }

  lemma OperationsApart(q: Request, r: Request)
    ensures OperationName(q) == OperationName(r) <==> SameKind(q, r)
  {
    var s, t := OperationName(q), OperationName(r);
    if s == t {
      assert |s| == |t| && s[0] == t[0] && s[2] == t[2];
    }
  }
}
