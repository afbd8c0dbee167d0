/** Opening wallets, deposits and customer transfers keep a cell's ledger and rights together. */
module Wallets {
  import opened Amounts
  import opened Totals
  import opened Escrow
  import opened Payments
  import opened Lifecycle
  import opened Movements
  import opened Lockstep
  import opened Settlement

  // ----- new accounts ------------------------------------------------------------------------------

  /** Accounts are added and none is changed. */
  ghost predicate Wider(accounts: map<string, Account>, wider: map<string, Account>) {
    forall a | a in accounts :: a in wider && wider[a] == accounts[a]
  }

  lemma WiderSums(accounts: map<string, Account>, wider: map<string, Account>, b: map<string, int>)
    requires Wider(accounts, wider) && b.Keys <= accounts.Keys && BooksBalance(accounts, b)
             && SettlementsCancel(accounts, b)
    ensures BooksBalance(wider, b) && SettlementsCancel(wider, b)
  {
    hide SumOver;
    forall book, asset ensures SumOver(b, InBook(wider, book, asset)) == 0 {
      SumGrows(b, InBook(accounts, book, asset), InBook(wider, book, asset));
    }
    forall asset ensures SumOver(b, SettlementsOf(wider, asset)) == 0 {
      SumGrows(b, SettlementsOf(accounts, asset), SettlementsOf(wider, asset));
    }
  }

  lemma WiderHeld(c: Cell, wider: map<string, Account>)
    requires Linked(c) && Wider(c.accounts, wider) && HeldMoney(c.accounts, c.balances, c.payments)
    ensures HeldMoney(wider, c.balances, c.payments)
  {
    hide Total;
    forall a | a in wider && wider[a].role == HeldRole ensures Get(c.balances, a) == Total(Outstanding(c.payments, a)) {
      if a in c.accounts {
        assert c.accounts[a].role == HeldRole;
      } else {
        var m := Outstanding(c.payments, a);
        forall id | id in m ensures m[id] == 0 {
          assert Placed(c, c.payments[id]);
        }
        TotalZero(m);
      }
    }
  }

  lemma {:induction false} TotalZero(m: map<string, int>)
    requires forall k | k in m :: m[k] == 0
    ensures Total(m) == 0
    decreases |m|
  {
    if k :| k in m {
      TotalRemove(m, k);
      TotalZero(m - {k});
    }
  }

  ghost function Opened(c: Cell, available: string, held: string, book: string, asset: string): map<string, Account> {
    c.accounts[available := Account(AvailableRole, book, asset, true)][held := Account(HeldRole, book, asset, true)]
  }

  lemma WiderLinked(c: Cell, c': Cell)
    requires Linked(c) && Wider(c.accounts, c'.accounts) && c'.balances == c.balances && c'.payments == c.payments
    requires SettlementsLinked(c') && WalletsLinked(c')
    ensures Linked(c')
  {
    hide SettlementsLinked, WalletsLinked;
    forall id | id in c'.payments ensures Placed(c', c'.payments[id]) {
      assert Placed(c, c.payments[id]);
    }
  }

  lemma WiderSettlements(c: Cell, c': Cell)
    requires SettlementsLinked(c) && Wider(c.accounts, c'.accounts) && c'.settlements == c.settlements
    ensures SettlementsLinked(c')
  {
    forall h | h in c'.settlements
      ensures HasRole(c', c'.settlements[h], SettlementRole)
      ensures c'.accounts[c'.settlements[h]].book == h.account && c'.accounts[c'.settlements[h]].asset == h.asset
    {
      assert HasRole(c, c.settlements[h], SettlementRole);
    }
  }

  lemma WalletLinked(c: Cell, c': Cell, available: string, held: string, book: string, asset: string, k: Book)
    requires Linked(c) && available !in c.accounts && held !in c.accounts && available != held
    requires c' ==
             c.(accounts := Opened(c, available, held, book, asset), books := c.books[Holder(available, asset) := k])
    ensures Linked(c')
  {
    hide Placed, SettlementsLinked;
    WiderSettlements(c, c');
    assert WalletsLinked(c') by {
      forall h | h in c'.books
        ensures HasRole(c', h.account, AvailableRole) && c'.accounts[h.account].asset == h.asset {
        assert h == Holder(available, asset) || h in c.books;
      }
    }
    WiderLinked(c, c');
  }

  lemma OpenWalletKeeps(c: Cell, available: string, held: string, book: string, asset: string, region: string)
    requires Inv(c)
    ensures Inv(OpenWallet(c, available, held, book, asset, region).0)
  {
    hide Linked, PaymentsOk, HeldMoney, BooksBalance, SettlementsCancel;
    var (c', error) := OpenWallet(c, available, held, book, asset, region);
    if error.Some? {
    } else {
      KeysLinked(c);
      WalletLinked(c, c', available, held, book, asset, Book(0, 0, 0, map[region := Right(0, 0)]));
      WiderSums(c.accounts, c'.accounts, c.balances);
      WiderHeld(c, c'.accounts);
    }
  }

  lemma KeysLinked(c: Cell)
    requires Linked(c)
    ensures c.balances.Keys <= c.accounts.Keys
  {
  }

  lemma OpenWalletInStep(c: Cell, available: string, held: string, book: string, asset: string, region: string)
    requires Linked(c) && InStep(c.balances, c.books)
    ensures var c' := OpenWallet(c, available, held, book, asset, region).0; InStep(c'.balances, c'.books)
  {
    hide Linked;
    var rights := map[region := Right(0, 0)];
    KeysLinked(c);
    TotalZero(AvailableOf(rights));
    if available !in c.accounts {
      assert Level(c.balances, Holder(available, asset), Book(0, 0, 0, rights));
    }
  }

  lemma AccountLinked(c: Cell, c': Cell, name: string, account: Account)
    requires Linked(c) && name !in c.accounts && account.role !in {AvailableRole, HeldRole}
    requires c' == c.(accounts := c.accounts[name := account], settlements := c'.settlements)
    requires c'.settlements == c.settlements ||
             (account.role == SettlementRole
              && c'.settlements == c.settlements[Holder(account.book, account.asset) := name])
    ensures Linked(c')
  {
    hide Placed;
    assert WalletsLinked(c') by {
      forall h | h in c'.books
        ensures HasRole(c', h.account, AvailableRole) && c'.accounts[h.account].asset == h.asset {
        assert h in c.books;
      }
    }
    assert SettlementsLinked(c') by {
      forall h | h in c'.settlements
        ensures HasRole(c', c'.settlements[h], SettlementRole)
        ensures c'.accounts[c'.settlements[h]].book == h.account && c'.accounts[c'.settlements[h]].asset == h.asset
      {
        assert h in c.settlements ==> HasRole(c, c.settlements[h], SettlementRole);
      }
    }
    WiderLinked(c, c');
  }

  lemma OpenAccountKeeps(c: Cell, name: string, account: Account)
    requires Inv(c)
    ensures Inv(OpenAccount(c, name, account).0)
  {
    hide Linked, PaymentsOk, HeldMoney, BooksBalance, SettlementsCancel;
    var (c', error) := OpenAccount(c, name, account);
    if error.Some? {
    } else {
      KeysLinked(c);
      AccountLinked(c, c', name, account);
      WiderSums(c.accounts, c'.accounts, c.balances);
      WiderHeld(c, c'.accounts);
    }
  }

  // ----- deposits --------------------------------------------------------------------------------------

  /** Money and rights moved without touching a payment or a held account. */
  lemma Rearrange(c: Cell, b: map<string, int>, books: map<Holder, Book>)
    requires Inv(c) && b.Keys <= c.accounts.Keys && books.Keys == c.books.Keys
    requires BooksBalance(c.accounts, b) && SettlementsCancel(c.accounts, b)
    requires forall a | a in c.accounts && c.accounts[a].role == HeldRole :: Get(b, a) == Get(c.balances, a)
    ensures Inv(c.(balances := b, books := books))
  {
    hide BooksBalance, SettlementsCancel, PaymentsOk, Total;
    RearrangeLinked(c, b, books);
  }

  lemma RearrangeLinked(c: Cell, b: map<string, int>, books: map<Holder, Book>)
    requires Linked(c) && b.Keys <= c.accounts.Keys && books.Keys == c.books.Keys
    ensures Linked(c.(balances := b, books := books))
  {
    var c' := c.(balances := b, books := books);
    forall h | h in c'.books ensures HasRole(c', h.account, AvailableRole) && c'.accounts[h.account].asset == h.asset {
      assert h in c.books;
    }
    forall a | a in c'.accounts && c'.accounts[a].role == AvailableRole
      ensures Holder(a, c'.accounts[a].asset) in c'.books {
      assert Holder(a, c.accounts[a].asset) in c.books;
    }
    forall id | id in c'.payments ensures Placed(c', c'.payments[id]) {
      assert Placed(c, c.payments[id]);
    }
  }

  lemma RightsKnown(books: map<Holder, Book>, kind: EffectKind, h: Holder, region: string, amount: int)
    requires region != "" && MoveRights(books, kind, h, region, amount).Some?
    ensures h in books
  {
    hide Mutated;
  }

  lemma DepositKeeps(c: Cell, account: string, asset: string, amount: int, region: string, funding: string)
    requires Inv(c)
    ensures Inv(Deposit(c, account, asset, amount, region, funding).0)
  {
    hide BooksBalance, SettlementsCancel, PaymentsOk, HeldMoney, PostLegs, MoveRights;
    var (c', error) := Deposit(c, account, asset, amount, region, funding);
    if error.Some? {
    } else {
      var l, h := Leg(funding, account, amount), Holder(account, asset);
      RightsKnown(c.books, Return, h, region, amount);
      LegKeeps(c, c.accounts[account].book, asset, l);
      LegFrom(c, c.accounts[account].book, asset, l, HeldRole);
      RightsKeys(c.books, Return, h, region, amount);
      Rearrange(c, c'.balances, c'.books);
    }
  }

  lemma DepositInStep(c: Cell, account: string, asset: string, amount: int, region: string, funding: string)
    requires Linked(c) && InStep(c.balances, c.books)
    ensures var c' := Deposit(c, account, asset, amount, region, funding).0; InStep(c'.balances, c'.books)
  {
    hide PostLegs, MoveRights, InStep;
    var (c', error) := Deposit(c, account, asset, amount, region, funding);
    if error.Some? {
    } else {
      var l, h := Leg(funding, account, amount), Holder(account, asset);
      LegFrom(c, c.accounts[account].book, asset, l, AvailableRole);
      RightsKnown(c.books, Return, h, region, amount);
      RightsMove(c.balances, c'.balances, c.books, Return, h, region, amount);
    }
  }

  // ----- customer transfers --------------------------------------------------------------------------------

  /** Two wallets of one asset: what a transfer needs of its parties. */
  ghost predicate Parties(c: Cell, payer: string, payee: string, asset: string) {
    && payer != payee && HasRole(c, payer, AvailableRole) && HasRole(c, payee, AvailableRole)
    && c.accounts[payer].asset == asset && c.accounts[payee].asset == asset
  }

  /** The same transfer written payer first, whatever the order of the two books. */
  function PayerFirst(c: Cell, payer: string, payee: string, asset: string, amount: int): Option<map<string, int>>
    requires payer in c.accounts && payee in c.accounts
  {
    var a, b := c.accounts[payer].book, c.accounts[payee].book;
    if a == b then PostLegs(c, a, asset, [Leg(payer, payee, amount)])
    else if Holder(a, asset) !in c.settlements || Holder(b, asset) !in c.settlements then None
    else
      var sent := PostLegs(c, a, asset, [Leg(payer, c.settlements[Holder(a, asset)], amount)]);
      if sent.None? then None
      else PostLegs(c.(balances := sent.value), b, asset, [Leg(c.settlements[Holder(b, asset)], payee, amount)])
  }

  lemma PostAllOne(c: Cell, asset: string, a: Posting)
    ensures PostAll(c, asset, [a]) == PostLegs(c, a.book, asset, [a.leg])
  {
    hide PostLegs;
    assert [a][1..] == [];
  }

  lemma PostAllTwo(c: Cell, asset: string, a: Posting, b: Posting)
    ensures PostAll(c, asset, [a, b]) ==
            var first := PostLegs(c, a.book, asset, [a.leg]);
            if first.None? then None else PostLegs(c.(balances := first.value), b.book, asset, [b.leg])
  {
    hide PostLegs;
    assert [a, b][1..] == [b];
    var first := PostLegs(c, a.book, asset, [a.leg]);
    if first.Some? {
      PostAllOne(c.(balances := first.value), asset, b);
    }
  }

  predicate Apart(l: Leg, m: Leg) {
    l.from != m.from && l.from != m.to && l.to != m.from && l.to != m.to
  }

  lemma ShiftsCommute(b: map<string, int>, l: Leg, m: Leg)
    requires Apart(l, m) && l.from != l.to && m.from != m.to
    ensures Shift(Shift(b, l), m) == Shift(Shift(b, m), l)
  {
  }

  lemma PostsOne(c: Cell, book: string, asset: string, l: Leg)
    ensures var after := Shift(c.balances, l);
            PostLegs(c, book, asset, [l]) ==
            if LegOk(c.accounts, book, asset, l) && BalanceOk(c.accounts, after, l.from)
               && BalanceOk(c.accounts, after, l.to)
            then Some(after) else None
  {
    hide Shift, LegOk, BalanceOk;
    var legs := [l];
    assert Shifted(c.balances, legs, 1) == Shift(Shifted(c.balances, legs, 0), legs[0]);
    assert LegOk(c.accounts, book, asset, legs[0]) <==> LegOk(c.accounts, book, asset, l);
  }

  /** Whether a transaction posts does not depend on one between other accounts. */
  lemma PostsApart(c: Cell, book: string, asset: string, l: Leg, m: Leg)
    requires Apart(l, m)
    ensures PostLegs(c.(balances := Shift(c.balances, m)), book, asset, [l]).Some? <==>
            PostLegs(c, book, asset, [l]).Some?
  {
    hide PostLegs;
    PostsOne(c, book, asset, l);
    PostsOne(c.(balances := Shift(c.balances, m)), book, asset, l);
  }

  /** The two transactions of a cross-book transfer may be written in either order. */
  lemma EitherOrder(c: Cell, asset: string, a: Posting, b: Posting)
    requires a.book != b.book
    ensures PostAll(c, asset, [a, b]) == PostAll(c, asset, [b, a])
  {
    hide PostLegs, PostAll, Shift;
    PostAllTwo(c, asset, a, b);
    PostAllTwo(c, asset, b, a);
    PostsOne(c, a.book, asset, a.leg);
    PostsOne(c, b.book, asset, b.leg);
    var after, before := c.(balances := Shift(c.balances, a.leg)), c.(balances := Shift(c.balances, b.leg));
    PostsOne(after, b.book, asset, b.leg);
    PostsOne(before, a.book, asset, a.leg);
    if LegOk(c.accounts, a.book, asset, a.leg) && LegOk(c.accounts, b.book, asset, b.leg) {
      PostsApart(c, a.book, asset, a.leg, b.leg);
      PostsApart(c, b.book, asset, b.leg, a.leg);
      ShiftsCommute(c.balances, a.leg, b.leg);
    }
  }

  /** Writing the books in their fixed order moves exactly what writing the payer's first would. */
  lemma OrderFree(c: Cell, payer: string, payee: string, asset: string, amount: int)
    requires payer in c.accounts && payee in c.accounts
    ensures TransferMoney(c, payer, payee, asset, amount) == PayerFirst(c, payer, payee, asset, amount)
  {
    hide PostLegs, PostAll;
    var plan := PlanLegs(c, payer, payee, asset, amount);
    if plan.None? {
    } else if |plan.value| == 1 {
      PostAllOne(c, asset, plan.value[0]);
    } else {
      EitherOrder(c, asset, plan.value[0], plan.value[1]);
      PostAllTwo(c, asset, plan.value[0], plan.value[1]);
      assert plan.value == [plan.value[0], plan.value[1]];
    }
  }

  /** A transfer moves its amount from payer to payee; of other accounts only settlement ones may change. */
  lemma TransferMoves(c: Cell, payer: string, payee: string, asset: string, amount: int, a: string)
    requires Linked(c) && Parties(c, payer, payee, asset) && TransferMoney(c, payer, payee, asset, amount).Some?
    requires a in c.accounts && c.accounts[a].role != SettlementRole
    ensures Get(TransferMoney(c, payer, payee, asset, amount).value, a)
            == Get(c.balances, a) - (if a == payer then amount else 0) + if a == payee then amount else 0
  {
    hide PostLegs, TransferMoney;
    OrderFree(c, payer, payee, asset, amount);
    var k, m := c.accounts[payer].book, c.accounts[payee].book;
    if k == m {
      PostOne(c, k, asset, Leg(payer, payee, amount), a);
    } else {
      var out, back :=
        Leg(payer, c.settlements[Holder(k, asset)], amount), Leg(c.settlements[Holder(m, asset)], payee, amount);
      PostOne(c, k, asset, out, a);
      PostOne(c.(balances := PostLegs(c, k, asset, [out]).value), m, asset, back, a);
    }
  }

  /** Both ends of a cross-book transfer pass through settlement accounts of its asset, in opposite directions. */
  lemma CrossBookCancels(c: Cell, payer: string, payee: string, asset: string, amount: int, a: string)
    requires Linked(c) && Parties(c, payer, payee, asset) && TransferMoney(c, payer, payee, asset, amount).Some?
    requires c.accounts[payer].book != c.accounts[payee].book
    ensures SumOver(TransferMoney(c, payer, payee, asset, amount).value, SettlementsOf(c.accounts, a))
            == SumOver(c.balances, SettlementsOf(c.accounts, a))
  {
    hide PostLegs, TransferMoney, SumOver;
    OrderFree(c, payer, payee, asset, amount);
    var k, m, s := c.accounts[payer].book, c.accounts[payee].book, SettlementsOf(c.accounts, a);
    var out, back :=
      Leg(payer, c.settlements[Holder(k, asset)], amount), Leg(c.settlements[Holder(m, asset)], payee, amount);
    PostSum(c, k, asset, [out], s);
    PostSum(c.(balances := PostLegs(c, k, asset, [out]).value), m, asset, [back], s);
    NetSingle(out, s);
    NetSingle(back, s);
  }

  lemma NetSingle(l: Leg, s: set<string>)
    ensures Net([l], 1, s) == Change(l, s)
  {
    assert Net([l], 1, s) == Net([l], 0, s) + Change([l][0], s);
  }

  lemma TransferMoneyKeeps(c: Cell, payer: string, payee: string, asset: string, amount: int)
    requires Linked(c) && Parties(c, payer, payee, asset) && TransferMoney(c, payer, payee, asset, amount).Some?
    requires BooksBalance(c.accounts, c.balances) && SettlementsCancel(c.accounts, c.balances)
    ensures var b := TransferMoney(c, payer, payee, asset, amount).value;
            b.Keys <= c.accounts.Keys && BooksBalance(c.accounts, b) && SettlementsCancel(c.accounts, b)
  {
    hide PostLegs, TransferMoney, SumOver, BooksBalance;
    OrderFree(c, payer, payee, asset, amount);
    var k, m := c.accounts[payer].book, c.accounts[payee].book;
    if k == m {
      LegKeeps(c, k, asset, Leg(payer, payee, amount));
    } else {
      var out, back :=
        Leg(payer, c.settlements[Holder(k, asset)], amount), Leg(c.settlements[Holder(m, asset)], payee, amount);
      var half := c.(balances := PostLegs(c, k, asset, [out]).value);
      PostKeys(c, k, asset, [out]);
      PostBalances(c, k, asset, [out]);
      PostKeys(half, m, asset, [back]);
      PostBalances(half, m, asset, [back]);
      forall a ensures SumOver(TransferMoney(c, payer, payee, asset, amount).value, SettlementsOf(c.accounts, a)) == 0 {
        CrossBookCancels(c, payer, payee, asset, amount, a);
      }
    }
  }

  lemma TransferParts(c: Cell, q: TransferCall, payerTx: string, payeeTx: string, region: string)
    requires Linked(c) && Transfer(c, q, payerTx, payeeTx, region).2.None?
    ensures Parties(c, q.payer, q.payee, q.asset) && q.amount > 0 && region != ""
    ensures TransferMoney(c, q.payer, q.payee, q.asset, q.amount).Some?
    ensures TransferRights(c.books, q.payer, q.payee, q.asset, region, q.amount).Some?
    ensures Transfer(c, q, payerTx, payeeTx, region).0 == c.(
              balances := TransferMoney(c, q.payer, q.payee, q.asset, q.amount).value,
              books := TransferRights(c.books, q.payer, q.payee, q.asset, region, q.amount).value)
  {
    hide TransferMoney, MoveRights;
    var h, g := Holder(q.payer, q.asset), Holder(q.payee, q.asset);
    RightsKnown(c.books, Spend, h, region, q.amount);
    RightsKeys(c.books, Spend, h, region, q.amount);
    RightsKnown(MoveRights(c.books, Spend, h, region, q.amount).value, Return, g, region, q.amount);
  }

  lemma TransferKeeps(c: Cell, q: TransferCall, payerTx: string, payeeTx: string, region: string)
    requires Inv(c)
    ensures Inv(Transfer(c, q, payerTx, payeeTx, region).0)
  {
    hide BooksBalance, SettlementsCancel, PaymentsOk, HeldMoney, TransferMoney, TransferRights;
    var (c', receipt, error) := Transfer(c, q, payerTx, payeeTx, region);
    if error.Some? {
    } else {
      TransferParts(c, q, payerTx, payeeTx, region);
      TransferMoneyKeeps(c, q.payer, q.payee, q.asset, q.amount);
      TransferRightsKeys(c.books, q.payer, q.payee, q.asset, region, q.amount);
      forall a | a in c.accounts && c.accounts[a].role == HeldRole ensures Get(c'.balances, a) == Get(c.balances, a) {
        TransferMoves(c, q.payer, q.payee, q.asset, q.amount, a);
      }
      Rearrange(c, c'.balances, c'.books);
    }
  }

  lemma TransferRightsKeys(books: map<Holder, Book>, payer: string, payee: string, asset: string, region: string,
                           amount: int)
    requires TransferRights(books, payer, payee, asset, region, amount).Some?
    ensures TransferRights(books, payer, payee, asset, region, amount).value.Keys == books.Keys
  {
    hide MoveRights;
    RightsKeys(books, Spend, Holder(payer, asset), region, amount);
    RightsKeys(MoveRights(books, Spend, Holder(payer, asset), region, amount).value, Return, Holder(payee, asset),
               region, amount);
  }

  lemma TransferInStep(c: Cell, q: TransferCall, payerTx: string, payeeTx: string, region: string)
    requires Linked(c) && InStep(c.balances, c.books)
    ensures var c' := Transfer(c, q, payerTx, payeeTx, region).0; InStep(c'.balances, c'.books)
  {
    hide TransferMoney, MoveRights, InStep;
    var (c', receipt, error) := Transfer(c, q, payerTx, payeeTx, region);
    if error.Some? {
    } else {
      TransferParts(c, q, payerTx, payeeTx, region);
      var h, g := Holder(q.payer, q.asset), Holder(q.payee, q.asset);
      var half := c.balances[q.payer := Get(c.balances, q.payer) - q.amount];
      RightsMove(c.balances, half, c.books, Spend, h, region, q.amount);
      var spent := MoveRights(c.books, Spend, h, region, q.amount).value;
      RightsKeys(c.books, Spend, h, region, q.amount);
      forall w | w in spent
        ensures Get(c'.balances, w.account) == Get(half, w.account) + if w == g then q.amount else 0 {
        assert w in c.books;
        TransferMoves(c, q.payer, q.payee, q.asset, q.amount, w.account);
      }
      RightsMove(half, c'.balances, spent, Return, g, region, q.amount);
    }
  }
}
