/** A cell's ledger, its payments and its spending rights move together. */
module Lockstep {
  import opened Amounts
  import opened Totals
  import opened Escrow
  import opened Payments
  import opened Lifecycle
  import opened Movements

  // ----- the invariant ------------------------------------------------------------------------

  ghost predicate Placed(c: Cell, p: Payment) {
    && HasRole(c, p.available, AvailableRole) && HasRole(c, p.held, HeldRole) && HasRole(c, p.merchant, MerchantRole)
    && c.accounts[p.available].asset == p.asset
  }

  ghost predicate SettlementsLinked(c: Cell) {
    forall h | h in c.settlements ::
      && HasRole(c, c.settlements[h], SettlementRole)
      && c.accounts[c.settlements[h]].book == h.account && c.accounts[c.settlements[h]].asset == h.asset
  }

  /** Exactly the available accounts have an authority. */
  ghost predicate WalletsLinked(c: Cell) {
    && (forall h | h in c.books :: HasRole(c, h.account, AvailableRole) && c.accounts[h.account].asset == h.asset)
    && (forall a | a in c.accounts && c.accounts[a].role == AvailableRole :: Holder(a, c.accounts[a].asset) in c.books)
  }

  ghost predicate PaymentsPlaced(c: Cell) {
    forall id | id in c.payments :: Placed(c, c.payments[id])
  }

  /** Rows refer to accounts of the right role. */
  ghost predicate Linked(c: Cell) {
    c.balances.Keys <= c.accounts.Keys && SettlementsLinked(c) && WalletsLinked(c) && PaymentsPlaced(c)
  }

  ghost predicate PaymentsOk(payments: map<string, Payment>) {
    forall id | id in payments :: PaymentOk(payments[id])
  }

  function Unsettled(p: Payment): int {
    p.authorized - p.captured - p.released
  }

  ghost function Outstanding(payments: map<string, Payment>, held: string): map<string, int> {
    map id | id in payments :: if payments[id].held == held then Unsettled(payments[id]) else 0
  }

  /** Every held account carries what its payments have authorized and neither captured nor released. */
  ghost predicate HeldMoney(accounts: map<string, Account>, b: map<string, int>, payments: map<string, Payment>) {
    forall a | a in accounts && accounts[a].role == HeldRole :: Get(b, a) == Total(Outstanding(payments, a))
  }

  /** Balance, authority total and regional rights of one wallet agree. */
  ghost predicate Level(b: map<string, int>, h: Holder, k: Book) {
    && k.unallocated == 0 && (forall r | r in k.rights :: k.rights[r].available >= 0)
    && k.total == Spendable(k) && k.total == Get(b, h.account)
  }

  ghost predicate InStep(b: map<string, int>, books: map<Holder, Book>) {
    forall h | h in books :: Level(b, h, books[h])
  }

  /** Every payment names the region its rights were taken from. */
  ghost predicate Regional(payments: map<string, Payment>) {
    forall id | id in payments :: payments[id].region != ""
  }

  ghost predicate Inv(c: Cell) {
    && Linked(c) && PaymentsOk(c.payments) && HeldMoney(c.accounts, c.balances, c.payments)
    && BooksBalance(c.accounts, c.balances) && SettlementsCancel(c.accounts, c.balances)
  }

  // ----- how each part moves -----------------------------------------------------------------------

  lemma HeldMoves(accounts: map<string, Account>, b: map<string, int>, b': map<string, int>,
                  payments: map<string, Payment>, id: string, p: Payment, delta: int)
    requires HeldMoney(accounts, b, payments)
    requires id in payments ==> payments[id].held == p.held
    requires Unsettled(p) == (if id in payments then Unsettled(payments[id]) else 0) + delta
    requires forall a | a in accounts && accounts[a].role == HeldRole ::
               Get(b', a) == Get(b, a) + if a == p.held then delta else 0
    ensures HeldMoney(accounts, b', payments[id := p])
  {
    hide Total, Unsettled, Outstanding;
    forall a | a in accounts && accounts[a].role == HeldRole
      ensures Get(b', a) == Total(Outstanding(payments[id := p], a)) {
      OutstandingMoves(payments, id, p, a, delta);
    }
  }

  lemma OutstandingMoves(payments: map<string, Payment>, id: string, p: Payment, a: string, delta: int)
    requires id in payments ==> payments[id].held == p.held
    requires Unsettled(p) == (if id in payments then Unsettled(payments[id]) else 0) + delta
    ensures Total(Outstanding(payments[id := p], a)) ==
            Total(Outstanding(payments, a)) + if a == p.held then delta else 0
  {
    hide Total, Unsettled;
    var v := if p.held == a then Unsettled(p) else 0;
    assert Outstanding(payments[id := p], a) == Outstanding(payments, a)[id := v];
    TotalUpdate(Outstanding(payments, a), id, v);
  }

  lemma CreditSpendable(k: Book, region: string, amount: int)
    requires region in k.rights
    ensures Spendable(Credit(k, region, amount)) == Spendable(k) + amount
  {
    hide Total;
    var k' := Credit(k, region, amount);
    assert AvailableOf(k'.rights) == AvailableOf(k.rights)[region := k.rights[region].available + amount];
    TotalUpdate(AvailableOf(k.rights), region, k.rights[region].available + amount);
  }

  function Signed(kind: EffectKind, amount: int): int {
    if kind == Spend then -amount else amount
  }

  /** A spend or return that the authority accepts moves its total and its rights by the same amount. */
  lemma MutatedLevel(b: map<string, int>, b': map<string, int>, h: Holder, k: Book, kind: EffectKind, region: string,
                     amount: int)
    requires Level(b, h, k) && kind != Allocate && amount > 0 && Mutated(k, kind, region, amount).1.None?
    requires Get(b', h.account) == Get(b, h.account) + Signed(kind, amount)
    ensures Level(b', h, Mutated(k, kind, region, amount).0)
  {
    hide Spendable;
    CreditSpendable(k, region, Signed(kind, amount));
    CreditOnly(k, region, Signed(kind, amount), kind, amount);
  }

  lemma CreditOnly(k: Book, region: string, signed: int, kind: EffectKind, amount: int)
    requires kind != Allocate && signed == Signed(kind, amount) && Mutated(k, kind, region, amount).1.None?
    ensures var k' := Mutated(k, kind, region, amount).0;
            && region in k.rights && k'.unallocated == k.unallocated && k'.total == k.total + signed
            && k'.rights == Credit(k, region, signed).rights
            && Spendable(k') == Spendable(Credit(k, region, signed))
  {
  }

  lemma RightsMove(b: map<string, int>, b': map<string, int>, books: map<Holder, Book>, kind: EffectKind,
                   h: Holder, region: string, amount: int)
    requires InStep(b, books) && kind != Allocate && amount > 0 && region != ""
    requires MoveRights(books, kind, h, region, amount).Some?
    requires forall g | g in books ::
               Get(b', g.account) == Get(b, g.account) + if g == h then Signed(kind, amount) else 0
    ensures InStep(b', MoveRights(books, kind, h, region, amount).value)
  {
    hide Spendable, Mutated;
    MutatedLevel(b, b', h, books[h], kind, region, amount);
  }

  lemma RightsKeys(books: map<Holder, Book>, kind: EffectKind, h: Holder, region: string, amount: int)
    requires MoveRights(books, kind, h, region, amount).Some?
    ensures MoveRights(books, kind, h, region, amount).value.Keys == books.Keys
  {
    hide Mutated;
  }

  /** A payment row written next to unchanged accounts. */
  lemma LinkedKeeps(c: Cell, b: map<string, int>, books: map<Holder, Book>, id: string, p: Payment)
    requires Linked(c) && Placed(c, p) && b.Keys <= c.accounts.Keys && books.Keys == c.books.Keys
    ensures Linked(c.(balances := b, books := books, payments := c.payments[id := p]))
  {
    var c' := c.(balances := b, books := books, payments := c.payments[id := p]);
    forall h | h in c'.books ensures HasRole(c', h.account, AvailableRole) && c'.accounts[h.account].asset == h.asset {
      assert h in c.books;
    }
    forall a | a in c'.accounts && c'.accounts[a].role == AvailableRole
      ensures Holder(a, c'.accounts[a].asset) in c'.books {
      assert Holder(a, c.accounts[a].asset) in c.books;
    }
    forall i | i in c'.payments ensures Placed(c', c'.payments[i]) {
      assert i != id ==> Placed(c, c.payments[i]);
    }
  }

  /** Everything a payment operation has to show about its result, once its money and rights are known. */
  lemma Assemble(c: Cell, b: map<string, int>, books: map<Holder, Book>, id: string, p: Payment, delta: int)
    requires Inv(c) && Placed(c, p) && PaymentOk(p) && b.Keys <= c.accounts.Keys && books.Keys == c.books.Keys
    requires BooksBalance(c.accounts, b) && SettlementsCancel(c.accounts, b)
    requires id in c.payments ==> c.payments[id].held == p.held
    requires Unsettled(p) == (if id in c.payments then Unsettled(c.payments[id]) else 0) + delta
    requires forall a | a in c.accounts && c.accounts[a].role == HeldRole ::
               Get(b, a) == Get(c.balances, a) + if a == p.held then delta else 0
    ensures Inv(c.(balances := b, books := books, payments := c.payments[id := p]))
  {
    hide Linked, PaymentOk, HeldMoney, BooksBalance, SettlementsCancel, Unsettled;
    LinkedKeeps(c, b, books, id, p);
    HeldMoves(c.accounts, c.balances, b, c.payments, id, p, delta);
  }

  /** The part of one leg a set of accounts of one role sees. */
  lemma LegFrom(c: Cell, book: string, asset: string, l: Leg, role: Role)
    requires PostLegs(c, book, asset, [l]).Some?
    ensures forall a | a in c.accounts && c.accounts[a].role == role ::
              Get(PostLegs(c, book, asset, [l]).value, a) == Get(c.balances, a) + Change(l, {a})
  {
    hide PostLegs, Change;
    forall a | a in c.accounts && c.accounts[a].role == role
      ensures Get(PostLegs(c, book, asset, [l]).value, a) == Get(c.balances, a) + Change(l, {a})
    {
      PostOne(c, book, asset, l, a);
    }
  }

  /** One leg between accounts outside settlement keeps the ledger's two sums and its keys. */
  lemma LegKeeps(c: Cell, book: string, asset: string, l: Leg)
    requires PostLegs(c, book, asset, [l]).Some? && c.balances.Keys <= c.accounts.Keys
    requires BooksBalance(c.accounts, c.balances) && SettlementsCancel(c.accounts, c.balances)
    requires AvoidsSettlement(c.accounts, [l])
    ensures var b := PostLegs(c, book, asset, [l]).value;
            b.Keys <= c.accounts.Keys && BooksBalance(c.accounts, b) && SettlementsCancel(c.accounts, b)
  {
    hide PostLegs, BooksBalance, SettlementsCancel;
    PostKeys(c, book, asset, [l]);
    PostBalances(c, book, asset, [l]);
    PostAvoids(c, book, asset, [l]);
  }

  // ----- hold ------------------------------------------------------------------------------------------

  lemma HoldKeeps(c: Cell, scope: string, q: Request, id: string, tx: string)
    requires Inv(c) && q.HoldRequest? && id !in c.payments && Hold(c, scope, q, id, tx).Done?
    ensures Inv(Hold(c, scope, q, id, tx).cell)
  {
    hide Linked, PaymentOk, HeldMoney, BooksBalance, SettlementsCancel, PostLegs, MoveRights, PaymentsOk;
    var l := Leg(q.available, q.held, q.amount);
    var b := PostLegs(c, q.book, q.asset, [l]).value;
    var books := MoveRights(c.books, Spend, Holder(q.available, q.asset), q.region, q.amount).value;
    HoldParts(c, q);
    LegKeeps(c, q.book, q.asset, l);
    LegFrom(c, q.book, q.asset, l, HeldRole);
    RightsKeys(c.books, Spend, Holder(q.available, q.asset), q.region, q.amount);
    NewPaymentOk(scope, q);
    Assemble(c, b, books, id, NewPayment(scope, q), q.amount);
  }

  lemma HoldParts(c: Cell, q: Request)
    requires q.HoldRequest? && HasRole(c, q.available, AvailableRole) && HasRole(c, q.held, HeldRole)
    requires PostLegs(c, q.book, q.asset, [Leg(q.available, q.held, q.amount)]).Some? && Inv(c)
    ensures c.balances.Keys <= c.accounts.Keys && AvoidsSettlement(c.accounts, [Leg(q.available, q.held, q.amount)])
    ensures c.accounts[q.available].asset == q.asset
    ensures Fits(q.amount)
  {
    hide BooksBalance, SettlementsCancel, HeldMoney, PaymentsOk;
    PostLegFacts(c, q.book, q.asset, [Leg(q.available, q.held, q.amount)], 0);
    OutstandingOk(c, q.held);
    assert Fits(Get(c.balances, q.held) + q.amount) by {
      PostOne(c, q.book, q.asset, Leg(q.available, q.held, q.amount), q.held);
    }
  }

  lemma {:induction false} OutstandingTotal(payments: map<string, Payment>, held: string)
    requires PaymentsOk(payments)
    ensures Total(Outstanding(payments, held)) >= 0
  {
    var m := Outstanding(payments, held);
    forall id | id in m ensures m[id] >= 0 {
      assert PaymentOk(payments[id]);
    }
    TotalBounds(m);
  }

  /** A held account is never overdrawn. */
  lemma OutstandingOk(c: Cell, held: string)
    requires Inv(c) && HasRole(c, held, HeldRole)
    ensures Get(c.balances, held) >= 0
  {
    hide PaymentsOk, Linked, BooksBalance, SettlementsCancel;
    OutstandingTotal(c.payments, held);
  }

  /** A hold keeps wallets level exactly when it names a region. */
  lemma HoldInStep(c: Cell, scope: string, q: Request, id: string, tx: string)
    requires Linked(c) && InStep(c.balances, c.books) && q.HoldRequest? && Hold(c, scope, q, id, tx).Done?
    ensures var c' := Hold(c, scope, q, id, tx).cell; InStep(c'.balances, c'.books) <==> q.region != ""
  {
    hide PostLegs, MoveRights, InStep;
    var l, h := Leg(q.available, q.held, q.amount), Holder(q.available, q.asset);
    var b := PostLegs(c, q.book, q.asset, [l]).value;
    LegFrom(c, q.book, q.asset, l, AvailableRole);
    PostLegFacts(c, q.book, q.asset, [l], 0);
    assert h in c.books;
    if q.region != "" {
      RightsMove(c.balances, b, c.books, Spend, h, q.region, q.amount);
    } else {
      NoRights(c.books, Spend, h, q.amount);
      NotLevel(c.balances, b, c.books, h);
    }
  }

  lemma NoRights(books: map<Holder, Book>, kind: EffectKind, h: Holder, amount: int)
    ensures MoveRights(books, kind, h, "", amount) == Some(books)
  {
  }

  lemma NotLevel(b: map<string, int>, b': map<string, int>, books: map<Holder, Book>, h: Holder)
    requires InStep(b, books) && h in books && Get(b', h.account) != Get(b, h.account)
    ensures !InStep(b', books)
  {
    hide Spendable;
    assert Level(b, h, books[h]);
    assert !Level(b', h, books[h]);
  }
}
