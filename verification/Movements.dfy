/** What a ledger transaction does to the sum of balances over any set of accounts. */
module Movements {
  import opened Amounts
  import opened Totals
  import opened Escrow
  import opened Payments

  ghost function Among(b: map<string, int>, s: set<string>): map<string, int> {
    map a | a in b && a in s :: b[a]
  }

  /** The money held together by the accounts of a set. */
  ghost function SumOver(b: map<string, int>, s: set<string>): int {
    Total(Among(b, s))
  }

  ghost function Change(l: Leg, s: set<string>): int {
    (if l.to in s then l.amount else 0) - (if l.from in s then l.amount else 0)
  }

  ghost function Net(legs: seq<Leg>, n: nat, s: set<string>): int
    requires n <= |legs|
  {
    if n == 0 then 0 else Net(legs, n - 1, s) + Change(legs[n - 1], s)
  }

  lemma SumSet(b: map<string, int>, k: string, v: int, s: set<string>)
    ensures SumOver(b[k := v], s) == SumOver(b, s) + (if k in s then v - Get(b, k) else 0)
  {
    hide Total;
    if k in s {
      assert Among(b[k := v], s) == Among(b, s)[k := v];
      TotalUpdate(Among(b, s), k, v);
    } else {
      assert Among(b[k := v], s) == Among(b, s);
    }
  }

  lemma SumOne(b: map<string, int>, a: string)
    ensures SumOver(b, {a}) == Get(b, a)
  {
    if a in b {
      assert Among(b, {a}) == map[a := b[a]];
      TotalRemove(Among(b, {a}), a);
      assert Among(b, {a}) - {a} == map[];
    } else {
      assert Among(b, {a}) == map[];
    }
  }

  lemma SumShift(b: map<string, int>, l: Leg, s: set<string>)
    ensures SumOver(Shift(b, l), s) == SumOver(b, s) + Change(l, s)
  {
    hide SumOver;
    var debited := b[l.from := Get(b, l.from) - l.amount];
    SumSet(b, l.from, Get(b, l.from) - l.amount, s);
    SumSet(debited, l.to, Get(debited, l.to) + l.amount, s);
  }

  lemma {:induction false} SumShifted(b: map<string, int>, legs: seq<Leg>, n: nat, s: set<string>)
    requires n <= |legs|
    ensures SumOver(Shifted(b, legs, n), s) == SumOver(b, s) + Net(legs, n, s)
  {
    hide SumOver, Change, Shift;
    if n > 0 {
      SumShifted(b, legs, n - 1, s);
      SumShift(Shifted(b, legs, n - 1), legs[n - 1], s);
    }
  }

  /** Legs that never cross the border of a set leave its sum alone. */
  lemma {:induction false} NetZero(legs: seq<Leg>, n: nat, s: set<string>)
    requires n <= |legs| && forall i | 0 <= i < n :: legs[i].from in s <==> legs[i].to in s
    ensures Net(legs, n, s) == 0
  {
    if n > 0 {
      NetZero(legs, n - 1, s);
    }
  }

  ghost function AmountOf(legs: seq<Leg>, n: nat): int
    requires n <= |legs|
  {
    if n == 0 then 0 else AmountOf(legs, n - 1) + legs[n - 1].amount
  }

  /** Legs that all leave one set take their whole amount out of it. */
  lemma {:induction false} NetOut(legs: seq<Leg>, n: nat, s: set<string>)
    requires n <= |legs| && forall i | 0 <= i < n :: legs[i].from in s && legs[i].to !in s
    ensures Net(legs, n, s) == -AmountOf(legs, n)
  {
    if n > 0 {
      NetOut(legs, n - 1, s);
    }
  }

  // ----- one transaction --------------------------------------------------------------------

  ghost predicate Uncrossed(legs: seq<Leg>, s: set<string>) {
    forall i | 0 <= i < |legs| :: legs[i].from in s <==> legs[i].to in s
  }

  lemma PostSum(c: Cell, book: string, asset: string, legs: seq<Leg>, s: set<string>)
    requires PostLegs(c, book, asset, legs).Some?
    ensures SumOver(PostLegs(c, book, asset, legs).value, s) == SumOver(c.balances, s) + Net(legs, |legs|, s)
  {
    hide SumOver, Net;
    SumShifted(c.balances, legs, |legs|, s);
  }

  lemma PostUncrossed(c: Cell, book: string, asset: string, legs: seq<Leg>, s: set<string>)
    requires PostLegs(c, book, asset, legs).Some? && Uncrossed(legs, s)
    ensures SumOver(PostLegs(c, book, asset, legs).value, s) == SumOver(c.balances, s)
  {
    hide PostLegs, SumOver;
    PostSum(c, book, asset, legs, s);
    NetZero(legs, |legs|, s);
  }

  lemma PostLegFacts(c: Cell, book: string, asset: string, legs: seq<Leg>, i: nat)
    requires PostLegs(c, book, asset, legs).Some? && i < |legs|
    ensures LegOk(c.accounts, book, asset, legs[i])
    ensures BalanceOk(c.accounts, PostLegs(c, book, asset, legs).value, legs[i].from)
    ensures BalanceOk(c.accounts, PostLegs(c, book, asset, legs).value, legs[i].to)
  {
  }

  /** One leg moves exactly its amount, and no third account. */
  lemma PostOne(c: Cell, book: string, asset: string, l: Leg, a: string)
    requires PostLegs(c, book, asset, [l]).Some?
    ensures LegOk(c.accounts, book, asset, l)
    ensures Get(PostLegs(c, book, asset, [l]).value, a) == Get(c.balances, a) + Change(l, {a})
  {
    hide PostLegs, SumOver, Shifted;
    PostLegFacts(c, book, asset, [l], 0);
    PostSum(c, book, asset, [l], {a});
    assert Net([l], 1, {a}) == Net([l], 0, {a}) + Change([l][0], {a});
    SumOne(c.balances, a);
    SumOne(PostLegs(c, book, asset, [l]).value, a);
  }

  lemma {:induction false} ShiftedKeys(b: map<string, int>, legs: seq<Leg>, n: nat, names: set<string>)
    requires n <= |legs| && b.Keys <= names && forall i | 0 <= i < n :: legs[i].from in names && legs[i].to in names
    ensures Shifted(b, legs, n).Keys <= names
  {
    if n > 0 {
      ShiftedKeys(b, legs, n - 1, names);
    }
  }

  lemma PostKeys(c: Cell, book: string, asset: string, legs: seq<Leg>)
    requires PostLegs(c, book, asset, legs).Some? && c.balances.Keys <= c.accounts.Keys
    ensures PostLegs(c, book, asset, legs).value.Keys <= c.accounts.Keys
  {
    ShiftedKeys(c.balances, legs, |legs|, c.accounts.Keys);
  }

  // ----- every book balances ------------------------------------------------------------------

  ghost function InBook(accounts: map<string, Account>, book: string, asset: string): set<string> {
    set a | a in accounts && accounts[a].book == book && accounts[a].asset == asset
  }

  /** Per book and asset, the balances sum to zero. */
  ghost predicate BooksBalance(accounts: map<string, Account>, b: map<string, int>) {
    forall book, asset :: SumOver(b, InBook(accounts, book, asset)) == 0
  }

  lemma PostBalances(c: Cell, book: string, asset: string, legs: seq<Leg>)
    requires PostLegs(c, book, asset, legs).Some? && BooksBalance(c.accounts, c.balances)
    ensures BooksBalance(c.accounts, PostLegs(c, book, asset, legs).value)
  {
    hide PostLegs, SumOver;
    forall k, a ensures SumOver(PostLegs(c, book, asset, legs).value, InBook(c.accounts, k, a)) == 0 {
      forall i | 0 <= i < |legs|
        ensures legs[i].from in InBook(c.accounts, k, a) <==> legs[i].to in InBook(c.accounts, k, a)
      {
        PostLegFacts(c, book, asset, legs, i);
      }
      PostUncrossed(c, book, asset, legs, InBook(c.accounts, k, a));
    }
  }

  // ----- settlement accounts cancel ---------------------------------------------------------------

  ghost function SettlementsOf(accounts: map<string, Account>, asset: string): set<string> {
    set a | a in accounts && accounts[a].role == SettlementRole && accounts[a].asset == asset
  }

  /** Per asset, the settlement accounts of all books sum to zero. */
  ghost predicate SettlementsCancel(accounts: map<string, Account>, b: map<string, int>) {
    forall asset :: SumOver(b, SettlementsOf(accounts, asset)) == 0
  }

  ghost predicate AvoidsSettlement(accounts: map<string, Account>, legs: seq<Leg>) {
    forall i | 0 <= i < |legs| ::
      && legs[i].from in accounts && accounts[legs[i].from].role != SettlementRole
      && legs[i].to in accounts && accounts[legs[i].to].role != SettlementRole
  }

  lemma PostAvoids(c: Cell, book: string, asset: string, legs: seq<Leg>)
    requires PostLegs(c, book, asset, legs).Some? && AvoidsSettlement(c.accounts, legs)
    requires SettlementsCancel(c.accounts, c.balances)
    ensures SettlementsCancel(c.accounts, PostLegs(c, book, asset, legs).value)
  {
    hide PostLegs, SumOver;
    forall a ensures SumOver(PostLegs(c, book, asset, legs).value, SettlementsOf(c.accounts, a)) == 0 {
      PostUncrossed(c, book, asset, legs, SettlementsOf(c.accounts, a));
    }
  }

  /** New accounts hold nothing, so no sum over a set of accounts changes with them. */
  lemma SumGrows(b: map<string, int>, s: set<string>, s': set<string>)
    requires forall a | a in b :: a in s <==> a in s'
    ensures SumOver(b, s) == SumOver(b, s')
  {
    assert Among(b, s) == Among(b, s');
  }
}
