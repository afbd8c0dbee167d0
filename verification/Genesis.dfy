/** The genesis posting of a new world succeeds for every valid configuration and establishes the invariant. */
module Genesis {
  import opened Amounts
  import opened Totals
  import opened Names
  import opened Journal
  import opened Network
  import opened Protocol
  import opened Invariants

  /** What the configuration must satisfy for a world to be created. */
  ghost predicate ValidConfig(config: Config) {
    && config.asset != "" && config.initialBalance >= 0 && config.creditLimit >= 0 && config.unallocated >= 0
    && (forall n | n in config.regionalRights :: n != "" && config.regionalRights[n] >= 0)
    && Fits(config.initialBalance + config.creditLimit)
    && config.unallocated + Total(Plain(config.regionalRights)) == config.initialBalance + config.creditLimit
  }

  ghost function Plain(m: map<string, Amount>): map<string, int> {
    map k | k in m :: m[k] as int
  }

  /** A list that names every region exactly once. */
  ghost predicate Lists(names: seq<string>, regions: map<string, Region>) {
    && (forall i | 0 <= i < |names| :: names[i] in regions)
    && (forall i, j | 0 <= i < j < |names| :: names[i] != names[j])
    && (forall r | r in regions :: r in names)
  }

  function GenesisLines(config: Config, names: seq<string>): seq<Line>
    requires forall i | 0 <= i < |names| :: names[i] in InitialRegions(config)
  {
    MoneyLines(config.asset, config.initialBalance) +
    AuthorityLines(AUTHORITY_PREFIX + config.asset, config.initialBalance + config.creditLimit, config.unallocated,
                   InitialRegions(config), names)
  }

  function GenesisRequestOf(config: Config): Fingerprint {
    GenesisRequest(config.asset, config.initialBalance, config.creditLimit)
  }

  function GenesisPost(config: Config, names: seq<string>): PostResult
    requires forall i | 0 <= i < |names| :: names[i] in InitialRegions(config)
  {
    Post(EMPTY_LEDGER, GenesisEffect, GenesisKind, GenesisRequestOf(config), GenesisLines(config, names))
  }

  /** The new world: blank when there is nothing to post, otherwise with the genesis transaction. */
  ghost function Created(config: Config, names: seq<string>, lot: (nat, MessageId) -> nat): State
    requires ValidConfig(config) && Lists(names, InitialRegions(config))
  {
    var blank := Blank(config, lot);
    if GenesisLines(config, names) == [] then blank
    else match GenesisPost(config, names)
      case Posted(ledger, _) => blank.(ledger := ledger)
      case Rejected(_) => blank
  }

  // ----- sums over concatenated lines ---------------------------------------------

  lemma {:induction false} ChangeConcat(x: seq<Line>, y: seq<Line>, n: nat, a: Account)
    requires n <= |x| + |y|
    ensures Change(x + y, n, a) == if n <= |x| then Change(x, n, a) else Change(x, |x|, a) + Change(y, n - |x|, a)
  {
    if n > 0 {
      ChangeConcat(x, y, n - 1, a);
    }
  }

  lemma {:induction false} SideSumConcat(x: seq<Line>, y: seq<Line>, n: nat, asset: string, side: Side)
    requires n <= |x| + |y|
    ensures SideSum(x + y, n, asset, side) ==
            if n <= |x| then SideSum(x, n, asset, side)
            else SideSum(x, |x|, asset, side) + SideSum(y, n - |x|, asset, side)
  {
    if n > 0 {
      SideSumConcat(x, y, n - 1, asset, side);
    }
  }

  lemma ChangeJoin(x: seq<Line>, y: seq<Line>, a: Account)
    ensures Change(x + y, |x + y|, a) == Change(x, |x|, a) + Change(y, |y|, a)
  {
    ChangeConcat(x, y, |x + y|, a);
  }

  lemma SideSumJoin(x: seq<Line>, y: seq<Line>, asset: string, side: Side)
    ensures SideSum(x + y, |x + y|, asset, side) == SideSum(x, |x|, asset, side) + SideSum(y, |y|, asset, side)
  {
    SideSumConcat(x, y, |x + y|, asset, side);
  }

  ghost predicate Distinct(lines: seq<Line>) {
    && (forall i | 0 <= i < |lines| :: lines[i].amount > 0)
    && (forall i, j | 0 <= i < j < |lines| :: lines[i].account != lines[j].account)
  }

  lemma {:induction false} ChangeAbsent(lines: seq<Line>, n: nat, a: Account)
    requires n <= |lines| && forall i | 0 <= i < n :: lines[i].account != a
    ensures Change(lines, n, a) == 0
  {
    if n > 0 {
      ChangeAbsent(lines, n - 1, a);
    }
  }

  lemma {:induction false} SideSumGrows(lines: seq<Line>, m: nat, n: nat, asset: string, side: Side)
    requires m <= n <= |lines| && forall i | 0 <= i < |lines| :: lines[i].amount > 0
    ensures 0 <= SideSum(lines, m, asset, side) <= SideSum(lines, n, asset, side)
    decreases n
  {
    if m < n {
      SideSumGrows(lines, m, n - 1, asset, side);
    } else if n > 0 {
      SideSumGrows(lines, n - 1, n - 1, asset, side);
    }
  }

  /** Lines on distinct accounts whose side totals fit are postable on an empty ledger. */
  lemma DistinctPostable(lines: seq<Line>)
    requires Distinct(lines) && forall i | 0 <= i < |lines| :: lines[i].asset != ""
    requires forall asset, side :: SideSum(lines, |lines|, asset, side) < LIMIT
    ensures FirstBad(map[], lines, |lines|).None?
  {
    forall i | 0 <= i < |lines| ensures LineFits(0, lines, i) {
      var l := lines[i];
      SideSumGrows(lines, i + 1, |lines|, l.asset, l.side);
      SideSumGrows(lines, i, i, l.asset, l.side);
      ChangeAbsent(lines, i, l.account);
    }
    FirstBadNone(map[], lines, |lines|);
  }

  // ----- the lines of the regions ---------------------------------------------------

  ghost function Seen(names: seq<string>, k: nat): set<string>
    requires k <= |names|
  {
    set i | 0 <= i < k :: names[i]
  }

  lemma SeenStep(names: seq<string>, regions: map<string, Region>, k: nat)
    requires 0 < k <= |names| && Lists(names, regions)
    ensures Seen(names, k) == Seen(names, k - 1) + {names[k - 1]}
    ensures names[k - 1] !in Seen(names, k - 1) && names[k - 1] in regions
  {
  }

  lemma SeenAll(names: seq<string>, regions: map<string, Region>)
    requires Lists(names, regions)
    ensures Seen(names, |names|) == regions.Keys
  {
    forall r | r in regions ensures r in Seen(names, |names|) {
      var i :| 0 <= i < |names| && names[i] == r;
    }
  }

  lemma {:induction false} RegionLinesShape(asset: string, regions: map<string, Region>, names: seq<string>, k: nat)
    requires k <= |names| && Lists(names, regions)
    ensures var lines := RegionLines(asset, regions, names, k);
            && (forall i | 0 <= i < |lines| :: lines[i].account.Regional? && lines[i].account.region in Seen(names, k)
                                               && lines[i].asset == asset && lines[i].side == Credit)
            && Distinct(lines)
  {
    hide Seen;
    if k > 0 {
      RegionLinesShape(asset, regions, names, k - 1);
      SeenStep(names, regions, k);
    }
  }

  /** One more line on top of earlier ones. */
  lemma ChangeSnoc(x: seq<Line>, l: Line, a: Account)
    ensures Change(x + [l], |x| + 1, a) == Change(x, |x|, a) + if l.account == a then Signed(l) else 0
  {
    ChangeConcat(x, [l], |x|, a);
  }

  lemma SideSumSnoc(x: seq<Line>, l: Line, asset: string, side: Side)
    ensures SideSum(x + [l], |x| + 1, asset, side) ==
            SideSum(x, |x|, asset, side) + if l.asset == asset && l.side == side then l.amount else 0
  {
    SideSumConcat(x, [l], |x|, asset, side);
  }

  lemma {:induction false} RegionLinesChange(asset: string, regions: map<string, Region>, names: seq<string>, k: nat,
                                             a: Account)
    requires k <= |names| && Lists(names, regions)
    requires forall r | r in regions :: regions[r].rights >= 0
    ensures var lines := RegionLines(asset, regions, names, k);
            Change(lines, |lines|, a) ==
            if a.Regional? && a.region in Seen(names, k) && a.region in regions then regions[a.region].rights else 0
  {
    hide Seen;
    if k > 0 {
      RegionLinesChange(asset, regions, names, k - 1, a);
      SeenStep(names, regions, k);
      var r, earlier := names[k - 1], RegionLines(asset, regions, names, k - 1);
      if regions[r].rights > 0 {
        ChangeSnoc(earlier, Line(Regional(r), asset, Credit, regions[r].rights), a);
      }
    } else {
      SeenNone(names);
    }
  }

  lemma SeenNone(names: seq<string>)
    ensures Seen(names, 0) == {}
  {
  }

  /** The region lines credit, on their one asset, exactly the rights of the regions seen. */
  lemma {:induction false} RegionLinesSum(asset: string, regions: map<string, Region>, names: seq<string>, k: nat,
                                          x: string, side: Side)
    requires k <= |names| && Lists(names, regions)
    requires forall r | r in regions :: regions[r].rights >= 0
    ensures var lines := RegionLines(asset, regions, names, k);
            SideSum(lines, |lines|, x, side) ==
              if x == asset && side == Credit then Total(RightsOf(regions) - (regions.Keys - Seen(names, k))) else 0
  {
    hide Seen, Total;
    if k == 0 {
      SeenNone(names);
      assert RightsOf(regions) - regions.Keys == map[];
      EmptyTotal(RightsOf(regions) - (regions.Keys - Seen(names, 0)));
    } else {
      RegionLinesSum(asset, regions, names, k - 1, x, side);
      SeenStep(names, regions, k);
      var r, earlier := names[k - 1], RegionLines(asset, regions, names, k - 1);
      var before := regions.Keys - Seen(names, k - 1);
      assert regions.Keys - Seen(names, k) == before - {r};
      TotalVisit(RightsOf(regions), before, r);
      if regions[r].rights > 0 {
        SideSumSnoc(earlier, Line(Regional(r), asset, Credit, regions[r].rights), x, side);
      }
    }
  }

  lemma EmptyTotal(m: map<string, int>)
    requires m == map[]
    ensures Total(m) == 0
  {
  }

  lemma RegionLinesTotals(asset: string, regions: map<string, Region>, names: seq<string>)
    requires Lists(names, regions) && forall r | r in regions :: regions[r].rights >= 0
    ensures var lines := RegionLines(asset, regions, names, |names|);
            && (forall x, side :: SideSum(lines, |lines|, x, side) ==
                  if x == asset && side == Credit then Total(RightsOf(regions)) else 0)
            && (forall a ::
                  Change(lines, |lines|, a) ==
                  if a.Regional? && a.region in regions then regions[a.region].rights else 0)
  {
    hide Lists, Seen, Total;
    SeenAll(names, regions);
    assert RightsOf(regions) - (regions.Keys - Seen(names, |names|)) == RightsOf(regions);
    forall x, side { RegionLinesSum(asset, regions, names, |names|, x, side); }
    forall a { RegionLinesChange(asset, regions, names, |names|, a); }
  }

  // ----- the initial regions ---------------------------------------------------------

  lemma ZeroEntry(m: map<string, int>, k: string)
    ensures Total(if k in m then m else m[k := 0]) == Total(m)
  {
    TotalUpdate(m, k, 0);
  }

  /** The rights of the initial regions, entry by entry. */
  lemma InitialEntries(config: Config, c: map<string, int>)
    requires c.Keys == config.regionalRights.Keys + {"A", "B", "C"}
    requires forall r | r in c :: c[r] == if r in config.regionalRights then config.regionalRights[r] as int else 0
    ensures RightsOf(InitialRegions(config)) == c
  {
    assert InitialRegions(config).Keys == c.Keys;
  }

  lemma InitialRights(config: Config)
    requires ValidConfig(config)
    ensures Total(RightsOf(InitialRegions(config))) == Total(Plain(config.regionalRights))
  {
    hide Total;
    var m := Plain(config.regionalRights);
    ZeroEntry(m, "A");
    var a := if "A" in m then m else m["A" := 0];
    ZeroEntry(a, "B");
    var b := if "B" in a then a else a["B" := 0];
    ZeroEntry(b, "C");
    var c := if "C" in b then b else b["C" := 0];
    InitialEntries(config, c);
  }

  lemma InitialRegionsOk(config: Config)
    requires ValidConfig(config)
    ensures forall r | r in InitialRegions(config) ::
              r != "" && InitialRegions(config)[r].rights >= 0 && InitialRegions(config)[r].epoch > 0
  {
  }

  // ----- the two halves of the genesis transaction --------------------------------------

  ghost predicate Half(lines: seq<Line>, asset: string, total: int) {
    && Distinct(lines)
    && (forall i | 0 <= i < |lines| :: lines[i].asset == asset)
    && SideSum(lines, |lines|, asset, Debit) == total && SideSum(lines, |lines|, asset, Credit) == total
    && (forall x, side :: x != asset ==> SideSum(lines, |lines|, x, side) == 0)
  }

  lemma MoneyHalf(asset: string, balance: int)
    requires balance >= 0
    ensures Half(MoneyLines(asset, balance), asset, balance)
    ensures forall a :: Change(MoneyLines(asset, balance), |MoneyLines(asset, balance)|, a) ==
              if a == Funding then -balance else if a == User then balance else 0
    ensures |MoneyLines(asset, balance)| == if balance > 0 then 2 else 0
    ensures forall l | l in MoneyLines(asset, balance) :: l.account == Funding || l.account == User
  {
    var lines := MoneyLines(asset, balance);
    if balance > 0 {
      forall a { Change2(lines[0], lines[1], a); }
      forall x, side ensures SideSum(lines, 2, x, side) == if x == asset then balance else 0 {
        assert SideSum(lines, 1, x, side) == if x == asset && side == Debit then balance else 0;
      }
    }
  }

  /** The issuer's debit followed by the optional unallocated credit. */
  function AuthorityHead(asset: string, authority: int, unallocated: int): seq<Line> {
    [Line(Issuer, asset, Debit, authority)] +
    (if unallocated > 0 then [Line(Unallocated, asset, Credit, unallocated)] else [])
  }

  lemma HeadSums(asset: string, authority: int, unallocated: int)
    requires authority > 0 && unallocated >= 0
    ensures var head := AuthorityHead(asset, authority, unallocated);
            && Distinct(head)
            && SideSum(head, |head|, asset, Debit) == authority && SideSum(head, |head|, asset, Credit) == unallocated
            && (forall x, side :: x != asset ==> SideSum(head, |head|, x, side) == 0)
            && (forall a ::
                  Change(head, |head|, a) ==
                  if a == Issuer then -authority else if a == Unallocated then unallocated else 0)
  {
    var head := AuthorityHead(asset, authority, unallocated);
    forall x, side ensures SideSum(head, 1, x, side) == if x == asset && side == Debit then authority else 0 {}
    forall a ensures Change(head, 1, a) == if a == Issuer then -authority else 0 {}
  }

  lemma AuthorityHalf(asset: string, authority: int, unallocated: int, regions: map<string, Region>, names: seq<string>)
    requires authority >= 0 && unallocated >= 0 && Lists(names, regions)
    requires forall r | r in regions :: regions[r].rights >= 0
    requires unallocated + Total(RightsOf(regions)) == authority
    ensures var lines := AuthorityLines(asset, authority, unallocated, regions, names);
            && Half(lines, asset, authority)
            && (if authority > 0 then |lines| >= 2 else lines == [])
            && (forall a :: Change(lines, |lines|, a) ==
                  if a == Issuer then -authority else if a == Unallocated then unallocated
                  else if a.Regional? && a.region in regions then regions[a.region].rights else 0)
            && (forall l | l in lines :: l.account == Issuer || l.account == Unallocated || l.account.Regional?)
  {
    TotalBounds(RightsOf(regions));
    if authority > 0 {
      AuthorityHalfPositive(asset, authority, unallocated, regions, names);
    } else {
      forall r | r in regions ensures regions[r].rights == 0 {
        assert RightsOf(regions)[r] == regions[r].rights;
      }
    }
  }

  lemma AuthorityHalfPositive(asset: string, authority: int, unallocated: int, regions: map<string, Region>,
                              names: seq<string>)
    requires authority > 0 && unallocated >= 0 && Lists(names, regions)
    requires forall r | r in regions :: regions[r].rights >= 0
    requires unallocated + Total(RightsOf(regions)) == authority
    ensures var lines := AuthorityLines(asset, authority, unallocated, regions, names);
            && Half(lines, asset, authority) && |lines| >= 2
            && (forall a :: Change(lines, |lines|, a) ==
                  if a == Issuer then -authority else if a == Unallocated then unallocated
                  else if a.Regional? && a.region in regions then regions[a.region].rights else 0)
            && (forall l | l in lines :: l.account == Issuer || l.account == Unallocated || l.account.Regional?)
  {
    hide RegionLines, Seen, Total, SideSum, Change;
    var head, tail := AuthorityHead(asset, authority, unallocated), RegionLines(asset, regions, names, |names|);
    assert AuthorityLines(asset, authority, unallocated, regions, names) == head + tail;
    HeadSums(asset, authority, unallocated);
    RegionLinesShape(asset, regions, names, |names|);
    RegionLinesTotals(asset, regions, names);
    NoLines(asset, Credit);
    forall x, side
      ensures SideSum(head + tail, |head + tail|, x, side) ==
              SideSum(head, |head|, x, side) + SideSum(tail, |tail|, x, side) {
      SideSumJoin(head, tail, x, side);
    }
    forall a ensures Change(head + tail, |head + tail|, a) == Change(head, |head|, a) + Change(tail, |tail|, a) {
      ChangeJoin(head, tail, a);
    }
    assert Distinct(head + tail);
  }

  lemma NoLines(asset: string, side: Side)
    ensures SideSum([], 0, asset, side) == 0
  {
  }

  // ----- creation ------------------------------------------------------------------------

  lemma JoinHalves(x: seq<Line>, y: seq<Line>, asset: string, other: string, m: int, n: int)
    requires asset != other && asset != "" && other != "" && Half(x, asset, m) && Half(y, other, n) && 0 <= m < LIMIT
             && 0 <= n < LIMIT
    requires forall i, j | 0 <= i < |x| && 0 <= j < |y| :: x[i].account != y[j].account
    ensures FirstBad(map[], x + y, |x + y|).None? && Balanced(x + y)
    ensures forall a :: Change(x + y, |x + y|, a) == Change(x, |x|, a) + Change(y, |y|, a)
  {
    forall a ensures Change(x + y, |x + y|, a) == Change(x, |x|, a) + Change(y, |y|, a) {
      ChangeJoin(x, y, a);
    }
    forall z, side ensures SideSum(x + y, |x + y|, z, side) == if z == asset then m else if z == other then n else 0 {
      SideSumJoin(x, y, z, side);
    }
    DistinctPostable(x + y);
  }

  lemma GenesisPosts(config: Config, names: seq<string>)
    requires ValidConfig(config) && Lists(names, InitialRegions(config))
    ensures var lines, regions, authority :=
      GenesisLines(config, names), InitialRegions(config), config.initialBalance + config.creditLimit;
            && (lines == [] ==> authority == 0)
            && (lines != [] ==> |lines| >= 2)
            && FirstBad(map[], lines, |lines|).None? && Balanced(lines)
            && (forall a :: Change(lines, |lines|, a) ==
                  if a == Funding then -config.initialBalance else if a == User then config.initialBalance
                  else if a == Issuer then -authority else if a == Unallocated then config.unallocated
                  else if a.Regional? && a.region in regions then regions[a.region].rights else 0)
  {
    hide InitialRegions, Total, Half, FirstBad, Balanced, Change, MoneyLines, AuthorityLines;
    InitialRights(config);
    var other, authority := AUTHORITY_PREFIX + config.asset, config.initialBalance + config.creditLimit;
    MoneyHalf(config.asset, config.initialBalance);
    InitialRegionsOk(config);
    AuthorityHalf(other, authority, config.unallocated, InitialRegions(config), names);
    var x := MoneyLines(config.asset, config.initialBalance);
    var y := AuthorityLines(other, authority, config.unallocated, InitialRegions(config), names);
    assert |other| != |config.asset|;
    assert forall i | 0 <= i < |x| :: x[i] in x;
    assert forall j | 0 <= j < |y| :: y[j] in y;
    JoinHalves(x, y, config.asset, other, config.initialBalance, authority);
  }

  lemma EmptyLedgerOk()
    ensures LedgerOk(EMPTY_LEDGER)
  {
  }

  lemma GenesisLinked(effects: map<EffectId, Effect>)
    requires forall e | e in effects :: e == GenesisEffect
    ensures EffectsLinked(effects, map[], map[], map[])
  {
  }

  lemma NothingYet(key: string, asset: string, regions: map<string, Region>, commits: nat,
                   effects: map<EffectId, Effect>)
    ensures AnswersProven(map[], effects) && PaymentsOk(map[], regions) && TransfersOk(key, asset, regions, map[])
    ensures OutboxOk(map[], map[], commits) && InboxOk(map[], map[]) && CashbackOk(map[], map[])
    ensures VerdictsOk(map[], map[]) && SagasOk(effects, map[]) && AllHonest([], map[])
  {
  }

  lemma BlankRest(config: Config, lot: (nat, MessageId) -> nat, ledger: Ledger)
    requires ValidConfig(config) && LedgerOk(ledger)
    requires forall e | e in ledger.effects :: e == GenesisEffect
    requires forall a :: Get(ledger.balances, a) ==
               if a == Funding then -config.initialBalance else if a == User then config.initialBalance
               else if a == Issuer then -config.initialBalance - config.creditLimit
                    else if a == Unallocated then config.unallocated
               else if a.Regional? && a.region in InitialRegions(config) then InitialRegions(config)[a.region].rights
                    else 0
    ensures Inv(Blank(config, lot).(ledger := ledger))
  {
    hide LedgerOk, InitialRegions, RegionsOk, MoneyOk, AuthorityOk, Total, HealthyDCs, RightsOf, InTransitOf, Plain,
         EffectsLinked, PaymentsOk, TransfersOk, OutboxOk, InboxOk, CashbackOk, VerdictsOk, SagasOk, AllHonest,
         AnswersProven;
    InitialRights(config);
    InitialRegionsOk(config);
    var s := Blank(config, lot).(ledger := ledger);
    BlankBalances(s, config.initialBalance);
    GenesisLinked(ledger.effects);
    NothingYet(s.key, s.asset, s.regions, |ledger.journal|, ledger.effects);
  }

  /** The balances the genesis transaction leaves. */
  ghost predicate BlankLedger(s: State, balance: int) {
    forall a :: Get(s.ledger.balances, a) ==
      if a == Funding then -balance else if a == User then balance
      else if a == Issuer then -s.authorityTotal else if a == Unallocated then s.unallocated
      else if a.Regional? && a.region in s.regions then s.regions[a.region].rights else 0
  }

  lemma BlankRegions(s: State, balance: int)
    requires BlankLedger(s, balance)
    requires forall r | r in s.regions :: r != "" && s.regions[r].epoch > 0 && s.regions[r].rights >= 0
    ensures RegionsOk(s.regions, s.ledger.balances)
  {
  }

  lemma BlankMoney(s: State, balance: int)
    requires BlankLedger(s, balance) && s.payments == map[] && s.cashbackPaid == map[]
    ensures MoneyOk(s.ledger.balances, s.payments, s.cashbackPaid)
  {
    assert OutstandingOf(s.payments) == map[];
  }

  lemma BlankBalances(s: State, balance: int)
    requires s.payments == map[] && s.transfers == map[] && s.cashbackPaid == map[] && BlankLedger(s, balance)
    requires s.unallocated + Total(RightsOf(s.regions)) == s.authorityTotal == balance + s.creditLimit
             && Fits(s.authorityTotal)
    requires forall r | r in s.regions :: r != "" && s.regions[r].epoch > 0 && s.regions[r].rights >= 0
    ensures RegionsOk(s.regions, s.ledger.balances)
    ensures MoneyOk(s.ledger.balances, s.payments, s.cashbackPaid)
    ensures AuthorityOk(s.ledger.balances, Total(RightsOf(s.regions)), Total(InTransitOf(s.transfers)),
                        s.unallocated, s.creditLimit, s.authorityTotal)
  {
    hide RegionsOk, MoneyOk;
    BlankRegions(s, balance);
    BlankMoney(s, balance);
    assert InTransitOf(s.transfers) == map[];
  }

  /** Every valid configuration yields a world: its genesis posting commits and the invariant holds. */
  lemma CreatedKeeps(config: Config, names: seq<string>, lot: (nat, MessageId) -> nat)
    requires ValidConfig(config) && Lists(names, InitialRegions(config))
    ensures GenesisLines(config, names) != [] ==> GenesisPost(config, names).Posted?
    ensures Inv(Created(config, names, lot))
  {
    GenesisPosts(config, names);
    EmptyLedgerOk();
    var lines, request := GenesisLines(config, names), GenesisRequestOf(config);
    if lines == [] {
      BlankRest(config, lot, EMPTY_LEDGER);
    } else {
      PostKeeps(EMPTY_LEDGER, GenesisEffect, GenesisKind, request, lines);
      hide Inv, GenesisLines, LedgerOk, FirstBad, Balanced, ValidConfig, Lists, Moved, InitialRegions;
      BlankRest(config, lot, Committed(EMPTY_LEDGER, GenesisEffect, GenesisKind, request, lines));
    }
  }
}
