/** The loops of the financial audit: refolding the journal and checking every view against it. */
module Auditing {
  import opened Amounts
  import opened Totals
  import opened Names
  import opened Journal
  import opened N = Network
  import opened Protocol
  import opened Invariants
  import opened Posting

  /** Checks one condition on every entry of a map. */
  method AllEntries<K(==), V>(m: map<K, V>, holds: (K, V) -> bool) returns (ok: bool)
    ensures ok <==> forall k | k in m :: holds(k, m[k])
  {
    var left := m.Keys;
    while left != {}
      invariant left <= m.Keys
      invariant forall k | k in m && k !in left :: holds(k, m[k])
      decreases |left|
    {
      var k :| k in left;
      if !holds(k, m[k]) {
        return false;
      }
      left := left - {k};
    }
    ok := true;
  }

  // ----- one transaction -----------------------------------------------------------------

  /** A map of balances that the first n lines turned into another. */
  ghost predicate FoldedBy(before: map<Account, int>, after: map<Account, int>, lines: seq<Line>, n: nat)
    requires n <= |lines|
  {
    forall a :: Get(after, a) == Get(before, a) + Change(lines, n, a)
  }

  /** The first n lines are positive and refold without overflow on the given balances. */
  ghost predicate LinesFold(before: map<Account, int>, lines: seq<Line>, n: nat)
    requires n <= |lines|
  {
    forall i | 0 <= i < n :: lines[i].amount > 0 && LineFits(Get(before, lines[i].account), lines, i)
  }

  lemma FoldStep(before: map<Account, int>, folded: map<Account, int>, lines: seq<Line>, n: nat)
    requires n < |lines| && FoldedBy(before, folded, lines, n)
    ensures var l := lines[n];
            && Get(folded, l.account) + Signed(l) == Get(before, l.account) + Change(lines, n + 1, l.account)
            && FoldedBy(before, folded[l.account := Get(folded, l.account) + Signed(l)], lines, n + 1)
  {
  }

  method FoldLines(before: map<Account, int>, lines: seq<Line>) returns (ok: bool, folded: map<Account, int>)
    ensures ok <==> LinesFold(before, lines, |lines|) && Balanced(lines)
    ensures ok ==> FoldedBy(before, folded, lines, |lines|)
  {
    hide Tallied, FoldedBy, SideSum, Change, Balanced, TotalOf;
    folded := before;
    var perAsset: map<string, SideTotals> := map[];
    StartTally(before, lines);
    StartFold(before, lines);
    for i := 0 to |lines|
      invariant LinesFold(before, lines, i)
      invariant Tallied(perAsset, lines, i) && FoldedBy(before, folded, lines, i)
    {
      var line := lines[i];
      if line.amount <= 0 {
        return false, folded;
      }
      TallyStep(perAsset, lines, i);
      FoldStep(before, folded, lines, i);
      NextLine(perAsset, before, lines, i);
      var total := TotalOf(perAsset, line.asset);
      total :=
        if line.side == Debit then total.(debit := total.debit + line.amount)
        else total.(credit := total.credit + line.amount);
      var balance := Get(folded, line.account) + Signed(line);
      if !Fits(if line.side == Debit then total.debit else total.credit) || !Fits(balance) {
        return false, folded;
      }
      perAsset := perAsset[line.asset := total];
      folded := folded[line.account := balance];
    }
    ok := AllBalanced(perAsset);
    TalliesBalance(perAsset, lines);
  }

  lemma StartFold(before: map<Account, int>, lines: seq<Line>)
    ensures FoldedBy(before, before, lines, 0)
  {
  }

  // ----- the whole journal ------------------------------------------------------------------

  ghost predicate FoldOf(folded: map<Account, int>, journal: seq<Transaction>, n: nat)
    requires n <= |journal|
  {
    forall a :: Get(folded, a) == Folded(journal, n, a)
  }

  lemma RefoldableHere(folded: map<Account, int>, after: map<Account, int>, journal: seq<Transaction>, n: nat)
    requires n < |journal| && FoldOf(folded, journal, n)
    ensures Refoldable(journal, n) <==>
            LinesFold(folded, journal[n].lines, |journal[n].lines|) && Balanced(journal[n].lines)
    ensures FoldedBy(folded, after, journal[n].lines, |journal[n].lines|) ==> FoldOf(after, journal, n + 1)
  {
    var lines := journal[n].lines;
    hide Balanced, LineFits;
    forall i | 0 <= i < |lines| ensures Get(folded, lines[i].account) == Folded(journal, n, lines[i].account) {
    }
  }

  /** Sequence, chain, uniqueness and refold of the first n transactions. */
  ghost predicate Clean(journal: seq<Transaction>, n: nat)
    requires n <= |journal|
  {
    && (forall t | 0 <= t < n :: Chained(journal, t) && Refoldable(journal, t))
    && (forall t, u | 0 <= t < u < n :: journal[t].effect != journal[u].effect && journal[t].id != journal[u].id)
  }

  /** The effects and the identified transactions among the first n. */
  ghost predicate Indexed(seen: set<EffectId>, ids: map<TxId, Transaction>, journal: seq<Transaction>, n: nat)
    requires n <= |journal|
  {
    && (forall e :: e in seen <==> exists t | 0 <= t < n :: journal[t].effect == e)
    && (forall t | 0 <= t < n :: journal[t].id in ids)
    && (forall x | x in ids :: exists t | 0 <= t < n :: journal[t].id == x && ids[x] == journal[t])
  }

  lemma IndexStep(seen: set<EffectId>, ids: map<TxId, Transaction>, journal: seq<Transaction>, n: nat)
    requires n < |journal| && Indexed(seen, ids, journal, n)
    ensures journal[n].effect in seen <==> exists t | 0 <= t < n :: journal[t].effect == journal[n].effect
    ensures journal[n].id in ids <==> exists t | 0 <= t < n :: journal[t].id == journal[n].id
    ensures journal[n].id !in ids ==>
              Indexed(seen + {journal[n].effect}, ids[journal[n].id := journal[n]], journal, n + 1)
  {
    if journal[n].id !in ids {
      var more := ids[journal[n].id := journal[n]];
      forall x | x in more ensures exists t | 0 <= t < n + 1 :: journal[t].id == x && more[x] == journal[t] {
        if x == journal[n].id {
          assert journal[n].id == x && more[x] == journal[n];
        } else {
          var t :| 0 <= t < n && journal[t].id == x && ids[x] == journal[t];
        }
      }
      forall e ensures e in seen + {journal[n].effect} <==> exists t | 0 <= t < n + 1 :: journal[t].effect == e {
        SeenStep(seen, journal, n, e);
      }
    }
  }

  lemma SeenStep(seen: set<EffectId>, journal: seq<Transaction>, n: nat, e: EffectId)
    requires n < |journal| && (e in seen <==> exists t | 0 <= t < n :: journal[t].effect == e)
    ensures e in seen + {journal[n].effect} <==> exists t | 0 <= t < n + 1 :: journal[t].effect == e
  {
    if e == journal[n].effect {
      assert journal[n].effect == e;
    } else if t :| 0 <= t < n + 1 && journal[t].effect == e {
      assert t < n;
    }
  }

  lemma CleanStep(journal: seq<Transaction>, n: nat)
    requires n < |journal|
    ensures Clean(journal, n + 1) <==>
            && Clean(journal, n) && Chained(journal, n) && Refoldable(journal, n)
            && !(exists t | 0 <= t < n :: journal[t].effect == journal[n].effect)
            && !(exists t | 0 <= t < n :: journal[t].id == journal[n].id)
  {
    hide Chained, Refoldable;
  }

  lemma CleanSticks(journal: seq<Transaction>, n: nat, m: nat)
    requires n <= m <= |journal| && Clean(journal, m)
    ensures Clean(journal, n)
  {
    hide Chained, Refoldable;
  }

  method FoldJournal(journal: seq<Transaction>)
    returns (ok: bool, folded: map<Account, int>, seen: set<EffectId>, ids: map<TxId, Transaction>, head: Digest)
    ensures ok <==> Clean(journal, |journal|)
    ensures ok ==>
              FoldOf(folded, journal, |journal|) && Indexed(seen, ids, journal, |journal|)
              && head == PrevHash(journal, |journal|)
  {
    hide Clean, FoldOf, Indexed, Refoldable, FoldedBy, LinesFold, Balanced;
    folded, seen, ids, head := map[], {}, map[], ZeroDigest;
    StartAudit(journal);
    for i := 0 to |journal|
      invariant Clean(journal, i) && FoldOf(folded, journal, i) && Indexed(seen, ids, journal, i)
                && head == PrevHash(journal, i)
    {
      var t := journal[i];
      IndexStep(seen, ids, journal, i);
      CleanStep(journal, i);
      if Clean(journal, |journal|) { CleanSticks(journal, i + 1, |journal|); }
      if t.sequence != i + 1 || t.prev != head || t.hash != HashOf(t) || t.effect in seen || t.id in ids {
        return false, folded, seen, ids, head;
      }
      var lines, after := FoldLines(folded, t.lines);
      RefoldableHere(folded, after, journal, i);
      if !lines {
        return false, folded, seen, ids, head;
      }
      folded, seen, ids, head := after, seen + {t.effect}, ids[t.id := t], t.hash;
    }
    ok := true;
  }

  lemma StartAudit(journal: seq<Transaction>)
    ensures Clean(journal, 0) && FoldOf(map[], journal, 0) && Indexed({}, map[], journal, 0)
            && PrevHash(journal, 0) == ZeroDigest
  {
  }

  // ----- the journal against its views ------------------------------------------------------

  lemma BalancesMatch(balances: map<Account, int>, folded: map<Account, int>, l: Ledger)
    requires FoldOf(folded, l.journal, |l.journal|) && l.balances == balances
    ensures BalancesExplained(l) <==>
            && (forall a | a in folded :: Get(balances, a) == folded[a])
            && (forall a | a in balances :: balances[a] == Get(folded, a))
  {
    if (forall a | a in folded :: Get(balances, a) == folded[a])
       && (forall a | a in balances :: balances[a] == Get(folded, a)) {
      forall a ensures Get(balances, a) == Folded(l.journal, |l.journal|, a) {
        assert Get(folded, a) == Folded(l.journal, |l.journal|, a);
      }
    }
    if BalancesExplained(l) {
      forall a ensures Get(balances, a) == Get(folded, a) {
        assert Get(folded, a) == Folded(l.journal, |l.journal|, a);
      }
    }
  }

  /** What the audit checks of one effect receipt. */
  predicate ReceiptChecks(seen: set<EffectId>, ids: map<TxId, Transaction>, e: EffectId, effect: Effect) {
    && e in seen && effect.receipt.tx in ids
    && var t := ids[effect.receipt.tx];
    t.effect == e && t.sequence == effect.receipt.commit && effect.receipt.effect == e && t.request == effect.request
  }

  lemma ReceiptsProve(seen: set<EffectId>, ids: map<TxId, Transaction>, journal: seq<Transaction>, e: EffectId,
                      effect: Effect)
    requires Clean(journal, |journal|) && Indexed(seen, ids, journal, |journal|)
    ensures ReceiptChecks(seen, ids, e, effect) <==> Proven(journal, e, effect)
  {
    hide Refoldable, HashOf;
    if effect.receipt.tx in ids {
      var t :| 0 <= t < |journal| && journal[t].id == effect.receipt.tx && ids[effect.receipt.tx] == journal[t];
      assert Chained(journal, t);
      if Proven(journal, e, effect) {
        assert journal[effect.receipt.commit - 1].effect == e;
        assert t == effect.receipt.commit - 1;
      }
    }
  }

  method AuditLedger(balances: map<Account, int>, journal: seq<Transaction>, effects: map<EffectId, Effect>,
                     sequence: nat, head: Digest)
    returns (ok: bool, ids: map<TxId, Transaction>)
    ensures var l := Ledger(balances, journal, effects, sequence, head);
            && (ok <==> JournalConsistent(l) && BalancesExplained(l) && EffectsProven(l))
            && (ok ==> forall x :: x in ids <==> InJournal(journal, x))
  {
    hide Clean, FoldOf, Indexed, BalancesExplained, Proven, ReceiptChecks;
    ghost var l := Ledger(balances, journal, effects, sequence, head);
    var clean, folded, seen, found, last := FoldJournal(journal);
    ids := found;
    CleanJournal(l);
    if !clean || last != head || |journal| != sequence {
      return false, ids;
    }
    BalancesMatch(balances, folded, l);
    var explained := AllEntries(folded, (a, v) => Get(balances, a) == v);
    if explained {
      explained := AllEntries(balances, (a, v) => v == Get(folded, a));
    }
    if !explained {
      return false, ids;
    }
    ok := AllEntries(effects, (e, effect) => ReceiptChecks(seen, found, e, effect));
    forall e | e in effects ensures ReceiptChecks(seen, found, e, effects[e]) <==> Proven(journal, e, effects[e]) {
      ReceiptsProve(seen, found, journal, e, effects[e]);
    }
    IdsInJournal(seen, found, journal);
  }

  lemma CleanJournal(l: Ledger)
    ensures JournalConsistent(l) <==>
            Clean(l.journal, |l.journal|) && l.head == PrevHash(l.journal, |l.journal|) && l.sequence == |l.journal|
  {
    hide Chained, Refoldable;
  }

  lemma IdsInJournal(seen: set<EffectId>, ids: map<TxId, Transaction>, journal: seq<Transaction>)
    requires Indexed(seen, ids, journal, |journal|)
    ensures forall x :: x in ids <==> InJournal(journal, x)
  {
    forall x ensures x in ids <==> InJournal(journal, x) {
      if x in ids {
        var t :| 0 <= t < |journal| && journal[t].id == x && ids[x] == journal[t];
      }
    }
  }

  // ----- regional rights and transfers --------------------------------------------------------

  /** What the audit checks of one region. */
  predicate RegionChecks(balances: map<Account, int>, r: string, region: Region) {
    region.rights >= 0 && Get(balances, Regional(r)) == region.rights
  }

  ghost predicate RegionsMatch(regions: map<string, Region>, balances: map<Account, int>) {
    forall r | r in regions :: RegionChecks(balances, r, regions[r])
  }

  lemma MatchedRights(regions: map<string, Region>, balances: map<Account, int>)
    requires RegionsMatch(regions, balances)
    ensures NonNegative(RightsOf(regions))
  {
    forall r | r in regions ensures RightsOf(regions)[r] >= 0 {
      assert RegionChecks(balances, r, regions[r]);
    }
  }

  lemma OneMismatch(regions: map<string, Region>, balances: map<Account, int>, r: string)
    requires r in regions && !RegionChecks(balances, r, regions[r])
    ensures !RegionsMatch(regions, balances)
  {
    hide RegionChecks;
  }

  /** Sums the regional rights on top of the unallocated ones, checking each region on the way. */
  method AuditRegions(regions: map<string, Region>, balances: map<Account, int>, unallocated: Amount)
    returns (ok: bool, total: int)
    ensures ok <==> RegionsMatch(regions, balances) && Fits(unallocated + Total(RightsOf(regions)))
    ensures ok ==> total == unallocated + Total(RightsOf(regions))
  {
    hide Total, RegionsMatch, RegionChecks;
    ghost var rights := RightsOf(regions);
    assert Fits(unallocated);
    total := unallocated;
    var left := regions.Keys;
    assert rights - left == map[];
    NothingTotal();
    while left != {}
      invariant left <= regions.Keys
      invariant forall r | r in regions && r !in left :: RegionChecks(balances, r, regions[r])
      invariant total == unallocated + Total(rights - left) && unallocated <= total < LIMIT
      decreases |left|
    {
      var r :| r in left;
      if !RegionChecks(balances, r, regions[r]) {
        OneMismatch(regions, balances, r);
        return false, total;
      }
      MatchedRight(balances, r, regions[r]);
      TotalVisit(rights, left, r);
      left := left - {r};
      if RegionsMatch(regions, balances) {
        MatchedRights(regions, balances);
        TotalPart(rights, left);
      }
      if !Fits(total + regions[r].rights) {
        return false, total;
      }
      total := total + regions[r].rights;
    }
    assert rights - {} == rights;
    AllMatch(regions, balances);
    ok := true;
  }

  lemma MatchedRight(balances: map<Account, int>, r: string, region: Region)
    requires RegionChecks(balances, r, region)
    ensures region.rights >= 0
  {
  }

  lemma AllMatch(regions: map<string, Region>, balances: map<Account, int>)
    requires forall r | r in regions :: RegionChecks(balances, r, regions[r])
    ensures RegionsMatch(regions, balances)
  {
    hide RegionChecks;
  }

  lemma NothingTotal()
    ensures Total<string>(map[]) == 0
  {
  }

  method CountEffect(journal: seq<Transaction>, e: EffectId) returns (count: nat)
    ensures count == EffectCount(journal, |journal|, e)
  {
    count := 0;
    for i := 0 to |journal|
      invariant count == EffectCount(journal, i, e)
    {
      if journal[i].effect == e {
        count := count + 1;
      }
    }
  }

  /** What the audit checks of one transfer. */
  predicate TransferChecks(key: string, asset: string, inbox: map<MessageId, InboxRecord>, journal: seq<Transaction>,
                           id: string, t: Transfer) {
    && Verified(key, asset, t.certificate)
    && t.inTransit != t.consumed
    && (t.acknowledged ==> t.consumed)
    && (t.consumed ==> TransferMessage(id) in inbox && EffectCount(journal, |journal|, TransferInEffect(id)) == 1)
  }

  method AuditTransfer(key: string, asset: string, inbox: map<MessageId, InboxRecord>, journal: seq<Transaction>,
                       id: string, t: Transfer)
    returns (ok: bool)
    ensures ok <==> TransferChecks(key, asset, inbox, journal, id, t)
  {
    hide EffectCount;
    if !Verified(key, asset, t.certificate) || t.inTransit == t.consumed || (t.acknowledged && !t.consumed) {
      return false;
    }
    if t.consumed {
      if TransferMessage(id) !in inbox {
        return false;
      }
      var count := CountEffect(journal, TransferInEffect(id));
      return count == 1;
    }
    ok := true;
  }

  ghost predicate AllTransfersCheck(key: string, asset: string, inbox: map<MessageId, InboxRecord>,
                                    journal: seq<Transaction>,
                                    transfers: map<string, Transfer>)
  {
    forall id | id in transfers :: TransferChecks(key, asset, inbox, journal, id, transfers[id])
  }

  lemma CheckedAmounts(key: string, asset: string, inbox: map<MessageId, InboxRecord>, journal: seq<Transaction>,
                       transfers: map<string, Transfer>)
    requires AllTransfersCheck(key, asset, inbox, journal, transfers)
    ensures NonNegative(InTransitOf(transfers))
  {
    hide EffectCount;
    forall id | id in transfers ensures InTransitOf(transfers)[id] >= 0 {
      assert TransferChecks(key, asset, inbox, journal, id, transfers[id]);
    }
  }

  /** Checks every transfer and sums what is in transit. */
  method AuditTransfers(key: string, asset: string, inbox: map<MessageId, InboxRecord>, journal: seq<Transaction>,
                        transfers: map<string, Transfer>) returns (ok: bool, total: int)
    ensures ok <==> AllTransfersCheck(key, asset, inbox, journal, transfers) && Fits(Total(InTransitOf(transfers)))
    ensures ok ==> total == Total(InTransitOf(transfers))
  {
    hide Total, TransferChecks, AllTransfersCheck;
    ghost var moving := InTransitOf(transfers);
    total := 0;
    var left := transfers.Keys;
    assert moving - left == map[];
    NothingTotal();
    while left != {}
      invariant left <= transfers.Keys
      invariant forall id | id in transfers && id !in left ::
                  TransferChecks(key, asset, inbox, journal, id, transfers[id])
      invariant total == Total(moving - left) && 0 <= total < LIMIT
      decreases |left|
    {
      var id :| id in left;
      var t := transfers[id];
      var sound := AuditTransfer(key, asset, inbox, journal, id, t);
      if !sound {
        OneUnsound(key, asset, inbox, journal, transfers, id);
        return false, total;
      }
      CheckedAmount(key, asset, inbox, journal, id, t);
      TotalVisit(moving, left, id);
      left := left - {id};
      if AllTransfersCheck(key, asset, inbox, journal, transfers) {
        CheckedAmounts(key, asset, inbox, journal, transfers);
        TotalPart(moving, left);
      }
      if t.inTransit {
        if !Fits(total + t.certificate.amount) {
          return false, total;
        }
        total := total + t.certificate.amount;
      }
    }
    assert moving - {} == moving;
    AllSound(key, asset, inbox, journal, transfers);
    ok := true;
  }

  lemma OneUnsound(key: string, asset: string, inbox: map<MessageId, InboxRecord>, journal: seq<Transaction>,
                   transfers: map<string, Transfer>, id: string)
    requires id in transfers && !TransferChecks(key, asset, inbox, journal, id, transfers[id])
    ensures !AllTransfersCheck(key, asset, inbox, journal, transfers)
  {
    hide TransferChecks;
  }

  lemma AllSound(key: string, asset: string, inbox: map<MessageId, InboxRecord>, journal: seq<Transaction>,
                 transfers: map<string, Transfer>)
    requires forall id | id in transfers :: TransferChecks(key, asset, inbox, journal, id, transfers[id])
    ensures AllTransfersCheck(key, asset, inbox, journal, transfers)
  {
    hide TransferChecks;
  }

  lemma CheckedAmount(key: string, asset: string, inbox: map<MessageId, InboxRecord>, journal: seq<Transaction>,
                      id: string, t: Transfer)
    requires TransferChecks(key, asset, inbox, journal, id, t)
    ensures t.certificate.amount > 0
  {
    hide EffectCount;
  }
}
