/** The loops that decide whether a posting commits: per-asset totals, prospective balances, and the balance check. */
module Posting {
  import opened Amounts
  import opened Names
  import opened Journal

  datatype SideTotals = SideTotals(debit: int, credit: int)

  const ZERO := SideTotals(0, 0)

  function TotalOf(perAsset: map<string, SideTotals>, asset: string): SideTotals {
    if asset in perAsset then perAsset[asset] else ZERO
  }

  /** The per-asset totals of the first n lines. */
  ghost predicate Tallied(perAsset: map<string, SideTotals>, lines: seq<Line>, n: nat)
    requires n <= |lines|
  {
    && (forall x :: TotalOf(perAsset, x) == SideTotals(SideSum(lines, n, x, Debit), SideSum(lines, n, x, Credit)))
    && (forall i | 0 <= i < n :: lines[i].asset in perAsset)
    && (forall x | x in perAsset :: exists i | 0 <= i < n :: lines[i].asset == x)
  }

  /** The accounts of the first n lines. */
  ghost function Accounts(lines: seq<Line>, n: nat): set<Account>
    requires n <= |lines|
  {
    if n == 0 then {} else Accounts(lines, n - 1) + {lines[n - 1].account}
  }

  /** The balances the first n lines would leave, for exactly the accounts they touch. */
  ghost predicate Prospective(prospective: map<Account, int>, balances: map<Account, int>, lines: seq<Line>, n: nat)
    requires n <= |lines|
  {
    && prospective.Keys == Accounts(lines, n)
    && (forall a | a in prospective :: prospective[a] == Get(balances, a) + Change(lines, n, a))
  }

  lemma {:induction false} FirstBadSticks(balances: map<Account, int>, lines: seq<Line>, n: nat, m: nat)
    requires n <= m <= |lines| && FirstBad(balances, lines, n).Some?
    ensures FirstBad(balances, lines, m) == FirstBad(balances, lines, n)
  {
    if n < m {
      FirstBadSticks(balances, lines, n, m - 1);
    }
  }

  lemma {:induction false} NoChangeBefore(lines: seq<Line>, n: nat, a: Account)
    requires n <= |lines| && a !in Accounts(lines, n)
    ensures Change(lines, n, a) == 0
  {
    if n > 0 {
      NoChangeBefore(lines, n - 1, a);
    }
  }

  lemma {:induction false} AllAccounts(lines: seq<Line>, n: nat, a: Account)
    requires n <= |lines|
    ensures a in Accounts(lines, n) <==> exists i | 0 <= i < n :: lines[i].account == a
  {
    if n > 0 {
      AllAccounts(lines, n - 1, a);
      if lines[n - 1].account == a {
        assert exists i | 0 <= i < n :: lines[i].account == a;
      } else if exists i | 0 <= i < n :: lines[i].account == a {
        var i :| 0 <= i < n && lines[i].account == a;
        assert i < n - 1;
      }
    }
  }

  lemma TallyStep(perAsset: map<string, SideTotals>, lines: seq<Line>, n: nat)
    requires n < |lines| && Tallied(perAsset, lines, n)
    ensures var l, t := lines[n], TotalOf(perAsset, lines[n].asset);
            var t' := if l.side == Debit then t.(debit := t.debit + l.amount) else t.(credit := t.credit + l.amount);
            Tallied(perAsset[l.asset := t'], lines, n + 1)
  {
    var l, t := lines[n], TotalOf(perAsset, lines[n].asset);
    var t' := if l.side == Debit then t.(debit := t.debit + l.amount) else t.(credit := t.credit + l.amount);
    var after := perAsset[l.asset := t'];
    forall x
      ensures TotalOf(after, x) == SideTotals(SideSum(lines, n + 1, x, Debit), SideSum(lines, n + 1, x, Credit)) {
      assert TotalOf(perAsset, x) == SideTotals(SideSum(lines, n, x, Debit), SideSum(lines, n, x, Credit));
    }
    forall x | x in after ensures exists i | 0 <= i < n + 1 :: lines[i].asset == x {
      if x == l.asset {
        assert lines[n].asset == x;
      } else {
        var i :| 0 <= i < n && lines[i].asset == x;
      }
    }
  }

  lemma ProspectiveStep(prospective: map<Account, int>, balances: map<Account, int>, lines: seq<Line>, n: nat)
    requires n < |lines| && Prospective(prospective, balances, lines, n)
    ensures var l := lines[n];
            var before := if l.account in prospective then prospective[l.account] else Get(balances, l.account);
            && before == Get(balances, l.account) + Change(lines, n, l.account)
            && Prospective(prospective[l.account := before + Signed(l)], balances, lines, n + 1)
  {
    if lines[n].account !in prospective {
      NoChangeBefore(lines, n, lines[n].account);
    }
  }

  lemma ProspectiveMoves(prospective: map<Account, int>, balances: map<Account, int>, lines: seq<Line>)
    requires Prospective(prospective, balances, lines, |lines|)
    ensures balances + prospective == Moved(balances, lines)
  {
    forall a ensures a in prospective <==> a in Touched(lines) {
      AllAccounts(lines, |lines|, a);
      if a in prospective {
        var i :| 0 <= i < |lines| && lines[i].account == a;
        assert lines[i] in lines;
      }
      if a in Touched(lines) {
        var l :| l in lines && l.account == a;
        var i :| 0 <= i < |lines| && lines[i] == l;
      }
    }
    forall a | a !in prospective ensures Change(lines, |lines|, a) == 0 {
      NoChangeBefore(lines, |lines|, a);
    }
  }

  lemma TalliesBalance(perAsset: map<string, SideTotals>, lines: seq<Line>)
    requires Tallied(perAsset, lines, |lines|)
    ensures Balanced(lines) <==> forall x | x in perAsset :: perAsset[x].debit == perAsset[x].credit
  {
    if Balanced(lines) {
      forall x | x in perAsset ensures perAsset[x].debit == perAsset[x].credit {
        var i :| 0 <= i < |lines| && lines[i].asset == x;
        assert TotalOf(perAsset, x) == perAsset[x];
      }
    }
    if forall x | x in perAsset :: perAsset[x].debit == perAsset[x].credit {
      forall i | 0 <= i < |lines|
        ensures SideSum(lines, |lines|, lines[i].asset, Debit) == SideSum(lines, |lines|, lines[i].asset, Credit)
      {
        assert TotalOf(perAsset, lines[i].asset) == perAsset[lines[i].asset];
      }
    }
  }

  /** One pass over the lines: either the first error, or the tallies and the balances to write back. */
  method Tally(balances: map<Account, int>, lines: seq<Line>)
    returns (error: Option<Error>, perAsset: map<string, SideTotals>, prospective: map<Account, int>)
    ensures error == FirstBad(balances, lines, |lines|)
    ensures error.None? ==> Tallied(perAsset, lines, |lines|) && Prospective(prospective, balances, lines, |lines|)
  {
    hide Tallied, Prospective, SideSum, Change;
    perAsset, prospective := map[], map[];
    StartTally(balances, lines);
    for i := 0 to |lines|
      invariant FirstBad(balances, lines, i).None?
      invariant Tallied(perAsset, lines, i) && Prospective(prospective, balances, lines, i)
    {
      var line := lines[i];
      TallyStep(perAsset, lines, i);
      ProspectiveStep(prospective, balances, lines, i);
      NextLine(perAsset, balances, lines, i);
      if line.asset == "" || line.amount <= 0 {
        FirstBadSticks(balances, lines, i + 1, |lines|);
        return Some(ErrInvalidPosting), perAsset, prospective;
      }
      var total := TotalOf(perAsset, line.asset);
      total :=
        if line.side == Debit then total.(debit := total.debit + line.amount)
        else total.(credit := total.credit + line.amount);
      var balance := if line.account in prospective then prospective[line.account] else Get(balances, line.account);
      if !Fits(if line.side == Debit then total.debit else total.credit) || !Fits(balance + Signed(line)) {
        FirstBadSticks(balances, lines, i + 1, |lines|);
        return Some(ErrAmountOverflow), perAsset, prospective;
      }
      perAsset := perAsset[line.asset := total];
      prospective := prospective[line.account := balance + Signed(line)];
    }
    error := None;
  }

  lemma StartTally(balances: map<Account, int>, lines: seq<Line>)
    ensures Tallied(map[], lines, 0) && Prospective(map[], balances, lines, 0)
  {
  }

  /** What the running totals say about the next line. */
  lemma NextLine(perAsset: map<string, SideTotals>, balances: map<Account, int>, lines: seq<Line>, n: nat)
    requires n < |lines| && Tallied(perAsset, lines, n)
    ensures var l, t := lines[n], TotalOf(perAsset, lines[n].asset);
            && SideSum(lines, n + 1, l.asset, l.side) == (if l.side == Debit then t.debit else t.credit) + l.amount
            && Change(lines, n + 1, l.account) == Change(lines, n, l.account) + Signed(l)
  {
  }

  /** The totals of every asset agree. */
  method AllBalanced(perAsset: map<string, SideTotals>) returns (ok: bool)
    ensures ok <==> forall x | x in perAsset :: perAsset[x].debit == perAsset[x].credit
  {
    var left := perAsset.Keys;
    while left != {}
      invariant left <= perAsset.Keys
      invariant forall x | x in perAsset && x !in left :: perAsset[x].debit == perAsset[x].credit
      decreases |left|
    {
      var x :| x in left;
      if perAsset[x].debit != perAsset[x].credit {
        return false;
      }
      left := left - {x};
    }
    ok := true;
  }
}
