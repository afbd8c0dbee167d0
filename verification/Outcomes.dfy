/** What each write of the protocol world does when it commits, account by account, and exactly when it commits. */
module Outcomes {
  import opened Amounts
  import opened Totals
  import opened Names
  import opened Journal
  import opened Network
  import opened Protocol
  import opened Invariants
  import opened Preservation
  import opened Delivery
  import opened Recovery
  import opened Runs
  import opened Fencing

  // ----- two double entries of one amount ---------------------------------------------------------

  /** Two accounts lose the amount, two gain it, and no other balance changes. */
  ghost predicate Moves(b: map<Account, int>, b': map<Account, int>, amount: int,
                        from: Account, to: Account, from': Account, to': Account) {
    forall a :: Get(b', a) ==
                Get(b, a) + if a == to || a == to' then amount else if a == from || a == from' then -amount else 0
  }

  /** Every balance stays representable. */
  predicate Room(b: map<Account, int>, amount: int, from: Account, to: Account, from': Account, to': Account) {
    && Fits(amount) && Fits(Get(b, from) - amount) && Fits(Get(b, to) + amount)
    && Fits(Get(b, from') - amount) && Fits(Get(b, to') + amount)
  }

  /** The ledger has one more transaction, for this request, and its receipt names it. */
  ghost predicate Entered(l: Ledger, l': Ledger, request: Fingerprint, receipt: Receipt) {
    var n := |l.journal|;
    && |l'.journal| == n + 1 && l'.journal[..n] == l.journal
    && l'.journal[n].request == request && l'.journal[n].effect == EffectOf(request)
    && receipt == Receipt("", EffectOf(request), Tx(n + 1), n + 1, false)
    && l'.effects == l.effects[EffectOf(request) := Effect(request, receipt)]
  }

  function Lines(amount: int, from: Account, to: Account, from': Account, to': Account, x: string,
                 y: string): seq<Line> {
    [Line(from, x, Debit, amount), Line(to, x, Credit, amount),
     Line(from', y, Debit, amount), Line(to', y, Credit, amount)]
  }

  predicate Apart(from: Account, to: Account, from': Account, to': Account) {
    from != to && from != from' && from != to' && to != from' && to != to' && from' != to'
  }

  lemma LineSums(amount: int, from: Account, to: Account, from': Account, to': Account, x: string, y: string)
    requires Apart(from, to, from', to') && x != y
    ensures var ls := Lines(amount, from, to, from', to', x, y);
            && SideSum(ls, 1, x, Debit) == amount && SideSum(ls, 2, x, Credit) == amount
            && SideSum(ls, 3, y, Debit) == amount && SideSum(ls, 4, y, Credit) == amount
            && SideSum(ls, 4, x, Debit) == amount && SideSum(ls, 4, x, Credit) == amount
            && SideSum(ls, 4, y, Debit) == amount
            && Change(ls, 1, from) == -amount && Change(ls, 2, to) == amount
            && Change(ls, 3, from') == -amount && Change(ls, 4, to') == amount
  {
    var ls := Lines(amount, from, to, from', to', x, y);
    assert SideSum(ls, 1, x, Debit) == amount && SideSum(ls, 1, x, Credit) == 0;
    assert SideSum(ls, 1, y, Debit) == 0 && SideSum(ls, 1, y, Credit) == 0;
    assert SideSum(ls, 2, x, Debit) == amount && SideSum(ls, 2, x, Credit) == amount;
    assert SideSum(ls, 2, y, Debit) == 0 && SideSum(ls, 2, y, Credit) == 0;
    assert SideSum(ls, 3, x, Debit) == amount && SideSum(ls, 3, x, Credit) == amount;
    assert SideSum(ls, 3, y, Debit) == amount && SideSum(ls, 3, y, Credit) == 0;
    assert Change(ls, 1, to) == 0 && Change(ls, 1, from') == 0 && Change(ls, 1, to') == 0;
    assert Change(ls, 2, from') == 0 && Change(ls, 2, to') == 0;
  }

  lemma LinesFit(b: map<Account, int>, amount: int, from: Account, to: Account, from': Account, to': Account,
                 x: string, y: string)
    requires Apart(from, to, from', to') && x != y && x != "" && y != "" && amount > 0
    ensures var ls := Lines(amount, from, to, from', to', x, y);
            && FirstBad(b, ls, 4) == (if Room(b, amount, from, to, from', to') then None else Some(ErrAmountOverflow))
            && Balanced(ls)
  {
    hide SideSum, Change;
    var ls := Lines(amount, from, to, from', to', x, y);
    LineSums(amount, from, to, from', to', x, y);
    assert LineFits(Get(b, from), ls, 0) <==> Fits(amount) && Fits(Get(b, from) - amount);
    assert LineFits(Get(b, to), ls, 1) <==> Fits(amount) && Fits(Get(b, to) + amount);
    assert LineFits(Get(b, from'), ls, 2) <==> Fits(amount) && Fits(Get(b, from') - amount);
    assert LineFits(Get(b, to'), ls, 3) <==> Fits(amount) && Fits(Get(b, to') + amount);
    FirstBadNone(b, ls, 4);
    FirstBadOverflows(b, ls, 4);
  }

  lemma {:induction false} FirstBadOverflows(b: map<Account, int>, ls: seq<Line>, n: nat)
    requires n <= |ls| && forall i | 0 <= i < n :: ls[i].asset != "" && ls[i].amount > 0
    ensures FirstBad(b, ls, n) in {None, Some(ErrAmountOverflow)}
  {
    hide LineFits;
    if n > 0 {
      FirstBadOverflows(b, ls, n - 1);
    }
  }

  /** A new double entry is posted exactly when there is room for it. */
  lemma PostsExactly(l: Ledger, effect: EffectId, kind: Kind, request: Fingerprint, amount: int,
                     from: Account, to: Account, from': Account, to': Account, x: string, y: string)
    requires Apart(from, to, from', to') && x != y && x != "" && y != "" && amount > 0
    requires l.sequence == |l.journal| && effect !in l.effects && effect != NoEffect && EffectOf(request) == effect
    ensures var r := Post(l, effect, kind, request, Lines(amount, from, to, from', to', x, y));
            if Room(l.balances, amount, from, to, from', to')
            then r.Posted? && Entered(l, r.ledger, request, r.receipt)
                 && Moves(l.balances, r.ledger.balances, amount, from, to, from', to')
            else r == Rejected(ErrAmountOverflow)
  {
    hide SideSum, FirstBad, Balanced, Room, Moved, Moves, Entered, HashOf;
    var ls := Lines(amount, from, to, from', to', x, y);
    LinesFit(l.balances, amount, from, to, from', to', x, y);
    LinesMove(l.balances, amount, from, to, from', to', x, y);
    EntryIs(l, effect, kind, request, ls);
  }

  lemma LinesMove(b: map<Account, int>, amount: int, from: Account, to: Account, from': Account, to': Account,
                  x: string, y: string)
    requires Apart(from, to, from', to')
    ensures Moves(b, Moved(b, Lines(amount, from, to, from', to', x, y)), amount, from, to, from', to')
  {
    hide Change, Moved;
    var ls := Lines(amount, from, to, from', to', x, y);
    forall a ensures Get(Moved(b, ls), a) ==
                     Get(b, a) + if a == to || a == to' then amount else if a == from || a == from' then -amount else 0
    {
      MovedBy(b, ls, a);
      Change4(ls[0], ls[1], ls[2], ls[3], a);
    }
  }

  lemma EntryIs(l: Ledger, effect: EffectId, kind: Kind, request: Fingerprint, ls: seq<Line>)
    requires l.sequence == |l.journal| && EffectOf(request) == effect
    ensures Entered(l, Committed(l, effect, kind, request, ls), request, CommitReceipt(l, effect))
    ensures Committed(l, effect, kind, request, ls).balances == Moved(l.balances, ls)
  {
    hide Moved, HashOf;
    var t := NextTransaction(l, effect, kind, request, ls);
    assert (l.journal + [t])[..|l.journal|] == l.journal;
  }

  // ----- what the invariant says about room ----------------------------------------------------------

  lemma {:induction false} ChangedFits(before: int, lines: seq<Line>, n: nat, a: Account)
    requires n <= |lines| && Fits(before)
    requires forall i | 0 <= i < |lines| && lines[i].account == a :: LineFits(before, lines, i)
    ensures Fits(before + Change(lines, n, a))
  {
    if n > 0 {
      ChangedFits(before, lines, n - 1, a);
      if lines[n - 1].account == a {
        assert LineFits(before, lines, n - 1);
      }
    }
  }

  lemma {:induction false} FoldedFits(journal: seq<Transaction>, n: nat, a: Account)
    requires n <= |journal| && forall t | 0 <= t < n :: Refoldable(journal, t)
    ensures Fits(Folded(journal, n, a))
  {
    if n > 0 {
      FoldedFits(journal, n - 1, a);
      assert Refoldable(journal, n - 1);
      ChangedFits(Folded(journal, n - 1, a), journal[n - 1].lines, |journal[n - 1].lines|, a);
    }
  }

  lemma MoneyAt(s: State)
    requires Inv(s)
    ensures s.ledger.sequence == |s.ledger.journal| && s.asset != "" && AuthorityAsset(s) != s.asset
    ensures Get(s.ledger.balances, User) + s.creditLimit == s.authorityTotal && 0 <= s.creditLimit < LIMIT
    ensures Get(s.ledger.balances, Merchant) == Get(s.ledger.balances, Consumed) >= 0 && 0 <= s.authorityTotal < LIMIT
    ensures forall p | p in s.payments :: 0 <= Outstanding(s.payments[p]) <= Get(s.ledger.balances, Merchant)
    ensures forall r | r in s.regions ::
              0 <= s.regions[r].rights == Get(s.ledger.balances, Regional(r)) <= s.authorityTotal
    ensures forall a :: Fits(Get(s.ledger.balances, a))
  {
    hide EffectsLinked, PaymentsOk, OutboxOk, InboxOk, SagasOk, AllHonest, AnswersProven, CashbackOk, VerdictsOk, Total,
         Refoldable, Folded;
    RightsWithinAuthority(s);
    OutstandingBounds(s);
    forall a ensures Fits(Get(s.ledger.balances, a)) {
      FoldedFits(s.ledger.journal, |s.ledger.journal|, a);
    }
    assert |AuthorityAsset(s)| > |s.asset|;
  }

  lemma OutstandingBounds(s: State)
    requires PaymentsOk(s.payments, s.regions)
    ensures 0 <= Total(OutstandingOf(s.payments))
    ensures forall p | p in s.payments :: 0 <= Outstanding(s.payments[p]) <= Total(OutstandingOf(s.payments))
  {
    hide Total;
    var m := OutstandingOf(s.payments);
    forall p | p in m ensures m[p] >= 0 {
      assert PaymentOk(p, s.payments[p], s.regions);
    }
    TotalBounds(m);
    forall p | p in s.payments ensures Outstanding(s.payments[p]) <= Total(m) {
      assert m[p] == Outstanding(s.payments[p]);
    }
  }

  // ----- what all writes have in common ----------------------------------------------------------------

  /** One region has new rights and perhaps stopped; its epoch and all other regions stay. */
  ghost predicate RightsAt(s: State, s': State, region: string, rights: int)
    requires region in s.regions
  {
    s'.regions == s.regions[region := Region(s.regions[region].epoch,
                                             region in s'.regions && s'.regions[region].running, rights)]
  }

  /** The answer is stored under the caller's key and repeats the receipt of the entry. */
  ghost predicate Answers(s: State, s': State, key: string, request: Fingerprint, receipt: Receipt) {
    && receipt.key == key && Entered(s.ledger, s'.ledger, request, receipt.(key := ""))
    && s'.idempotency == s.idempotency[key := Answered(request, receipt)]
  }

  /** What no payment, deposit, release, cashback or verdict touches. */
  ghost predicate Elsewhere(s: State, s': State) {
    && s'.asset == s.asset && s'.key == s.key && s'.creditLimit == s.creditLimit && s'.unallocated == s.unallocated
    && s'.transfers == s.transfers && s'.inbox == s.inbox && s'.sagas == s.sagas && s'.dcHealthy == s.dcHealthy
    && s'.coordinatorRunning == s.coordinatorRunning && s'.tick == s.tick && s'.net.queue == s.net.queue
  }

  // ----- payment ----------------------------------------------------------------------------------------

  /** Money goes from the customer to the merchant, and as much of the region's authority is used up. */
  ghost predicate Paid(s: State, s': State, region: string, key: string, op: string, amount: int, receipt: Receipt)
    requires region in s.regions
  {
    && Moves(s.ledger.balances, s'.ledger.balances, amount, User, Merchant, Regional(region), Consumed)
    && Answers(s, s', key, PaymentRequest(op, amount), receipt)
    && s'.payments ==
       s.payments[op := Payment(op, region, amount, amount, 0, 0, 0, Captured, receipt.(key := ""))]
    && RightsAt(s, s', region, s.regions[region].rights - amount) && s'.authorityTotal == s.authorityTotal - amount
    && Elsewhere(s, s') && s'.verdicts == s.verdicts && s'.refunds == s.refunds
    && s'.cashbackPaid == s.cashbackPaid && s'.cashbackRules == s.cashbackRules
    && s'.faults.coordinatorCrash == s.faults.coordinatorCrash
  }

  /** The error of a committed payment: its region crashed after the commit, its answer was lost, or none. */
  function AfterCommit(faults: Faults, key: string): Option<Error> {
    if Pending(faults.crashAfter, key) then Some(ErrCrashAfterCommit)
    else if Pending(faults.loseResponses, key) then Some(ErrResponseLost)
    else None
  }

  lemma FinishPayIs(s: State, region: string, key: string, receipt: Receipt)
    requires region in s.regions
    ensures var (s', reply) := FinishPay(s, region, key, receipt);
            && reply == Reply(receipt, AfterCommit(s.faults, key))
            && RightsAt(s, s', region, s.regions[region].rights) && Elsewhere(s, s') && s'.ledger == s.ledger
            && s'.payments == s.payments && s'.idempotency == s.idempotency && s'.authorityTotal == s.authorityTotal
            && s'.verdicts == s.verdicts && s'.refunds == s.refunds && s'.cashbackPaid == s.cashbackPaid
            && s'.cashbackRules == s.cashbackRules && s'.faults.coordinatorCrash == s.faults.coordinatorCrash
            && s'.regions[region].running == (s.regions[region].running && !Pending(s.faults.crashAfter, key))
  {
    hide Pending, Spend;
    if Pending(s.faults.crashAfter, key) {
    } else if Pending(s.faults.loseResponses, key) {
    } else {
    }
  }

  lemma AfterCapturePaid(s: State, region: string, key: string, op: string, amount: int, ledger: Ledger,
                         receipt: Receipt)
    requires region in s.regions && receipt.key == ""
    requires Entered(s.ledger, ledger, PaymentRequest(op, amount), receipt)
    requires Moves(s.ledger.balances, ledger.balances, amount, User, Merchant, Regional(region), Consumed)
    ensures var s' := AfterCapture(s, region, key, op, amount, ledger, receipt);
            Paid(s, s', region, key, op, amount, receipt.(key := key)) && s'.faults == s.faults && region in s'.regions
            && s'.regions[region].running == s.regions[region].running
  {
    hide Entered, Moves, EffectName;
  }

  lemma PaidOn(s: State, s1: State, s2: State, region: string, key: string, op: string, amount: int, receipt: Receipt)
    requires region in s.regions && Paid(s, s1, region, key, op, amount, receipt)
    requires region in s1.regions && RightsAt(s1, s2, region, s1.regions[region].rights) && Elsewhere(s1, s2)
    requires s2.ledger == s1.ledger && s2.payments == s1.payments && s2.idempotency == s1.idempotency
    requires s2.authorityTotal == s1.authorityTotal && s2.verdicts == s1.verdicts && s2.refunds == s1.refunds
    requires s2.cashbackPaid == s1.cashbackPaid && s2.cashbackRules == s1.cashbackRules
    requires s2.faults.coordinatorCrash == s1.faults.coordinatorCrash
    ensures Paid(s, s2, region, key, op, amount, receipt)
  {
    hide Entered, Moves;
  }

  lemma PayRoom(s: State, region: string, amount: int)
    requires Inv(s) && region in s.regions && 0 < amount <= s.regions[region].rights
    ensures Room(s.ledger.balances, amount, User, Merchant, Regional(region), Consumed) <==>
            Fits(Get(s.ledger.balances, Merchant) + amount)
  {
    hide Inv;
    MoneyAt(s);
  }

  /** A capture within the rights of its region commits exactly when the merchant's balance has room. */
  lemma CaptureOutcome(s: State, region: string, key: string, op: string, amount: int)
    requires Inv(s) && region in s.regions && 0 < amount <= s.regions[region].rights
    requires PaymentEffect(op) !in s.ledger.effects
    ensures var (s', reply) := Capture(s, region, key, op, amount);
            if Fits(Get(s.ledger.balances, Merchant) + amount)
            then reply.error == AfterCommit(s.faults, key) && Paid(s, s', region, key, op, amount, reply.receipt)
                 && s'.regions[region].running == (s.regions[region].running && !Pending(s.faults.crashAfter, key))
            else (s', reply) == (s, Failed(ErrAmountOverflow))
  {
    hide Inv, Post, FinishPay, AfterCapture, Paid, Room, Pending, AfterCommit, Entered, Moves;
    MoneyAt(s);
    PayRoom(s, region, amount);
    PostsExactly(s.ledger, PaymentEffect(op), CaptureKind, PaymentRequest(op, amount), amount, User, Merchant,
                 Regional(region), Consumed, s.asset, AuthorityAsset(s));
    var r := Post(s.ledger, PaymentEffect(op), CaptureKind, PaymentRequest(op, amount),
                  CaptureLines(s, region, amount));
    if Fits(Get(s.ledger.balances, Merchant) + amount) {
      BlankKey(s.ledger, r.ledger, PaymentRequest(op, amount), r.receipt);
      AfterCapturePaid(s, region, key, op, amount, r.ledger, r.receipt);
      var after := AfterCapture(s, region, key, op, amount, r.ledger, r.receipt);
      FinishPayIs(after, region, key, r.receipt.(key := key));
      PaidOn(s, after, FinishPay(after, region, key, r.receipt.(key := key)).0, region, key, op, amount,
             r.receipt.(key := key));
    }
  }

  lemma BlankKey(l: Ledger, l': Ledger, request: Fingerprint, receipt: Receipt)
    requires Entered(l, l', request, receipt)
    ensures receipt.key == ""
  {
  }

  /** The first reason to refuse a payment beyond the rights of its region. */
  lemma BeyondRights(s: State, region: string, amount: int)
    requires Inv(s) && region in s.regions && amount > s.regions[region].rights
    ensures CaptureRefusal(s, region, amount) ==
            Some(if Get(s.ledger.balances, User) + s.creditLimit < amount
                 then ErrInsufficientFunds else ErrInsufficientRights)
  {
    hide Inv;
    MoneyAt(s);
  }

  lemma UnpaidUnknown(s: State, op: string)
    requires Inv(s)
    ensures PaymentEffect(op) in s.ledger.effects <==> op in s.payments
  {
    hide LedgerOk, PaymentsOk, TransfersOk, OutboxOk, InboxOk, SagasOk, AllHonest, AnswersProven, MoneyOk, AuthorityOk,
         RegionsOk, CashbackOk, VerdictsOk, Total;
  }

  /**
   * A new, well-formed payment of an admitted writer, with no crash pending before the commit, commits exactly when the
   * region has the rights and the merchant's balance has room; otherwise nothing changes.
   */
  lemma PayOutcome(s: State, fence: Fence, key: string, op: string, amount: int)
    requires Inv(s) && Admits(s, fence) && key != "" && op != "" && amount > 0
    requires key !in s.idempotency && op !in s.payments && !Pending(s.faults.crashBefore, key)
    ensures var (s', reply) := Pay(s, fence, key, op, amount);
            var rights := s.regions[fence.region].rights;
            if amount > rights
            then (s', reply) == (s, Failed(if Get(s.ledger.balances, User) + s.creditLimit < amount
                                           then ErrInsufficientFunds else ErrInsufficientRights))
            else if Fits(Get(s.ledger.balances, Merchant) + amount)
            then reply.error == AfterCommit(s.faults, key) && Paid(s, s', fence.region, key, op, amount, reply.receipt)
                 && s'.regions[fence.region].running == !Pending(s.faults.crashAfter, key)
            else (s', reply) == (s, Failed(ErrAmountOverflow))
  {
    hide Inv, Guard, Capture, Paid, Pending, AfterCommit, CaptureRefusal, PayAgain, AnswerAgain, Quorum;
    GuardIs(s, fence);
    UnpaidUnknown(s, op);
    if amount > s.regions[fence.region].rights {
      BeyondRights(s, fence.region, amount);
    } else {
      LocalImpliesGlobal(s, fence.region, amount);
      CaptureOutcome(s, fence.region, key, op, amount);
    }
  }

  // ----- writes that raise a region's rights --------------------------------------------------------------

  /** Money from one account reaches the customer, and authority from another reaches the region. */
  ghost predicate Credited(s: State, s': State, region: string, amount: int, from: Account, authority: Account)
    requires region in s.regions
  {
    && Moves(s.ledger.balances, s'.ledger.balances, amount, from, User, authority, Regional(region))
    && s'.regions == s.regions[region := s.regions[region].(rights := s.regions[region].rights + amount)]
    && s'.authorityTotal == s.authorityTotal + amount && Elsewhere(s, s') && s'.faults == s.faults
  }

  /** Every account involved stays representable once the amount is added to the authority. */
  predicate RaiseFits(s: State, amount: int, from: Account, authority: Account) {
    && Fits(s.authorityTotal + amount) && Fits(Get(s.ledger.balances, from) - amount)
    && Fits(Get(s.ledger.balances, authority) - amount)
  }

  lemma RaiseRoom(s: State, region: string, amount: int, from: Account, authority: Account)
    requires Inv(s) && region in s.regions && amount > 0
    ensures !RaiseOverflows(s, region, amount) <==> Fits(s.authorityTotal + amount)
    ensures Fits(s.authorityTotal + amount) ==>
              (Room(s.ledger.balances, amount, from, User, authority, Regional(region)) <==>
               RaiseFits(s, amount, from, authority))
  {
    hide Inv;
    MoneyAt(s);
  }

  /** The posting of a write that raises rights. */
  lemma RaisePosts(s: State, effect: EffectId, kind: Kind, request: Fingerprint, region: string, amount: int,
                   from: Account, authority: Account)
    requires Inv(s) && region in s.regions && amount > 0 && Fits(s.authorityTotal + amount)
    requires from == Funding || from == Merchant || from == CashbackExpense
    requires authority == Issuer || authority == Consumed
    requires effect !in s.ledger.effects && effect != NoEffect && EffectOf(request) == effect
    ensures var r := Post(s.ledger, effect, kind, request, RaiseLines(s, from, authority, region, amount));
            if RaiseFits(s, amount, from, authority)
            then r.Posted? && r.receipt.key == "" && Entered(s.ledger, r.ledger, request, r.receipt)
                 && Moves(s.ledger.balances, r.ledger.balances, amount, from, User, authority, Regional(region))
            else r == Rejected(ErrAmountOverflow)
  {
    hide Inv, Post, Room, RaiseFits, Moves;
    MoneyAt(s);
    RaiseRoom(s, region, amount, from, authority);
    PostsExactly(s.ledger, effect, kind, request, amount, from, User, authority, Regional(region), s.asset,
                 AuthorityAsset(s));
  }

  /** Money comes from funding and authority from the issuer. */
  ghost predicate Deposited(s: State, s': State, region: string, key: string, op: string, amount: int,
                            receipt: Receipt)
    requires region in s.regions
  {
    && Credited(s, s', region, amount, Funding, Issuer) && Answers(s, s', key, DepositRequest(op, amount), receipt)
    && s'.payments == s.payments && s'.verdicts == s.verdicts && s'.refunds == s.refunds
    && s'.cashbackPaid == s.cashbackPaid && s'.cashbackRules == s.cashbackRules
  }

  lemma AfterDepositIs(s: State, region: string, key: string, op: string, amount: int, ledger: Ledger,
                       receipt: Receipt)
    requires region in s.regions && receipt.key == "" && Entered(s.ledger, ledger, DepositRequest(op, amount), receipt)
    requires Moves(s.ledger.balances, ledger.balances, amount, Funding, User, Issuer, Regional(region))
    ensures Deposited(s, AfterDeposit(s, region, key, op, amount, ledger, receipt), region, key, op, amount,
                      receipt.(key := key))
  {
    hide Moves, Entered, EffectName;
  }

  /** A new, well-formed deposit of an admitted writer commits exactly when every account stays representable. */
  lemma DepositOutcome(s: State, fence: Fence, key: string, op: string, amount: int)
    requires Inv(s) && Admits(s, fence) && key != "" && op != "" && amount > 0
    requires key !in s.idempotency && DepositEffect(op) !in s.ledger.effects
    ensures var (s', reply) := Deposit(s, fence, key, op, amount);
            if RaiseFits(s, amount, Funding, Issuer)
            then reply.error.None? && Deposited(s, s', fence.region, key, op, amount, reply.receipt)
            else (s', reply) == (s, Failed(ErrAmountOverflow))
  {
    hide Inv, Guard, Post, Deposited, Entered, Moves, AfterDeposit, AnswerAgain, Quorum, RaiseOverflows, RaiseLines;
    GuardIs(s, fence);
    var region, request := fence.region, DepositRequest(op, amount);
    RaiseRoom(s, region, amount, Funding, Issuer);
    if Fits(s.authorityTotal + amount) {
      RaisePosts(s, DepositEffect(op), DepositKind, request, region, amount, Funding, Issuer);
      var r := Post(s.ledger, DepositEffect(op), DepositKind, request, RaiseLines(s, Funding, Issuer, region, amount));
      if RaiseFits(s, amount, Funding, Issuer) {
        AfterDepositIs(s, region, key, op, amount, r.ledger, r.receipt);
      }
    }
  }

  /** What the status of a payment says about its counters. */
  predicate StatusMeans(p: Payment) {
    && (p.status == Disputed <==> p.chargedBack > 0)
    && (p.status == Reversed <==> p.chargedBack == 0 && p.reversed > 0 && Outstanding(p) == 0)
    && (p.status == Refunded <==> p.chargedBack == 0 && p.refunded == p.captured)
    && (p.status == Captured <==> p.refunded == p.reversed == p.chargedBack == 0)
  }

  /** One more release of its kind: the counter of that kind grows by the amount, the other two stay. */
  predicate Counted(p: Payment, p': Payment, kind: ReleaseKind, amount: int) {
    && p'.refunded == p.refunded + (if kind == Refund then amount else 0)
    && p'.reversed == p.reversed + (if kind == Reversal then amount else 0)
    && p'.chargedBack == p.chargedBack + (if kind == Chargeback then amount else 0)
    && p' == p.(refunded := p'.refunded, reversed := p'.reversed, chargedBack := p'.chargedBack, status := p'.status)
    && StatusMeans(p')
  }

  lemma ReleasedCounts(op: string, p: Payment, regions: map<string, Region>, kind: ReleaseKind, amount: int)
    requires PaymentOk(op, p, regions) && 0 < amount <= Outstanding(p)
    ensures Counted(p, Released(p, kind, amount), kind, amount) && !ReleaseExceeds(p, amount)
  {
  }

  lemma ExceedsIs(op: string, p: Payment, regions: map<string, Region>, amount: int)
    requires PaymentOk(op, p, regions) && amount > 0
    ensures ReleaseExceeds(p, amount) <==> amount > Outstanding(p)
  {
  }

  lemma PaymentAt(s: State, payment: string)
    requires Inv(s) && payment in s.payments
    ensures PaymentOk(payment, s.payments[payment], s.regions)
  {
    hide LedgerOk, EffectsLinked, TransfersOk, OutboxOk, InboxOk, SagasOk, AllHonest, AnswersProven, MoneyOk,
         AuthorityOk, RegionsOk, CashbackOk, VerdictsOk, Total, PaymentOk;
  }

  /** Money comes back from the merchant and authority from what was consumed; the payment counts the release. */
  ghost predicate GivenBack(s: State, s': State, region: string, key: string, release: string, payment: string,
                            amount: int, kind: ReleaseKind, receipt: Receipt)
    requires region in s.regions && payment in s.payments
  {
    && Credited(s, s', region, amount, Merchant, Consumed)
    && Answers(s, s', key, ReleaseRequest(kind, release, payment, amount), receipt)
    && payment in s'.payments && Counted(s.payments[payment], s'.payments[payment], kind, amount)
    && s'.payments == s.payments[payment := s'.payments[payment]]
    && s'.refunds == (if kind == Refund then s.refunds[release := amount] else s.refunds)
    && s'.verdicts == s.verdicts && s'.cashbackPaid == s.cashbackPaid && s'.cashbackRules == s.cashbackRules
  }

  lemma AfterReleaseIs(s: State, region: string, key: string, release: string, payment: string, amount: int,
                       kind: ReleaseKind, ledger: Ledger, receipt: Receipt)
    requires region in s.regions && payment in s.payments && receipt.key == ""
    requires Counted(s.payments[payment], Released(s.payments[payment], kind, amount), kind, amount)
    requires Entered(s.ledger, ledger, ReleaseRequest(kind, release, payment, amount), receipt)
    requires Moves(s.ledger.balances, ledger.balances, amount, Merchant, User, Consumed, Regional(region))
    ensures GivenBack(s, AfterRelease(s, region, key, release, payment, amount, kind, ledger, receipt), region, key,
                      release, payment, amount, kind, receipt.(key := key))
  {
    hide Moves, Entered, EffectName, Counted, Released;
  }

  /** What a payment still holds can always be given back, up to the size of the authority. */
  lemma ReturnRoom(s: State, payment: string, amount: int)
    requires Inv(s) && payment in s.payments && 0 < amount <= Outstanding(s.payments[payment])
    ensures RaiseFits(s, amount, Merchant, Consumed) <==> Fits(s.authorityTotal + amount)
  {
    hide Inv;
    MoneyAt(s);
  }

  /**
   * A new, well-formed release of an admitted writer commits exactly when its payment exists, still holds the amount,
   * and the authority stays representable.
   */
  lemma ReleaseOutcome(s: State, fence: Fence, key: string, release: string, payment: string, amount: int,
                       kind: ReleaseKind)
    requires Inv(s) && Admits(s, fence) && key != "" && release != "" && payment != "" && amount > 0
    requires key !in s.idempotency && ReleaseEffect(kind, release) !in s.ledger.effects
    ensures var (s', reply) := Release(s, fence, key, release, payment, amount, kind);
            if payment !in s.payments then (s', reply) == (s, Failed(ErrPaymentNotFound))
            else if amount > Outstanding(s.payments[payment]) then (s', reply) == (s, Failed(ErrRefundExceeded))
            else if Fits(s.authorityTotal + amount)
            then reply.error.None?
                 && GivenBack(s, s', fence.region, key, release, payment, amount, kind, reply.receipt)
            else (s', reply) == (s, Failed(ErrAmountOverflow))
  {
    hide Inv, Guard, Post, GivenBack, Entered, Moves, AfterRelease, AnswerAgain, Quorum, RaiseOverflows, RaiseLines,
         Counted, Released, ReleaseExceeds, PaymentOk, Outstanding, RaiseFits;
    GuardIs(s, fence);
    var region, request, effect :=
      fence.region, ReleaseRequest(kind, release, payment, amount), ReleaseEffect(kind, release);
    if payment in s.payments {
      PaymentAt(s, payment);
      ExceedsIs(payment, s.payments[payment], s.regions, amount);
      RaiseRoom(s, region, amount, Merchant, Consumed);
      if amount <= Outstanding(s.payments[payment]) && Fits(s.authorityTotal + amount) {
        ReturnRoom(s, payment, amount);
        RaisePosts(s, effect, ReleaseKindOf(kind), request, region, amount, Merchant, Consumed);
        var r := Post(s.ledger, effect, ReleaseKindOf(kind), request,
                      RaiseLines(s, Merchant, Consumed, region, amount));
        ReleasedCounts(payment, s.payments[payment], s.regions, kind, amount);
        AfterReleaseIs(s, region, key, release, payment, amount, kind, r.ledger, r.receipt);
      }
    }
  }

  /** Money comes from the cashback expense and authority from the issuer; the rule is fixed and what it paid grows. */
  ghost predicate Granted(s: State, s': State, region: string, key: string, grant: string, op: string, amount: int,
                          maximum: int, receipt: Receipt)
    requires region in s.regions
  {
    && Credited(s, s', region, amount, CashbackExpense, Issuer)
    && Answers(s, s', key, CashbackRequest(grant, op, amount, maximum), receipt)
    && s'.cashbackPaid == s.cashbackPaid[op := Get(s.cashbackPaid, op) + amount]
    && s'.cashbackRules == s.cashbackRules[op := maximum]
    && s'.payments == s.payments && s'.verdicts == s.verdicts && s'.refunds == s.refunds
  }

  lemma AfterCashbackIs(s: State, region: string, key: string, grant: string, op: string, amount: int, maximum: int,
                        ledger: Ledger, receipt: Receipt)
    requires region in s.regions && receipt.key == ""
    requires Entered(s.ledger, ledger, CashbackRequest(grant, op, amount, maximum), receipt)
    requires Moves(s.ledger.balances, ledger.balances, amount, CashbackExpense, User, Issuer, Regional(region))
    ensures Granted(s, AfterCashback(s, region, key, grant, op, amount, maximum, ledger, receipt), region, key, grant,
                    op, amount, maximum, receipt.(key := key))
  {
    hide Moves, Entered, Get;
  }

  /** A new, well-formed grant of an admitted writer commits exactly within its one rule and with room for it. */
  lemma CashbackOutcome(s: State, fence: Fence, key: string, grant: string, op: string, amount: int, maximum: int)
    requires Inv(s) && Admits(s, fence) && key != "" && grant != "" && op != "" && amount > 0 && maximum >= 0
    requires key !in s.idempotency && CashbackEffect(grant) !in s.ledger.effects
    ensures var (s', reply) := Cashback(s, fence, key, grant, op, amount, maximum);
            if op in s.cashbackRules && s.cashbackRules[op] != maximum
            then (s', reply) == (s, Failed(ErrEffectConflict))
            else if !Fits(Get(s.cashbackPaid, op) + amount) || Get(s.cashbackPaid, op) + amount > maximum
            then (s', reply) == (s, Failed(ErrCashbackExceeded))
            else if RaiseFits(s, amount, CashbackExpense, Issuer)
            then reply.error.None? && Granted(s, s', fence.region, key, grant, op, amount, maximum, reply.receipt)
            else (s', reply) == (s, Failed(ErrAmountOverflow))
  {
    hide Inv, Guard, Post, Granted, Entered, Moves, AfterCashback, AnswerAgain, Quorum, RaiseOverflows, RaiseLines;
    GuardIs(s, fence);
    var region, request := fence.region, CashbackRequest(grant, op, amount, maximum);
    RaiseRoom(s, region, amount, CashbackExpense, Issuer);
    if Fits(s.authorityTotal + amount) {
      RaisePosts(s, CashbackEffect(grant), CashbackKind, request, region, amount, CashbackExpense, Issuer);
      var r := Post(s.ledger, CashbackEffect(grant), CashbackKind, request,
                    RaiseLines(s, CashbackExpense, Issuer, region, amount));
      if RaiseFits(s, amount, CashbackExpense, Issuer) {
        AfterCashbackIs(s, region, key, grant, op, amount, maximum, r.ledger, r.receipt);
      }
    }
  }

  // ----- fraud verdicts --------------------------------------------------------------------------------------

  /** Everything the payment still held goes back to the region that captured it, as a chargeback. */
  ghost predicate ChargedBack(s: State, s': State, event: string, payment: string)
    requires event in s.verdicts && payment in s.payments && s.payments[payment].region in s.regions
  {
    var p, n := s.payments[payment], |s.ledger.journal|;
    && Credited(s, s', p.region, Outstanding(p), Merchant, Consumed)
    && Entered(s.ledger, s'.ledger, FraudRequest(event, p.operation, Outstanding(p)),
               Receipt("", FraudEffect(event), Tx(n + 1), n + 1, false))
    && payment in s'.payments && Counted(p, s'.payments[payment], Chargeback, Outstanding(p))
    && Outstanding(s'.payments[payment]) == 0
    && s'.payments == s.payments[payment := s'.payments[payment]]
    && s'.verdicts == s.verdicts[event := s.verdicts[event].(processed := true)]
    && s'.idempotency == s.idempotency && s'.refunds == s.refunds
    && s'.cashbackPaid == s.cashbackPaid && s'.cashbackRules == s.cashbackRules
  }

  lemma AfterFraudIs(s: State, event: string, payment: string, ledger: Ledger, receipt: Receipt)
    requires event in s.verdicts && payment in s.payments && s.payments[payment].region in s.regions
    requires var p := s.payments[payment];
             && Counted(p, Released(p, Chargeback, Outstanding(p)), Chargeback, Outstanding(p))
             && Entered(s.ledger, ledger, FraudRequest(event, p.operation, Outstanding(p)), receipt)
             && Moves(s.ledger.balances, ledger.balances, Outstanding(p), Merchant, User, Consumed, Regional(p.region))
    ensures ChargedBack(s, AfterFraud(s, event, payment, Outstanding(s.payments[payment]), ledger, receipt), event,
                        payment)
  {
    hide Moves, Entered, Released;
    ReceiptIs(s.ledger, ledger, FraudRequest(event, s.payments[payment].operation, Outstanding(s.payments[payment])),
              receipt);
  }

  lemma ReceiptIs(l: Ledger, l': Ledger, request: Fingerprint, receipt: Receipt)
    requires Entered(l, l', request, receipt)
    ensures receipt == Receipt("", EffectOf(request), Tx(|l.journal| + 1), |l.journal| + 1, false)
  {
  }

  lemma ReverseRestOutcome(s: State, event: string, payment: string)
    requires Inv(s) && event in s.verdicts && payment in s.payments && s.payments[payment].region in s.regions
    requires Outstanding(s.payments[payment]) > 0 && FraudEffect(event) !in s.ledger.effects
    ensures var p := s.payments[payment];
            var (s', error) := ReverseRest(s, event, payment, Outstanding(p));
            if Fits(s.authorityTotal + Outstanding(p)) then error.None? && ChargedBack(s, s', event, payment)
            else (s', error) == (s, Some(ErrAmountOverflow))
  {
    hide Inv, Post, ChargedBack, Entered, Moves, AfterFraud, Settle, RaiseOverflows, RaiseLines, Counted, Released,
         PaymentOk, Outstanding, RaiseFits;
    var p := s.payments[payment];
    var rest := Outstanding(p);
    RaiseRoom(s, p.region, rest, Merchant, Consumed);
    if Fits(s.authorityTotal + rest) {
      PaymentAt(s, payment);
      ReturnRoom(s, payment, rest);
      var request := FraudRequest(event, p.operation, rest);
      RaisePosts(s, FraudEffect(event), FraudKind, request, p.region, rest, Merchant, Consumed);
      var r :=
        Post(s.ledger, FraudEffect(event), FraudKind, request, RaiseLines(s, Merchant, Consumed, p.region, rest));
      ReceiptIs(s.ledger, r.ledger, request, r.receipt);
      ReleasedCounts(payment, p, s.regions, Chargeback, rest);
      AfterFraudIs(s, event, payment, r.ledger, r.receipt);
    }
  }

  /** The verdict is marked and nothing else changes. */
  ghost predicate Closed(s: State, s': State, event: string)
    requires event in s.verdicts
  {
    s' == s.(verdicts := s.verdicts[event := s.verdicts[event].(processed := true)])
  }

  lemma VerdictAt(s: State, event: string)
    requires Inv(s) && event in s.verdicts && !s.verdicts[event].processed
    ensures s.verdicts[event].payment in s.payments && FraudEffect(event) !in s.ledger.effects
  {
    hide LedgerOk, TransfersOk, OutboxOk, InboxOk, SagasOk, AllHonest, AnswersProven, MoneyOk, AuthorityOk, RegionsOk,
         CashbackOk, PaymentsOk, Total;
  }

  /**
   * An open verdict: a clean one, or one whose payment holds nothing any more, is only marked; a fraudulent one charges
   * back exactly what the payment still held, needs a quorum, and fails only for an authority that would not fit.
   */
  lemma JudgeOutcome(s: State, event: string)
    requires Inv(s) && event in s.verdicts && !s.verdicts[event].processed
    ensures s.verdicts[event].payment in s.payments
    ensures var v := s.verdicts[event];
            var (s', error) := JudgeOne(s, event);
            var p := s.payments[v.payment];
            p.region in s.regions &&
            if !v.fraudulent then error.None? && Closed(s, s', event)
            else if !Quorum(s) then (s', error) == (s, Some(ErrNoQuorum))
            else if Outstanding(p) == 0 then error.None? && Closed(s, s', event)
            else if Fits(s.authorityTotal + Outstanding(p)) then error.None? && ChargedBack(s, s', event, v.payment)
            else (s', error) == (s, Some(ErrAmountOverflow))
  {
    hide Inv, ReverseRest, HasQuorum, Quorum, Sum3, Sub, ChargedBack, Outstanding, ReleaseExceeds;
    VerdictAt(s, event);
    QuorumIs(s);
    PaymentRemaining(s, s.verdicts[event].payment);
    if Outstanding(s.payments[s.verdicts[event].payment]) > 0 {
      ReverseRestOutcome(s, event, s.verdicts[event].payment);
    }
  }

  // ----- all due verdicts of a tick ------------------------------------------------------------------------------

  ghost predicate OpenVerdicts(s: State, events: seq<string>) {
    && (forall i | 0 <= i < |events| :: events[i] in s.verdicts && !s.verdicts[events[i]].processed)
    && (forall i, j | 0 <= i < j < |events| :: events[i] != events[j])
  }

  /** Judging never reopens a verdict, never rewrites one that is not listed, and never gives a payment more to hold. */
  ghost predicate Judged(s: State, s': State, listed: set<string>) {
    && s'.verdicts.Keys == s.verdicts.Keys && s'.payments.Keys == s.payments.Keys
    && (forall e | e in s.verdicts :: s'.verdicts[e] == s.verdicts[e].(processed := s'.verdicts[e].processed))
    && (forall e | e in s.verdicts && e !in listed :: s'.verdicts[e] == s.verdicts[e])
    && (forall p | p in s.payments :: Outstanding(s'.payments[p]) <= Outstanding(s.payments[p]))
  }

  /** A clean verdict is marked, and a marked fraudulent one leaves its payment with nothing outstanding. */
  predicate Decided(v: Verdict, v': Verdict, payments: map<string, Payment>) {
    && (!v.fraudulent ==> v'.processed)
    && (v.fraudulent && v'.processed ==> v.payment in payments && Outstanding(payments[v.payment]) == 0)
  }

  /** Authority and what merchants hold, together. */
  function AtStake(s: State): int {
    s.authorityTotal + Get(s.ledger.balances, Merchant)
  }

  ghost predicate OneJudged(s: State, s': State, event: string, error: Option<Error>)
    requires event in s.verdicts
  {
    && Judged(s, s', {event}) && s'.dcHealthy == s.dcHealthy && AtStake(s') == AtStake(s)
    && Decided(s.verdicts[event], s'.verdicts[event], s'.payments)
    && (s'.verdicts[event].processed <==> error.None?)
  }

  lemma ClosedJudged(s: State, s': State, event: string)
    requires event in s.verdicts && s.verdicts[event].payment in s.payments && Closed(s, s', event)
    requires s.verdicts[event].fraudulent ==> Outstanding(s.payments[s.verdicts[event].payment]) == 0
    ensures OneJudged(s, s', event, None)
  {
    hide Outstanding;
  }

  lemma NothingJudged(s: State, event: string, e: Error)
    requires event in s.verdicts && s.verdicts[event].fraudulent && !s.verdicts[event].processed
    ensures OneJudged(s, s, event, Some(e))
  {
    hide Outstanding;
  }

  lemma ChargedJudged(s: State, s': State, event: string)
    requires event in s.verdicts && s.verdicts[event].payment in s.payments
    requires s.payments[s.verdicts[event].payment].region in s.regions
    requires ChargedBack(s, s', event, s.verdicts[event].payment)
    requires Outstanding(s.payments[s.verdicts[event].payment]) >= 0 && s.verdicts[event].fraudulent
    ensures OneJudged(s, s', event, None)
  {
    hide Entered, Counted, Outstanding;
  }

  lemma JudgedOne(s: State, event: string)
    requires Inv(s) && event in s.verdicts && !s.verdicts[event].processed
    ensures OneJudged(s, JudgeOne(s, event).0, event, JudgeOne(s, event).1)
    ensures Quorum(s) && Fits(AtStake(s)) ==> JudgeOne(s, event).1.None?
  {
    hide Inv, JudgeOne, Outstanding, ChargedBack, Closed, OneJudged;
    JudgeOutcome(s, event);
    MoneyAt(s);
    var v := s.verdicts[event];
    var p, s' := s.payments[v.payment], JudgeOne(s, event).0;
    if !v.fraudulent {
      ClosedJudged(s, s', event);
    } else if !Quorum(s) {
      NothingJudged(s, event, ErrNoQuorum);
    } else if Outstanding(p) == 0 {
      ClosedJudged(s, s', event);
    } else if Fits(s.authorityTotal + Outstanding(p)) {
      ChargedJudged(s, s', event);
    } else {
      NothingJudged(s, event, ErrAmountOverflow);
    }
  }

  function Listed(events: seq<string>, k: nat): set<string>
    requires k <= |events|
  {
    set i | 0 <= i < k :: events[i]
  }

  /** The answers to the first k listed verdicts. */
  ghost predicate AllDecided(s: State, s': State, events: seq<string>, k: nat)
    requires k <= |events|
  {
    && Judged(s, s', Listed(events, k))
    && forall i | 0 <= i < k ::
         && events[i] in s.verdicts && events[i] in s'.verdicts
         && Decided(s.verdicts[events[i]], s'.verdicts[events[i]], s'.payments)
  }

  lemma DecidedOn(s: State, a: State, b: State, events: seq<string>, k: nat, error: Option<Error>)
    requires k < |events| && OpenVerdicts(s, events) && AllDecided(s, a, events, k) && events[k] in a.verdicts
    requires OneJudged(a, b, events[k], error) && Inv(b)
    ensures AllDecided(s, b, events, k + 1)
    ensures forall i | 0 <= i < k :: b.verdicts[events[i]].processed == a.verdicts[events[i]].processed
  {
    hide Inv, Outstanding, OneJudged, Judged, Decided, AtStake;
    JudgedOn(s, a, b, events, k, error);
    forall i | 0 <= i < k
      ensures events[i] in b.verdicts && b.verdicts[events[i]] == a.verdicts[events[i]]
      ensures Decided(s.verdicts[events[i]], b.verdicts[events[i]], b.payments)
    {
      DecidedStays(s, a, b, events, k, i, error);
    }
    LastDecided(s, a, b, events, k, error);
  }

  lemma JudgedOn(s: State, a: State, b: State, events: seq<string>, k: nat, error: Option<Error>)
    requires k < |events| && Judged(s, a, Listed(events, k)) && events[k] in a.verdicts
    requires OneJudged(a, b, events[k], error)
    ensures Judged(s, b, Listed(events, k + 1))
  {
    hide Outstanding, Decided, AtStake;
    assert Listed(events, k + 1) == Listed(events, k) + {events[k]};
  }

  lemma DecidedStays(s: State, a: State, b: State, events: seq<string>, k: nat, i: nat, error: Option<Error>)
    requires i < k < |events| && OpenVerdicts(s, events) && AllDecided(s, a, events, k) && events[k] in a.verdicts
    requires OneJudged(a, b, events[k], error) && Inv(b)
    ensures events[i] in s.verdicts && events[i] in b.verdicts && b.verdicts[events[i]] == a.verdicts[events[i]]
    ensures Decided(s.verdicts[events[i]], b.verdicts[events[i]], b.payments)
  {
    hide Inv, Outstanding, AtStake;
    assert events[i] != events[k];
    var v := s.verdicts[events[i]];
    assert Decided(v, a.verdicts[events[i]], a.payments);
    if v.payment in b.payments {
      PaymentHolds(b, v.payment);
    }
  }

  lemma LastDecided(s: State, a: State, b: State, events: seq<string>, k: nat, error: Option<Error>)
    requires k < |events| && OpenVerdicts(s, events) && AllDecided(s, a, events, k) && events[k] in a.verdicts
    requires OneJudged(a, b, events[k], error)
    ensures events[k] in s.verdicts && events[k] in b.verdicts
    ensures Decided(s.verdicts[events[k]], b.verdicts[events[k]], b.payments)
  {
    hide Outstanding, AtStake;
    assert events[k] !in Listed(events, k);
  }

  lemma PaymentHolds(s: State, payment: string)
    requires Inv(s) && payment in s.payments
    ensures Outstanding(s.payments[payment]) >= 0
  {
    hide Inv;
    PaymentAt(s, payment);
  }

  lemma OpenStill(s: State, a: State, events: seq<string>, k: nat)
    requires OpenVerdicts(s, events) && k < |events| && AllDecided(s, a, events, k)
    ensures events[k] in a.verdicts && !a.verdicts[events[k]].processed
  {
    hide Decided, Outstanding;
    assert events[k] !in Listed(events, k);
  }

  ghost predicate AllMarked(s: State, events: seq<string>, k: nat)
    requires k <= |events|
  {
    forall i | 0 <= i < k :: events[i] in s.verdicts && s.verdicts[events[i]].processed
  }

  lemma {:induction false} JudgeEachOutcome(s: State, events: seq<string>, k: nat)
    requires Inv(s) && OpenVerdicts(s, events) && k <= |events|
    ensures var (s', errors) := JudgeEach(s, events, k);
            && Inv(s') && AllDecided(s, s', events, k) && s'.dcHealthy == s.dcHealthy && AtStake(s') == AtStake(s)
            && (Quorum(s) && Fits(AtStake(s)) ==> errors == [] && AllMarked(s', events, k))
  {
    hide Inv, JudgeOne, AtStake, Decided, Judged, AllDecided;
    if k == 0 {
      NoneDecided(s, events);
    } else {
      JudgeEachOutcome(s, events, k - 1);
      var a := JudgeEach(s, events, k - 1).0;
      OpenStill(s, a, events, k - 1);
      JudgedOne(a, events[k - 1]);
      JudgeOneKeeps(a, events[k - 1]);
      DecidedOn(s, a, JudgeOne(a, events[k - 1]).0, events, k - 1, JudgeOne(a, events[k - 1]).1);
    }
  }

  lemma NoneDecided(s: State, events: seq<string>)
    ensures AllDecided(s, s, events, 0)
  {
    hide Outstanding;
  }

  /**
   * One advance of the clock over the listed open verdicts: clean ones are marked, a marked fraudulent one leaves its
   * payment with nothing outstanding, and with a quorum and room for all that merchants hold every one is marked.
   */
  lemma TicksOutcome(s: State, ticks: nat, events: seq<string>)
    requires Inv(s) && OpenVerdicts(s, events)
    ensures var (s', errors) := AdvanceTicks(s, ticks, events);
            && AllDecided(s, s', events, |events|)
            && (Quorum(s) && Fits(AtStake(s)) ==> errors == [] && AllMarked(s', events, |events|))
  {
    hide Inv, JudgeEach, Decided, AllMarked, Up;
    Unread(s, Later(s, ticks));
    JudgeEachOutcome(Later(s, ticks), events, |events|);
    LaterDecided(s, ticks, AdvanceTicks(s, ticks, events).0, events);
  }

  lemma LaterDecided(s: State, ticks: nat, s': State, events: seq<string>)
    requires AllDecided(Later(s, ticks), s', events, |events|)
    ensures AllDecided(s, s', events, |events|)
  {
    hide Decided, Outstanding;
  }

  // ----- rights transfers ---------------------------------------------------------------------------------------

  /** One account loses the amount and another gains it. */
  ghost predicate Shifts(b: map<Account, int>, b': map<Account, int>, amount: int, from: Account, to: Account) {
    forall a :: Get(b', a) == Get(b, a) + if a == to then amount else if a == from then -amount else 0
  }

  lemma PairMoves(b: map<Account, int>, amount: int, from: Account, to: Account, x: string)
    requires from != to
    ensures Shifts(b, Moved(b, [Line(from, x, Debit, amount), Line(to, x, Credit, amount)]), amount, from, to)
  {
    hide Change, Moved;
    var ls := [Line(from, x, Debit, amount), Line(to, x, Credit, amount)];
    forall a ensures Get(Moved(b, ls), a) == Get(b, a) + if a == to then amount else if a == from then -amount else 0 {
      MovedBy(b, ls, a);
      Change2(ls[0], ls[1], a);
    }
  }

  lemma PairPosted(l: Ledger, effect: EffectId, kind: Kind, request: Fingerprint, amount: int, from: Account,
                   to: Account, x: string)
    requires from != to && l.sequence == |l.journal| && effect !in l.effects && EffectOf(request) == effect
    requires Post(l, effect, kind, request, [Line(from, x, Debit, amount), Line(to, x, Credit, amount)]).Posted?
    ensures var r := Post(l, effect, kind, request, [Line(from, x, Debit, amount), Line(to, x, Credit, amount)]);
            Entered(l, r.ledger, request, r.receipt) && Shifts(l.balances, r.ledger.balances, amount, from, to)
  {
    hide SideSum, FirstBad, Balanced, Moved, Shifts, Entered, HashOf;
    var ls := [Line(from, x, Debit, amount), Line(to, x, Credit, amount)];
    PairMoves(l.balances, amount, from, to, x);
    EntryIs(l, effect, kind, request, ls);
  }

  /** A signed certificate over exactly what was asked for, in the epoch of the writer's fence. */
  predicate CertificateFor(s: State, fence: Fence, id: string, destination: string, amount: int, commit: nat,
                           c: Certificate) {
    && c.transfer == id && c.asset == s.asset && c.source == fence.region && c.destination == destination
    && c.amount == amount && c.epoch == fence.epoch && c.commit == commit
    && c.proof == CertificateMac(s.key, id, s.asset, fence.region, destination, amount, fence.epoch, commit)
  }

  /** Rights leave the region for the transit account, and a command for the destination waits in the outbox. */
  ghost predicate Issued(s: State, s': State, fence: Fence, id: string, destination: string, amount: int,
                         c: Certificate)
    requires fence.region in s.regions
  {
    var n := |s.ledger.journal|;
    && CertificateFor(s, fence, id, destination, amount, n + 1, c)
    && Shifts(s.ledger.balances, s'.ledger.balances, amount, Regional(fence.region), Transit)
    && Entered(s.ledger, s'.ledger, TransferOutRequest(id, fence.region, destination, amount),
               Receipt("", TransferOutEffect(id), Tx(n + 1), n + 1, false))
    && s'.transfers == s.transfers[id := Transfer(c, true, false, false, NO_RECEIPT)]
    && s'.outbox == s.outbox[TransferMessage(id) := OutboxRecord(TransferMessage(id), RightsTransferEvent, fence.region,
                                                                 destination, Tx(n + 1), CertificatePayload(c), 0,
                                                                 false)]
    && s' == s.(ledger := s'.ledger, transfers := s'.transfers, outbox := s'.outbox,
                regions := s.regions[fence.region := s.regions[fence.region].(
                                       rights := s.regions[fence.region].rights - amount)])
  }

  lemma AfterIssueIs(s: State, fence: Fence, id: string, destination: string, amount: int, ledger: Ledger,
                     receipt: Receipt)
    requires fence.region in s.regions
    requires Shifts(s.ledger.balances, ledger.balances, amount, Regional(fence.region), Transit)
    requires Entered(s.ledger, ledger, TransferOutRequest(id, fence.region, destination, amount), receipt)
    ensures var c := Certify(s, fence, id, destination, amount, receipt.commit);
            c.source in s.regions && Issued(s, AfterIssue(s, c, ledger, receipt), fence, id, destination, amount, c)
  {
    hide Shifts, Entered;
    ReceiptIs(s.ledger, ledger, TransferOutRequest(id, fence.region, destination, amount), receipt);
  }

  lemma OutLinesPost(l: Ledger, asset: string, region: string, amount: int, effect: EffectId, kind: Kind,
                     request: Fingerprint)
    requires effect !in l.effects && effect != NoEffect && asset != "" && amount > 0 && Fits(amount)
    requires amount <= Get(l.balances, Regional(region)) < LIMIT
    requires 0 <= Get(l.balances, Transit) && Fits(Get(l.balances, Transit) + amount)
    ensures Post(l, effect, kind, request,
                 [Line(Regional(region), asset, Debit, amount), Line(Transit, asset, Credit, amount)]).Posted?
  {
    var l0, l1 := Line(Regional(region), asset, Debit, amount), Line(Transit, asset, Credit, amount);
    var lines := [l0, l1];
    Change2(l0, l1, Transit);
    assert Change(lines, 1, Regional(region)) == -amount;
    assert SideSum(lines, 1, asset, Debit) == amount && SideSum(lines, 1, asset, Credit) == 0;
    assert SideSum(lines, 2, asset, Debit) == amount && SideSum(lines, 2, asset, Credit) == amount;
    assert LineFits(Get(l.balances, Regional(region)), lines, 0) && LineFits(Get(l.balances, Transit), lines, 1);
    FirstBadNone(l.balances, lines, 2);
  }


  lemma TransitHasRoom(s: State, region: string, amount: int)
    requires Inv(s) && region in s.regions && 0 < amount <= s.regions[region].rights
    ensures Fits(amount) && amount <= s.regions[region].rights == Get(s.ledger.balances, Regional(region)) < LIMIT
    ensures 0 <= Get(s.ledger.balances, Transit) && Fits(Get(s.ledger.balances, Transit) + amount)
  {
    hide LedgerOk, EffectsLinked, PaymentsOk, OutboxOk, InboxOk, SagasOk, AllHonest, AnswersProven, MoneyOk,
         CashbackOk, VerdictsOk, Total;
    TransitNonNegative(s);
    TotalBounds(InTransitOf(s.transfers));
    RegionalBounds(s.regions, s.ledger.balances);
  }


  lemma Unissued(s: State, id: string)
    requires Inv(s) && id !in s.transfers
    ensures TransferOutEffect(id) !in s.ledger.effects && s.asset != ""
  {
    hide LedgerOk, EffectsLinked, PaymentsOk, OutboxOk, InboxOk, SagasOk, AllHonest, AnswersProven, RegionsOk,
         AuthorityOk, MoneyOk, CashbackOk, VerdictsOk, Total, TransfersOk;
    NotIssued(s, id);
  }

  /** A new, well-formed transfer of an admitted writer is issued exactly within the rights of its region. */
  lemma InitiateOutcome(s: State, fence: Fence, id: string, destination: string, amount: int)
    requires Inv(s) && Admits(s, fence) && id != "" && id !in s.transfers && destination in s.regions
    requires destination != fence.region && amount > 0
    ensures var (s', reply) := Initiate(s, fence, id, destination, amount);
            if amount <= s.regions[fence.region].rights
            then reply.error.None? && !reply.existing && reply.certificate.Some?
                 && Issued(s, s', fence, id, destination, amount, reply.certificate.value)
            else (s', reply) == (s, TransferFailed(ErrInsufficientRights))
  {
    hide Inv, Guard, Post, Quorum, AfterIssue, Certify, Issued, Shifts, Entered;
    GuardIs(s, fence);
    MoneyAt(s);
    RegionsNamed(s);
    if amount <= s.regions[fence.region].rights {
      TransitHasRoom(s, fence.region, amount);
      Unissued(s, id);
      var effect, request := TransferOutEffect(id), TransferOutRequest(id, fence.region, destination, amount);
      OutLinesPost(s.ledger, AuthorityAsset(s), fence.region, amount, effect, TransferOutKind, request);
      PairPosted(s.ledger, effect, TransferOutKind, request, amount, Regional(fence.region), Transit,
                 AuthorityAsset(s));
      var r := Post(s.ledger, effect, TransferOutKind, request, OutLines(s, fence.region, amount));
      AfterIssueIs(s, fence, id, destination, amount, r.ledger, r.receipt);
    }
  }

  /** Rights leave the transit account for the destination; the transfer and its message are marked consumed. */
  ghost predicate Arrived(s: State, s': State, id: string, receipt: Receipt)
    requires id in s.transfers && s.transfers[id].certificate.destination in s.regions
  {
    var c, m := s.transfers[id].certificate, TransferMessage(id);
    && Shifts(s.ledger.balances, s'.ledger.balances, c.amount, Transit, Regional(c.destination))
    && Entered(s.ledger, s'.ledger, TransferInRequest(id, c.proof), receipt)
    && s'.transfers == s.transfers[id := Transfer(c, false, true, s.transfers[id].acknowledged, receipt)]
    && s'.inbox == s.inbox[m := InboxRecord(m, CertificatePayload(c), TransferInEffect(id), 0)]
    && RightsAt(s, s', c.destination, s.regions[c.destination].rights + c.amount)
    && s'.authorityTotal == s.authorityTotal && s'.payments == s.payments && s'.outbox == s.outbox
    && s'.idempotency == s.idempotency && s'.sagas == s.sagas && s'.verdicts == s.verdicts
  }

  lemma AfterConsumeIs(s: State, id: string, ledger: Ledger, receipt: Receipt)
    requires id in s.transfers && s.transfers[id].certificate.destination in s.regions
    requires s.transfers[id].certificate.transfer == id
    requires var c := s.transfers[id].certificate;
             && Shifts(s.ledger.balances, ledger.balances, c.amount, Transit, Regional(c.destination))
             && Entered(s.ledger, ledger, TransferInRequest(id, c.proof), receipt)
    ensures var c := s.transfers[id].certificate;
            var s' := AfterConsume(s, TransferMessage(id), c, ledger, receipt);
            Arrived(s, s', id, receipt) && s'.faults == s.faults && c.destination in s'.regions
            && s'.regions[c.destination].running == s.regions[c.destination].running
  {
    hide Shifts, Entered;
    ReceiptIs(s.ledger, ledger, TransferInRequest(id, s.transfers[id].certificate.proof), receipt);
  }

  lemma FinishConsumeIs(s: State, m: MessageId, region: string, receipt: Receipt, duplicate: bool)
    requires region in s.regions
    ensures var (s', reply) := FinishConsume(s, m, region, receipt, duplicate);
            var crash := Pending(s.faults.consumerCrash, m);
            && reply == ConsumeReply(receipt, duplicate, if crash then Some(ErrConsumerCrash) else None)
            && s' == s.(faults := s'.faults, regions := s'.regions, net := s'.net)
            && RightsAt(s, s', region, s.regions[region].rights)
            && s'.regions[region].running == (s.regions[region].running && !crash)
  {
    hide Pending, Spend;
    if Pending(s.faults.consumerCrash, m) {
    } else {
    }
  }

  /**
   * A certificate in transit, delivered under its own message to a running destination with a quorum, is always
   * consumed; the destination may still crash before it answers.
   */
  lemma ConsumeOutcome(s: State, id: string)
    requires Inv(s) && id in s.transfers && s.transfers[id].inTransit && Quorum(s)
    requires s.transfers[id].certificate.destination in s.regions
    requires s.regions[s.transfers[id].certificate.destination].running
    ensures var c, m := s.transfers[id].certificate, TransferMessage(id);
            var (s', reply) := Consume(s, m, c);
            var crash := Pending(s.faults.consumerCrash, m);
            && reply.error == (if crash then Some(ErrConsumerCrash) else None) && !reply.duplicate
            && Arrived(s, s', id, reply.receipt) && s'.regions[c.destination].running == !crash
  {
    hide Inv, Post, Quorum, HasQuorum, Verified, AfterConsume, FinishConsume, Arrived, Shifts, Entered, Pending;
    QuorumIs(s);
    MoneyAt(s);
    StoredVerified(s, id);
    NotConsumed(s, id);
    TransitRoom(s, id);
    var c, m := s.transfers[id].certificate, TransferMessage(id);
    var effect, request := TransferInEffect(id), TransferInRequest(id, c.proof);
    InLinesPost(s.ledger, AuthorityAsset(s), c.destination, c.amount, effect, TransferInKind, request);
    PairPosted(s.ledger, effect, TransferInKind, request, c.amount, Transit, Regional(c.destination),
               AuthorityAsset(s));
    var r := Post(s.ledger, effect, TransferInKind, request, InLines(s, c.destination, c.amount));
    AfterConsumeIs(s, id, r.ledger, r.receipt);
    var after := AfterConsume(s, m, c, r.ledger, r.receipt);
    FinishConsumeIs(after, m, c.destination, r.receipt, false);
    ArrivedOn(s, after, FinishConsume(after, m, c.destination, r.receipt, false).0, id, r.receipt);
  }

  lemma ArrivedOn(s: State, a: State, b: State, id: string, receipt: Receipt)
    requires id in s.transfers && s.transfers[id].certificate.destination in s.regions && Arrived(s, a, id, receipt)
    requires s.transfers[id].certificate.destination in a.regions
    requires b == a.(faults := b.faults, regions := b.regions, net := b.net)
    requires var r := s.transfers[id].certificate.destination; RightsAt(a, b, r, a.regions[r].rights)
    ensures Arrived(s, b, id, receipt)
  {
    hide Shifts, Entered;
  }

  lemma NotConsumed(s: State, id: string)
    requires Inv(s) && id in s.transfers && s.transfers[id].inTransit
    ensures TransferInEffect(id) !in s.ledger.effects && TransferMessage(id) !in s.inbox && !s.transfers[id].consumed
  {
    hide LedgerOk, OutboxOk, SagasOk, AllHonest, AnswersProven, MoneyOk, AuthorityOk, RegionsOk, CashbackOk, VerdictsOk,
         Total, PaymentsOk;
    assert TransferOk(s.key, s.asset, s.regions, id, s.transfers[id]);
  }

  // ----- sagas ------------------------------------------------------------------------------------------------------

  /** The saga's payment can be made: its region runs, a quorum is up, nothing was paid yet and there is room. */
  ghost predicate Payable(s: State, g: Saga) {
    && g.region in s.regions && s.regions[g.region].running && Quorum(s) && g.operation != "" && g.amount > 0
    && SagaKey(g.id) !in s.idempotency && g.operation !in s.payments && !Pending(s.faults.crashBefore, SagaKey(g.id))
    && g.amount <= s.regions[g.region].rights && Fits(Get(s.ledger.balances, Merchant) + g.amount)
  }

  lemma SagaPays(s: State, g: Saga)
    requires Inv(s) && Payable(s, g)
    ensures var (s', reply) := SagaPay(s, g);
            CommittedAnyway(reply.error) && Paid(s, s', g.region, SagaKey(g.id), g.operation, g.amount, reply.receipt)
  {
    hide Inv, Pay, Paid, Quorum, Pending;
    assert SagaKey(g.id)[0] == 's';
    PayOutcome(s, Fence(g.region, s.regions[g.region].epoch), SagaKey(g.id), g.operation, g.amount);
  }

  /**
   * A saga whose payment can be made and whose coordinator does not crash pays once in its first step, also when the
   * answer is lost, and is completed by its second.
   */
  lemma SagaOutcome(s: State, id: string)
    requires Inv(s) && s.coordinatorRunning && id in s.sagas && s.sagas[id].id == id && s.sagas[id].nextStep == 0
    requires Payable(s, s.sagas[id]) && !Pending(s.faults.coordinatorCrash, id)
    ensures var g := s.sagas[id];
            var (s1, first) := AdvanceSaga(s, id);
            var (s2, second) := AdvanceSaga(s1, id);
            && first.error.None? && second.error.None?
            && Moves(s.ledger.balances, s1.ledger.balances, g.amount, User, Merchant, Regional(g.region), Consumed)
            && s1.payments.Keys == s.payments.Keys + {g.operation} && s1.payments[g.operation].captured == g.amount
            && s2 == s1.(sagas := s1.sagas[id := s1.sagas[id].(nextStep := 2, completed := true)])
            && id in s2.sagas && s2.sagas[id].completed && s2.sagas[id].operation == g.operation
  {
    hide Inv, SagaPay, Payable, Pending, Moves, CommittedAnyway, Answers, RightsAt, SagaKey;
    SagaPays(s, s.sagas[id]);
  }

  /** A saga is started once: the same start again answers how far it has come, and any other is refused. */
  lemma StartSagaOutcome(s: State, id: string, region: string, op: string, amount: int)
    ensures var (s', reply) := StartSaga(s, id, region, op, amount);
            if id == "" || op == "" || amount <= 0 then (s', reply) == (s, SagaReply(None, Some(ErrInvalidPosting)))
            else if id in s.sagas
            then s' == s
                 && var g := s.sagas[id];
                    reply == if (g.region, g.operation, g.amount) == (region, op, amount) then SagaReply(Some(g), None)
                             else SagaReply(None, Some(ErrEffectConflict))
            else
              && reply.error.None? && reply.snapshot == Some(Saga(id, region, op, amount, 0, false, NO_RECEIPT))
              && s' == s.(sagas := s.sagas[id := reply.snapshot.value])
  {
    if id == "" || op == "" || amount <= 0 {
    } else if id in s.sagas {
    } else {
    }
  }

  // ----- scheduling, crashes and restarts ----------------------------------------------------------------------------

  /** The verdict is due from this tick on. */
  ghost predicate DueFrom(s: State, event: string, time: nat) {
    forall t: nat | t < TICKS :: event in Due(s.(tick := t)) <==> t >= time
  }

  /** A verdict is scheduled once for a known payment and becomes due after its delay. */
  lemma ScheduleOutcome(s: State, event: string, payment: string, fraudulent: bool, delay: nat)
    ensures var (s', error) := ScheduleVerdict(s, event, payment, fraudulent, delay);
            if event == "" || payment == "" then (s', error) == (s, Some(ErrInvalidPosting))
            else if payment !in s.payments then (s', error) == (s, Some(ErrPaymentNotFound))
            else if event in s.verdicts
            then s' == s
                 && error == if s.verdicts[event].payment == payment && s.verdicts[event].fraudulent == fraudulent
                             then None else Some(ErrEffectConflict)
            else
              && error.None? && event in s'.verdicts && !s'.verdicts[event].processed
              && s'.verdicts[event].payment == payment && s'.verdicts[event].fraudulent == fraudulent
              && s' == s.(verdicts := s.verdicts[event := s'.verdicts[event]])
              && (s.tick + delay < TICKS ==> DueFrom(s', event, s.tick + delay))
  {
    hide DueFrom;
    if event == "" || payment == "" {
    } else if payment !in s.payments {
    } else if event in s.verdicts {
    } else {
      var s' := s.(verdicts := s.verdicts[event := Verdict(payment, fraudulent, (s.tick + delay) % TICKS, false)]);
      DueAt(s', event);
    }
  }

  lemma DueAt(s: State, event: string)
    requires event in s.verdicts && !s.verdicts[event].processed
    ensures DueFrom(s, event, s.verdicts[event].due)
  {
    forall t: nat | t < TICKS ensures event in Due(s.(tick := t)) <==> t >= s.verdicts[event].due {
      var later := s.(tick := t);
      assert event in Due(later) <==> later.verdicts[event].due <= t;
    }
  }

  /** A crash stops the region and cuts it off; a restart brings both back in the next epoch, with the rights it had. */
  lemma CrashAndRestart(s: State, region: string)
    requires region in s.regions
    ensures var down := CrashRegion(s, region);
            && down.regions == s.regions[region := Region(s.regions[region].epoch, false, s.regions[region].rights)]
            && down.net.down == s.net.down + {region} && down == s.(regions := down.regions, net := down.net)
    ensures var up := RestartRegion(s, region);
            && up.regions == s.regions[region := Region(s.regions[region].epoch + 1, true, s.regions[region].rights)]
            && up.net.down == s.net.down - {region} && up == s.(regions := up.regions, net := up.net)
    ensures CrashRegion(s, region).net.queue == s.net.queue == RestartRegion(s, region).net.queue
  {
  }

  /** A message consumed before is only counted: the caller gets the stored receipt, and no money or right moves. */
  lemma RepeatedConsumption(s: State, id: string)
    requires Inv(s) && id in s.transfers && s.transfers[id].consumed && Quorum(s)
    requires s.transfers[id].certificate.destination in s.regions
    requires s.regions[s.transfers[id].certificate.destination].running
    ensures var c, m := s.transfers[id].certificate, TransferMessage(id);
            var (s', reply) := Consume(s, m, c);
            var crash := Pending(s.faults.consumerCrash, m);
            && reply.duplicate && reply.receipt == s.transfers[id].receipt.(duplicate := true)
            && reply.error == (if crash then Some(ErrConsumerCrash) else None)
            && s'.ledger == s.ledger && s'.transfers == s.transfers && s'.payments == s.payments
            && RightsAt(s, s', c.destination, s.regions[c.destination].rights)
            && m in s.inbox && s'.inbox == s.inbox[m := s.inbox[m].(duplicates := s.inbox[m].duplicates + 1)]
  {
    hide Inv, Quorum, HasQuorum, Verified, FinishConsume, Pending;
    QuorumIs(s);
    StoredVerified(s, id);
    ConsumedMessage(s, id);
    var c, m := s.transfers[id].certificate, TransferMessage(id);
    FinishConsumeIs(s.(inbox := s.inbox[m := s.inbox[m].(duplicates := s.inbox[m].duplicates + 1)]), m, c.destination,
                    s.transfers[id].receipt.(duplicate := true), true);
  }

  lemma ConsumedMessage(s: State, id: string)
    requires Inv(s) && id in s.transfers && s.transfers[id].consumed
    ensures TransferMessage(id) in s.inbox
    ensures s.inbox[TransferMessage(id)].payload == CertificatePayload(s.transfers[id].certificate)
  {
    hide LedgerOk, OutboxOk, SagasOk, AllHonest, AnswersProven, MoneyOk, AuthorityOk, RegionsOk, CashbackOk, VerdictsOk,
         Total, PaymentsOk, EffectsLinked, TransfersOk;
  }
}
