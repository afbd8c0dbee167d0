/** Every run of a payment cell: lifecycle, lockstep, balanced books and idempotent answers. */
module CellRuns {
  import opened Amounts
  import opened Totals
  import opened Escrow
  import opened Payments
  import opened Lifecycle
  import opened Movements
  import opened Lockstep
  import opened Settlement
  import opened Wallets

  datatype Step =
    | Pay(scope: string, key: string, q: Request, id: string, tx: string)
    | Open(available: string, held: string, book: string, asset: string, region: string)
    | Register(name: string, account: Account)
    | Fund(wallet: string, asset: string, amount: int, region: string, funding: string)
    | Send(scope: string, key: string, t: TransferCall, payerTx: string, payeeTx: string, region: string)

  ghost function After(c: Cell, s: Step): Cell {
    match s
    case Pay(scope, key, q, id, tx) =>
      (match Execute(c, scope, key, q, id, tx) case Done(c', _) => c' case Refused(_) => c)
    case Open(available, held, book, asset, region) => OpenWallet(c, available, held, book, asset, region).0
    case Register(name, account) => OpenAccount(c, name, account).0
    case Fund(account, asset, amount, region, funding) => Deposit(c, account, asset, amount, region, funding).0
    case Send(scope, key, t, payerTx, payeeTx, region) => ExecuteTransfer(c, scope, key, t, payerTx, payeeTx, region).0
  }

  /** Identifiers handed to an operation are new. */
  ghost predicate Enabled(c: Cell, s: Step) {
    s.Pay? ==> s.id !in c.payments && forall id | id in c.payments :: s.tx !in c.payments[id].captures
  }

  const EMPTY := Cell(map[], map[], map[], map[], map[], map[], map[])

  // ----- one call ------------------------------------------------------------------------------------

  lemma OperateKeeps(c: Cell, scope: string, q: Request, id: string, tx: string)
    requires Inv(c) && Enabled(c, Pay(scope, "", q, id, tx)) && Operate(c, scope, q, id, tx).Done?
    ensures Inv(Operate(c, scope, q, id, tx).cell) && Advances(c.payments, Operate(c, scope, q, id, tx).cell.payments)
  {
    hide Inv, Hold, Capture, Release, GiveBack, Advances;
    match q {
      case HoldRequest(_, _, _, _, _, _, _, _) =>
        HoldKeeps(c, scope, q, id, tx);
        HoldAdvances(c, scope, q, id, tx);
      case CaptureRequest(_, _, _, _, _, _, _, _, _, _) =>
        CaptureKept(c, scope, q, tx);
      case ReleaseRequest(_, _, _, _, _) =>
        ReleaseKept(c, scope, q, tx);
      case ReturnRequest(_, _, _, _, _, _, _) =>
        ReturnKept(c, q, tx);
    }
  }

  lemma HoldAdvances(c: Cell, scope: string, q: Request, id: string, tx: string)
    requires q.HoldRequest? && id !in c.payments && Hold(c, scope, q, id, tx).Done?
    ensures Advances(c.payments, Hold(c, scope, q, id, tx).cell.payments)
  {
    hide PostLegs, MoveRights;
  }

  /** Answers are bookkeeping only: the invariant does not depend on them. */
  lemma AnswersFree(c: Cell, answers: map<Call, Answer>, transfers: map<TransferKey, TransferAnswer>)
    requires Inv(c)
    ensures Inv(c.(answers := answers, transfers := transfers))
  {
    hide BooksBalance, SettlementsCancel, PaymentsOk, HeldMoney;
    var c' := c.(answers := answers, transfers := transfers);
    forall id | id in c'.payments ensures Placed(c', c'.payments[id]) {
      assert Placed(c, c.payments[id]);
    }
  }

  lemma ExecuteKeeps(c: Cell, scope: string, key: string, q: Request, id: string, tx: string)
    requires Inv(c) && Enabled(c, Pay(scope, key, q, id, tx)) && Execute(c, scope, key, q, id, tx).Done?
    ensures Inv(Execute(c, scope, key, q, id, tx).cell)
            && Advances(c.payments, Execute(c, scope, key, q, id, tx).cell.payments)
  {
    hide Inv, Operate, CanTransition, Malformed;
    var call := Call(scope, OperationName(q), key);
    if scope == "" || key == "" || Malformed(q) {
    } else if call in c.answers {
      NoAdvance(c.payments);
    } else {
      OperateKeeps(c, scope, q, id, tx);
      var after := Operate(c, scope, q, id, tx).cell;
      AnswersFree(after, after.answers[call := Answer(q, Operate(c, scope, q, id, tx).receipt)], after.transfers);
    }
  }

  lemma NoAdvance(payments: map<string, Payment>)
    ensures Advances(payments, payments)
  {
  }

  lemma SendKeeps(c: Cell, scope: string, key: string, t: TransferCall, payerTx: string, payeeTx: string,
                  region: string)
    requires Inv(c)
    ensures Inv(ExecuteTransfer(c, scope, key, t, payerTx, payeeTx, region).0)
    ensures ExecuteTransfer(c, scope, key, t, payerTx, payeeTx, region).0.payments == c.payments
  {
    hide Inv, TransferMoney, TransferRights;
    var (after, receipt, error) := Transfer(c, t, payerTx, payeeTx, region);
    TransferKeeps(c, t, payerTx, payeeTx, region);
    if receipt.Some? {
      AnswersFree(after, after.answers, after.transfers[TransferKey(scope, key) := TransferAnswer(t, receipt.value)]);
    }
  }

  lemma DepositPayments(c: Cell, account: string, asset: string, amount: int, region: string, funding: string)
    ensures Deposit(c, account, asset, amount, region, funding).0.payments == c.payments
  {
    hide PostLegs, MoveRights;
  }

  /** Every operation keeps the invariant, and no payment leaves the state machine. */
  lemma StepKeeps(c: Cell, s: Step)
    requires Inv(c) && Enabled(c, s)
    ensures Inv(After(c, s)) && Advances(c.payments, After(c, s).payments)
  {
    hide Inv, Execute, ExecuteTransfer, Deposit, Advances;
    NoAdvance(c.payments);
    match s {
      case Pay(scope, key, q, id, tx) =>
        if Execute(c, scope, key, q, id, tx).Done? {
          ExecuteKeeps(c, scope, key, q, id, tx);
        } else {
        }
      case Open(available, held, book, asset, region) =>
        OpenWalletKeeps(c, available, held, book, asset, region);
      case Register(name, account) =>
        OpenAccountKeeps(c, name, account);
      case Fund(account, asset, amount, region, funding) =>
        DepositKeeps(c, account, asset, amount, region, funding);
        DepositPayments(c, account, asset, amount, region, funding);
      case Send(scope, key, t, payerTx, payeeTx, region) =>
        SendKeeps(c, scope, key, t, payerTx, payeeTx, region);
    }
  }

  // ----- lockstep ----------------------------------------------------------------------------------------

  /** An account may carry this balance. */
  predicate Storable(c: Cell, a: string, balance: int)
    requires a in c.accounts
  {
    Fits(balance) && (c.accounts[a].enforced ==> balance >= 0)
  }

  /** The accounts a hold names have their roles, its book and its asset, and room for its amount. */
  predicate HoldReady(c: Cell, q: Request)
    requires q.HoldRequest?
  {
    && HasRole(c, q.available, AvailableRole) && HasRole(c, q.held, HeldRole) && HasRole(c, q.merchant, MerchantRole)
    && c.accounts[q.available].book == q.book && c.accounts[q.held].book == q.book
    && c.accounts[q.available].asset == q.asset && c.accounts[q.held].asset == q.asset
    && Storable(c, q.available, Get(c.balances, q.available) - q.amount)
    && Storable(c, q.held, Get(c.balances, q.held) + q.amount)
  }

  /** A hold without a region takes effect exactly when it is well formed and its accounts are ready. */
  lemma HoldReadyExactly(c: Cell, scope: string, q: Request, id: string, tx: string)
    requires q.HoldRequest? && q.region == ""
    ensures Hold(c, scope, q, id, tx).Done? <==> !Malformed(q) && HoldReady(c, q)
  {
    hide PostLegs, MoveRights, Fits;
    PostsOne(c, q.book, q.asset, Leg(q.available, q.held, q.amount));
    NoRights(c.books, Spend, Holder(q.available, q.asset), q.amount);
  }

  /** A well-formed new hold that names no region, on accounts that are ready for it. */
  predicate Unbacked(c: Cell, s: Step) {
    s.Pay? && s.q.HoldRequest? && s.q.region == "" && s.scope != "" && s.key != "" && !Malformed(s.q) &&
    Call(s.scope, "hold", s.key) !in c.answers && HoldReady(c, s.q)
  }

  ghost predicate Locked(c: Cell) {
    InStep(c.balances, c.books) && Regional(c.payments)
  }

  lemma HoldLocked(c: Cell, scope: string, q: Request, id: string, tx: string)
    requires Linked(c) && Locked(c) && q.HoldRequest? && Hold(c, scope, q, id, tx).Done?
    ensures var c' := Hold(c, scope, q, id, tx).cell;
            (InStep(c'.balances, c'.books) <==> q.region != "") && (Locked(c') <==> q.region != "")
  {
    hide Linked, InStep;
    HoldInStep(c, scope, q, id, tx);
    HoldRow(c, scope, q, id, tx);
  }

  lemma HoldRow(c: Cell, scope: string, q: Request, id: string, tx: string)
    requires Regional(c.payments) && q.HoldRequest? && Hold(c, scope, q, id, tx).Done?
    ensures Regional(Hold(c, scope, q, id, tx).cell.payments) <==> q.region != ""
  {
    hide PostLegs, MoveRights;
    var after := Hold(c, scope, q, id, tx).cell.payments;
    assert id in after && after[id].region == q.region;
  }

  lemma OtherLocked(c: Cell, scope: string, q: Request, id: string, tx: string)
    requires Linked(c) && Locked(c) && !q.HoldRequest? && Operate(c, scope, q, id, tx).Done?
    ensures Locked(Operate(c, scope, q, id, tx).cell)
  {
    hide Linked, InStep, Capture, Release, GiveBack;
    match q {
      case CaptureRequest(_, _, _, _, _, _, _, _, _, _) =>
        CaptureInStep(c, scope, q, tx);
        CaptureRegion(c, scope, q, tx);
      case ReleaseRequest(_, _, _, _, _) =>
        ReleaseInStep(c, scope, q, tx);
        ReleaseRegion(c, scope, q, tx);
      case ReturnRequest(_, _, _, _, _, _, _) =>
        ReturnInStep(c, q, tx);
        ReturnRegion(c, q, tx);
    }
  }

  lemma CaptureRegion(c: Cell, scope: string, q: Request, tx: string)
    requires Regional(c.payments) && q.CaptureRequest? && Capture(c, scope, q, tx).Done?
    ensures Regional(Capture(c, scope, q, tx).cell.payments)
  {
    hide Capture, CaptureMoney, MoveRights, CaptureRoles, CaptureInvalid, CaptureState, CaptureRights;
    CaptureParts(c, scope, q, tx);
  }

  lemma ReleaseRegion(c: Cell, scope: string, q: Request, tx: string)
    requires Regional(c.payments) && q.ReleaseRequest? && Release(c, scope, q, tx).Done?
    ensures Regional(Release(c, scope, q, tx).cell.payments)
  {
    hide Release, PostLegs, MoveRights;
    ReleaseParts(c, scope, q, tx);
  }

  lemma ReturnRegion(c: Cell, q: Request, tx: string)
    requires Regional(c.payments) && q.ReturnRequest? && GiveBack(c, q, tx).Done?
    ensures Regional(GiveBack(c, q, tx).cell.payments)
  {
    hide GiveBack, PostLegs, MoveRights;
    ReturnParts(c, q, tx);
    SamePlace(c.payments[q.payment], q);
  }

  lemma ExecuteLocked(c: Cell, s: Step)
    requires Linked(c) && Locked(c) && s.Pay? && Execute(c, s.scope, s.key, s.q, s.id, s.tx).Done?
    ensures var c' := Execute(c, s.scope, s.key, s.q, s.id, s.tx).cell;
            (InStep(c'.balances, c'.books) <==> !Unbacked(c, s)) && (Locked(c') <==> !Unbacked(c, s))
  {
    hide Linked, InStep, Regional, Hold, Capture, Release, GiveBack, HoldReady, Malformed;
    if Call(s.scope, OperationName(s.q), s.key) in c.answers {
    } else if s.q.HoldRequest? {
      HoldLocked(c, s.scope, s.q, s.id, s.tx);
      if s.q.region == "" {
        HoldReadyExactly(c, s.scope, s.q, s.id, s.tx);
      }
    } else {
      OtherLocked(c, s.scope, s.q, s.id, s.tx);
    }
  }

  lemma SendLocked(c: Cell, scope: string, key: string, t: TransferCall, payerTx: string, payeeTx: string,
                   region: string)
    requires Inv(c) && Locked(c)
    ensures Locked(ExecuteTransfer(c, scope, key, t, payerTx, payeeTx, region).0)
  {
    hide Linked, PaymentsOk, HeldMoney, BooksBalance, SettlementsCancel, InStep, TransferMoney, TransferRights,
         Regional;
    TransferInStep(c, t, payerTx, payeeTx, region);
    SendKeeps(c, scope, key, t, payerTx, payeeTx, region);
  }

  /** Wallets leave the lockstep exactly when a hold without a region takes effect. */
  lemma LockstepExactly(c: Cell, s: Step)
    requires Inv(c) && Locked(c) && Enabled(c, s)
    ensures InStep(After(c, s).balances, After(c, s).books) <==> !Unbacked(c, s)
    ensures Locked(After(c, s)) <==> !Unbacked(c, s)
  {
    hide Linked, PaymentsOk, HeldMoney, BooksBalance, SettlementsCancel, InStep, Regional, After;
    if s.Pay? {
      PayExactly(c, s);
    } else {
      OthersStayLocked(c, s);
    }
  }

  lemma PayExactly(c: Cell, s: Step)
    requires Linked(c) && Locked(c) && s.Pay?
    ensures InStep(After(c, s).balances, After(c, s).books) <==> !Unbacked(c, s)
    ensures Locked(After(c, s)) <==> !Unbacked(c, s)
  {
    hide Linked, InStep, Regional, Execute, Unbacked;
    if Execute(c, s.scope, s.key, s.q, s.id, s.tx).Done? {
      ExecuteLocked(c, s);
    } else {
      RefusedNotUnbacked(c, s);
    }
  }

  lemma OthersStayLocked(c: Cell, s: Step)
    requires Inv(c) && Locked(c) && !s.Pay?
    ensures Locked(After(c, s))
  {
    hide Linked, PaymentsOk, HeldMoney, BooksBalance, SettlementsCancel, InStep, Regional, ExecuteTransfer, Deposit;
    match s {
      case Open(available, held, book, asset, region) =>
        OpenWalletInStep(c, available, held, book, asset, region);
      case Register(name, account) =>
      case Fund(account, asset, amount, region, funding) =>
        DepositInStep(c, account, asset, amount, region, funding);
        DepositPayments(c, account, asset, amount, region, funding);
      case Send(scope, key, t, payerTx, payeeTx, region) =>
        SendLocked(c, scope, key, t, payerTx, payeeTx, region);
    }
  }

  lemma RefusedNotUnbacked(c: Cell, s: Step)
    requires s.Pay? && Execute(c, s.scope, s.key, s.q, s.id, s.tx).Refused?
    ensures !Unbacked(c, s)
  {
    hide Hold, HoldReady, Malformed, Capture, Release, GiveBack;
    if s.q.HoldRequest? && s.q.region == "" {
      HoldReadyExactly(c, s.scope, s.q, s.id, s.tx);
    }
  }

  // ----- runs -----------------------------------------------------------------------------------------------

  ghost function Final(c: Cell, run: seq<Step>): Cell
    decreases |run|
  {
    if run == [] then c else Final(After(c, run[0]), run[1..])
  }

  ghost predicate Runs(c: Cell, run: seq<Step>)
    decreases |run|
  {
    run == [] || (Enabled(c, run[0]) && Runs(After(c, run[0]), run[1..]))
  }

  /** No hold of the run takes money without a regional right. */
  ghost predicate Backed(c: Cell, run: seq<Step>)
    decreases |run|
  {
    run == [] || (!Unbacked(c, run[0]) && Backed(After(c, run[0]), run[1..]))
  }

  lemma {:induction false} RunKeeps(c: Cell, run: seq<Step>)
    requires Inv(c) && Runs(c, run)
    ensures Inv(Final(c, run))
    ensures Locked(c) && Backed(c, run) ==> Locked(Final(c, run))
    decreases |run|
  {
    hide Inv, After, Enabled, Unbacked, Locked;
    if run == [] {
    } else {
      StepKeeps(c, run[0]);
      if Locked(c) && Backed(c, run) {
        LockstepExactly(c, run[0]);
      }
      RunKeeps(After(c, run[0]), run[1..]);
    }
  }

  lemma EmptyInv()
    ensures Inv(EMPTY) && Locked(EMPTY)
  {
    hide Total;
    forall s: set<string> ensures SumOver(map[], s) == 0 {
      assert Among(map[], s) == map[];
      NothingTotal();
    }
  }

  lemma NothingTotal()
    ensures Total<string>(map[]) == 0
  {
  }

  /**
   * In every cell reachable from an empty one, books balance, settlement cancels, held money matches and every payment
   * is in order.
   */
  lemma EveryRunBalances(run: seq<Step>)
    requires Runs(EMPTY, run)
    ensures var c := Final(EMPTY, run);
            && PaymentsOk(c.payments) && HeldMoney(c.accounts, c.balances, c.payments)
            && BooksBalance(c.accounts, c.balances) && SettlementsCancel(c.accounts, c.balances)
  {
    hide Linked, PaymentsOk, HeldMoney, BooksBalance, SettlementsCancel, Locked, Runs, Final, Backed;
    EmptyInv();
    RunKeeps(EMPTY, run);
  }

  /**
   * With regional holds only, each wallet's balance equals its authority and the sum of its regional rights, after any
   * run.
   */
  lemma EveryBackedRunStaysLevel(run: seq<Step>, h: Holder)
    requires Runs(EMPTY, run) && Backed(EMPTY, run) && h in Final(EMPTY, run).books
    ensures var c := Final(EMPTY, run); var k := c.books[h];
            k.total == Total(AvailableOf(k.rights)) == Get(c.balances, h.account) && k.total >= 0
  {
    hide Inv, Runs, Final, Backed, Total;
    EmptyInv();
    RunKeeps(EMPTY, run);
    var c := Final(EMPTY, run);
    assert Level(c.balances, h, c.books[h]);
    TotalBounds(AvailableOf(c.books[h].rights));
  }

  /** Every hold request of the run names a region. */
  predicate NamesRegions(run: seq<Step>) {
    forall i | 0 <= i < |run| && run[i].Pay? && run[i].q.HoldRequest? :: run[i].q.region != ""
  }

  lemma {:induction false} NamedIsBacked(c: Cell, run: seq<Step>)
    requires NamesRegions(run)
    ensures Backed(c, run)
    decreases |run|
  {
    hide After, HoldReady, Malformed;
    if run != [] {
      NamedIsBacked(After(c, run[0]), run[1..]);
    }
  }

  /** Callers that always name a region keep every wallet level, whatever else they send. */
  lemma NamedRegionsStayLevel(run: seq<Step>, h: Holder)
    requires Runs(EMPTY, run) && NamesRegions(run) && h in Final(EMPTY, run).books
    ensures var c := Final(EMPTY, run); var k := c.books[h];
            k.total == Total(AvailableOf(k.rights)) == Get(c.balances, h.account) && k.total >= 0
  {
    hide Runs, Final, Backed, NamesRegions, AvailableOf, Total;
    NamedIsBacked(EMPTY, run);
    EveryBackedRunStaysLevel(run, h);
  }

  // ----- a run that leaves the lockstep ---------------------------------------------------------------------

  const BANK := Account(FundingRole, "b", "EUR", false)
  const SHOP := Account(MerchantRole, "b", "EUR", true)

  /** Two accounts are registered, a wallet is opened and ten are deposited. */
  const FUNDED: seq<Step> := [
    Register("bank", BANK), Register("shop", SHOP), Open("wallet", "held", "b", "EUR", "eu"),
    Fund("wallet", "EUR", 10, "eu", "bank")]

  const HOLD: Step := Pay("s", "k", HoldRequest("b", "EUR", "wallet", "held", "shop", 4, 0, ""), "p", "t")

  /** The cell with its accounts, before the deposit. */
  function WalletCell(): Cell {
    Cell(map["bank" := BANK, "shop" := SHOP, "wallet" := Account(AvailableRole, "b", "EUR", true),
             "held" := Account(HeldRole, "b", "EUR", true)],
         map[], map[Holder("wallet", "EUR") := Book(0, 0, 0, map["eu" := Right(0, 0)])], map[], map[], map[], map[])
  }

  lemma AccountsOpen()
    ensures var c1 := After(EMPTY, Register("bank", BANK));
            var c2 := After(c1, Register("shop", SHOP));
            After(c2, Open("wallet", "held", "b", "EUR", "eu")) == WalletCell()
  {
  }

  lemma DepositArrives()
    ensures var c := After(WalletCell(), Fund("wallet", "EUR", 10, "eu", "bank"));
            c.accounts == WalletCell().accounts && c.payments == map[] && c.answers == map[]
            && Get(c.balances, "wallet") == 10
            && Get(c.balances, "held") == 0
  {
    hide PostLegs;
    var c := WalletCell();
    PostsOne(c, "b", "EUR", Leg("bank", "wallet", 10));
  }

  lemma OneMore(c: Cell, t: Step, rest: seq<Step>)
    requires Enabled(c, t) && Runs(After(c, t), rest)
    ensures Runs(c, [t] + rest) && Final(c, [t] + rest) == Final(After(c, t), rest)
  {
    hide After, Enabled;
    assert ([t] + rest)[0] == t && ([t] + rest)[1..] == rest;
  }

  lemma FinalOfFunded()
    ensures Runs(EMPTY, FUNDED) && Final(EMPTY, FUNDED) == After(WalletCell(), Fund("wallet", "EUR", 10, "eu", "bank"))
    ensures NamesRegions(FUNDED)
  {
    hide After;
    var a, b, c, d := Register("bank", BANK), Register("shop", SHOP), Open("wallet", "held", "b", "EUR", "eu"),
                      Fund("wallet", "EUR", 10, "eu", "bank");
    var c1 := After(EMPTY, a);
    var c2 := After(c1, b);
    AccountsOpen();
    OneMore(WalletCell(), d, []);
    OneMore(c2, c, [d] + []);
    OneMore(c1, b, [c] + ([d] + []));
    OneMore(EMPTY, a, [b] + ([c] + ([d] + [])));
    assert FUNDED == [a] + ([b] + ([c] + ([d] + [])));
  }

  /**
   * From an empty cell: a funded wallet is level, and a hold without a region leaves it with less money than rights.
   */
  lemma HoldWithoutRegionUnlevels()
    ensures Runs(EMPTY, FUNDED)
    ensures var c := Final(EMPTY, FUNDED);
            && Inv(c) && Locked(c) && Enabled(c, HOLD) && Unbacked(c, HOLD)
            && !InStep(After(c, HOLD).balances, After(c, HOLD).books)
  {
    hide Inv, Locked, InStep, Runs, Final, Backed, After, NamesRegions;
    FinalOfFunded();
    NamedIsBacked(EMPTY, FUNDED);
    EmptyInv();
    RunKeeps(EMPTY, FUNDED);
    DepositArrives();
    LockstepExactly(Final(EMPTY, FUNDED), HOLD);
  }

  // ----- idempotency --------------------------------------------------------------------------------------------

  lemma HoldAnswers(c: Cell, scope: string, q: Request, id: string, tx: string)
    requires q.HoldRequest? && Hold(c, scope, q, id, tx).Done?
    ensures Hold(c, scope, q, id, tx).cell.answers == c.answers
            && Hold(c, scope, q, id, tx).cell.transfers == c.transfers
  {
    hide PostLegs, MoveRights;
  }

  lemma OperateAnswers(c: Cell, scope: string, q: Request, id: string, tx: string)
    requires Operate(c, scope, q, id, tx).Done?
    ensures Operate(c, scope, q, id, tx).cell.answers == c.answers
            && Operate(c, scope, q, id, tx).cell.transfers == c.transfers
    ensures !Operate(c, scope, q, id, tx).receipt.duplicate
  {
    hide PostLegs, MoveRights, CaptureMoney, AfterReturn, AfterRelease, AfterCapture, CaptureRoles, CaptureInvalid;
    match q {
      case HoldRequest(_, _, _, _, _, _, _, _) =>
        HoldAnswers(c, scope, q, id, tx);
      case CaptureRequest(_, _, _, _, _, _, _, _, _, _) =>
        CaptureParts(c, scope, q, tx);
      case ReleaseRequest(_, _, _, _, _) =>
        ReleaseParts(c, scope, q, tx);
      case ReturnRequest(_, _, _, _, _, _, _) =>
        ReturnParts(c, q, tx);
    }
  }

  lemma DepositAnswers(c: Cell, account: string, asset: string, amount: int, region: string, funding: string)
    ensures var c' := Deposit(c, account, asset, amount, region, funding).0;
            c'.answers == c.answers && c'.transfers == c.transfers
  {
    hide PostLegs, MoveRights;
  }

  lemma OpenAnswers(c: Cell, available: string, held: string, book: string, asset: string, region: string)
    ensures var c' := OpenWallet(c, available, held, book, asset, region).0;
            c'.answers == c.answers && c'.transfers == c.transfers
  {
  }

  lemma RegisterAnswers(c: Cell, name: string, account: Account)
    ensures var c' := OpenAccount(c, name, account).0; c'.answers == c.answers && c'.transfers == c.transfers
  {
    if name == "" || account.role == AvailableRole || account.role == HeldRole {
    } else if name in c.accounts {
    } else if account.role != SettlementRole {
    } else if Holder(account.book, account.asset) in c.settlements {
    } else {
    }
  }

  /** No step forgets or rewrites an answer. */
  ghost predicate Remembers(c: Cell, c': Cell) {
    && (forall k | k in c.answers :: k in c'.answers && c'.answers[k] == c.answers[k])
    && (forall k | k in c.transfers :: k in c'.transfers && c'.transfers[k] == c.transfers[k])
  }

  lemma StepRemembers(c: Cell, s: Step)
    ensures Remembers(c, After(c, s))
  {
    hide Execute, ExecuteTransfer, Deposit, OpenWallet, OpenAccount;
    match s {
      case Pay(scope, key, q, id, tx) =>
        PayRemembers(c, scope, key, q, id, tx);
      case Open(available, held, book, asset, region) =>
        OpenAnswers(c, available, held, book, asset, region);
      case Register(name, account) =>
        RegisterAnswers(c, name, account);
      case Fund(account, asset, amount, region, funding) =>
        DepositAnswers(c, account, asset, amount, region, funding);
      case Send(scope, key, t, payerTx, payeeTx, region) =>
        SendRemembers(c, scope, key, t, payerTx, payeeTx, region);
    }
  }

  lemma PayRemembers(c: Cell, scope: string, key: string, q: Request, id: string, tx: string)
    ensures Execute(c, scope, key, q, id, tx).Done? ==> Remembers(c, Execute(c, scope, key, q, id, tx).cell)
  {
    hide Operate;
    if Operate(c, scope, q, id, tx).Done? {
      OperateAnswers(c, scope, q, id, tx);
    }
  }

  lemma SendRemembers(c: Cell, scope: string, key: string, t: TransferCall, payerTx: string, payeeTx: string,
                      region: string)
    ensures Remembers(c, ExecuteTransfer(c, scope, key, t, payerTx, payeeTx, region).0)
  {
    hide TransferMoney, TransferRights;
  }

  lemma {:induction false} RunRemembers(c: Cell, run: seq<Step>)
    ensures Remembers(c, Final(c, run))
    decreases |run|
  {
    hide After;
    if run == [] {
    } else {
      StepRemembers(c, run[0]);
      RunRemembers(After(c, run[0]), run[1..]);
    }
  }

  /**
   * After a payment call succeeded, the same call gives the first receipt marked duplicate and changes nothing, however
   * much ran since.
   */
  lemma RepeatedCallIsAnswered(c: Cell, scope: string, key: string, q: Request, id: string, tx: string, run: seq<Step>,
                               id': string, tx': string)
    requires Execute(c, scope, key, q, id, tx).Done?
    ensures var first := Execute(c, scope, key, q, id, tx);
            var now := Final(first.cell, run);
            Execute(now, scope, key, q, id', tx') == Done(now, first.receipt.(duplicate := true))
  {
    hide Operate, Final;
    RunRemembers(Execute(c, scope, key, q, id, tx).cell, run);
  }

  /** The same for customer transfers. */
  lemma RepeatedTransferIsAnswered(c: Cell, scope: string, key: string, t: TransferCall, payerTx: string,
                                   payeeTx: string, region: string,
                                   run: seq<Step>, payerTx': string, payeeTx': string, region': string)
    requires ExecuteTransfer(c, scope, key, t, payerTx, payeeTx, region).1.Some?
    ensures var (after, receipt, _) := ExecuteTransfer(c, scope, key, t, payerTx, payeeTx, region);
            var now := Final(after, run);
            ExecuteTransfer(now, scope, key, t, payerTx', payeeTx', region') ==
            (now, Some(receipt.value.(duplicate := true)), None)
  {
    hide Transfer, Final;
    RunRemembers(ExecuteTransfer(c, scope, key, t, payerTx, payeeTx, region).0, run);
  }
}
