/** The hash-chained double-entry journal of the protocol world and the posting operation. */
module Journal {
  import opened Amounts
  import opened Names

  datatype Side = Debit | Credit

  datatype Line = Line(account: Account, asset: string, side: Side, amount: int)

  datatype Kind =
    | GenesisKind | CaptureKind | DepositKind | ReleaseKindOf(release: ReleaseKind)
    | CashbackKind | TransferOutKind | TransferInKind | FraudKind

  /** The fields hashed into a request fingerprint; equal fingerprints mean equal fields. */
  datatype Fingerprint =
    | GenesisRequest(asset: string, balance: int, credit: int)
    | PaymentRequest(operation: string, amount: int)
    | DepositRequest(operation: string, amount: int)
    | ReleaseRequest(kind: ReleaseKind, release: string, payment: string, amount: int)
    | CashbackRequest(grant: string, operation: string, amount: int, maximum: int)
    | TransferOutRequest(transfer: string, source: string, destination: string, amount: int)
    | TransferInRequest(transfer: string, proof: Digest)
    | FraudRequest(event: string, operation: string, remaining: int)

  /** Symbolic collision-free digests: a digest is the tuple of fields that were hashed. */
  datatype Digest =
    | ZeroDigest
    | JournalDigest(prev: Digest, sequence: nat, id: TxId, effect: EffectId, kind: Kind,
                    request: Fingerprint, lines: seq<Line>)
    | CertificateMac(key: string, transfer: string, asset: string, source: string,
                     destination: string, amount: int, epoch: nat, commit: nat)

  datatype Transaction = Transaction(
    sequence: nat, id: TxId, effect: EffectId, kind: Kind,
    request: Fingerprint, prev: Digest, hash: Digest, lines: seq<Line>)

  datatype Receipt = Receipt(key: string, effect: EffectId, tx: TxId, commit: nat, duplicate: bool)

  const NO_RECEIPT := Receipt("", NoEffect, NoTx, 0, false)

  datatype Effect = Effect(request: Fingerprint, receipt: Receipt)

  datatype Error =
    | ErrInvalidConfiguration | ErrRegionDown | ErrNoQuorum | ErrStaleEpoch
    | ErrInsufficientFunds | ErrInsufficientRights | ErrIdempotencyConflict | ErrEffectConflict
    | ErrResponseLost | ErrCrashBeforeCommit | ErrCrashAfterCommit | ErrPaymentNotFound
    | ErrRefundExceeded | ErrTransferInvalid | ErrTransferConflict | ErrConsumerCrash
    | ErrCoordinatorDown | ErrCoordinatorCrash | ErrCashbackExceeded
    | ErrInvalidPosting | ErrUnbalanced | ErrAmountOverflow
    | ErrInvalidEnvelope | ErrNodeDown | ErrPartitioned | ErrPacketLost
    | ErrUndecodable | ErrUnexpectedKind

  datatype Ledger = Ledger(
    balances: map<Account, int>, journal: seq<Transaction>, effects: map<EffectId, Effect>,
    sequence: nat, head: Digest)

  const EMPTY_LEDGER := Ledger(map[], [], map[], 0, ZeroDigest)

  datatype PostResult = Posted(ledger: Ledger, receipt: Receipt) | Rejected(error: Error)

  function HashOf(t: Transaction): Digest {
    JournalDigest(t.prev, t.sequence, t.id, t.effect, t.kind, t.request, t.lines)
  }

  /** A credit raises its account, a debit lowers it. */
  function Signed(l: Line): int {
    if l.side == Credit then l.amount else -l.amount
  }

  /** The change the first n lines make to one account. */
  function Change(lines: seq<Line>, n: nat, a: Account): int
    requires n <= |lines|
  {
    if n == 0 then 0
    else Change(lines, n - 1, a) + if lines[n - 1].account == a then Signed(lines[n - 1]) else 0
  }

  /** The amount the first n lines carry on one side of one asset. */
  function SideSum(lines: seq<Line>, n: nat, asset: string, side: Side): int
    requires n <= |lines|
  {
    if n == 0 then 0
    else SideSum(lines, n - 1, asset, side) +
         if lines[n - 1].asset == asset && lines[n - 1].side == side then lines[n - 1].amount else 0
  }

  predicate Balanced(lines: seq<Line>) {
    forall i | 0 <= i < |lines| ::
      SideSum(lines, |lines|, lines[i].asset, Debit) == SideSum(lines, |lines|, lines[i].asset, Credit)
  }

  /** After line i, its side total and its account, which stood at `before`, are representable. */
  predicate LineFits(before: int, lines: seq<Line>, i: nat)
    requires i < |lines|
  {
    && Fits(SideSum(lines, i + 1, lines[i].asset, lines[i].side))
    && Fits(before + Change(lines, i + 1, lines[i].account))
  }

  /** The error of the first of n lines that cannot be posted on the given balances. */
  function FirstBad(balances: map<Account, int>, lines: seq<Line>, n: nat): Option<Error>
    requires n <= |lines|
  {
    if n == 0 then None
    else
      var earlier := FirstBad(balances, lines, n - 1);
      if earlier.Some? then earlier
      else if lines[n - 1].asset == "" || lines[n - 1].amount <= 0 then Some(ErrInvalidPosting)
      else if !LineFits(Get(balances, lines[n - 1].account), lines, n - 1) then Some(ErrAmountOverflow)
      else None
  }

  function Touched(lines: seq<Line>): set<Account> {
    set l | l in lines :: l.account
  }

  function Moved(balances: map<Account, int>, lines: seq<Line>): map<Account, int> {
    map a | a in balances.Keys + Touched(lines) :: Get(balances, a) + Change(lines, |lines|, a)
  }

  function NextTransaction(l: Ledger, effect: EffectId, kind: Kind, request: Fingerprint,
                           lines: seq<Line>): Transaction {
    var unsigned := Transaction(l.sequence + 1, Tx(l.sequence + 1), effect, kind, request, l.head, ZeroDigest, lines);
    unsigned.(hash := HashOf(unsigned))
  }

  function CommitReceipt(l: Ledger, effect: EffectId): Receipt {
    Receipt("", effect, Tx(l.sequence + 1), l.sequence + 1, false)
  }

  function Committed(l: Ledger, effect: EffectId, kind: Kind, request: Fingerprint, lines: seq<Line>): Ledger {
    var t := NextTransaction(l, effect, kind, request, lines);
    Ledger(Moved(l.balances, lines), l.journal + [t],
           l.effects[effect := Effect(request, CommitReceipt(l, effect))], l.sequence + 1, t.hash)
  }

  /** One posting: replay of a known effect, rejection, or a committed transaction. */
  function Post(l: Ledger, effect: EffectId, kind: Kind, request: Fingerprint, lines: seq<Line>): PostResult {
    if effect == NoEffect || |lines| < 2 then Rejected(ErrEffectConflict)
    else if effect in l.effects then
      if l.effects[effect].request != request then Rejected(ErrEffectConflict)
      else Posted(l, l.effects[effect].receipt.(duplicate := true))
    else
      var bad := FirstBad(l.balances, lines, |lines|);
      if bad.Some? then Rejected(bad.value)
      else if !Balanced(lines) then Rejected(ErrUnbalanced)
      else Posted(Committed(l, effect, kind, request, lines), CommitReceipt(l, effect))
  }

  /** The balance of one account folded from the first n journal transactions. */
  function Folded(journal: seq<Transaction>, n: nat, a: Account): int
    requires n <= |journal|
  {
    if n == 0 then 0
    else Folded(journal, n - 1, a) + Change(journal[n - 1].lines, |journal[n - 1].lines|, a)
  }

  /** Transaction t is positive, balanced, and refolds line by line without overflow. */
  ghost predicate Refoldable(journal: seq<Transaction>, t: nat)
    requires t < |journal|
  {
    var lines := journal[t].lines;
    && Balanced(lines)
    && forall i | 0 <= i < |lines| ::
         lines[i].amount > 0 && LineFits(Folded(journal, t, lines[i].account), lines, i)
  }

  function PrevHash(journal: seq<Transaction>, t: nat): Digest
    requires t <= |journal|
  {
    if t == 0 then ZeroDigest else journal[t - 1].hash
  }

  predicate Chained(journal: seq<Transaction>, t: nat)
    requires t < |journal|
  {
    && journal[t].sequence == t + 1
    && journal[t].prev == PrevHash(journal, t)
    && journal[t].hash == HashOf(journal[t])
  }

  ghost predicate DistinctIds(journal: seq<Transaction>) {
    forall t, u | 0 <= t < u < |journal| ::
      journal[t].effect != journal[u].effect && journal[t].id != journal[u].id
  }

  /** No sequence gap, an unbroken hash chain up to the head, unique effects and ids, and a clean refold. */
  ghost predicate JournalConsistent(l: Ledger) {
    && (forall t | 0 <= t < |l.journal| :: Chained(l.journal, t) && Refoldable(l.journal, t))
    && DistinctIds(l.journal)
    && l.head == PrevHash(l.journal, |l.journal|)
    && l.sequence == |l.journal|
  }

  /** Every materialized balance is exactly the fold of the journal. */
  ghost predicate BalancesExplained(l: Ledger) {
    forall a :: Get(l.balances, a) == Folded(l.journal, |l.journal|, a)
  }

  /** The receipt of an effect names the one transaction that committed it. */
  ghost predicate Proven(journal: seq<Transaction>, effect: EffectId, e: Effect) {
    && 0 < e.receipt.commit <= |journal|
    && var t := journal[e.receipt.commit - 1];
    && t.effect == effect && t.id == e.receipt.tx && t.sequence == e.receipt.commit
    && e.receipt.effect == effect && t.request == e.request
  }

  ghost predicate EffectsProven(l: Ledger) {
    forall e | e in l.effects :: Proven(l.journal, e, l.effects[e])
  }

  /** The effect that a fingerprint belongs to. */
  function EffectOf(f: Fingerprint): EffectId {
    match f
    case GenesisRequest(_, _, _) => GenesisEffect
    case PaymentRequest(op, _) => PaymentEffect(op)
    case DepositRequest(op, _) => DepositEffect(op)
    case ReleaseRequest(kind, release, _, _) => ReleaseEffect(kind, release)
    case CashbackRequest(grant, _, _, _) => CashbackEffect(grant)
    case TransferOutRequest(id, _, _, _) => TransferOutEffect(id)
    case TransferInRequest(id, _) => TransferInEffect(id)
    case FraudRequest(event, _, _) => FraudEffect(event)
  }

  /** The converse of EffectsProven: every transaction is the one its effect receipt names. */
  ghost predicate Receipted(l: Ledger) {
    forall t | 0 <= t < |l.journal| ::
      l.journal[t].effect in l.effects && l.journal[t].id == Tx(t + 1) &&
      l.effects[l.journal[t].effect].receipt.commit == t + 1
  }

  /** An effect is recorded under the identifier its request fingerprint determines. */
  ghost predicate Fingerprinted(l: Ledger) {
    forall e | e in l.effects :: EffectOf(l.effects[e].request) == e && e != NoEffect
  }

  /** What posting keeps: the audited conditions plus the links they rest on. */
  ghost predicate LedgerOk(l: Ledger) {
    && JournalConsistent(l) && BalancesExplained(l) && EffectsProven(l)
    && Receipted(l) && Fingerprinted(l)
  }

  lemma {:induction false} FirstBadNone(balances: map<Account, int>, lines: seq<Line>, n: nat)
    requires n <= |lines|
    ensures FirstBad(balances, lines, n).None? <==>
            forall i | 0 <= i < n ::
              lines[i].asset != "" && lines[i].amount > 0 && LineFits(Get(balances, lines[i].account), lines, i)
  {
    if n > 0 {
      FirstBadNone(balances, lines, n - 1);
    }
  }

  lemma {:induction false} ChangeUntouched(lines: seq<Line>, n: nat, a: Account)
    requires n <= |lines| && a !in Touched(lines)
    ensures Change(lines, n, a) == 0
  {
    if n > 0 {
      ChangeUntouched(lines, n - 1, a);
      assert lines[n - 1] in lines;
    }
  }

  lemma {:induction false} FoldedPrefix(journal: seq<Transaction>, t: Transaction, n: nat, a: Account)
    requires n <= |journal|
    ensures Folded(journal + [t], n, a) == Folded(journal, n, a)
  {
    if n > 0 {
      FoldedPrefix(journal, t, n - 1, a);
    }
  }

  /** Every account moves by exactly the net of the posted lines. */
  lemma MovedBy(balances: map<Account, int>, lines: seq<Line>, a: Account)
    ensures Get(Moved(balances, lines), a) == Get(balances, a) + Change(lines, |lines|, a)
  {
    if a !in Touched(lines) {
      ChangeUntouched(lines, |lines|, a);
    }
  }

  lemma RefoldablePrefix(journal: seq<Transaction>, t: Transaction, n: nat)
    requires n < |journal| && Refoldable(journal, n)
    ensures Refoldable(journal + [t], n)
  {
    forall i | 0 <= i < |journal[n].lines|
      ensures LineFits(Folded(journal + [t], n, journal[n].lines[i].account), journal[n].lines, i)
    {
      FoldedPrefix(journal, t, n, journal[n].lines[i].account);
    }
  }

  /** The new transaction refolds on top of the journal it was posted to. */
  lemma NewRefoldable(l: Ledger, t: Transaction)
    requires BalancesExplained(l)
    requires FirstBad(l.balances, t.lines, |t.lines|).None? && Balanced(t.lines)
    ensures Refoldable(l.journal + [t], |l.journal|)
  {
    FirstBadNone(l.balances, t.lines, |t.lines|);
    forall i | 0 <= i < |t.lines|
      ensures LineFits(Folded(l.journal + [t], |l.journal|, t.lines[i].account), t.lines, i)
    {
      FoldedPrefix(l.journal, t, |l.journal|, t.lines[i].account);
    }
  }

  lemma CommitKeepsChain(l: Ledger, t: Transaction)
    requires JournalConsistent(l) && BalancesExplained(l)
    requires FirstBad(l.balances, t.lines, |t.lines|).None? && Balanced(t.lines)
    requires t.sequence == l.sequence + 1 && t.prev == l.head && t.hash == HashOf(t)
    ensures forall u | 0 <= u < |l.journal| + 1 :: Chained(l.journal + [t], u) && Refoldable(l.journal + [t], u)
  {
    var journal := l.journal + [t];
    NewRefoldable(l, t);
    assert Chained(journal, |l.journal|);
    forall u | 0 <= u < |l.journal| ensures Chained(journal, u) && Refoldable(journal, u) {
      assert Chained(l.journal, u);
      RefoldablePrefix(l.journal, t, u);
    }
  }

  lemma CommitKeepsIds(l: Ledger, t: Transaction)
    requires DistinctIds(l.journal) && t.effect !in l.effects && t.id == Tx(|l.journal| + 1)
    requires forall u | 0 <= u < |l.journal| :: l.journal[u].effect in l.effects && l.journal[u].id == Tx(u + 1)
    ensures DistinctIds(l.journal + [t])
  {
  }

  lemma CommitKeepsJournal(l: Ledger, effect: EffectId, kind: Kind, request: Fingerprint, lines: seq<Line>)
    requires JournalConsistent(l) && BalancesExplained(l) && Receipted(l) && effect !in l.effects
    requires FirstBad(l.balances, lines, |lines|).None? && Balanced(lines)
    ensures JournalConsistent(Committed(l, effect, kind, request, lines))
  {
    hide Refoldable, Chained, FirstBad, Balanced, Moved;
    var t := NextTransaction(l, effect, kind, request, lines);
    CommitKeepsChain(l, t);
    CommitKeepsIds(l, t);
  }

  lemma CommitKeepsBalances(l: Ledger, effect: EffectId, kind: Kind, request: Fingerprint, lines: seq<Line>)
    requires BalancesExplained(l)
    ensures BalancesExplained(Committed(l, effect, kind, request, lines))
    ensures forall a :: Get(Moved(l.balances, lines), a) == Get(l.balances, a) + Change(lines, |lines|, a)
  {
    var t := NextTransaction(l, effect, kind, request, lines);
    forall a
      ensures Get(Moved(l.balances, lines), a) == Folded(l.journal + [t], |l.journal| + 1, a)
      ensures Get(Moved(l.balances, lines), a) == Get(l.balances, a) + Change(lines, |lines|, a)
    {
      MovedBy(l.balances, lines, a);
      FoldedPrefix(l.journal, t, |l.journal|, a);
    }
  }

  lemma CommitKeepsReceipts(l: Ledger, effect: EffectId, kind: Kind, request: Fingerprint, lines: seq<Line>)
    requires l.sequence == |l.journal| && Receipted(l) && effect !in l.effects
    ensures Receipted(Committed(l, effect, kind, request, lines))
  {
  }

  lemma CommitKeepsEffects(l: Ledger, effect: EffectId, kind: Kind, request: Fingerprint, lines: seq<Line>)
    requires l.sequence == |l.journal| && EffectsProven(l) && effect !in l.effects
    ensures EffectsProven(Committed(l, effect, kind, request, lines))
  {
    var after := Committed(l, effect, kind, request, lines);
    forall e | e in after.effects ensures Proven(after.journal, e, after.effects[e]) {
      if e != effect {
        assert Proven(l.journal, e, l.effects[e]);
      }
    }
  }

  /** A committed posting extends the journal and keeps every ledger condition. */
  lemma PostKeeps(l: Ledger, effect: EffectId, kind: Kind, request: Fingerprint, lines: seq<Line>)
    requires LedgerOk(l) && effect !in l.effects && EffectOf(request) == effect
    requires Post(l, effect, kind, request, lines).Posted?
    ensures Post(l, effect, kind, request, lines) ==
            Posted(Committed(l, effect, kind, request, lines), CommitReceipt(l, effect))
    ensures LedgerOk(Committed(l, effect, kind, request, lines))
    ensures forall a :: Get(Moved(l.balances, lines), a) == Get(l.balances, a) + Change(lines, |lines|, a)
  {
    CommitKeepsJournal(l, effect, kind, request, lines);
    CommitKeepsBalances(l, effect, kind, request, lines);
    CommitKeepsEffects(l, effect, kind, request, lines);
    CommitKeepsReceipts(l, effect, kind, request, lines);
  }

  /** The head digest commits to the whole history: two consistent ledgers with one head hold one journal. */
  lemma {:induction false} HeadBindsJournal(a: seq<Transaction>, b: seq<Transaction>)
    requires forall t | 0 <= t < |a| :: Chained(a, t)
    requires forall t | 0 <= t < |b| :: Chained(b, t)
    requires PrevHash(a, |a|) == PrevHash(b, |b|)
    ensures a == b
    decreases |a|
  {
    if a != [] && b != [] {
      var m, n := |a| - 1, |b| - 1;
      assert Chained(a, m) && Chained(b, n);
      var a', b' := a[..m], b[..n];
      forall t | 0 <= t < |a'| ensures Chained(a', t) { assert Chained(a, t); }
      forall t | 0 <= t < |b'| ensures Chained(b', t) { assert Chained(b, t); }
      HeadBindsJournal(a', b');
      assert a == a' + [a[m]] && b == b' + [b[n]];
    } else {
      assert |a| > 0 ==> Chained(a, |a| - 1);
      assert |b| > 0 ==> Chained(b, |b| - 1);
    }
  }

  /** The net of two lines, written out. */
  lemma Change2(l0: Line, l1: Line, a: Account)
    ensures Change([l0, l1], 2, a) ==
            (if l0.account == a then Signed(l0) else 0) + (if l1.account == a then Signed(l1) else 0)
  {
    var lines := [l0, l1];
    assert Change(lines, 1, a) == if l0.account == a then Signed(l0) else 0;
  }

  /** The net of four lines, written out. */
  lemma Change4(l0: Line, l1: Line, l2: Line, l3: Line, a: Account)
    ensures Change([l0, l1, l2, l3], 4, a) ==
            (if l0.account == a then Signed(l0) else 0) + (if l1.account == a then Signed(l1) else 0) +
            (if l2.account == a then Signed(l2) else 0) + (if l3.account == a then Signed(l3) else 0)
  {
    var lines := [l0, l1, l2, l3];
    assert Change(lines, 1, a) == if l0.account == a then Signed(l0) else 0;
    assert Change(lines, 2, a) == Change(lines, 1, a) + if l1.account == a then Signed(l1) else 0;
    assert Change(lines, 3, a) == Change(lines, 2, a) + if l2.account == a then Signed(l2) else 0;
  }
}
