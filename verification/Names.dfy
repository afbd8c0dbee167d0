/**
  Identifiers of the protocol world. Each identifier is a value here and a string in the program;
  the rendering functions give that string, and the injectivity lemmas say that two different
  identifiers never collide once rendered, whatever the caller-supplied parts contain.
 */
module Names {

  datatype Account =
    | User | Merchant | Funding | CashbackExpense
    | Issuer | Consumed | Transit | Unallocated
    | Regional(region: string)

  datatype ReleaseKind = Refund | Reversal | Chargeback

  /** An economic effect identifier; NoEffect is the empty string of an unset receipt. */
  datatype EffectId =
    | NoEffect
    | GenesisEffect
    | PaymentEffect(operation: string)
    | DepositEffect(operation: string)
    | ReleaseEffect(kind: ReleaseKind, release: string)
    | CashbackEffect(grant: string)
    | TransferOutEffect(transfer: string)
    | TransferInEffect(transfer: string)
    | FraudEffect(event: string)

  /** A journal transaction identifier; NoTx is the empty string of an unset receipt. */
  datatype TxId = NoTx | Tx(sequence: nat)

  datatype EventKind =
    | PaymentCapturedEvent | DepositConfirmedEvent
    | ReleaseConfirmedEvent(release: ReleaseKind)
    | CashbackGrantedEvent | FraudReversalEvent | RightsTransferEvent

  datatype MessageId =
    | TransferMessage(transfer: string)
    | EventMessage(tx: TxId, kind: EventKind)
    | AckMessage(transfer: string)

  function AccountName(a: Account): string {
    match a
    case User => "wallet:customer"
    case Merchant => "payable:merchant"
    case Funding => "clearing:funding"
    case CashbackExpense => "expense:cashback"
    case Issuer => "authority:issuer"
    case Consumed => "authority:consumed"
    case Transit => "authority:in-transit"
    case Unallocated => "authority:unallocated"
    case Regional(region) => "authority:region:" + region
  }

  function ReleaseName(k: ReleaseKind): string {
    match k
    case Refund => "REFUND"
    case Reversal => "REVERSAL"
    case Chargeback => "CHARGEBACK"
  }

  /** The part of an effect name before its first colon. */
  function EffectTag(e: EffectId): string {
    match e
    case NoEffect => ""
    case GenesisEffect => "genesis"
    case PaymentEffect(_) => "payment"
    case DepositEffect(_) => "deposit"
    case ReleaseEffect(k, _) => ReleaseName(k)
    case CashbackEffect(_) => "cashback"
    case TransferOutEffect(_) => "rights-transfer-out"
    case TransferInEffect(_) => "rights-transfer-in"
    case FraudEffect(_) => "fraud-reversal"
  }

  function EffectBody(e: EffectId): string {
    match e
    case NoEffect => ""
    case GenesisEffect => ""
    case PaymentEffect(id) => id
    case DepositEffect(id) => id
    case ReleaseEffect(_, id) => id
    case CashbackEffect(id) => id
    case TransferOutEffect(id) => id
    case TransferInEffect(id) => id
    case FraudEffect(id) => id
  }

  function EffectName(e: EffectId): string {
    if Bare(e) then EffectTag(e) else EffectTag(e) + ":" + EffectBody(e)
  }

  /** The two effect names without a colon. */
  predicate Bare(e: EffectId) {
    e.NoEffect? || e.GenesisEffect?
  }

  function DigitChar(d: nat): char
    requires d < 10
  {
    '0' + d as char
  }

  function Digits(n: nat): string {
    if n < 10 then [DigitChar(n)] else Digits(n / 10) + [DigitChar(n % 10)]
  }

  function Zeros(k: nat): string {
    if k == 0 then "" else Zeros(k - 1) + "0"
  }

  /** A sequence number printed in at least twenty digits. */
  function Padded(n: nat): string {
    var d := Digits(n);
    if |d| < 20 then Zeros(20 - |d|) + d else d
  }

  function TxName(t: TxId): string {
    match t
    case NoTx => ""
    case Tx(n) => "tx-" + Padded(n)
  }

  function EventName(k: EventKind): string {
    match k
    case PaymentCapturedEvent => "PAYMENT_CAPTURED"
    case DepositConfirmedEvent => "DEPOSIT_CONFIRMED"
    case ReleaseConfirmedEvent(r) => ReleaseName(r) + "_CONFIRMED"
    case CashbackGrantedEvent => "CASHBACK_GRANTED"
    case FraudReversalEvent => "LATE_FRAUD_REVERSAL"
    case RightsTransferEvent => "RIGHTS_TRANSFER"
  }

  function MessageTag(m: MessageId): string {
    match m
    case TransferMessage(_) => "transfer"
    case EventMessage(_, _) => "event"
    case AckMessage(_) => "ack"
  }

  function MessageBody(m: MessageId): string {
    match m
    case TransferMessage(id) => id
    case EventMessage(tx, kind) => TxName(tx) + ":" + EventName(kind)
    case AckMessage(id) => id
  }

  function MessageName(m: MessageId): string {
    MessageTag(m) + ":" + MessageBody(m)
  }

  /** Two strings cut at their first colon agree exactly when both parts agree. */
  lemma ColonSplit(a: string, b: string, c: string, d: string)
    requires ':' !in a && ':' !in c
    requires a + ":" + b == c + ":" + d
    ensures a == c && b == d
  {
    var left, right := a + ":" + b, c + ":" + d;
    assert left[|a|] == ':' && right[|c|] == ':';
    assert forall i | 0 <= i < |a| :: left[i] == a[i] != ':';
    assert forall i | 0 <= i < |c| :: right[i] == c[i] != ':';
    assert a == left[..|a|] == right[..|c|] == c;
    assert b == left[|a| + 1..] == right[|c| + 1..] == d;
  }

  /** No two ledger accounts share a name. */
  lemma AccountNameInjective(a: Account, b: Account)
    requires AccountName(a) == AccountName(b)
    ensures a == b
  {
    var s, t := AccountName(a), AccountName(b);
    assert s[0] == t[0] && s[1] == t[1] && s[10] == t[10] && s[11] == t[11];
    assert |s| > 16 && |t| > 16 ==> s[16] == t[16];
    if a.Regional? && b.Regional? {
      assert a.region == s[17..] == t[17..] == b.region;
    }
  }

  lemma EffectTagInjective(e: EffectId, f: EffectId)
    requires EffectTag(e) == EffectTag(f)
    ensures ':' !in EffectTag(e)
    ensures EffectBody(e) == EffectBody(f) ==> e == f
  {
    var s, t := EffectTag(e), EffectTag(f);
    assert s != "" && t != "" ==> s[0] == t[0] && s[1] == t[1] && s[2] == t[2];
  }

  /** No two economic effects share a name, so one effect receipt never answers for another effect. */
  lemma EffectNameInjective(e: EffectId, f: EffectId)
    requires EffectName(e) == EffectName(f)
    ensures e == f
  {
    var s, t := EffectName(e), EffectName(f);
    assert !Bare(e) ==> s[|EffectTag(e)|] == ':';
    assert !Bare(f) ==> t[|EffectTag(f)|] == ':';
    assert ':' !in EffectName(GenesisEffect);
    if !Bare(e) && !Bare(f) {
      EffectTagInjective(e, e);
      EffectTagInjective(f, f);
      ColonSplit(EffectTag(e), EffectBody(e), EffectTag(f), EffectBody(f));
      EffectTagInjective(e, f);
    }
  }

  function DigitValue(c: char): int {
    c as int - '0' as int
  }

  /** The number that a digit string denotes. */
  function Value(s: string): int {
    if s == "" then 0 else Value(s[..|s| - 1]) * 10 + DigitValue(s[|s| - 1])
  }

  lemma ValueSnoc(s: string, c: char)
    ensures Value(s + [c]) == Value(s) * 10 + DigitValue(c)
  {
    assert (s + [c])[..|s|] == s;
  }

  lemma {:induction false} DigitsValue(n: nat)
    ensures Value(Digits(n)) == n && ':' !in Digits(n)
  {
    if n < 10 {
      ValueSnoc("", DigitChar(n));
      assert "" + [DigitChar(n)] == Digits(n);
    } else {
      DigitsValue(n / 10);
      ValueSnoc(Digits(n / 10), DigitChar(n % 10));
    }
  }

  lemma {:induction false} ZerosValue(k: nat)
    ensures Value(Zeros(k)) == 0 && ':' !in Zeros(k)
  {
    if k > 0 {
      ZerosValue(k - 1);
      ValueSnoc(Zeros(k - 1), '0');
    }
  }

  lemma {:induction false} LeadingZeros(z: string, s: string)
    requires Value(z) == 0
    ensures Value(z + s) == Value(s)
    decreases |s|
  {
    if s == "" {
      assert z + s == z;
    } else {
      var front, c := s[..|s| - 1], s[|s| - 1];
      LeadingZeros(z, front);
      ValueSnoc(z + front, c);
      ValueSnoc(front, c);
      assert z + s == z + front + [c];
    }
  }

  lemma PaddedValue(n: nat)
    ensures Value(Padded(n)) == n && ':' !in Padded(n)
  {
    DigitsValue(n);
    if |Digits(n)| < 20 {
      ZerosValue(20 - |Digits(n)|);
      LeadingZeros(Zeros(20 - |Digits(n)|), Digits(n));
    }
  }

  /** Different sequence numbers give different transaction identifiers, and none of them is empty. */
  lemma TxNameInjective(t: TxId, u: TxId)
    requires TxName(t) == TxName(u)
    ensures t == u
    ensures ':' !in TxName(t)
  {
    if t.Tx? && u.Tx? {
      PaddedValue(t.sequence);
      PaddedValue(u.sequence);
      assert Padded(t.sequence) == TxName(t)[3..] == TxName(u)[3..] == Padded(u.sequence);
    }
  }

  lemma EventNameInjective(k: EventKind, l: EventKind)
    requires EventName(k) == EventName(l)
    ensures k == l
  {
    var s, t := EventName(k), EventName(l);
    assert s[0] == t[0] && s[1] == t[1] && s[2] == t[2];
    assert s[3] == t[3];
  }

  /** No two messages share an identifier, so inbox and outbox keys never collide. */
  lemma MessageNameInjective(m: MessageId, n: MessageId)
    requires MessageName(m) == MessageName(n)
    ensures m == n
  {
    ColonSplit(MessageTag(m), MessageBody(m), MessageTag(n), MessageBody(n));
    assert MessageTag(m)[0] == MessageTag(n)[0];
    if m.EventMessage? {
      TxNameInjective(m.tx, m.tx);
      TxNameInjective(n.tx, n.tx);
      ColonSplit(TxName(m.tx), EventName(m.kind), TxName(n.tx), EventName(n.kind));
      TxNameInjective(m.tx, n.tx);
      EventNameInjective(m.kind, n.kind);
    }
  }
}
