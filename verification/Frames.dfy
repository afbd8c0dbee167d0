/**
 * Canonical byte payloads: big-endian numbers, fixed blocks and length-prefixed text. A character stands for one byte.
 */
module Frames {
  import opened Amounts
  import opened Names

  /** 256 to the power w. */
  function Pow(w: nat): (p: nat)
    ensures p > 0
  {
    if w == 0 then 1 else 256 * Pow(w - 1)
  }

  function BigEndian(v: nat, w: nat): (s: string)
    ensures |s| == w
  {
    if w == 0 then "" else BigEndian(v / 256, w - 1) + [(v % 256) as char]
  }

  lemma {:induction false} BigEndianInjective(v: nat, u: nat, w: nat)
    requires v < Pow(w) && u < Pow(w) && BigEndian(v, w) == BigEndian(u, w)
    ensures v == u
  {
    if w > 0 {
      var a, b := BigEndian(v, w), BigEndian(u, w);
      assert a[..w - 1] == BigEndian(v / 256, w - 1) && b[..w - 1] == BigEndian(u / 256, w - 1);
      assert a[w - 1] == (v % 256) as char && b[w - 1] == (u % 256) as char;
      BigEndianInjective(v / 256, u / 256, w - 1);
    }
  }

  /** One field of a payload. */
  datatype Field =
    | Block(bytes: string)
    | Number(width: nat, value: nat)
    | Text(text: string)

  /** What a reader knows of a field before reading it. */
  datatype Kind = BlockKind(length: nat) | NumberKind(width: nat) | TextKind

  function KindOf(f: Field): Kind {
    match f
    case Block(b) => BlockKind(|b|)
    case Number(w, _) => NumberKind(w)
    case Text(_) => TextKind
  }

  /** A field that its frame can hold. */
  predicate Framed(f: Field) {
    match f
    case Block(_) => true
    case Number(w, v) => v < Pow(w)
    case Text(t) => |t| < Pow(4)
  }

  function EncodeField(f: Field): string {
    match f
    case Block(b) => b
    case Number(w, v) => BigEndian(v, w)
    case Text(t) => BigEndian(|t|, 4) + t
  }

  function Encode(fields: seq<Field>): string {
    if fields == [] then "" else EncodeField(fields[0]) + Encode(fields[1..])
  }

  ghost predicate AllFramed(fields: seq<Field>) {
    forall i | 0 <= i < |fields| :: Framed(fields[i])
  }

  ghost predicate SameShape(a: seq<Field>, b: seq<Field>) {
    |a| == |b| && forall i | 0 <= i < |a| :: KindOf(a[i]) == KindOf(b[i])
  }

  lemma CutAt(a: string, r: string, b: string, s: string)
    requires a + r == b + s && |a| == |b|
    ensures a == b && r == s
  {
    assert a == (a + r)[..|a|] && b == (b + s)[..|b|];
    assert r == (a + r)[|a|..] && s == (b + s)[|b|..];
  }

  /** A field followed by anything is read back, and so is what follows it. */
  lemma FieldReads(f: Field, g: Field, r: string, s: string)
    requires KindOf(f) == KindOf(g) && Framed(f) && Framed(g) && EncodeField(f) + r == EncodeField(g) + s
    ensures f == g && r == s
  {
    hide Pow, BigEndian;
    match f
    case Block(b) =>
      CutAt(f.bytes, r, g.bytes, s);
    case Number(w, v) =>
      CutAt(BigEndian(v, w), r, BigEndian(g.value, w), s);
      BigEndianInjective(v, g.value, w);
    case Text(t) =>
      assert BigEndian(|t|, 4) + (t + r) == EncodeField(f) + r;
      assert BigEndian(|g.text|, 4) + (g.text + s) == EncodeField(g) + s;
      CutAt(BigEndian(|t|, 4), t + r, BigEndian(|g.text|, 4), g.text + s);
      BigEndianInjective(|t|, |g.text|, 4);
      CutAt(t, r, g.text, s);
  }

  /** Fields of one shape are read back exactly, whatever follows them. */
  lemma {:induction false} Reads(a: seq<Field>, b: seq<Field>, r: string, s: string)
    requires SameShape(a, b) && AllFramed(a) && AllFramed(b) && Encode(a) + r == Encode(b) + s
    ensures a == b && r == s
    decreases |a|
  {
    hide Framed, EncodeField;
    if a == [] {
      assert Encode(a) + r == r && Encode(b) + s == s;
    } else {
      assert EncodeField(a[0]) + (Encode(a[1..]) + r) == Encode(a) + r;
      assert EncodeField(b[0]) + (Encode(b[1..]) + s) == Encode(b) + s;
      FieldReads(a[0], b[0], Encode(a[1..]) + r, Encode(b[1..]) + s);
      Reads(a[1..], b[1..], r, s);
      assert a == [a[0]] + a[1..] && b == [b[0]] + b[1..];
    }
  }

  lemma {:induction false} EncodeAppend(a: seq<Field>, b: seq<Field>)
    ensures Encode(a + b) == Encode(a) + Encode(b)
    decreases |a|
  {
    hide EncodeField;
    if a == [] {
      assert a + b == b;
    } else {
      EncodeAppend(a[1..], b);
      assert (a + b)[1..] == a[1..] + b;
    }
  }

  /** A shape that is known only once a first part is read: the first parts agree, and so do the rest as bytes. */
  lemma ReadsFirst(a: seq<Field>, more: seq<Field>, b: seq<Field>, rest: seq<Field>)
    requires SameShape(a, b) && AllFramed(a) && AllFramed(b) && Encode(a + more) == Encode(b + rest)
    ensures a == b && Encode(more) == Encode(rest)
  {
    EncodeAppend(a, more);
    EncodeAppend(b, rest);
    Reads(a, b, Encode(more), Encode(rest));
  }

  lemma ReadsAll(a: seq<Field>, b: seq<Field>)
    requires SameShape(a, b) && AllFramed(a) && AllFramed(b) && Encode(a) == Encode(b)
    ensures a == b
  {
    assert Encode(a) + "" == Encode(b) + "";
    Reads(a, b, "", "");
  }

  // ----- decimal amounts ---------------------------------------------------------------------------

  lemma DigitsRead(n: nat, m: nat)
    requires Digits(n) == Digits(m)
    ensures n == m
  {
    DigitsValue(n);
    DigitsValue(m);
  }

  // ----- domain tags ----------------------------------------------------------------------------------

  datatype Domain =
    | LedgerEntry | AuditCheckpoint | EscrowCertificate | ConsumptionReceipt
    | OfflineAllowance | OfflinePresentation | OfflineClosure
    | RedemptionEffect | NonRedemptionProof | PresentationEnvelope | ClosureEvidence | ClosureSet
    | MerkleNode | MerkleEmpty | LedgerGenesis

  function Suffix(d: Domain): string {
    match d
    case LedgerEntry => "ledger-entry/v1"
    case AuditCheckpoint => "audit-checkpoint/v1"
    case EscrowCertificate => "escrow-certificate/v2"
    case ConsumptionReceipt => "escrow-consumption-receipt/v1"
    case OfflineAllowance => "offline-allowance/v1"
    case OfflinePresentation => "offline-presentation/v1"
    case OfflineClosure => "offline-acceptance-domain-closure/v1"
    case RedemptionEffect => "offline-redemption-effect/v1"
    case NonRedemptionProof => "offline-non-redemption-proof/v1"
    case PresentationEnvelope => "offline-presentation-envelope/v1"
    case ClosureEvidence => "offline-closure-evidence/v1"
    case ClosureSet => "offline-closure-set/v1"
    case MerkleNode => "merkle-node/v1"
    case MerkleEmpty => "merkle-empty/v1"
    case LedgerGenesis => "ledger-genesis/v1"
  }

  function TagName(d: Domain): string {
    "payment-platform/" + Suffix(d)
  }

  function Tag(d: Domain): string {
    TagName(d) + ['\0']
  }

  function Length(d: Domain): nat {
    match d
    case LedgerEntry => 15
    case AuditCheckpoint => 19
    case EscrowCertificate => 21
    case ConsumptionReceipt => 29
    case OfflineAllowance => 20
    case OfflinePresentation => 23
    case OfflineClosure => 36
    case RedemptionEffect => 28
    case NonRedemptionProof => 31
    case PresentationEnvelope => 32
    case ClosureEvidence => 27
    case ClosureSet => 22
    case MerkleNode => 14
    case MerkleEmpty => 15
    case LedgerGenesis => 17
  }

  lemma LedgerSuffix(d: Domain)
    requires d.LedgerEntry? || d.AuditCheckpoint? || d.EscrowCertificate? || d.ConsumptionReceipt?
    ensures '\0' !in Suffix(d) && |Suffix(d)| == Length(d)
  {
    match d
    case LedgerEntry =>
    case AuditCheckpoint =>
    case EscrowCertificate =>
    case ConsumptionReceipt =>
  }

  lemma OfflineSuffix(d: Domain)
    requires d.OfflineAllowance? || d.OfflinePresentation? || d.OfflineClosure? || d.RedemptionEffect?
    ensures '\0' !in Suffix(d) && |Suffix(d)| == Length(d)
  {
    match d
    case OfflineAllowance =>
    case OfflinePresentation =>
    case OfflineClosure =>
    case RedemptionEffect =>
  }

  lemma EvidenceSuffix(d: Domain)
    requires d.NonRedemptionProof? || d.PresentationEnvelope? || d.ClosureEvidence? || d.ClosureSet?
    ensures '\0' !in Suffix(d) && |Suffix(d)| == Length(d)
  {
    match d
    case NonRedemptionProof =>
    case PresentationEnvelope =>
    case ClosureEvidence =>
    case ClosureSet =>
  }

  lemma HashSuffix(d: Domain)
    requires d.MerkleNode? || d.MerkleEmpty? || d.LedgerGenesis?
    ensures '\0' !in Suffix(d) && |Suffix(d)| == Length(d)
  {
    match d
    case MerkleNode =>
    case MerkleEmpty =>
    case LedgerGenesis =>
  }

  lemma SuffixShape(d: Domain)
    ensures '\0' !in Suffix(d) && |Suffix(d)| == Length(d)
  {
    hide Suffix, Length;
    if d.LedgerEntry? || d.AuditCheckpoint? || d.EscrowCertificate? || d.ConsumptionReceipt? {
      LedgerSuffix(d);
    } else if d.OfflineAllowance? || d.OfflinePresentation? || d.OfflineClosure? || d.RedemptionEffect? {
      OfflineSuffix(d);
    } else if d.NonRedemptionProof? || d.PresentationEnvelope? || d.ClosureEvidence? || d.ClosureSet? {
      EvidenceSuffix(d);
    } else {
      HashSuffix(d);
    }
  }

  lemma NoZero(d: Domain)
    ensures '\0' !in TagName(d)
  {
    hide Suffix;
    SuffixShape(d);
  }

  /** Lengths tell all tags apart but two, and those differ in their first letter. */
  lemma TagsDiffer(d: Domain, e: Domain)
    requires TagName(d) == TagName(e)
    ensures d == e
  {
    hide Suffix;
    SuffixShape(d);
    SuffixShape(e);
    assert Suffix(d) == TagName(d)[17..] && Suffix(e) == TagName(e)[17..];
    EntryIsNotEmpty();
  }

  lemma EntryIsNotEmpty()
    ensures Suffix(LedgerEntry) != Suffix(MerkleEmpty)
  {
    assert Suffix(LedgerEntry)[0] != Suffix(MerkleEmpty)[0];
  }

  /** Two texts cut at their first zero byte agree exactly when both parts agree. */
  lemma ZeroCut(a: string, x: string, b: string, y: string)
    requires '\0' !in a && '\0' !in b && a + ['\0'] + x == b + ['\0'] + y
    ensures a == b && x == y
  {
    var left, right := a + ['\0'] + x, b + ['\0'] + y;
    assert left[|a|] == '\0' && right[|b|] == '\0';
    assert forall i | 0 <= i < |a| :: left[i] == a[i] != '\0';
    assert forall i | 0 <= i < |b| :: right[i] == b[i] != '\0';
    assert a == left[..|a|] == right[..|b|] == b;
    assert x == left[|a| + 1..] == right[|b| + 1..] == y;
  }

  /** No payload of one domain is a payload of another: each tag ends at its only zero byte. */
  lemma TagsSeparate(d: Domain, x: string, e: Domain, y: string)
    requires Tag(d) + x == Tag(e) + y
    ensures d == e && x == y
  {
    hide TagName;
    NoZero(d);
    NoZero(e);
    ZeroCut(TagName(d), x, TagName(e), y);
    TagsDiffer(d, e);
  }
}
