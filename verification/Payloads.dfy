/** The documents that are signed or hashed, and their canonical payloads. */
module Payloads {
  import opened Amounts
  import opened Names
  import opened Frames
  import opened Sorting
  import E = Escrow
  import J = Journal

  /** A digest function: fixed length, otherwise unknown. */
  ghost predicate Digest(H: string -> string) {
    forall x :: |H(x)| == 32
  }

  /** The two texts do not collide. */
  ghost predicate Apart(H: string -> string, x: string, y: string) {
    H(x) == H(y) ==> x == y
  }

  const MAX_INT64: nat := 0x7fff_ffff_ffff_ffff

  // ----- amounts as text --------------------------------------------------------------------------

  function Ten(k: nat): (t: nat)
    ensures t > 0
  {
    if k == 0 then 1 else 10 * Ten(k - 1)
  }

  lemma {:induction false} DigitsShort(n: nat, k: nat)
    requires 0 < k && n < Ten(k)
    ensures |Digits(n)| <= k
  {
    if n >= 10 {
      DigitsShort(n / 10, k - 1);
    }
  }

  lemma TenTo38()
    ensures Ten(38) == LIMIT
  {
    assert Ten(8) == 1_0000_0000;
    assert Ten(16) == 1_0000_0000_0000_0000;
    assert Ten(24) == 1_0000_0000_0000_0000_0000_0000;
    assert Ten(32) == 1_0000_0000_0000_0000_0000_0000_0000_0000;
  }

  lemma AmountFramed(amount: int)
    requires 0 < amount && Fits(amount)
    ensures Framed(Text(Digits(amount)))
  {
    hide Digits;
    TenTo38();
    DigitsShort(amount, 38);
    assert Pow(4) == 0x1_0000_0000;
  }

  lemma Widths()
    ensures Pow(2) == 0x1_0000 && Pow(4) == 0x1_0000_0000 && Pow(8) == 0x1_0000_0000_0000_0000
  {
  }

  predicate Bounded(s: string, most: nat) {
    s != "" && |s| <= most
  }

  // ----- escrow certificates and consumption receipts ------------------------------------------------

  const CERTIFICATE_TEXT := 0x10_0000

  predicate ValidCertificate(c: E.Certificate) {
    && Bounded(c.transfer, CERTIFICATE_TEXT) && Bounded(c.holder.account, CERTIFICATE_TEXT)
    && Bounded(c.holder.asset, CERTIFICATE_TEXT)
    && Bounded(c.source, CERTIFICATE_TEXT) && Bounded(c.destination, CERTIFICATE_TEXT) && c.source != c.destination
    && Bounded(c.sourceEntity, CERTIFICATE_TEXT) && Bounded(c.destinationEntity, CERTIFICATE_TEXT)
    && Bounded(c.key, CERTIFICATE_TEXT)
    && 0 < c.amount && Fits(c.amount) && 0 < c.epoch < Pow(8) && 0 < c.keyEpoch < Pow(8)
  }

  function CertificateFields(c: E.Certificate): seq<Field>
    requires c.amount > 0
  {
    [Number(2, 2), Text(c.transfer), Text(c.holder.account), Text(c.holder.asset), Text(c.source), Text(c.destination),
     Text(c.sourceEntity), Text(c.destinationEntity), Text(c.key), Text(Digits(c.amount)), Number(8, c.epoch),
     Number(8, c.keyEpoch)]
  }

  function CertificatePayload(c: E.Certificate): string
    requires c.amount > 0
  {
    Tag(EscrowCertificate) + Encode(CertificateFields(c))
  }

  lemma CertificateFramed(c: E.Certificate)
    requires ValidCertificate(c)
    ensures AllFramed(CertificateFields(c))
  {
    hide Digits;
    Widths();
    AmountFramed(c.amount);
  }

  lemma CertificateInjective(c: E.Certificate, d: E.Certificate)
    requires ValidCertificate(c) && ValidCertificate(d) && Encode(CertificateFields(c)) == Encode(CertificateFields(d))
    ensures c == d
  {
    hide Digits, Encode, Framed, Pow;
    CertificateFramed(c);
    CertificateFramed(d);
    ReadsAll(CertificateFields(c), CertificateFields(d));
    var f, g := CertificateFields(c), CertificateFields(d);
    assert f[1] == g[1] && f[2] == g[2] && f[3] == g[3] && f[4] == g[4] && f[5] == g[5] && f[6] == g[6];
    assert f[7] == g[7] && f[8] == g[8] && f[9] == g[9] && f[10] == g[10] && f[11] == g[11];
    DigitsRead(c.amount, d.amount);
  }

  predicate ValidReceipt(r: E.Receipt) {
    ValidCertificate(r.certificate) && Bounded(r.key, CERTIFICATE_TEXT) && 0 < r.watermark < Pow(8)
    && 0 < r.keyEpoch < Pow(8)
  }

  ghost function ReceiptFields(H: string -> string, r: E.Receipt): seq<Field>
    requires r.certificate.amount > 0
  {
    var c := r.certificate;
    [Number(2, 1), Text(c.transfer), Text(c.holder.account), Text(c.holder.asset), Text(c.source), Text(c.sourceEntity),
     Text(c.destination), Text(c.destinationEntity), Text(r.key), Text(Digits(c.amount)),
     Block(H(CertificatePayload(c))),
     Number(8, c.epoch), Number(8, c.keyEpoch), Number(8, r.watermark), Number(8, r.keyEpoch)]
  }

  lemma ReceiptFramed(H: string -> string, r: E.Receipt)
    requires ValidReceipt(r)
    ensures AllFramed(ReceiptFields(H, r))
  {
    hide Digits, CertificatePayload;
    Widths();
    AmountFramed(r.certificate.amount);
  }

  /** A receipt names its certificate only through its hash, so the two certificates must not collide. */
  lemma ReceiptInjective(H: string -> string, r: E.Receipt, q: E.Receipt)
    requires Digest(H) && ValidReceipt(r) && ValidReceipt(q)
             && Encode(ReceiptFields(H, r)) == Encode(ReceiptFields(H, q))
    requires Apart(H, CertificatePayload(r.certificate), CertificatePayload(q.certificate))
    ensures r == q
  {
    hide Digits, Encode, Framed, Pow, CertificateFields, TagName;
    ReceiptFramed(H, r);
    ReceiptFramed(H, q);
    ReadsAll(ReceiptFields(H, r), ReceiptFields(H, q));
    var f, g := ReceiptFields(H, r), ReceiptFields(H, q);
    assert f[8] == g[8] && f[10] == g[10] && f[13] == g[13] && f[14] == g[14];
    TagsSeparate(EscrowCertificate, Encode(CertificateFields(r.certificate)), EscrowCertificate,
                 Encode(CertificateFields(q.certificate)));
    CertificateInjective(r.certificate, q.certificate);
  }

  // ----- offline documents --------------------------------------------------------------------------------

  const OFFLINE_TEXT := 1024

  datatype Allowance = Allowance(
    id: string, account: string, asset: string, region: string, device: string, counter: nat, amount: int,
    issuerEpoch: nat, key: string)

  predicate ValidAllowance(a: Allowance) {
    && Bounded(a.id, OFFLINE_TEXT) && Bounded(a.account, OFFLINE_TEXT) && Bounded(a.asset, OFFLINE_TEXT)
    && Bounded(a.region, OFFLINE_TEXT)
    && |a.device| == 32 && 0 < a.counter <= MAX_INT64 && 0 < a.amount && Fits(a.amount)
    && 0 < a.issuerEpoch <= MAX_INT64
    && Bounded(a.key, OFFLINE_TEXT)
  }

  function AllowanceFields(a: Allowance): seq<Field>
    requires a.amount > 0
  {
    [Number(2, 1), Text(a.account), Text(a.asset), Text(a.region), Block(a.device), Number(8, a.counter),
     Text(Digits(a.amount)), Number(8, a.issuerEpoch), Text(a.id), Text(a.key)]
  }

  function AllowancePayload(a: Allowance): string
    requires a.amount > 0
  {
    Tag(OfflineAllowance) + Encode(AllowanceFields(a))
  }

  lemma AllowanceFramed(a: Allowance)
    requires ValidAllowance(a)
    ensures AllFramed(AllowanceFields(a))
  {
    hide Digits;
    Widths();
    AmountFramed(a.amount);
  }

  lemma AllowanceInjective(a: Allowance, b: Allowance)
    requires ValidAllowance(a) && ValidAllowance(b) && Encode(AllowanceFields(a)) == Encode(AllowanceFields(b))
    ensures a == b
  {
    hide Digits, Encode, Framed, Pow;
    AllowanceFramed(a);
    AllowanceFramed(b);
    ReadsAll(AllowanceFields(a), AllowanceFields(b));
    var f, g := AllowanceFields(a), AllowanceFields(b);
    assert f[1] == g[1] && f[2] == g[2] && f[3] == g[3] && f[4] == g[4] && f[5] == g[5];
    assert f[6] == g[6] && f[7] == g[7] && f[8] == g[8] && f[9] == g[9];
    DigitsRead(a.amount, b.amount);
  }

  /** The settlement epoch and the upload fence are copied from the allowance. */
  datatype Presentation = Presentation(
    allowance: Allowance, merchant: string, domain: string, challenge: string, counter: nat, deviceKey: string)

  predicate ValidPresentation(p: Presentation) {
    && ValidAllowance(p.allowance) && Bounded(p.merchant, OFFLINE_TEXT) && Bounded(p.domain, OFFLINE_TEXT)
    && |p.challenge| == 32
    && 0 < p.counter <= MAX_INT64 && Bounded(p.deviceKey, OFFLINE_TEXT)
  }

  ghost function PresentationFields(H: string -> string, p: Presentation): seq<Field>
    requires p.allowance.amount > 0
  {
    [Number(2, 1), Block(H(AllowancePayload(p.allowance))), Text(p.merchant), Text(p.domain), Block(p.challenge),
     Number(8, p.allowance.issuerEpoch), Number(8, p.allowance.counter), Number(8, p.counter), Text(p.deviceKey)]
  }

  lemma PresentationInjective(H: string -> string, p: Presentation, q: Presentation)
    requires Digest(H) && ValidPresentation(p) && ValidPresentation(q)
    requires Encode(PresentationFields(H, p)) == Encode(PresentationFields(H, q))
    requires Apart(H, AllowancePayload(p.allowance), AllowancePayload(q.allowance))
    ensures p == q
  {
    hide Digits, Encode, AllowanceFields, TagName;
    var f, g := PresentationFields(H, p), PresentationFields(H, q);
    Widths();
    ReadsAll(f, g);
    assert f[1] == g[1] && f[2] == g[2] && f[3] == g[3] && f[4] == g[4] && f[7] == g[7] && f[8] == g[8];
    TagsSeparate(OfflineAllowance, Encode(AllowanceFields(p.allowance)), OfflineAllowance,
                 Encode(AllowanceFields(q.allowance)));
    AllowanceInjective(p.allowance, q.allowance);
  }

  datatype Closure = Closure(
    domain: string, account: string, asset: string, region: string, device: string, epoch: nat, fence: nat, key: string)

  predicate ValidClosure(c: Closure) {
    && Bounded(c.domain, OFFLINE_TEXT) && Bounded(c.account, OFFLINE_TEXT) && Bounded(c.asset, OFFLINE_TEXT)
    && Bounded(c.region, OFFLINE_TEXT)
    && |c.device| == 32 && 0 < c.epoch <= MAX_INT64 && 0 < c.fence <= MAX_INT64 && Bounded(c.key, OFFLINE_TEXT)
  }

  function ClosureFields(c: Closure): seq<Field> {
    [Number(2, 1), Text(c.domain), Text(c.account), Text(c.asset), Text(c.region), Block(c.device),
     Number(8, c.epoch), Number(8, c.fence), Text(c.key)]
  }

  lemma ClosureInjective(c: Closure, d: Closure)
    requires ValidClosure(c) && ValidClosure(d) && Encode(ClosureFields(c)) == Encode(ClosureFields(d))
    ensures c == d
  {
    hide Encode;
    var f, g := ClosureFields(c), ClosureFields(d);
    Widths();
    ReadsAll(f, g);
    assert f[1] == g[1] && f[2] == g[2] && f[3] == g[3] && f[4] == g[4] && f[5] == g[5] && f[6] == g[6] && f[7] == g[7]
           && f[8] == g[8];
  }

  // ----- audit checkpoints ----------------------------------------------------------------------------------

  datatype Checkpoint = Checkpoint(
    book: string, first: nat, last: nat, leaves: nat, root: string, lastHash: string, previous: Option<string>,
    key: string)

  predicate ValidCheckpoint(c: Checkpoint) {
    && Bounded(c.book, 0xffff_ffff) && 0 < c.first <= c.last <= MAX_INT64 && c.leaves == c.last - c.first + 1
    && |c.root| == 32 && |c.lastHash| == 32 && (c.previous.Some? ==> |c.previous.value| == 32)
    && Bounded(c.key, 0xffff_ffff)
  }

  function CheckpointHead(c: Checkpoint): seq<Field> {
    [Text(c.book), Number(8, c.first), Number(8, c.last), Number(8, c.leaves), Block(c.root), Block(c.lastHash),
     Number(1, if c.previous.Some? then 1 else 0)]
  }

  function CheckpointTail(c: Checkpoint): seq<Field> {
    (if c.previous.Some? then [Block(c.previous.value)] else []) + [Text(c.key)]
  }

  lemma CheckpointInjective(c: Checkpoint, d: Checkpoint)
    requires ValidCheckpoint(c) && ValidCheckpoint(d)
    requires Encode(CheckpointHead(c) + CheckpointTail(c)) == Encode(CheckpointHead(d) + CheckpointTail(d))
    ensures c == d
  {
    hide Encode;
    var f, g := CheckpointHead(c), CheckpointHead(d);
    Widths();
    assert Pow(1) == 256;
    ReadsFirst(f, CheckpointTail(c), g, CheckpointTail(d));
    assert f[0] == g[0] && f[1] == g[1] && f[2] == g[2] && f[3] == g[3] && f[4] == g[4] && f[5] == g[5] && f[6] == g[6];
    CheckpointTailInjective(c, d);
  }

  lemma CheckpointTailInjective(c: Checkpoint, d: Checkpoint)
    requires ValidCheckpoint(c) && ValidCheckpoint(d) && (c.previous.Some? <==> d.previous.Some?)
    requires Encode(CheckpointTail(c)) == Encode(CheckpointTail(d))
    ensures c.previous == d.previous && c.key == d.key
  {
    hide Encode;
    Widths();
    var f, g := CheckpointTail(c), CheckpointTail(d);
    ReadsAll(f, g);
    assert f[|f| - 1] == g[|g| - 1] && f[0] == g[0];
  }

  // ----- ledger entries ------------------------------------------------------------------------------------------

  datatype EntryLine = EntryLine(account: string, asset: string, side: J.Side, amount: int, memo: string)

  /** The hashed part of a posted transaction; metadata is its canonical text. */
  datatype Entry = Entry(
    transaction: string, book: string, operation: string, effect: string, kind: string, reference: Option<string>,
    rule: string, schema: nat, requestHash: string, metadata: string, lines: seq<EntryLine>)

  function SideName(s: J.Side): string {
    if s == J.Debit then "DEBIT" else "CREDIT"
  }

  const LEDGER_TEXT := 512

  predicate ValidLine(l: EntryLine) {
    Bounded(l.account, LEDGER_TEXT) && Bounded(l.asset, LEDGER_TEXT) && 0 < l.amount && Fits(l.amount)
    && |l.memo| < Pow(4)
  }

  /** What the frames of an entry need; the posting rules ask for more. */
  predicate EntryFits(e: Entry) {
    && Bounded(e.transaction, LEDGER_TEXT) && Bounded(e.book, LEDGER_TEXT) && Bounded(e.operation, LEDGER_TEXT)
    && Bounded(e.effect, LEDGER_TEXT)
    && 0 < |e.kind| < Pow(4) && 0 < |e.rule| < Pow(4) && 0 < e.schema <= MAX_INT64
    && (e.reference.Some? ==> Bounded(e.reference.value, LEDGER_TEXT))
    && |e.requestHash| == 32 && |e.metadata| < Pow(4) && |e.lines| < Pow(4)
    && forall i | 0 <= i < |e.lines| :: ValidLine(e.lines[i])
  }

  function EntryHead(previous: string, sequence: nat, e: Entry): seq<Field> {
    [Block(previous), Number(8, sequence), Text(e.transaction), Text(e.book), Text(e.operation), Text(e.effect),
     Text(e.kind),
     Text(e.rule), Number(8, e.schema), Number(1, if e.reference.Some? then 1 else 0)]
  }

  function EntryMiddle(e: Entry): seq<Field> {
    (if e.reference.Some? then [Text(e.reference.value)] else [])
    + [Block(e.requestHash), Text(e.metadata), Number(4, |e.lines|)]
  }

  function LineFields(l: EntryLine, number: nat): seq<Field>
    requires l.amount > 0
  {
    [Number(8, number), Text(l.account), Text(l.asset), Text(SideName(l.side)), Text(l.memo), Text(Digits(l.amount))]
  }

  function LinesFields(lines: seq<EntryLine>, n: nat): seq<Field>
    requires n <= |lines| && forall i | 0 <= i < |lines| :: lines[i].amount > 0
  {
    if n == 0 then [] else LinesFields(lines, n - 1) + LineFields(lines[n - 1], n)
  }

  function EntryFields(previous: string, sequence: nat, e: Entry): seq<Field>
    requires forall i | 0 <= i < |e.lines| :: e.lines[i].amount > 0
  {
    EntryHead(previous, sequence, e) + (EntryMiddle(e) + LinesFields(e.lines, |e.lines|))
  }

  function EntryPayload(previous: string, sequence: nat, e: Entry): string
    requires forall i | 0 <= i < |e.lines| :: e.lines[i].amount > 0
  {
    Tag(LedgerEntry) + Encode(EntryFields(previous, sequence, e))
  }

  lemma LineFramed(l: EntryLine, number: nat)
    requires ValidLine(l) && number < Pow(4)
    ensures AllFramed(LineFields(l, number))
  {
    hide Digits;
    Widths();
    AmountFramed(l.amount);
  }

  lemma LineInjective(l: EntryLine, m: EntryLine, number: nat)
    requires ValidLine(l) && ValidLine(m) && LineFields(l, number) == LineFields(m, number)
    ensures l == m
  {
    hide Digits;
    var f, g := LineFields(l, number), LineFields(m, number);
    assert f[1] == g[1] && f[2] == g[2] && f[3] == g[3] && f[4] == g[4] && f[5] == g[5];
    assert SideName(l.side)[0] == SideName(m.side)[0];
    DigitsRead(l.amount, m.amount);
  }

  ghost predicate ValidLines(lines: seq<EntryLine>) {
    |lines| < Pow(4) && forall i | 0 <= i < |lines| :: ValidLine(lines[i])
  }

  lemma {:induction false} LinesFramed(lines: seq<EntryLine>, n: nat)
    requires ValidLines(lines) && n <= |lines|
    ensures AllFramed(LinesFields(lines, n)) && |LinesFields(lines, n)| == 6 * n
  {
    hide LineFields;
    if n > 0 {
      LinesFramed(lines, n - 1);
      LineFramed(lines[n - 1], n);
      assert |LineFields(lines[n - 1], n)| == 6 by { LineLength(lines[n - 1], n); }
    }
  }

  lemma LineLength(l: EntryLine, number: nat)
    requires l.amount > 0
    ensures |LineFields(l, number)| == 6
  {
  }

  lemma LineShape(l: EntryLine, m: EntryLine, number: nat)
    requires l.amount > 0 && m.amount > 0
    ensures SameShape(LineFields(l, number), LineFields(m, number))
  {
  }

  lemma {:induction false} LinesInjective(lines: seq<EntryLine>, others: seq<EntryLine>, n: nat)
    requires ValidLines(lines) && ValidLines(others) && n <= |lines| && n <= |others|
    requires Encode(LinesFields(lines, n)) == Encode(LinesFields(others, n))
    ensures lines[..n] == others[..n]
  {
    hide Encode, LineFields;
    LinesFramed(lines, n);
    LinesFramed(others, n);
    LinesShape(lines, others, n);
    ReadsAll(LinesFields(lines, n), LinesFields(others, n));
    LinesEqual(lines, others, n);
  }

  lemma {:induction false} LinesShape(lines: seq<EntryLine>, others: seq<EntryLine>, n: nat)
    requires ValidLines(lines) && ValidLines(others) && n <= |lines| && n <= |others|
    ensures SameShape(LinesFields(lines, n), LinesFields(others, n))
  {
    hide LineFields;
    if n > 0 {
      LinesShape(lines, others, n - 1);
      LineShape(lines[n - 1], others[n - 1], n);
    }
  }

  lemma {:induction false} LinesEqual(lines: seq<EntryLine>, others: seq<EntryLine>, n: nat)
    requires ValidLines(lines) && ValidLines(others) && n <= |lines| && n <= |others|
    requires LinesFields(lines, n) == LinesFields(others, n)
    ensures lines[..n] == others[..n]
  {
    hide LineFields;
    if n > 0 {
      LinesFramed(lines, n);
      LinesFramed(others, n);
      LinesFramed(lines, n - 1);
      LinesFramed(others, n - 1);
      var f, g := LinesFields(lines, n), LinesFields(others, n);
      assert f[..6 * (n - 1)] == LinesFields(lines, n - 1) && g[..6 * (n - 1)] == LinesFields(others, n - 1);
      assert f[6 * (n - 1)..] == LineFields(lines[n - 1], n) && g[6 * (n - 1)..] == LineFields(others[n - 1], n);
      LineInjective(lines[n - 1], others[n - 1], n);
      LinesEqual(lines, others, n - 1);
      assert lines[..n] == lines[..n - 1] + [lines[n - 1]] && others[..n] == others[..n - 1] + [others[n - 1]];
    }
  }

  lemma EntryHeadFramed(previous: string, sequence: nat, e: Entry)
    requires EntryFits(e) && sequence <= MAX_INT64
    ensures AllFramed(EntryHead(previous, sequence, e)) && AllFramed(EntryMiddle(e))
  {
    hide ValidLine;
    Widths();
    assert Pow(1) == 256;
  }

  lemma EntryHeadInjective(previous: string, sequence: nat, e: Entry, previous': string, sequence': nat, e': Entry)
    requires |previous| == |previous'| && EntryHead(previous, sequence, e) == EntryHead(previous', sequence', e')
    ensures previous == previous' && sequence == sequence' && e.transaction == e'.transaction && e.book == e'.book
    ensures e.operation == e'.operation && e.effect == e'.effect && e.kind == e'.kind && e.rule == e'.rule
            && e.schema == e'.schema
    ensures e.reference.Some? <==> e'.reference.Some?
  {
    var f, g := EntryHead(previous, sequence, e), EntryHead(previous', sequence', e');
    assert f[0] == g[0] && f[1] == g[1] && f[2] == g[2] && f[3] == g[3] && f[4] == g[4];
    assert f[5] == g[5] && f[6] == g[6] && f[7] == g[7] && f[8] == g[8] && f[9] == g[9];
  }

  lemma EntryMiddleInjective(e: Entry, e': Entry)
    requires EntryMiddle(e) == EntryMiddle(e') && (e.reference.Some? <==> e'.reference.Some?)
    ensures e.reference == e'.reference && e.requestHash == e'.requestHash && e.metadata == e'.metadata
            && |e.lines| == |e'.lines|
  {
    var f, g := EntryMiddle(e), EntryMiddle(e');
    assert f[0] == g[0] && f[|f| - 1] == g[|g| - 1] && f[|f| - 2] == g[|g| - 2] && f[|f| - 3] == g[|g| - 3];
  }

  /** One payload belongs to one entry at one place of one chain. */
  lemma EntryInjective(previous: string, sequence: nat, e: Entry, previous': string, sequence': nat, e': Entry)
    requires |previous| == 32 && |previous'| == 32 && sequence <= MAX_INT64 && sequence' <= MAX_INT64 && EntryFits(e)
             && EntryFits(e')
    requires Encode(EntryFields(previous, sequence, e)) == Encode(EntryFields(previous', sequence', e'))
    ensures previous == previous' && sequence == sequence' && e == e'
  {
    hide Encode, LinesFields, Framed, KindOf, Pow;
    EntryHeadFramed(previous, sequence, e);
    EntryHeadFramed(previous', sequence', e');
    HeadShape(previous, sequence, e, previous', sequence', e');
    ReadsFirst(EntryHead(previous, sequence, e), EntryMiddle(e) + LinesFields(e.lines, |e.lines|),
               EntryHead(previous', sequence', e'), EntryMiddle(e') + LinesFields(e'.lines, |e'.lines|));
    EntryHeadInjective(previous, sequence, e, previous', sequence', e');
    MiddleShape(e, e');
    ReadsFirst(EntryMiddle(e), LinesFields(e.lines, |e.lines|), EntryMiddle(e'), LinesFields(e'.lines, |e'.lines|));
    EntryMiddleInjective(e, e');
    LinesInjective(e.lines, e'.lines, |e.lines|);
    assert e.lines[..|e.lines|] == e.lines && e'.lines[..|e.lines|] == e'.lines;
  }

  lemma HeadShape(previous: string, sequence: nat, e: Entry, previous': string, sequence': nat, e': Entry)
    requires |previous| == |previous'|
    ensures SameShape(EntryHead(previous, sequence, e), EntryHead(previous', sequence', e'))
  {
  }

  lemma MiddleShape(e: Entry, e': Entry)
    requires |e.requestHash| == |e'.requestHash| && (e.reference.Some? <==> e'.reference.Some?)
    ensures SameShape(EntryMiddle(e), EntryMiddle(e'))
  {
  }

  // ----- all documents ---------------------------------------------------------------------------------------------

  datatype Document =
    | EntryDocument(previous: string, sequence: nat, entry: Entry)
    | CheckpointDocument(checkpoint: Checkpoint)
    | CertificateDocument(certificate: E.Certificate)
    | ReceiptDocument(receipt: E.Receipt)
    | AllowanceDocument(allowance: Allowance)
    | PresentationDocument(presentation: Presentation)
    | ClosureDocument(closure: Closure)

  predicate Valid(d: Document) {
    match d
    case EntryDocument(previous, sequence, e) => |previous| == 32 && 0 < sequence <= MAX_INT64 && EntryFits(e)
    case CheckpointDocument(c) => ValidCheckpoint(c)
    case CertificateDocument(c) => ValidCertificate(c)
    case ReceiptDocument(r) => ValidReceipt(r)
    case AllowanceDocument(a) => ValidAllowance(a)
    case PresentationDocument(p) => ValidPresentation(p)
    case ClosureDocument(c) => ValidClosure(c)
  }

  function DomainOf(d: Document): Domain {
    match d
    case EntryDocument(_, _, _) => LedgerEntry
    case CheckpointDocument(_) => AuditCheckpoint
    case CertificateDocument(_) => EscrowCertificate
    case ReceiptDocument(_) => ConsumptionReceipt
    case AllowanceDocument(_) => OfflineAllowance
    case PresentationDocument(_) => OfflinePresentation
    case ClosureDocument(_) => OfflineClosure
  }

  ghost function Fields(H: string -> string, d: Document): seq<Field>
    requires Valid(d)
  {
    match d
    case EntryDocument(previous, sequence, e) => EntryFields(previous, sequence, e)
    case CheckpointDocument(c) => CheckpointHead(c) + CheckpointTail(c)
    case CertificateDocument(c) => CertificateFields(c)
    case ReceiptDocument(r) => ReceiptFields(H, r)
    case AllowanceDocument(a) => AllowanceFields(a)
    case PresentationDocument(p) => PresentationFields(H, p)
    case ClosureDocument(c) => ClosureFields(c)
  }

  ghost function Payload(H: string -> string, d: Document): string
    requires Valid(d)
  {
    Tag(DomainOf(d)) + Encode(Fields(H, d))
  }

  /** The documents a payload names only by hash do not collide. */
  ghost predicate InnerApart(H: string -> string, d: Document, e: Document)
    requires Valid(d) && Valid(e)
  {
    && (d.ReceiptDocument? && e.ReceiptDocument? ==>
          Apart(H, CertificatePayload(d.receipt.certificate), CertificatePayload(e.receipt.certificate)))
    && (d.PresentationDocument? && e.PresentationDocument? ==>
          Apart(H, AllowancePayload(d.presentation.allowance), AllowancePayload(e.presentation.allowance)))
  }

  /** Equal payloads are payloads of the same document, of any kind. */
  lemma PayloadsInjective(H: string -> string, d: Document, e: Document)
    requires Digest(H) && Valid(d) && Valid(e) && InnerApart(H, d, e) && Payload(H, d) == Payload(H, e)
    ensures d == e
  {
    hide Encode, TagName, ValidCertificate, ValidReceipt, ValidAllowance, ValidPresentation, ValidClosure,
         ValidCheckpoint, EntryFits, EntryFields, CertificateFields, ReceiptFields, AllowanceFields,
         PresentationFields, ClosureFields, CheckpointHead, CheckpointTail, CertificatePayload, AllowancePayload,
         Digest;
    TagsSeparate(DomainOf(d), Encode(Fields(H, d)), DomainOf(e), Encode(Fields(H, e)));
    match d
    case EntryDocument(previous, sequence, entry) =>
      EntryInjective(previous, sequence, entry, e.previous, e.sequence, e.entry);
    case CheckpointDocument(c) => CheckpointInjective(c, e.checkpoint);
    case CertificateDocument(c) => CertificateInjective(c, e.certificate);
    case ReceiptDocument(r) => ReceiptInjective(H, r, e.receipt);
    case AllowanceDocument(a) => AllowanceInjective(a, e.allowance);
    case PresentationDocument(p) => PresentationInjective(H, p, e.presentation);
    case ClosureDocument(c) => ClosureInjective(c, e.closure);
  }
}
