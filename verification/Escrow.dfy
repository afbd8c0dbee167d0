/** Regional spending authority in one database: effects, and the source and destination halves of a hand-off. */
module Escrow {
  import opened Amounts
  import opened Totals

  datatype Holder = Holder(account: string, asset: string)

  datatype EffectKind = Allocate | Spend | Return

  datatype EffectRequest = EffectRequest(id: string, holder: Holder, region: string, amount: int)

  datatype Right = Right(available: int, version: nat)

  /** The authority row of one holder with the regional rows that refer to it. */
  datatype Book = Book(total: int, unallocated: int, version: nat, rights: map<string, Right>)

  datatype TransferRequest = TransferRequest(
    transfer: string, holder: Holder, source: string, destination: string,
    sourceEntity: string, destinationEntity: string, amount: int)

  /** Key metadata that a signer is bound to. */
  datatype Binding = Binding(key: string, region: string, entity: string, epoch: nat)

  /** The signed payload of a transfer; a signature is modelled apart from it. */
  datatype Certificate = Certificate(
    transfer: string, holder: Holder, source: string, destination: string,
    sourceEntity: string, destinationEntity: string, amount: int, epoch: nat, key: string, keyEpoch: nat)

  /** The signed payload of a consumption; the certificate stands for its hash and the fields copied from it. */
  datatype Receipt = Receipt(certificate: Certificate, watermark: nat, key: string, keyEpoch: nat)

  datatype TransferRow = TransferRow(certificate: Certificate, signed: bool, acknowledged: Option<Receipt>)

  datatype ConsumedRow = ConsumedRow(receipt: Receipt, signed: bool)

  datatype EffectRow = EffectRow(kind: EffectKind, request: EffectRequest)

  datatype Database = Database(
    books: map<Holder, Book>, effects: map<string, EffectRow>, transfers: map<string, TransferRow>,
    consumed: map<string, ConsumedRow>, watermarks: map<string, nat>)

  datatype Error =
    | ErrInvalidArgument | ErrInsufficientRights | ErrAuthorityConflict | ErrEffectConflict
    | ErrCertificateInvalid | ErrCertificateConflict | ErrReceiptInvalid | ErrProofMissing
    | ErrInconsistent  // the authority row disagrees with the rows that refer to it
    | ErrOutOfRange    // a column would overflow, so the transaction aborts

  const MAX_INT64: nat := 0x7fff_ffff_ffff_ffff

  // ----- one authority -------------------------------------------------------------

  ghost function AvailableOf(rights: map<string, Right>): map<string, int> {
    map r | r in rights :: rights[r].available
  }

  /** What the holder may still spend or allocate here. */
  ghost function Spendable(b: Book): int {
    b.unallocated + Total(AvailableOf(b.rights))
  }

  /** What of one holder is in transit according to the rows of this database. */
  ghost function MovingOf(transfers: map<string, TransferRow>, h: Holder): map<string, int> {
    map id | id in transfers ::
      if transfers[id].certificate.holder == h && transfers[id].acknowledged.None? then transfers[id].certificate.amount
      else 0
  }

  ghost predicate BookConserved(b: Book, moving: int) {
    && b.unallocated >= 0 && (forall r | r in b.rights :: b.rights[r].available >= 0)
    && b.total == Spendable(b) + moving
  }

  ghost predicate Conserved(db: Database) {
    forall h | h in db.books :: BookConserved(db.books[h], Total(MovingOf(db.transfers, h)))
  }

  function Credit(b: Book, region: string, amount: int): Book {
    b.(rights := b.rights[region := if region in b.rights
                                    then Right(b.rights[region].available + amount, b.rights[region].version + 1)
                                    else Right(amount, 0)])
  }

  /** A regional row can take the amount without leaving the range of its columns. */
  predicate RightHasRoom(b: Book, region: string, amount: int) {
    region in b.rights ==> Fits(b.rights[region].available + amount) && b.rights[region].version < MAX_INT64
  }

  // ----- authorities and effects ------------------------------------------------------

  function CreateAuthority(db: Database, h: Holder, total: int): (Database, Option<Error>) {
    if h.account == "" || h.asset == "" || total < 0 then (db, Some(ErrInvalidArgument))
    else if h in db.books then (db, if db.books[h].total != total then Some(ErrAuthorityConflict) else None)
    else (db.(books := db.books[h := Book(total, total, 0, map[])]), None)
  }

  predicate ValidEffect(q: EffectRequest) {
    && q.id != "" && |q.id| <= 512 && q.holder.account != "" && q.holder.asset != "" && q.region != "" && q.amount > 0
  }

  /** What one effect does to its authority, or why it aborts. */
  function Mutated(b: Book, kind: EffectKind, region: string, amount: int): (Book, Option<Error>) {
    match kind
    case Allocate =>
      if b.unallocated < amount then (b, Some(ErrInsufficientRights))
      else if !RightHasRoom(b, region, amount) || b.version >= MAX_INT64 then (b, Some(ErrOutOfRange))
      else (Credit(b, region, amount).(unallocated := b.unallocated - amount, version := b.version + 1), None)
    case Spend =>
      if region !in b.rights || b.rights[region].available < amount then (b, Some(ErrInsufficientRights))
      else if b.rights[region].version >= MAX_INT64 || b.version >= MAX_INT64 then (b, Some(ErrOutOfRange))
      else if b.total < amount || b.total - amount < b.unallocated then (b, Some(ErrInconsistent))
      else (Credit(b, region, -amount).(total := b.total - amount, version := b.version + 1), None)
    case Return =>
      if region !in b.rights then (b, Some(ErrInvalidArgument))
      else if !RightHasRoom(b, region, amount) || !Fits(b.total + amount) || b.version >= MAX_INT64
      then (b, Some(ErrOutOfRange))
      else (Credit(b, region, amount).(total := b.total + amount, version := b.version + 1), None)
  }

  /** One effect under its permanent receipt: the answer, and whether it was given before. */
  function ApplyEffect(db: Database, kind: EffectKind, q: EffectRequest): (Database, bool, Option<Error>) {
    if !ValidEffect(q) then (db, false, Some(ErrInvalidArgument))
    else if q.id in db.effects then
      if db.effects[q.id] != EffectRow(kind, q) then (db, false, Some(ErrEffectConflict)) else (db, true, None)
    else if q.holder !in db.books
    then (db, false, Some(if kind == Return then ErrInvalidArgument else ErrInsufficientRights))
    else
      var (b, error) := Mutated(db.books[q.holder], kind, q.region, q.amount);
      if error.Some? then (db, false, error)
      else (db.(books := db.books[q.holder := b], effects := db.effects[q.id := EffectRow(kind, q)]), false, None)
  }

  // ----- the source half ----------------------------------------------------------------

  predicate ValidTransfer(q: TransferRequest) {
    && q.transfer != "" && q.holder.account != "" && q.holder.asset != "" && q.source != "" && q.destination != ""
    && q.source != q.destination && q.sourceEntity != "" && q.destinationEntity != "" && q.amount > 0
  }

  predicate ValidBinding(b: Binding) {
    b.key != "" && b.region != "" && b.entity != "" && b.epoch > 0
  }

  predicate SameTransfer(c: Certificate, q: TransferRequest) {
    && c.transfer == q.transfer && c.holder == q.holder && c.source == q.source && c.destination == q.destination
    && c.sourceEntity == q.sourceEntity && c.destinationEntity == q.destinationEntity && c.amount == q.amount
  }

  function DraftOf(q: TransferRequest, epoch: nat, b: Binding): Certificate {
    Certificate(q.transfer, q.holder, q.source, q.destination, q.sourceEntity, q.destinationEntity, q.amount, epoch,
                b.key, b.epoch)
  }

  /** The first transaction of a hand-off: reserve the issuance number and move the rights into transit. */
  function Draft(db: Database, q: TransferRequest, b: Binding): (Database, Option<Certificate>, Option<Error>) {
    if !ValidTransfer(q) then (db, None, Some(ErrInvalidArgument))
    else if !ValidBinding(b) || b.region != q.source || b.entity != q.sourceEntity
    then (db, None, Some(ErrCertificateInvalid))
    else if q.transfer in db.transfers then
      var c := db.transfers[q.transfer].certificate;
      if SameTransfer(c, q) then (db, Some(c), None) else (db, None, Some(ErrCertificateConflict))
    else if q.holder !in db.books || q.source !in db.books[q.holder].rights then (db, None, Some(ErrInsufficientRights))
    else
      var right := db.books[q.holder].rights[q.source];
      if right.available < q.amount || right.version == MAX_INT64 then (db, None, Some(ErrInsufficientRights))
      else
        var c := DraftOf(q, right.version + 1, b);
        (AfterDraft(db, c), Some(c), None)
  }

  function AfterDraft(db: Database, c: Certificate): Database
    requires c.holder in db.books && c.source in db.books[c.holder].rights
  {
    db.(books := db.books[c.holder := Credit(db.books[c.holder], c.source, -c.amount)],
        transfers := db.transfers[c.transfer := TransferRow(c, false, None)])
  }

  /** The second transaction: attach the signature made after the draft committed. */
  function AttachCertificate(db: Database, c: Certificate): (Database, Option<Error>) {
    if c.transfer !in db.transfers || db.transfers[c.transfer].certificate != c then (db, Some(ErrCertificateConflict))
    else (db.(transfers := db.transfers[c.transfer := db.transfers[c.transfer].(signed := true)]), None)
  }

  /** Settles the source with the destination's signed receipt alone. */
  function Acknowledge(db: Database, c: Certificate, r: Receipt): (Database, Option<Error>) {
    if r.certificate != c then (db, Some(ErrReceiptInvalid))
    else if c.transfer !in db.transfers then (db, Some(ErrProofMissing))
    else
      var row := db.transfers[c.transfer];
      if row.certificate != c || !row.signed then (db, Some(ErrCertificateConflict))
      else if row.acknowledged.Some?
      then (db, if row.acknowledged.value == r then None else Some(ErrCertificateConflict))
      else if c.holder !in db.books || db.books[c.holder].total < c.amount
              || db.books[c.holder].total - c.amount < db.books[c.holder].unallocated then (db, Some(ErrInconsistent))
      else if db.books[c.holder].version >= MAX_INT64 then (db, Some(ErrOutOfRange))
      else (AfterAcknowledge(db, c, r), None)
  }

  function AfterAcknowledge(db: Database, c: Certificate, r: Receipt): Database
    requires c.transfer in db.transfers && c.holder in db.books
  {
    var b := db.books[c.holder];
    db.(books := db.books[c.holder := b.(total := b.total - c.amount, version := b.version + 1)],
        transfers := db.transfers[c.transfer := db.transfers[c.transfer].(acknowledged := Some(r))])
  }

  // ----- the destination half --------------------------------------------------------------

  /** The issuance a certificate claims: one number of one source key epoch for one holder. */
  predicate SameIssuance(a: Certificate, c: Certificate) {
    && a.sourceEntity == c.sourceEntity && a.source == c.source && a.keyEpoch == c.keyEpoch
    && a.holder == c.holder && a.epoch == c.epoch
  }

  predicate IssuanceUsed(consumed: map<string, ConsumedRow>, c: Certificate) {
    exists id | id in consumed :: SameIssuance(consumed[id].receipt.certificate, c)
  }

  /** What the destination's own rows must allow before rights arrive. */
  predicate ArrivalHasRoom(db: Database, c: Certificate) {
    c.holder in db.books ==>
      && Fits(db.books[c.holder].total + c.amount) && db.books[c.holder].version < MAX_INT64
      && RightHasRoom(db.books[c.holder], c.destination, c.amount)
  }

  /** The first destination transaction: rights, receipt draft and watermark in one commit. */
  function Consume(db: Database, c: Certificate, b: Binding): (Database, bool, Option<Error>) {
    if !ValidBinding(b) || b.region != c.destination || b.entity != c.destinationEntity
    then (db, false, Some(ErrReceiptInvalid))
    else if c.transfer in db.consumed then
      if db.consumed[c.transfer].receipt.certificate == c then (db, true, None)
      else (db, false, Some(ErrCertificateConflict))
    else if IssuanceUsed(db.consumed, c) then (db, false, Some(ErrCertificateConflict))
    else if Watermark(db, b.entity) >= MAX_INT64 then (db, false, Some(ErrReceiptInvalid))
    else if !ArrivalHasRoom(db, c) then (db, false, Some(ErrOutOfRange))
    else (AfterConsume(db, c, b), false, None)
  }

  function Watermark(db: Database, entity: string): nat {
    if entity in db.watermarks then db.watermarks[entity] else 0
  }

  function Arrived(db: Database, c: Certificate): Book {
    if c.holder in db.books
    then Credit(db.books[c.holder], c.destination, c.amount).(total := db.books[c.holder].total + c.amount,
                                                              version := db.books[c.holder].version + 1)
    else Book(c.amount, 0, 0, map[c.destination := Right(c.amount, 0)])
  }

  function AfterConsume(db: Database, c: Certificate, b: Binding): Database {
    var mark := Watermark(db, b.entity) + 1;
    db.(books := db.books[c.holder := Arrived(db, c)],
        consumed := db.consumed[c.transfer := ConsumedRow(Receipt(c, mark, b.key, b.epoch), false)],
        watermarks := db.watermarks[b.entity := mark])
  }

  /** The second destination transaction: attach the signature made after the consumption committed. */
  function AttachReceipt(db: Database, r: Receipt): (Database, Option<Error>) {
    var id := r.certificate.transfer;
    if id !in db.consumed || db.consumed[id].receipt.certificate != r.certificate
    then (db, Some(ErrCertificateConflict))
    else if db.consumed[id].receipt != r then (db, Some(ErrReceiptInvalid))
    else (db.(consumed := db.consumed[id := db.consumed[id].(signed := true)]), None)
  }
}
