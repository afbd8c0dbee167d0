/** The online move of ledger references into a projection: shadow, backfill, verify, cut over, contract. */
module Rollout {
  import opened Amounts
  import opened Sorting

  const REFERENCE_TYPE := "LEDGER_TRANSACTION"

  datatype Phase = Expanded | Shadowing | Verified | CutOver | Contracted

  function Rank(p: Phase): nat {
    match p
    case Expanded => 0
    case Shadowing => 1
    case Verified => 2
    case CutOver => 3
    case Contracted => 4
  }

  /** The immutable header of a posted ledger transaction. */
  datatype Header = Header(book: string, sequence: nat, reference: Option<string>, schema: int, hash: string)

  /** A projected reference. */
  datatype Row = Row(kind: string, reference: string, schema: int)

  /** The captured head of one book and how far the backfill has come. */
  datatype Mark = Mark(sequence: nat, hash: string, cursor: nat, scanned: nat, completed: bool)

  /** What a verification recorded of the two sides; equal digests stand for equal row sets. */
  datatype Verification = Verification(source: map<string, Row>, projected: map<string, Row>)

  datatype Consumer = Consumer(required: bool, acknowledged: nat)

  /** journal lists the posted transactions of each book in sequence order, starting at sequence one. */
  datatype Store = Store(
    journal: map<string, seq<string>>, headers: map<string, Header>, heads: map<string, string>,
    shadow: map<string, Row>,
    phase: Phase, active: nat, read: nat, version: nat, verification: Option<Verification>,
    marks: map<string, Mark>, consumers: map<string, Consumer>)

  datatype Error =
    | ErrStaleState | ErrWrongPhase | ErrWrongGeneration | ErrProjectionMismatch | ErrWatermarkCorrupt
    | ErrContractBlocked
    | ErrInvalid | ErrNotPosted | ErrRejected

  datatype Reference = Reference(transaction: string, kind: string, id: string, schema: int, generation: nat,
                                 found: bool)

  datatype Report = Report(book: string, rows: nat, references: nat, batches: nat, complete: bool)

  /** The head hash of an empty book. */
  function Genesis(book: string): string {
    "genesis/" + book
  }

  function Projection(h: Header): Row
    requires h.reference.Some?
  {
    Row(REFERENCE_TYPE, h.reference.value, h.schema)
  }

  // ----- the ledger beside the rollout --------------------------------------------------------

  function OpenBook(s: Store, book: string): (Store, Option<Error>) {
    if book == "" || book in s.journal then (s, Some(ErrRejected))
    else (s.(journal := s.journal[book := []], heads := s.heads[book := Genesis(book)]), None)
  }

  /** Finalizes one transaction; once shadowing has begun its reference is projected with it. */
  function Post(s: Store, book: string, tx: string, reference: Option<string>, schema: int,
                hash: string): (Store, Option<Error>) {
    if book !in s.journal || tx == "" || tx in s.headers then (s, Some(ErrRejected))
    else
      var h := Header(book, |s.journal[book]| + 1, reference, schema, hash);
      (s.(journal := s.journal[book := s.journal[book] + [tx]], headers := s.headers[tx := h],
          heads := s.heads[book := hash],
          shadow :=
            if reference.Some? && s.phase != Expanded && tx !in s.shadow then s.shadow[tx := Projection(h)]
            else s.shadow), None)
  }

  /** Any other writer of the projection passes the same guard and can neither change nor remove a row. */
  function InsertRow(s: Store, tx: string, row: Row): (Store, Option<Error>) {
    if tx !in s.headers || s.headers[tx].reference.None? || row != Projection(s.headers[tx]) || tx in s.shadow
    then (s, Some(ErrRejected))
    else (s.(shadow := s.shadow[tx := row]), None)
  }

  // ----- start -------------------------------------------------------------------------------------

  function Captured(journal: map<string, seq<string>>, heads: map<string, string>): map<string, Mark> {
    map b | b in journal && b in heads :: Mark(|journal[b]|, heads[b], 1, 0, |journal[b]| == 0)
  }

  function Start(s: Store, expected: nat): (Store, Option<Error>) {
    if s.phase != Expanded then (s, None)
    else if s.version != expected then (s, Some(ErrStaleState))
    else (s.(marks := Captured(s.journal, s.heads), active := s.active + 1, phase := Shadowing,
             version := s.version + 1), None)
  }

  // ----- backfill ------------------------------------------------------------------------------------

  function Pending(marks: map<string, Mark>): set<string> {
    set b | b in marks && !marks[b].completed
  }

  /** The least name of a set. */
  ghost predicate IsFirst(names: set<string>, b: string) {
    b in names && forall o | o in names :: o == b || Below(b, o)
  }

  /** The posted transactions of one book from the cursor to the watermark, at most a batch of them. */
  function Batch(s: Store, book: string, size: nat): seq<string>
    requires book in s.marks
  {
    var m := s.marks[book];
    var rows := if book in s.journal then s.journal[book] else [];
    var to := Min(Min(m.sequence, |rows|), m.cursor - 1 + size);
    if 1 <= m.cursor && m.cursor - 1 <= to then rows[m.cursor - 1..to] else []
  }

  function Min(a: int, b: int): int {
    if a <= b then a else b
  }

  /** Every row of a batch carries the sequence number after its predecessor's. */
  predicate Contiguous(headers: map<string, Header>, rows: seq<string>, cursor: nat) {
    forall i | 0 <= i < |rows| :: rows[i] in headers && headers[rows[i]].sequence == cursor + i
  }

  /** Projects the first n rows, refusing to overwrite a row that differs. */
  function Projected(shadow: map<string, Row>, headers: map<string, Header>, rows: seq<string>,
                     n: nat): Option<map<string, Row>>
    requires n <= |rows| && forall i | 0 <= i < |rows| :: rows[i] in headers
  {
    if n == 0 then Some(shadow)
    else
      var before := Projected(shadow, headers, rows, n - 1);
      if before.None? then None else InsertOrValidate(before.value, rows[n - 1], headers[rows[n - 1]])
  }

  function InsertOrValidate(shadow: map<string, Row>, tx: string, h: Header): Option<map<string, Row>> {
    if h.reference.None? then Some(shadow)
    else if tx !in shadow then Some(shadow[tx := Projection(h)])
    else if shadow[tx] != Projection(h) then None
    else Some(shadow)
  }

  function References(headers: map<string, Header>, rows: seq<string>, n: nat): nat
    requires n <= |rows| && forall i | 0 <= i < |rows| :: rows[i] in headers
  {
    if n == 0 then 0 else References(headers, rows, n - 1) + if headers[rows[n - 1]].reference.Some? then 1 else 0
  }

  /** One bounded transaction on the given book. */
  function BackfillBook(s: Store, book: string, size: nat): (Store, Report, Option<Error>)
    requires book in s.marks
  {
    var m, rows := s.marks[book], Batch(s, book, size);
    if rows == [] || !Contiguous(s.headers, rows, m.cursor)
    then (s, Report(book, 0, 0, 1, false), Some(ErrWatermarkCorrupt))
    else
      var shadow := Projected(s.shadow, s.headers, rows, |rows|);
      if shadow.None? then (s, Report(book, 0, 0, 1, false), Some(ErrProjectionMismatch))
      else FinishBatch(s, book, size, rows, shadow.value)
  }

  function FinishBatch(s: Store, book: string, size: nat, rows: seq<string>,
                       shadow: map<string, Row>): (Store, Report, Option<Error>)
    requires book in s.marks && rows != [] && Contiguous(s.headers, rows, s.marks[book].cursor)
  {
    var m := s.marks[book];
    var last := m.cursor + |rows| - 1;
    if |rows| < size && last != m.sequence then (s, Report(book, 0, 0, 1, false), Some(ErrWatermarkCorrupt))
    else
      var seen := References(s.headers, rows, |rows|);
      var marks :=
        s.marks[book := m.(cursor := last + 1, scanned := m.scanned + seen, completed := last == m.sequence)];
      (s.(shadow := shadow, marks := marks), Report(book, |rows|, seen, 1, Pending(marks) == {}), None)
  }

  /** One call of a worker that cannot see the cursors others have locked. */
  ghost function BackfillOnce(s: Store, generation: nat, size: nat, locked: set<string>,
                              book: string): (Store, Report, Option<Error>)
    requires IsFirst(Pending(s.marks) - locked, book) || Pending(s.marks) <= locked
  {
    if s.active != generation then (s, Report("", 0, 0, 1, false), Some(ErrWrongGeneration))
    else if Rank(s.phase) >= Rank(Verified) then (s, Report("", 0, 0, 0, true), None)
    else if s.phase != Shadowing then (s, Report("", 0, 0, 1, false), Some(ErrWrongPhase))
    else if Pending(s.marks) <= locked then (s, Report("", 0, 0, 0, Pending(s.marks) == {}), None)
    else BackfillBook(s, book, size)
  }

  // ----- verification ----------------------------------------------------------------------------------

  /** A header at or below the watermark of its book. */
  predicate Covered(marks: map<string, Mark>, h: Header) {
    h.book in marks && h.sequence <= marks[h.book].sequence
  }

  function SourceRows(s: Store): map<string, Row> {
    map tx | tx in s.headers && Covered(s.marks, s.headers[tx]) && s.headers[tx].reference.Some? ::
      Projection(s.headers[tx])
  }

  function TargetRows(s: Store): map<string, Row> {
    map tx | tx in s.shadow && tx in s.headers && Covered(s.marks, s.headers[tx]) :: s.shadow[tx]
  }

  /** The chain hash of a book at a sequence number. */
  function HashAt(s: Store, book: string, sequence: nat): Option<string> {
    if sequence == 0 then Some(Genesis(book))
    else if book !in s.journal || sequence > |s.journal[book]| || s.journal[book][sequence - 1] !in s.headers then None
    else Some(s.headers[s.journal[book][sequence - 1]].hash)
  }

  predicate HeadsProved(s: Store) {
    forall b | b in s.marks :: HashAt(s, b, s.marks[b].sequence) == Some(s.marks[b].hash)
  }

  function VerifySnapshot(s: Store): (Option<Verification>, Option<Error>) {
    if Pending(s.marks) != {} then (None, Some(ErrWrongPhase))
    else if !HeadsProved(s) then (None, Some(ErrWatermarkCorrupt))
    else if SourceRows(s) != TargetRows(s) then (None, Some(ErrProjectionMismatch))
    else (Some(Verification(SourceRows(s), TargetRows(s))), None)
  }

  function Verify(s: Store, generation: nat, expected: nat): (Store, Option<Error>) {
    if s.active != generation then (s, Some(ErrWrongGeneration))
    else if Rank(s.phase) >= Rank(Verified) then (s, None)
    else if s.phase != Shadowing then (s, Some(ErrWrongPhase))
    else if s.version != expected then (s, Some(ErrStaleState))
    else if VerifySnapshot(s).0.None? then (s, VerifySnapshot(s).1)
    else (s.(verification := VerifySnapshot(s).0, phase := Verified, version := s.version + 1), None)
  }

  // ----- consumers, cutover and contract ----------------------------------------------------------------------

  function RegisterConsumer(s: Store, consumer: string, required: bool): (Store, Option<Error>) {
    if consumer == "" || Rank(s.phase) >= Rank(CutOver) then (s, Some(ErrInvalid))
    else if consumer in s.consumers
    then (s, if s.consumers[consumer].required != required then Some(ErrInvalid) else None)
    else (s.(consumers := s.consumers[consumer := Consumer(required, 0)]), None)
  }

  function Acknowledge(s: Store, consumer: string, generation: nat): (Store, Option<Error>) {
    if consumer == "" || generation == 0 then (s, Some(ErrInvalid))
    else if generation > s.active then (s, Some(ErrWrongGeneration))
    else if consumer !in s.consumers then (s, Some(ErrInvalid))
    else if s.consumers[consumer].acknowledged >= generation then (s, None)
    else (s.(consumers := s.consumers[consumer := s.consumers[consumer].(acknowledged := generation)]), None)
  }

  function Required(s: Store): set<string> {
    set c | c in s.consumers && s.consumers[c].required
  }

  function Cutover(s: Store, generation: nat, expected: nat): (Store, Option<Error>) {
    if s.active != generation then (s, Some(ErrWrongGeneration))
    else if s.read == generation && Rank(s.phase) >= Rank(CutOver) then (s, None)
    else if s.phase != Verified then (s, Some(ErrWrongPhase))
    else if s.version != expected then (s, Some(ErrStaleState))
    else CutoverNow(s, generation)
  }

  function CutoverNow(s: Store, generation: nat): (Store, Option<Error>) {
    if s.verification.None? then (s, Some(ErrProjectionMismatch))
    else if VerifySnapshot(s).0.None? then (s, VerifySnapshot(s).1)
    else if s.verification != VerifySnapshot(s).0 then (s, Some(ErrProjectionMismatch))
    else if Required(s) == {} then (s, Some(ErrContractBlocked))
    else if s.read >= generation then (s, Some(ErrStaleState))
    else (s.(read := generation, phase := CutOver, version := s.version + 1), None)
  }

  function Contract(s: Store, generation: nat, expected: nat): (Store, Option<Error>) {
    if s.active != generation || s.read != generation then (s, Some(ErrWrongGeneration))
    else if s.phase == Contracted then (s, None)
    else if s.phase != CutOver then (s, Some(ErrWrongPhase))
    else if s.version != expected then (s, Some(ErrStaleState))
    else if Required(s) == {}
            || (exists c | c in s.consumers :: s.consumers[c].required && s.consumers[c].acknowledged < generation)
    then (s, Some(ErrContractBlocked))
    else (s.(phase := Contracted, version := s.version + 1), None)
  }

  // ----- reads ---------------------------------------------------------------------------------------------------

  /** The reference as the immutable header holds it. */
  function Legacy(s: Store, tx: string, generation: nat): Option<Reference> {
    if tx !in s.headers then None
    else
      var h := s.headers[tx];
      Some(if h.reference.Some? then Reference(tx, REFERENCE_TYPE, h.reference.value, h.schema, generation, true)
           else Reference(tx, "", "", h.schema, generation, false))
  }

  /** The reference as the projection holds it. */
  function FromProjection(s: Store, tx: string, generation: nat): Option<Reference> {
    if tx !in s.headers then None
    else if tx in s.shadow
    then Some(Reference(tx, s.shadow[tx].kind, s.shadow[tx].reference, s.headers[tx].schema, generation, true))
    else Some(Reference(tx, "", "", s.headers[tx].schema, generation, false))
  }

  function ReadReference(s: Store, tx: string): (Option<Reference>, Option<Error>) {
    if tx == "" then (None, Some(ErrInvalid))
    else
      var found := if s.read == 0 then Legacy(s, tx, 0) else FromProjection(s, tx, s.read);
      (found, if found.None? then Some(ErrNotPosted) else None)
  }
}
