/** Readers see the same references before, during and after the rollout. */
module RolloutSafety {
  import opened Amounts
  import opened Sorting
  import opened Totals
  import opened Rollout

  // ----- the invariant -------------------------------------------------------------------------------

  /** Journals and headers name each other; sequence numbers have no gap. */
  ghost predicate Chained(s: Store) {
    && (forall b, i | b in s.journal && 0 <= i < |s.journal[b]| ::
          s.journal[b][i] in s.headers && s.headers[s.journal[b][i]].book == b
          && s.headers[s.journal[b][i]].sequence == i + 1)
    && (forall tx | tx in s.headers :: Listed(s, tx, s.headers[tx]))
  }

  predicate Listed(s: Store, tx: string, h: Header) {
    tx != "" && h.book in s.journal && 1 <= h.sequence <= |s.journal[h.book]| && s.journal[h.book][h.sequence - 1] == tx
  }

  ghost predicate Headed(s: Store) {
    s.heads.Keys == s.journal.Keys && forall b | b in s.journal :: HashAt(s, b, |s.journal[b]|) == Some(s.heads[b])
  }

  /** Every projected row repeats its immutable source. */
  ghost predicate Truthful(s: Store) {
    forall tx | tx in s.shadow ::
      tx in s.headers && s.headers[tx].reference.Some? && s.shadow[tx] == Projection(s.headers[tx])
  }

  predicate MarkOk(s: Store, b: string, m: Mark) {
    && b in s.journal && m.sequence <= |s.journal[b]| && 1 <= m.cursor <= m.sequence + 1
    && (m.completed <==> m.cursor == m.sequence + 1) && HashAt(s, b, m.sequence) == Some(m.hash)
  }

  ghost predicate Marked(s: Store) {
    forall b | b in s.marks :: MarkOk(s, b, s.marks[b])
  }

  /** The backfill still has this header in front of it. */
  predicate Ahead(marks: map<string, Mark>, h: Header) {
    h.book in marks && marks[h.book].cursor <= h.sequence <= marks[h.book].sequence
  }

  /** Once shadowing has begun, every posted reference is projected or still ahead of a cursor. */
  ghost predicate Caught(s: Store) {
    forall tx | tx in s.headers && s.headers[tx].reference.Some? :: tx in s.shadow || Ahead(s.marks, s.headers[tx])
  }

  ghost predicate Phased(s: Store) {
    && (s.phase == Expanded ==> s.marks == map[] && s.active == 0)
    && (s.phase != Expanded ==> s.active > 0)
    && (Rank(s.phase) < Rank(CutOver) ==> s.read == 0)
    && (Rank(s.phase) >= Rank(CutOver) ==> s.read == s.active && Required(s) != {})
    && (Rank(s.phase) >= Rank(Verified) ==>
          Pending(s.marks) == {} && s.verification == Some(Verification(SourceRows(s), TargetRows(s))))
    && (s.phase == Contracted ==>
          forall c | c in s.consumers && s.consumers[c].required :: s.consumers[c].acknowledged >= s.active)
  }

  ghost predicate Inv(s: Store) {
    Chained(s) && Headed(s) && Truthful(s) && Marked(s) && (s.phase != Expanded ==> Caught(s)) && Phased(s)
  }

  // ----- what the invariant gives -------------------------------------------------------------------------

  /** With nothing pending, the closed snapshot verifies: neither a mismatch nor a corrupt head can be reported. */
  lemma SnapshotVerifies(s: Store)
    requires Inv(s) && s.phase != Expanded && Pending(s.marks) == {}
    ensures VerifySnapshot(s) == (Some(Verification(SourceRows(s), TargetRows(s))), None)
  {
    hide Chained, Headed, HashAt;
    SidesAgree(s);
  }

  lemma NothingAhead(s: Store, h: Header)
    requires Marked(s) && Pending(s.marks) == {}
    ensures !Ahead(s.marks, h)
  {
    hide HashAt;
    if h.book in s.marks {
      assert MarkOk(s, h.book, s.marks[h.book]);
      assert h.book !in Pending(s.marks);
    }
  }

  lemma SidesAgree(s: Store)
    requires Truthful(s) && Marked(s) && Caught(s) && Pending(s.marks) == {}
    ensures SourceRows(s) == TargetRows(s)
  {
    hide HashAt, Marked, Pending, Ahead, Covered;
    forall tx | tx in SourceRows(s) ensures tx in TargetRows(s) && TargetRows(s)[tx] == SourceRows(s)[tx] {
      NothingAhead(s, s.headers[tx]);
    }
    forall tx | tx in TargetRows(s) ensures tx in SourceRows(s) {
    }
  }

  /** The projection answers exactly like the header, for every transaction, once nothing is pending. */
  lemma ProjectionAgrees(s: Store, tx: string, generation: nat)
    requires Inv(s) && s.phase != Expanded && Pending(s.marks) == {}
    ensures FromProjection(s, tx, generation) == Legacy(s, tx, generation)
  {
    hide Chained, Headed, Phased, HashAt, Ahead;
    if tx in s.headers {
      NothingAhead(s, s.headers[tx]);
    }
  }

  /**
   * In every state of the rollout a read returns what the header says; only the generation tells which side was read.
   */
  lemma ReadsTheHeader(s: Store, tx: string)
    requires Inv(s)
    ensures ReadReference(s, tx).0 == (if tx == "" then None else Legacy(s, tx, s.read))
  {
    hide Chained, Headed, Truthful, Marked, Caught, Legacy, FromProjection;
    if s.read != 0 {
      ProjectionAgrees(s, tx, s.read);
    }
  }

  // ----- the ledger's own steps --------------------------------------------------------------------------------

  lemma HashAtGrows(s: Store, s': Store, b: string, n: nat)
    requires HashAt(s, b, n).Some? && b in s.journal ==> b in s'.journal && s.journal[b] <= s'.journal[b]
    requires forall tx | tx in s.headers :: tx in s'.headers && s'.headers[tx] == s.headers[tx]
    ensures HashAt(s, b, n).Some? ==> HashAt(s', b, n) == HashAt(s, b, n)
  {
  }

  ghost predicate Grows(s: Store, s': Store) {
    && (forall b | b in s.journal :: b in s'.journal && s.journal[b] <= s'.journal[b])
    && (forall tx | tx in s.headers :: tx in s'.headers && s'.headers[tx] == s.headers[tx])
  }

  lemma MarkedGrows(s: Store, s': Store)
    requires Marked(s) && Grows(s, s') && s'.marks == s.marks
    ensures Marked(s')
  {
    hide HashAt;
    forall b | b in s'.marks ensures MarkOk(s', b, s'.marks[b]) {
      assert MarkOk(s, b, s.marks[b]);
      HashAtGrows(s, s', b, s.marks[b].sequence);
    }
  }

  lemma OpenBookKeeps(s: Store, book: string)
    requires Inv(s)
    ensures Inv(OpenBook(s, book).0)
  {
    hide Chained, Headed, Marked, Caught, Truthful, SourceRows, TargetRows;
    var (s', error) := OpenBook(s, book);
    if error.None? {
      OpenBookChained(s, book);
      MarkedGrows(s, s');
      SameRows(s, s');
      SameClaims(s, s');
    }
  }

  lemma SameRows(s: Store, s': Store)
    requires s'.headers == s.headers && s'.shadow == s.shadow && s'.marks == s.marks
    ensures SourceRows(s') == SourceRows(s) && TargetRows(s') == TargetRows(s)
  {
  }

  lemma OpenBookChained(s: Store, book: string)
    requires Chained(s) && Headed(s) && OpenBook(s, book).1.None?
    ensures Chained(OpenBook(s, book).0) && Headed(OpenBook(s, book).0)
  {
    var s' := OpenBook(s, book).0;
    forall tx | tx in s'.headers ensures Listed(s', tx, s'.headers[tx]) {
      assert Listed(s, tx, s.headers[tx]);
    }
    forall b | b in s'.journal ensures HashAt(s', b, |s'.journal[b]|) == Some(s'.heads[b]) {
      if b != book {
        HashAtGrows(s, s', b, |s.journal[b]|);
      }
    }
  }

  lemma PostChained(s: Store, book: string, tx: string, reference: Option<string>, schema: int, hash: string)
    requires Chained(s) && Headed(s) && Post(s, book, tx, reference, schema, hash).1.None?
    ensures Chained(Post(s, book, tx, reference, schema, hash).0)
            && Headed(Post(s, book, tx, reference, schema, hash).0)
    ensures Grows(s, Post(s, book, tx, reference, schema, hash).0)
  {
    var s' := Post(s, book, tx, reference, schema, hash).0;
    PostGrows(s, book, tx, reference, schema, hash);
    assert Chained(s') by { PostLinks(s, book, tx, reference, schema, hash); }
    forall b | b in s'.journal ensures HashAt(s', b, |s'.journal[b]|) == Some(s'.heads[b]) {
      if b != book {
        HashAtGrows(s, s', b, |s.journal[b]|);
      }
    }
  }

  lemma PostGrows(s: Store, book: string, tx: string, reference: Option<string>, schema: int, hash: string)
    requires Post(s, book, tx, reference, schema, hash).1.None?
    ensures Grows(s, Post(s, book, tx, reference, schema, hash).0)
  {
  }

  lemma PostLinks(s: Store, book: string, tx: string, reference: Option<string>, schema: int, hash: string)
    requires Chained(s) && Post(s, book, tx, reference, schema, hash).1.None?
    ensures Chained(Post(s, book, tx, reference, schema, hash).0)
  {
    var s' := Post(s, book, tx, reference, schema, hash).0;
    forall t | t in s'.headers ensures Listed(s', t, s'.headers[t]) {
      if t != tx {
        assert Listed(s, t, s.headers[t]);
      }
    }
    forall b, i | b in s'.journal && 0 <= i < |s'.journal[b]|
      ensures s'.journal[b][i] in s'.headers && s'.headers[s'.journal[b][i]].book == b
              && s'.headers[s'.journal[b][i]].sequence == i + 1
    {
      if b != book || i < |s.journal[b]| {
        assert s'.journal[b][i] == s.journal[b][i];
        assert s.journal[b][i] in s.headers;
      }
    }
  }

  /** A transaction posted after the watermark was captured is above it. */
  lemma PostAbove(s: Store, book: string, tx: string, reference: Option<string>, schema: int, hash: string)
    requires Marked(s) && Post(s, book, tx, reference, schema, hash).1.None?
    ensures var s' := Post(s, book, tx, reference, schema, hash).0;
            tx in s'.headers && !Covered(s'.marks, s'.headers[tx])
  {
    hide HashAt;
    if book in s.marks {
      assert MarkOk(s, book, s.marks[book]);
    }
  }

  lemma PostRows(s: Store, book: string, tx: string, reference: Option<string>, schema: int, hash: string)
    requires Marked(s) && Truthful(s) && Post(s, book, tx, reference, schema, hash).1.None?
    ensures SourceRows(Post(s, book, tx, reference, schema, hash).0) == SourceRows(s)
    ensures TargetRows(Post(s, book, tx, reference, schema, hash).0) == TargetRows(s)
  {
    hide Marked, Truthful, Post, SourceRows, TargetRows;
    PostSource(s, book, tx, reference, schema, hash);
    PostTarget(s, book, tx, reference, schema, hash);
  }

  lemma PostSource(s: Store, book: string, tx: string, reference: Option<string>, schema: int, hash: string)
    requires Marked(s) && Post(s, book, tx, reference, schema, hash).1.None?
    ensures SourceRows(Post(s, book, tx, reference, schema, hash).0) == SourceRows(s)
  {
    hide Marked, Covered;
    PostAbove(s, book, tx, reference, schema, hash);
  }

  lemma PostTarget(s: Store, book: string, tx: string, reference: Option<string>, schema: int, hash: string)
    requires Marked(s) && Truthful(s) && Post(s, book, tx, reference, schema, hash).1.None?
    ensures TargetRows(Post(s, book, tx, reference, schema, hash).0) == TargetRows(s)
  {
    hide Marked, Covered;
    PostAbove(s, book, tx, reference, schema, hash);
  }

  lemma PostTruthful(s: Store, book: string, tx: string, reference: Option<string>, schema: int, hash: string)
    requires Truthful(s) && Post(s, book, tx, reference, schema, hash).1.None?
    ensures Truthful(Post(s, book, tx, reference, schema, hash).0)
    ensures s.phase != Expanded && Caught(s) ==> Caught(Post(s, book, tx, reference, schema, hash).0)
  {
  }

  lemma PostKeeps(s: Store, book: string, tx: string, reference: Option<string>, schema: int, hash: string)
    requires Inv(s)
    ensures Inv(Post(s, book, tx, reference, schema, hash).0)
  {
    hide Chained, Headed, Truthful, Marked, Caught, SourceRows, TargetRows;
    var (s', error) := Post(s, book, tx, reference, schema, hash);
    if error.None? {
      PostChained(s, book, tx, reference, schema, hash);
      MarkedGrows(s, s');
      PostRows(s, book, tx, reference, schema, hash);
      PostTruthful(s, book, tx, reference, schema, hash);
    }
  }

  /** The parts of the invariant about journals do not mention the projection or the rollout. */
  lemma LedgerUnchanged(s: Store, s': Store)
    requires Chained(s) && Headed(s) && s'.journal == s.journal && s'.headers == s.headers && s'.heads == s.heads
    ensures Chained(s') && Headed(s')
    ensures s'.marks == s.marks && Marked(s) ==> Marked(s')
  {
    forall tx | tx in s'.headers ensures Listed(s', tx, s'.headers[tx]) {
      assert Listed(s, tx, s.headers[tx]);
    }
    forall b, n: nat ensures HashAt(s', b, n) == HashAt(s, b, n) {
    }
    if s'.marks == s.marks && Marked(s) {
      forall b | b in s'.marks ensures MarkOk(s', b, s'.marks[b]) {
        assert MarkOk(s, b, s.marks[b]);
      }
    }
  }

  lemma InsertRowKeeps(s: Store, tx: string, row: Row)
    requires Inv(s)
    ensures Inv(InsertRow(s, tx, row).0)
  {
    hide Chained, Headed, Marked, SourceRows, TargetRows;
    var (s', error) := InsertRow(s, tx, row);
    if error.None? {
      LedgerUnchanged(s, s');
      if Rank(s.phase) >= Rank(Verified) {
        InsertNothingLeft(s, tx);
        assert false;
      }
    }
  }

  /** After verification no reference is left to insert. */
  lemma InsertNothingLeft(s: Store, tx: string)
    requires Inv(s) && Rank(s.phase) >= Rank(Verified) && tx in s.headers && s.headers[tx].reference.Some?
    ensures tx in s.shadow
  {
    hide Chained, Headed, Marked, SourceRows, TargetRows, Ahead;
    NothingAhead(s, s.headers[tx]);
  }

  // ----- start and backfill --------------------------------------------------------------------------------------

  lemma StartKeeps(s: Store, expected: nat)
    requires Inv(s)
    ensures Inv(Start(s, expected).0)
  {
    hide SourceRows, TargetRows;
    var (s', error) := Start(s, expected);
    if s.phase == Expanded && error.None? {
      LedgerUnchanged(s, s');
      forall b | b in s'.marks ensures MarkOk(s', b, s'.marks[b]) {
        HashAtGrows(s, s', b, |s.journal[b]|);
      }
      forall tx | tx in s'.headers && s'.headers[tx].reference.Some? ensures Ahead(s'.marks, s'.headers[tx]) {
        assert Listed(s, tx, s.headers[tx]);
      }
    }
  }

  lemma {:induction false} ProjectedRows(s: Store, rows: seq<string>, n: nat)
    requires Truthful(s) && n <= |rows| && forall i | 0 <= i < |rows| :: rows[i] in s.headers
    ensures Projected(s.shadow, s.headers, rows, n).Some?
    ensures var after := Projected(s.shadow, s.headers, rows, n).value;
            && Truthful(s.(shadow := after)) && s.shadow.Keys <= after.Keys
            && forall i | 0 <= i < n :: s.headers[rows[i]].reference.Some? ==> rows[i] in after
  {
    if n > 0 {
      ProjectedRows(s, rows, n - 1);
      var before := Projected(s.shadow, s.headers, rows, n - 1).value;
      assert Truthful(s.(shadow := before));
    }
  }

  /**
   * A pending book always has its next batch: the rows are there, contiguous, and end at the watermark or fill the
   * batch.
   */
  lemma BatchReady(s: Store, book: string, size: nat)
    requires Chained(s) && Marked(s) && book in Pending(s.marks) && size > 0
    ensures var m, rows := s.marks[book], Batch(s, book, size);
            && rows != [] && Contiguous(s.headers, rows, m.cursor) && m.cursor + |rows| - 1 <= m.sequence
            && (|rows| < size ==> m.cursor + |rows| - 1 == m.sequence)
            && forall i | 0 <= i < |rows| :: rows[i] == s.journal[book][m.cursor - 1 + i]
  {
    hide HashAt;
    assert MarkOk(s, book, s.marks[book]);
  }

  lemma BackfillSucceeds(s: Store, book: string, size: nat)
    requires Chained(s) && Marked(s) && Truthful(s) && book in Pending(s.marks) && size > 0
    ensures BackfillBook(s, book, size).2.None? && BackfillBook(s, book, size).1.batches == 1
    ensures var rows := Batch(s, book, size);
            && Contiguous(s.headers, rows, s.marks[book].cursor) && Projected(s.shadow, s.headers, rows, |rows|).Some?
            && BackfillBook(s, book, size).0 == s.(
                 shadow := Projected(s.shadow, s.headers, rows, |rows|).value,
                 marks := s.marks[book := s.marks[book].(
                   cursor := s.marks[book].cursor + |rows|,
                   scanned := s.marks[book].scanned + References(s.headers, rows, |rows|),
                   completed := s.marks[book].cursor + |rows| - 1 == s.marks[book].sequence)])
  {
    hide Chained, Marked, Projected, References, Batch, Truthful;
    BatchReady(s, book, size);
    ProjectedRows(s, Batch(s, book, size), |Batch(s, book, size)|);
  }

  lemma BackfillCatches(s: Store, book: string, size: nat)
    requires Chained(s) && Marked(s) && Truthful(s) && Caught(s) && book in Pending(s.marks) && size > 0
    ensures Caught(BackfillBook(s, book, size).0) && Truthful(BackfillBook(s, book, size).0)
  {
    hide Projected, References, Batch, BackfillBook, Marked;
    BatchReady(s, book, size);
    BackfillSucceeds(s, book, size);
    var m, rows, s' := s.marks[book], Batch(s, book, size), BackfillBook(s, book, size).0;
    ProjectedRows(s, rows, |rows|);
    forall tx | tx in s'.headers && s'.headers[tx].reference.Some?
      ensures tx in s'.shadow || Ahead(s'.marks, s'.headers[tx]) {
      var h := s.headers[tx];
      if tx in s.shadow {
      } else if h.book == book && h.sequence < m.cursor + |rows| {
        assert Listed(s, tx, h);
        assert rows[h.sequence - m.cursor] == s.journal[book][m.cursor - 1 + (h.sequence - m.cursor)];
        assert rows[h.sequence - m.cursor] == tx;
      } else {
      }
    }
  }

  lemma BackfillBookKeeps(s: Store, book: string, size: nat)
    requires Inv(s) && s.phase == Shadowing && book in Pending(s.marks) && size > 0
    ensures Inv(BackfillBook(s, book, size).0)
  {
    hide Chained, Headed, Marked, Caught, Truthful, BackfillBook, Projected, References, Batch, SourceRows, TargetRows;
    BackfillSucceeds(s, book, size);
    BackfillCatches(s, book, size);
    var s' := BackfillBook(s, book, size).0;
    LedgerUnchanged(s, s');
    assert Marked(s') by { MarkAdvances(s, book, size); }
  }

  lemma MarkAdvances(s: Store, book: string, size: nat)
    requires Chained(s) && Headed(s) && Marked(s) && Truthful(s) && book in Pending(s.marks) && size > 0
    ensures Marked(BackfillBook(s, book, size).0)
    ensures Left(BackfillBook(s, book, size).0.marks[book]) < Left(s.marks[book])
  {
    hide Chained, Headed, Truthful, BackfillBook, Projected, References, Batch, HashAt;
    BackfillSucceeds(s, book, size);
    BatchReady(s, book, size);
    var s' := BackfillBook(s, book, size).0;
    forall b | b in s'.marks ensures MarkOk(s', b, s'.marks[b]) {
      assert MarkOk(s, b, s.marks[b]);
      HashAtGrows(s, s', b, s.marks[b].sequence);
    }
  }

  /** How many sequence numbers of a book the backfill still has to visit. */
  function Left(m: Mark): int {
    m.sequence + 1 - m.cursor
  }

  /** The sequence numbers all cursors together still have to visit. */
  ghost function Visits(marks: map<string, Mark>): int {
    Total(map b | b in marks :: Left(marks[b]))
  }

  lemma Fewer(s: Store, book: string, batch: nat)
    requires Inv(s) && book in Pending(s.marks) && batch > 0
    ensures Visits(BackfillBook(s, book, batch).0.marks) < Visits(s.marks)
  {
    hide Chained, Headed, Truthful, Marked, Caught, Phased, BackfillBook, Batch, References, Projected, Left, Total;
    BackfillSucceeds(s, book, batch);
    MarkAdvances(s, book, batch);
    var marks' := BackfillBook(s, book, batch).0.marks;
    assert (map b | b in marks' :: Left(marks'[b])) ==
           (map b | b in s.marks :: Left(s.marks[b]))[book := Left(marks'[book])];
    TotalUpdate(map b | b in s.marks :: Left(s.marks[b]), book, Left(marks'[book]));
  }

  lemma VisitsNatural(s: Store)
    requires Inv(s)
    ensures Visits(s.marks) >= 0
  {
    hide Chained, Headed, Truthful, Caught, Phased, HashAt;
    var m := map b | b in s.marks :: Left(s.marks[b]);
    forall b | b in m ensures m[b] >= 0 {
      assert MarkOk(s, b, s.marks[b]);
    }
    TotalBounds(m);
  }

  lemma BackfillOnceKeeps(s: Store, generation: nat, size: nat, locked: set<string>, book: string)
    requires Inv(s) && size > 0 && (IsFirst(Pending(s.marks) - locked, book) || Pending(s.marks) <= locked)
    ensures Inv(BackfillOnce(s, generation, size, locked, book).0)
  {
    hide Inv, BackfillBook;
    if s.active == generation && s.phase == Shadowing && !(Pending(s.marks) <= locked) {
      BackfillBookKeeps(s, book, size);
    }
  }

  // ----- verify, cut over, contract ---------------------------------------------------------------------------------

  lemma VerifyKeeps(s: Store, generation: nat, expected: nat)
    requires Inv(s)
    ensures Inv(Verify(s, generation, expected).0)
    ensures Verify(s, generation, expected).1 !in {Some(ErrProjectionMismatch), Some(ErrWatermarkCorrupt)}
  {
    hide Chained, Headed, Marked, Caught, Truthful, VerifySnapshot, SourceRows, TargetRows;
    var s' := Verify(s, generation, expected).0;
    if s.active == generation && s.phase == Shadowing && s.version == expected {
      if Pending(s.marks) == {} {
        SnapshotVerifies(s);
        LedgerUnchanged(s, s');
        SameRows(s, s');
        SameClaims(s, s');
      } else {
        PendingRefused(s);
      }
    }
  }

  lemma PendingRefused(s: Store)
    requires Pending(s.marks) != {}
    ensures VerifySnapshot(s) == (None, Some(ErrWrongPhase))
  {
  }

  lemma SameClaims(s: Store, s': Store)
    requires s'.headers == s.headers && s'.shadow == s.shadow && s'.marks == s.marks
    ensures Truthful(s) ==> Truthful(s')
    ensures Caught(s) ==> Caught(s')
  {
  }

  /** A step that only moves the control row and the consumers. */
  lemma ControlKeeps(s: Store, s': Store)
    requires Inv(s) && s'.journal == s.journal && s'.headers == s.headers && s'.heads == s.heads
    requires s'.shadow == s.shadow && s'.marks == s.marks && (s'.phase != Expanded ==> s.phase != Expanded)
             && Phased(s')
    ensures Inv(s')
  {
    hide Chained, Headed, Marked, Caught, Truthful, Phased;
    LedgerUnchanged(s, s');
    SameClaims(s, s');
  }

  lemma CutoverKeeps(s: Store, generation: nat, expected: nat)
    requires Inv(s)
    ensures Inv(Cutover(s, generation, expected).0)
    ensures Cutover(s, generation, expected).1 !in {Some(ErrProjectionMismatch), Some(ErrWatermarkCorrupt)}
  {
    hide Chained, Headed, Marked, Caught, Truthful, VerifySnapshot, SourceRows, TargetRows;
    var s' := Cutover(s, generation, expected).0;
    if s.active == generation && s.phase == Verified && s.version == expected {
      SnapshotVerifies(s);
      SameRows(s, s');
      ControlKeeps(s, s');
    }
  }

  lemma ContractPhased(s: Store, generation: nat, expected: nat)
    requires Phased(s)
    ensures Phased(Contract(s, generation, expected).0)
  {
    hide SourceRows, TargetRows;
    SameRows(s, Contract(s, generation, expected).0);
  }

  lemma ContractOnly(s: Store, generation: nat, expected: nat)
    ensures var s' := Contract(s, generation, expected).0;
            && s'.journal == s.journal && s'.headers == s.headers && s'.heads == s.heads && s'.shadow == s.shadow
            && s'.marks == s.marks
            && (s'.phase != Expanded ==> s.phase != Expanded)
  {
    hide Required;
  }

  lemma ContractKeeps(s: Store, generation: nat, expected: nat)
    requires Inv(s)
    ensures Inv(Contract(s, generation, expected).0)
  {
    hide Chained, Headed, Marked, Caught, Truthful, Phased, Contract;
    ContractPhased(s, generation, expected);
    ContractOnly(s, generation, expected);
    ControlKeeps(s, Contract(s, generation, expected).0);
  }

  lemma RegisterPhased(s: Store, consumer: string, required: bool)
    requires Phased(s)
    ensures Phased(RegisterConsumer(s, consumer, required).0)
  {
    hide SourceRows, TargetRows;
    SameRows(s, RegisterConsumer(s, consumer, required).0);
  }

  lemma RegisterKeeps(s: Store, consumer: string, required: bool)
    requires Inv(s)
    ensures Inv(RegisterConsumer(s, consumer, required).0)
  {
    hide Chained, Headed, Marked, Caught, Truthful, Phased;
    RegisterPhased(s, consumer, required);
    ControlKeeps(s, RegisterConsumer(s, consumer, required).0);
  }

  lemma AcknowledgePhased(s: Store, consumer: string, generation: nat)
    requires Phased(s)
    ensures Phased(Acknowledge(s, consumer, generation).0)
  {
    hide SourceRows, TargetRows;
    var s' := Acknowledge(s, consumer, generation).0;
    SameRows(s, s');
    if c :| c in Required(s) {
      assert c in Required(s');
    }
  }

  lemma AcknowledgeKeeps(s: Store, consumer: string, generation: nat)
    requires Inv(s)
    ensures Inv(Acknowledge(s, consumer, generation).0)
  {
    hide Chained, Headed, Marked, Caught, Truthful, Phased;
    AcknowledgePhased(s, consumer, generation);
    ControlKeeps(s, Acknowledge(s, consumer, generation).0);
  }
}
