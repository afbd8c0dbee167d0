/** The migration tables as an object; every method is one serializable transaction. */
module RolloutStore {
  import opened Amounts
  import opened Totals
  import opened Sorting
  import opened Rollout
  import opened RolloutSafety
  import R = Rollout

  class Workflow {
    var journal: map<string, seq<string>>
    var headers: map<string, Header>
    var heads: map<string, string>
    var shadow: map<string, Row>
    var phase: Phase
    var active: nat
    var read: nat
    var version: nat
    var verification: Option<Verification>
    var marks: map<string, Mark>
    var consumers: map<string, Consumer>
    const size: nat

    ghost function View(): Store
      reads this
    {
      Store(journal, headers, heads, shadow, phase, active, read, version, verification, marks, consumers)
    }

    ghost predicate Valid()
      reads this
    {
      Inv(View()) && size > 0
    }

    constructor (s: Store, batch: nat)
      requires Inv(s) && 1 <= batch <= 10000
      ensures Valid() && View() == s && size == batch
    {
      journal, headers, heads, shadow, phase := s.journal, s.headers, s.heads, s.shadow, s.phase;
      active, read, version, verification, marks, consumers := s.active, s.read, s.version, s.verification, s.marks,
      s.consumers;
      size := batch;
    }

    /** Captures the head of every book. */
    method Start(expected: nat) returns (error: Option<R.Error>)
      requires Valid()
      modifies this
      ensures (View(), error) == R.Start(old(View()), expected) && Valid()
    {
      hide Inv;
      StartKeeps(View(), expected);
      if phase != Expanded {
        return None;
      }
      if version != expected {
        return Some(ErrStaleState);
      }
      HeadsKnown(View());
      var captured := CaptureHeads();
      marks, active, phase, version := captured, active + 1, Shadowing, version + 1;
      error := None;
    }

    method CaptureHeads() returns (captured: map<string, Mark>)
      requires heads.Keys == journal.Keys
      ensures captured == Captured(journal, heads)
    {
      var left := journal.Keys;
      captured := map[];
      while left != {}
        invariant left <= journal.Keys && captured.Keys == journal.Keys - left
        invariant forall b | b in captured :: captured[b] == Mark(|journal[b]|, heads[b], 1, 0, |journal[b]| == 0)
        decreases |left|
      {
        var b :| b in left;
        var completed := |journal[b]| == 0;
        captured := captured[b := Mark(|journal[b]|, heads[b], 1, 0, completed)];
        left := left - {b};
      }
    }

    static lemma HeadsKnown(s: Store)
      requires Inv(s)
      ensures s.heads.Keys == s.journal.Keys
    {
    }

    /** The least pending book that is not locked, found by one pass over the cursors. */
    method NextPending(locked: set<string>) returns (found: bool, book: string)
      ensures found <==> !(Pending(marks) <= locked)
      ensures found ==> IsFirst(Pending(marks) - locked, book)
    {
      var pending := Pending(marks) - locked;
      if pending == {} {
        forall b | b in Pending(marks) ensures b in locked {
          assert b !in pending;
        }
        return false, "";
      }
      book :| book in pending;
      var left := pending - {book};
      while left != {}
        invariant left <= pending && book in pending
        invariant forall o | o in pending - left :: o == book || Below(book, o)
        decreases |left|
      {
        var o :| o in left;
        BelowIsStrict(o, book);
        if Below(o, book) {
          LesserStays(pending - left, o, book);
          book := o;
        }
        left := left - {o};
      }
      found := true;
    }

    static lemma LesserStays(names: set<string>, o: string, book: string)
      requires Below(o, book) && forall n | n in names :: n == book || Below(book, n)
      ensures forall n | n in names :: Below(o, n)
    {
      forall n | n in names ensures Below(o, n) {
        if n != book {
          BelowIsStrict(o, book);
          BelowIsStrict(book, n);
          BelowTransitive(o, book, n);
          BelowIsStrict(o, n);
        }
      }
    }

    /** Projects a batch row by row and stops at the first row that differs. */
    method ProjectRows(rows: seq<string>) returns (ok: bool, seen: nat)
      requires forall i | 0 <= i < |rows| :: rows[i] in headers
      modifies this`shadow
      ensures ok <==> Projected(old(shadow), headers, rows, |rows|).Some?
      ensures ok ==>
                shadow == Projected(old(shadow), headers, rows, |rows|).value
                && seen == References(headers, rows, |rows|)
    {
      var i := 0;
      seen := 0;
      while i < |rows|
        invariant 0 <= i <= |rows|
        invariant Projected(old(shadow), headers, rows, i) == Some(shadow) && seen == References(headers, rows, i)
      {
        var tx := rows[i];
        var h := headers[tx];
        if h.reference.Some? {
          if tx !in shadow {
            shadow := shadow[tx := Projection(h)];
          } else if shadow[tx] != Projection(h) {
            Stops(old(shadow), headers, rows, i + 1, |rows|);
            return false, 0;
          }
          seen := seen + 1;
        }
        i := i + 1;
      }
      ok := true;
    }

    /** Once a row is refused, the batch is. */
    static lemma {:induction false} Stops(shadow: map<string, Row>, headers: map<string, Header>, rows: seq<string>,
                                          i: nat, n: nat)
      requires i <= n <= |rows| && (forall k | 0 <= k < |rows| :: rows[k] in headers)
               && Projected(shadow, headers, rows, i).None?
      ensures Projected(shadow, headers, rows, n).None?
    {
      if i < n {
        Stops(shadow, headers, rows, i, n - 1);
      }
    }

    /** One bounded transaction; a transaction that fails leaves no row behind. */
    method BackfillOnce(generation: nat, locked: set<string>)
      returns (report: Report, error: Option<R.Error>, ghost book: string)
      requires Valid()
      modifies this`shadow, this`marks
      ensures Valid()
      ensures IsFirst(Pending(old(marks)) - locked, book) || Pending(old(marks)) <= locked
      ensures (View(), report, error) == R.BackfillOnce(old(View()), generation, size, locked, book)
      ensures report.batches == 1 && error.None? ==> Visits(old(marks)) > Visits(marks) && old(phase) == Shadowing
    {
      hide Inv, BackfillBook;
      var found, first := NextPending(locked);
      book := first;
      BackfillOnceKeeps(View(), generation, size, locked, book);
      if active != generation {
        return Report("", 0, 0, 1, false), Some(ErrWrongGeneration), book;
      }
      if Rank(phase) >= Rank(Verified) {
        return Report("", 0, 0, 0, true), None, book;
      }
      if phase != Shadowing {
        return Report("", 0, 0, 1, false), Some(ErrWrongPhase), book;
      }
      if !found {
        return Report("", 0, 0, 0, Pending(marks) == {}), None, book;
      }
      Fewer(View(), first, size);
      report, error := FillBook(first);
    }

    method FillBook(book: string) returns (report: Report, error: Option<R.Error>)
      requires book in marks
      modifies this`shadow, this`marks
      ensures (View(), report, error) == BackfillBook(old(View()), book, size)
    {
      hide Projected, References, Contiguous, Batch;
      var m := marks[book];
      var rows :=
        Batch(Store(journal, headers, heads, shadow, phase, active, read, version, verification, marks, consumers),
              book, size);
      if rows == [] || !Contiguous(headers, rows, m.cursor) {
        return Report(book, 0, 0, 1, false), Some(ErrWatermarkCorrupt);
      }
      assert forall i | 0 <= i < |rows| :: rows[i] in headers by { Known(headers, rows, m.cursor); }
      var before := shadow;
      var ok, seen := ProjectRows(rows);
      if !ok {
        shadow := before;
        return Report(book, 0, 0, 1, false), Some(ErrProjectionMismatch);
      }
      var last := m.cursor + |rows| - 1;
      if |rows| < size && last != m.sequence {
        shadow := before;
        return Report(book, 0, 0, 1, false), Some(ErrWatermarkCorrupt);
      }
      marks := marks[book := m.(cursor := last + 1, scanned := m.scanned + seen, completed := last == m.sequence)];
      return Report(book, |rows|, seen, 1, Pending(marks) == {}), None;
    }

    static lemma Known(headers: map<string, Header>, rows: seq<string>, cursor: nat)
      requires Contiguous(headers, rows, cursor)
      ensures forall i | 0 <= i < |rows| :: rows[i] in headers
    {
    }

    /** Repeats bounded transactions; with no limit it ends, and with nothing else running it ends complete. */
    method Backfill(generation: nat, limit: nat) returns (total: Report, error: Option<R.Error>)
      requires Valid()
      modifies this`shadow, this`marks
      ensures Valid()
      ensures active == generation && phase != Expanded ==> error.None?
      ensures limit == 0 && error.None? ==> total.complete && (phase == Shadowing ==> Pending(marks) == {})
      ensures limit > 0 ==> total.batches <= limit
    {
      hide Inv;
      total := Report("", 0, 0, 0, false);
      VisitsNatural(View());
      while limit == 0 || total.batches < limit
        invariant Valid() && (limit > 0 ==> total.batches <= limit)
        decreases Visits(marks)
      {
        ghost var was := View();
        var next, failed, book := BackfillOnce(generation, {});
        OnceAnswers(was, generation, size, book);
        VisitsNatural(View());
        if failed.Some? {
          return total, failed;
        }
        total :=
          Report(next.book, total.rows + next.rows, total.references + next.references, total.batches + next.batches,
                 next.complete);
        if next.complete || next.batches == 0 {
          return total, None;
        }
      }
      error := None;
    }

    /** A worker alone never finds a locked cursor, and none of its transactions fails. */
    static lemma OnceAnswers(s: Store, generation: nat, batch: nat, book: string)
      requires Inv(s) && batch > 0 && (IsFirst(Pending(s.marks) - {}, book) || Pending(s.marks) <= {})
      ensures var (s', report, error) := R.BackfillOnce(s, generation, batch, {}, book);
              && report.batches <= 1 && (error.None? && report.batches == 0 ==> report.complete)
              && (s.active == generation && s.phase != Expanded ==> error.None?)
              && (report.complete && s.phase == Shadowing ==> Pending(s'.marks) == {})
    {
      hide Chained, Headed, Truthful, Marked, Caught, Phased, Batch, Projected, References, Contiguous;
      if s.active == generation && s.phase == Shadowing && !(Pending(s.marks) <= {}) {
        BackfillSucceeds(s, book, batch);
      }
    }

    /** Checks every captured head against the ledger. */
    method HeadsStillProved() returns (ok: bool)
      ensures ok <==> HeadsProved(View())
    {
      hide HashAt;
      var left := marks.Keys;
      while left != {}
        invariant left <= marks.Keys
        invariant forall b | b in marks && b !in left :: HashAt(View(), b, marks[b].sequence) == Some(marks[b].hash)
        decreases |left|
      {
        var b :| b in left;
        var actual :=
          HashAt(Store(journal, headers, heads, shadow, phase, active, read, version, verification, marks, consumers),
                 b, marks[b].sequence);
        if actual != Some(marks[b].hash) {
          return false;
        }
        left := left - {b};
      }
      ok := true;
    }

    method Snapshot() returns (v: Option<Verification>, error: Option<R.Error>)
      ensures (v, error) == VerifySnapshot(View())
    {
      hide HeadsProved, SourceRows, TargetRows;
      if Pending(marks) != {} {
        return None, Some(ErrWrongPhase);
      }
      var proved := HeadsStillProved();
      if !proved {
        return None, Some(ErrWatermarkCorrupt);
      }
      var view := Store(journal, headers, heads, shadow, phase, active, read, version, verification, marks, consumers);
      var source, target := SourceRows(view), TargetRows(view);
      if source != target {
        return None, Some(ErrProjectionMismatch);
      }
      return Some(Verification(source, target)), None;
    }

    method Verify(generation: nat, expected: nat) returns (error: Option<R.Error>)
      requires Valid()
      modifies this`verification, this`phase, this`version
      ensures (View(), error) == R.Verify(old(View()), generation, expected) && Valid()
    {
      hide Inv, VerifySnapshot;
      VerifyKeeps(View(), generation, expected);
      if active != generation {
        return Some(ErrWrongGeneration);
      }
      if Rank(phase) >= Rank(Verified) {
        return None;
      }
      if phase != Shadowing {
        return Some(ErrWrongPhase);
      }
      if version != expected {
        return Some(ErrStaleState);
      }
      var v, failed := Snapshot();
      if v.None? {
        return failed;
      }
      verification, phase, version := v, Verified, version + 1;
      error := None;
    }

    /** Re-verifies and publishes the read generation in one transaction. */
    method Cutover(generation: nat, expected: nat) returns (error: Option<R.Error>)
      requires Valid()
      modifies this`read, this`phase, this`version
      ensures (View(), error) == R.Cutover(old(View()), generation, expected) && Valid()
    {
      hide Inv, CutoverNow;
      CutoverKeeps(View(), generation, expected);
      if active != generation {
        return Some(ErrWrongGeneration);
      }
      if read == generation && Rank(phase) >= Rank(CutOver) {
        return None;
      }
      if phase != Verified {
        return Some(ErrWrongPhase);
      }
      if version != expected {
        return Some(ErrStaleState);
      }
      error := Publish(generation);
    }

    method Publish(generation: nat) returns (error: Option<R.Error>)
      modifies this`read, this`phase, this`version
      ensures (View(), error) == CutoverNow(old(View()), generation)
    {
      hide VerifySnapshot;
      if verification.None? {
        return Some(ErrProjectionMismatch);
      }
      var v, failed := Snapshot();
      if v.None? {
        return failed;
      }
      if verification != v {
        return Some(ErrProjectionMismatch);
      }
      if (set c | c in consumers && consumers[c].required) == {} {
        return Some(ErrContractBlocked);
      }
      if read >= generation {
        return Some(ErrStaleState);
      }
      read, phase, version := generation, CutOver, version + 1;
      error := None;
    }
  }
}
