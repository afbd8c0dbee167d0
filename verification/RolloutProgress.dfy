/** Every rollout can be finished, and no two transitions rest on one version. */
module RolloutProgress {
  import opened Amounts
  import opened Sorting
  import opened Rollout
  import opened RolloutSafety
  import opened RolloutRuns

  // ----- joining runs --------------------------------------------------------------------------------

  lemma {:induction false} Joined(s: Store, a: seq<Step>, b: seq<Step>)
    requires Runs(s, a) && Runs(Final(s, a), b)
    ensures Runs(s, a + b) && Final(s, a + b) == Final(Final(s, a), b)
    decreases |a|
  {
    hide After, Enabled;
    if a == [] {
      assert a + b == b;
    } else {
      Joined(After(s, a[0]).0, a[1..], b);
      assert (a + b)[1..] == a[1..] + b;
    }
  }

  lemma One(s: Store, t: Step)
    requires Enabled(s, t)
    ensures Runs(s, [t]) && Final(s, [t]) == After(s, t).0
  {
    hide After, Enabled;
    assert [t][1..] == [];
  }

  /** A step of the operator or of a reader; nothing is posted and no book is opened. */
  predicate IsOperation(t: Step) {
    t.Begin? || t.Fill? || t.Check? || t.Switch? || t.Retire? || t.Enlist? || t.Confirm?
  }

  ghost predicate Operations(run: seq<Step>) {
    forall i | 0 <= i < |run| :: IsOperation(run[i])
  }

  // ----- backfill to the end --------------------------------------------------------------------------

  lemma {:induction false} SomeFirst(names: set<string>) returns (b: string)
    requires names != {}
    ensures IsFirst(names, b)
    decreases |names|
  {
    var a :| a in names;
    var rest := names - {a};
    if rest == {} {
      b := a;
      assert names == {a};
    } else {
      var c := SomeFirst(rest);
      if Below(a, c) {
        b := a;
        forall o | o in names ensures o == b || Below(b, o) {
          if o != a && o != c {
            BelowIsStrict(a, c);
            BelowIsStrict(c, o);
            BelowTransitive(a, c, o);
            BelowIsStrict(a, o);
          }
        }
      } else {
        b := c;
        BelowIsStrict(a, c);
      }
    }
  }

  lemma {:induction false} FillsUp(s: Store, size: nat) returns (run: seq<Step>)
    requires Inv(s) && s.phase == Shadowing && size > 0
    ensures Runs(s, run) && Operations(run)
    ensures var s' := Final(s, run);
            && Inv(s') && s'.phase == Shadowing && Pending(s'.marks) == {} && s'.consumers == s.consumers
            && s'.active == s.active && s'.headers == s.headers
    decreases Visits(s.marks)
  {
    hide Inv, BackfillBook, Visits;
    if Pending(s.marks) == {} {
      run := [];
    } else {
      var book := SomeFirst(Pending(s.marks) - {});
      assert Pending(s.marks) - {} == Pending(s.marks);
      var t := Fill(s.active, size, {}, book);
      Filled(s, t);
      var s1 := After(s, t).0;
      VisitsNatural(s);
      VisitsNatural(s1);
      StepVisits(s, t);
      var rest := FillsUp(s1, size);
      One(s, t);
      Joined(s, [t], rest);
      run := [t] + rest;
    }
  }

  lemma Filled(s: Store, t: Step)
    requires Inv(s) && s.phase == Shadowing && t.Fill? && t.generation == s.active && Enabled(s, t)
    requires !(Pending(s.marks) <= t.locked)
    ensures Advances(s, t) && Inv(After(s, t).0)
    ensures var s' := After(s, t).0;
            s'.phase == Shadowing && s'.consumers == s.consumers && s'.active == s.active && s'.headers == s.headers
  {
    hide Inv, BackfillBook;
    StepKeeps(s, t);
    BackfillGoesOn(s, t);
    FilledFields(s, t.book, t.size);
  }

  lemma FilledFields(s: Store, book: string, size: nat)
    requires book in s.marks
    ensures var s' := BackfillBook(s, book, size).0;
            s'.phase == s.phase && s'.consumers == s.consumers && s'.active == s.active && s'.headers == s.headers
  {
    hide Batch, Projected, References, Contiguous;
  }

  // ----- the operator's steps ---------------------------------------------------------------------------

  lemma Begins(s: Store)
    requires Inv(s) && s.phase == Expanded
    ensures var s' := After(s, Begin(s.version)).0;
            Inv(s') && s'.phase == Shadowing && s'.consumers == s.consumers && s'.headers == s.headers
  {
    hide Inv;
    StepKeeps(s, Begin(s.version));
  }

  lemma Verifies(s: Store)
    requires Inv(s) && s.phase == Shadowing && Pending(s.marks) == {}
    ensures var s' := After(s, Check(s.active, s.version)).0;
            Inv(s') && s'.phase == Verified && s'.consumers == s.consumers && s'.headers == s.headers
            && s'.active == s.active
  {
    hide Inv, VerifySnapshot;
    StepKeeps(s, Check(s.active, s.version));
    SnapshotVerifies(s);
  }

  lemma Enlists(s: Store, consumer: string)
    requires Inv(s) && s.phase == Verified && consumer != "" && consumer !in s.consumers
    ensures var s' := After(s, Enlist(consumer, true)).0;
            Inv(s') && s'.phase == Verified && consumer in Required(s') && s'.headers == s.headers
  {
    hide Inv;
    StepKeeps(s, Enlist(consumer, true));
  }

  lemma VerifiedFacts(s: Store)
    requires Inv(s) && Rank(s.phase) >= Rank(Verified)
    ensures Pending(s.marks) == {} && s.verification == Some(Verification(SourceRows(s), TargetRows(s))) && s.active > 0
    ensures s.phase == Verified ==> s.read == 0
    ensures Rank(s.phase) >= Rank(CutOver) ==> s.read == s.active && Required(s) != {}
  {
    hide Chained, Headed, Truthful, Marked, Caught, SourceRows, TargetRows;
  }

  lemma Switches(s: Store)
    requires Inv(s) && s.phase == Verified && Required(s) != {}
    ensures var s' := After(s, Switch(s.active, s.version)).0;
            Inv(s') && s'.phase == CutOver && s'.consumers == s.consumers && s'.headers == s.headers
            && s'.active == s.active
  {
    hide Inv, VerifySnapshot;
    StepKeeps(s, Switch(s.active, s.version));
    VerifiedFacts(s);
    SnapshotVerifies(s);
  }

  /** The required readers that have not yet acknowledged the generation being read. */
  function Behind(s: Store): set<string> {
    set c | c in s.consumers && s.consumers[c].required && s.consumers[c].acknowledged < s.active
  }

  lemma {:induction false} AllConfirm(s: Store) returns (run: seq<Step>)
    requires Inv(s) && s.phase == CutOver && "" !in Required(s)
    ensures Runs(s, run) && Operations(run)
    ensures var s' := Final(s, run);
            Inv(s') && s'.phase == CutOver && Behind(s') == {} && s'.headers == s.headers
    decreases |Behind(s)|
  {
    hide Inv;
    if Behind(s) == {} {
      run := [];
    } else {
      var c :| c in Behind(s);
      assert c in Required(s);
      var t := Confirm(c, s.active);
      StepKeeps(s, t);
      VerifiedFacts(s);
      var s1 := After(s, t).0;
      assert Behind(s1) == Behind(s) - {c};
      assert Required(s1) == Required(s);
      var rest := AllConfirm(s1);
      One(s, t);
      Joined(s, [t], rest);
      run := [t] + rest;
    }
  }

  lemma Retires(s: Store)
    requires Inv(s) && s.phase == CutOver && Behind(s) == {}
    ensures var s' := After(s, Retire(s.active, s.version)).0;
            Inv(s') && s'.phase == Contracted && s'.headers == s.headers
  {
    hide Inv;
    StepKeeps(s, Retire(s.active, s.version));
    VerifiedFacts(s);
    forall c | c in s.consumers ensures !(s.consumers[c].required && s.consumers[c].acknowledged < s.active) {
      assert c !in Behind(s);
    }
  }

  // ----- the whole way ----------------------------------------------------------------------------------

  lemma FromCutOver(s: Store) returns (run: seq<Step>)
    requires Inv(s) && s.phase == CutOver && "" !in Required(s)
    ensures Runs(s, run) && Operations(run)
    ensures Final(s, run).phase == Contracted && Final(s, run).headers == s.headers
  {
    hide Inv, After, Runs, Final, Enabled;
    run := AllConfirm(s);
    var s1 := Final(s, run);
    Retires(s1);
    var t := Retire(s1.active, s1.version);
    Always(s1, t);
    One(s1, t);
    Joined(s, run, [t]);
    run := run + [t];
  }

  lemma Always(s: Store, t: Step)
    requires !t.Fill?
    ensures Enabled(s, t)
  {
  }

  lemma FromVerified(s: Store, consumer: string) returns (run: seq<Step>)
    requires Inv(s) && s.phase == Verified && "" !in Required(s)
    requires Required(s) != {} || (consumer != "" && consumer !in s.consumers)
    ensures Runs(s, run) && Operations(run)
    ensures Final(s, run).phase == Contracted && Final(s, run).headers == s.headers
  {
    hide Inv, Runs, Final, Enabled, Cutover, Contract;
    var first: seq<Step>, s1 := [], s;
    Empty(s);
    if Required(s) == {} {
      var t := Enlist(consumer, true);
      Enlists(s, consumer);
      Always(s, t);
      One(s, t);
      first, s1 := [t], After(s, t).0;
      assert "" !in Required(s1);
    }
    var t := Switch(s1.active, s1.version);
    Switches(s1);
    Always(s1, t);
    One(s1, t);
    Joined(s, first, [t]);
    var s2 := After(s1, t).0;
    assert Required(s2) == Required(s1);
    var rest := FromCutOver(s2);
    Joined(s, first + [t], rest);
    run := first + [t] + rest;
  }

  lemma Empty(s: Store)
    ensures Runs(s, []) && Final(s, []) == s
  {
  }

  lemma FromShadowing(s: Store, size: nat, consumer: string) returns (run: seq<Step>)
    requires Inv(s) && s.phase == Shadowing && "" !in Required(s) && size > 0
    requires Required(s) != {} || (consumer != "" && consumer !in s.consumers)
    ensures Runs(s, run) && Operations(run)
    ensures Final(s, run).phase == Contracted && Final(s, run).headers == s.headers
  {
    hide Inv, Runs, Final, Enabled, After;
    var first := FillsUp(s, size);
    var s1 := Final(s, first);
    var t := Check(s1.active, s1.version);
    Always(s1, t);
    Verifies(s1);
    One(s1, t);
    Joined(s, first, [t]);
    var s2 := After(s1, t).0;
    assert Required(s2) == Required(s);
    var rest := FromVerified(s2, consumer);
    Joined(s, first + [t], rest);
    run := first + [t] + rest;
  }

  /** No reader has an empty name. */
  lemma NamedStep(s: Store, t: Step)
    requires Inv(s) && Enabled(s, t) && "" !in s.consumers
    ensures "" !in After(s, t).0.consumers
  {
    hide Inv, BackfillBook, VerifySnapshot;
    if t.Fill? && s.active == t.generation && s.phase == Shadowing && !(Pending(s.marks) <= t.locked) {
      FilledFields(s, t.book, t.size);
    }
  }

  lemma {:induction false} ReadersNamed(s: Store, run: seq<Step>)
    requires Inv(s) && Runs(s, run) && "" !in s.consumers
    ensures "" !in Final(s, run).consumers
    decreases |run|
  {
    hide Inv, After, Enabled;
    if run != [] {
      NamedStep(s, run[0]);
      StepKeeps(s, run[0]);
      ReadersNamed(After(s, run[0]).0, run[1..]);
    }
  }

  /**
   * From every reachable state the operator can lead the rollout to its end, whatever was posted before and however far
   * it has come, once there is a required reader or one can still be named.
   */
  lemma EveryRolloutCanFinish(early: seq<Step>, size: nat, consumer: string) returns (run: seq<Step>)
    requires Runs(FRESH, early) && size > 0
    requires var s := Final(FRESH, early);
             Required(s) != {} || (consumer != "" && consumer !in s.consumers)
    ensures Runs(Final(FRESH, early), run) && Operations(run)
    ensures var s := Final(FRESH, early);
            Final(s, run).phase == Contracted && Final(s, run).headers == s.headers
  {
    hide Inv, Runs, Final, Enabled, After;
    var s := Final(FRESH, early);
    FreshInv();
    RunKeeps(FRESH, early);
    ReadersNamed(FRESH, early);
    Empty(s);
    match s.phase
    case Expanded =>
      var t := Begin(s.version);
      Begins(s);
      Always(s, t);
      One(s, t);
      var s1 := After(s, t).0;
      assert Required(s1) == Required(s);
      var rest := FromShadowing(s1, size, consumer);
      Joined(s, [t], rest);
      run := [t] + rest;
    case Shadowing => run := FromShadowing(s, size, consumer);
    case Verified => run := FromVerified(s, consumer);
    case CutOver => run := FromCutOver(s);
    case Contracted => run := [];
  }

  // ----- transitions and versions ----------------------------------------------------------------------------

  /** A step that moves the phase names the version it has seen, and the version after it is the next one. */
  lemma TransitionsAreFenced(s: Store, t: Step)
    requires Enabled(s, t) && After(s, t).0.phase != s.phase
    ensures t.Begin? || t.Check? || t.Switch? || t.Retire?
    ensures t.expected == s.version && After(s, t).0.version == s.version + 1
    ensures Rank(After(s, t).0.phase) == Rank(s.phase) + 1
    ensures !t.Begin? ==> t.generation == s.active
  {
    hide BackfillBook, VerifySnapshot;
    if t.Fill? && s.active == t.generation && s.phase == Shadowing && !(Pending(s.marks) <= t.locked) {
      FilledFields(s, t.book, t.size);
    }
  }

  ghost predicate IsRun(states: seq<Store>, steps: seq<Step>) {
    && |states| == |steps| + 1
    && forall i | 0 <= i < |steps| :: Enabled(states[i], steps[i]) && states[i + 1] == After(states[i], steps[i]).0
  }

  lemma {:induction false} VersionsGrow(states: seq<Store>, steps: seq<Step>, i: nat, j: nat)
    requires IsRun(states, steps) && i <= j <= |steps|
    ensures states[i].version <= states[j].version
    decreases j - i
  {
    hide After, Enabled;
    if i < j {
      assert Enabled(states[i], steps[i]) && states[i + 1] == After(states[i], steps[i]).0;
      StepForward(states[i], steps[i]);
      VersionsGrow(states, steps, i + 1, j);
    }
  }

  /** Of all operators that act on one version, at most one moves the phase. */
  lemma OneTransitionPerVersion(states: seq<Store>, steps: seq<Step>, i: nat, j: nat)
    requires IsRun(states, steps) && i < j < |steps|
    requires states[i + 1].phase != states[i].phase && states[j + 1].phase != states[j].phase
    ensures !steps[i].Fill? && !steps[j].Fill?
    ensures states[i].version < states[j].version
    ensures (steps[i].Begin? || steps[i].Check? || steps[i].Switch? || steps[i].Retire?)
            && (steps[j].Begin? || steps[j].Check? || steps[j].Switch? || steps[j].Retire?)
            && steps[i].expected < steps[j].expected
  {
    hide After, Enabled;
    assert Enabled(states[i], steps[i]) && states[i + 1] == After(states[i], steps[i]).0;
    assert Enabled(states[j], steps[j]) && states[j + 1] == After(states[j], steps[j]).0;
    TransitionsAreFenced(states[i], steps[i]);
    TransitionsAreFenced(states[j], steps[j]);
    VersionsGrow(states, steps, i + 1, j);
  }
}
