/** Any number of checkpointers over one growing journal. */
module CheckpointRuns {
  import opened Amounts
  import opened Payloads
  import opened Merkle
  import opened AuditChain
  import opened Checkpoints

  /** A checkpoint being signed outside any transaction, with the chain its checkpointer had read. */
  datatype Draft = Draft(checkpoint: Checkpoint, seen: seq<Checkpoint>)

  datatype System = System(book: Book, drafts: map<nat, Draft>)

  datatype Step =
    | DoPost(posted: Posted)
    | DoPrepare(worker: nat, known: nat, first: nat, last: nat, key: string)
    | DoCommit(worker: nat)
    | DoDrop(worker: nat)

  /**
   * A posted transaction links to the one before it; a checkpointer may load the journal after others have extended the
   * chain it knows, and commits what it holds.
   */
  ghost predicate Enabled(H: string -> string, y: System, t: Step) {
    match t
    case DoPost(posted) =>
      Links(H, y.book.name, |y.book.journal| + 1, LastHash(Genesis(H, y.book.name), y.book.journal), posted)
    case DoPrepare(worker, known, first, last, key) => known <= |y.book.chain|
    case DoCommit(worker) => worker in y.drafts
    case DoDrop(worker) => true
  }

  ghost function After(H: string -> string, y: System, t: Step): System
    requires Enabled(H, y, t)
  {
    match t
    case DoPost(posted) => y.(book := y.book.(journal := y.book.journal + [posted]))
    case DoPrepare(worker, known, first, last, key) =>
      var seen := y.book.chain[..known];
      var c := Prepare(H, y.book.(chain := seen), first, last, key);
      if c.None? then y else y.(drafts := y.drafts[worker := Draft(c.value, seen)])
    case DoCommit(worker) =>
      var d := y.drafts[worker];
      var b := Commit(y.book, d.checkpoint, d.seen);
      System(if b.None? then y.book else b.value, y.drafts - {worker})
    case DoDrop(worker) => y.(drafts := y.drafts - {worker})
  }

  ghost predicate Inv(H: string -> string, y: System) {
    Sound(H, y.book) && forall w | w in y.drafts :: StillCovers(H, y.book, y.drafts[w].checkpoint, y.drafts[w].seen)
  }

  /** Nothing posted and no stored checkpoint is ever replaced. */
  predicate Grows(b: Book, b': Book) {
    b'.name == b.name && b.journal <= b'.journal && b.chain <= b'.chain
  }

  lemma CoversStays(H: string -> string, b: Book, b': Book, c: Checkpoint, seen: seq<Checkpoint>)
    requires StillCovers(H, b, c, seen) && Grows(b, b')
    ensures StillCovers(H, b', c, seen)
  {
    hide Covering;
    var more := b'.journal[|b.journal|..];
    assert b'.journal == b.journal + more;
    CoveringGrows(H, Book(b.name, b.journal, seen + [c]), more, |seen|);
  }

  lemma DraftsStay(H: string -> string, y: System, b': Book)
    requires Inv(H, y) && Grows(y.book, b')
    ensures forall w | w in y.drafts :: StillCovers(H, b', y.drafts[w].checkpoint, y.drafts[w].seen)
  {
    hide Sound, StillCovers, Grows;
    forall w | w in y.drafts ensures StillCovers(H, b', y.drafts[w].checkpoint, y.drafts[w].seen) {
      CoversStays(H, y.book, b', y.drafts[w].checkpoint, y.drafts[w].seen);
    }
  }

  lemma StepKeeps(H: string -> string, y: System, t: Step)
    requires Inv(H, y) && Enabled(H, y, t)
    ensures Inv(H, After(H, y, t)) && Grows(y.book, After(H, y, t).book)
  {
    hide Sound, StillCovers, Prepare, Links, LatestLast, LatestRoot;
    DraftsStay(H, y, After(H, y, t).book);
    match t {
      case DoPost(posted) =>
        PostKeeps(H, y.book, posted);
      case DoPrepare(worker, known, first, last, key) =>
        PrepareKeeps(H, y.book, known, first, last, key);
      case DoCommit(worker) =>
        CommitSound(H, y.book, y.drafts[worker]);
      case DoDrop(worker) =>
    }
  }

  lemma PrepareKeeps(H: string -> string, b: Book, known: nat, first: nat, last: nat, key: string)
    requires Sound(H, b) && known <= |b.chain|
    ensures var c := Prepare(H, b.(chain := b.chain[..known]), first, last, key);
            c.Some? ==> StillCovers(H, b, c.value, b.chain[..known])
  {
    hide Accepts, Tiled, Prepare, StillCovers;
    var was := b.(chain := b.chain[..known]);
    PrefixTiled(H, b, known);
    if Prepare(H, was, first, last, key).Some? {
      PreparedCovers(H, was, [], first, last, key);
      assert b.journal + [] == b.journal;
      SameJournal(H, was, b, Prepare(H, was, first, last, key).value, was.chain);
    }
  }

  lemma SameJournal(H: string -> string, b: Book, b': Book, c: Checkpoint, seen: seq<Checkpoint>)
    requires StillCovers(H, b, c, seen) && b'.name == b.name && b'.journal == b.journal
    ensures StillCovers(H, b', c, seen)
  {
  }

  lemma PrefixTiled(H: string -> string, b: Book, known: nat)
    requires Tiled(H, b) && known <= |b.chain|
    ensures Tiled(H, b.(chain := b.chain[..known]))
  {
    hide MerkleRoot;
    forall i | 0 <= i < known ensures Covering(H, b.(chain := b.chain[..known]), i) {
      assert Covering(H, b, i);
      assert b.chain[..known][..i] == b.chain[..i];
    }
  }

  lemma CommitSound(H: string -> string, b: Book, d: Draft)
    requires Sound(H, b) && StillCovers(H, b, d.checkpoint, d.seen)
    ensures var b' := Commit(b, d.checkpoint, d.seen); b'.Some? ==> Sound(H, b'.value)
  {
    hide Sound, StillCovers, Commit;
    if Commit(b, d.checkpoint, d.seen).Some? {
      CoveredCommits(H, b, d.checkpoint, d.seen);
    }
  }

  ghost predicate IsRun(H: string -> string, states: seq<System>, steps: seq<Step>) {
    && |states| == |steps| + 1
    && forall i | 0 <= i < |steps| :: Enabled(H, states[i], steps[i]) && states[i + 1] == After(H, states[i], steps[i])
  }

  lemma {:induction false} RunKeeps(H: string -> string, states: seq<System>, steps: seq<Step>, i: nat, j: nat)
    requires IsRun(H, states, steps) && i <= j <= |steps| && Inv(H, states[i])
    ensures Inv(H, states[j]) && Grows(states[i].book, states[j].book)
    decreases j - i
  {
    hide Inv, Enabled, After;
    if i < j {
      assert Enabled(H, states[i], steps[i]) && states[i + 1] == After(H, states[i], steps[i]);
      StepKeeps(H, states[i], steps[i]);
      RunKeeps(H, states, steps, i + 1, j);
    }
  }

  ghost predicate FromEmpty(H: string -> string, name: string, states: seq<System>, steps: seq<Step>) {
    IsRun(H, states, steps) && states[0] == System(Book(name, [], []), map[])
  }

  /**
   * Every book reached from an empty one is sound: its checkpoints tile a prefix of its journal, link and replay, for
   * good.
   */
  lemma EveryBookIsSound(H: string -> string, name: string, states: seq<System>, steps: seq<Step>, i: nat, j: nat)
    requires FromEmpty(H, name, states, steps) && i <= j <= |steps|
    ensures Sound(H, states[j].book) && Grows(states[i].book, states[j].book)
    ensures forall k | 0 <= k < |states[j].book.chain| :: VerifyStored(H, states[j].book, k)
  {
    hide Sound, StillCovers, Enabled, After, VerifyStored, Grows;
    EmptySound(H, name);
    RunKeeps(H, states, steps, 0, i);
    RunKeeps(H, states, steps, i, j);
    forall k | 0 <= k < |states[j].book.chain| ensures VerifyStored(H, states[j].book, k) {
      StoredReplays(H, states[j].book, k);
    }
  }

  lemma EmptySound(H: string -> string, name: string)
    ensures Sound(H, Book(name, [], []))
  {
  }

  /** The draft a step commits, when it does. */
  ghost function CommittedAt(states: seq<System>, steps: seq<Step>, i: nat): Option<Draft>
    requires i < |steps| < |states|
  {
    if !steps[i].DoCommit? || steps[i].worker !in states[i].drafts then None
    else
      var d := states[i].drafts[steps[i].worker];
      if Commit(states[i].book, d.checkpoint, d.seen).None? then None else Some(d)
  }

  /**
   * Of the checkpointers that saw the same newest checkpoint at most one commits: what is committed saw ever later
   * ones.
   */
  lemma CommitsAreOrdered(H: string -> string, name: string, states: seq<System>, steps: seq<Step>, i: nat, j: nat)
    requires FromEmpty(H, name, states, steps) && i < j < |steps|
    requires CommittedAt(states, steps, i).Some? && CommittedAt(states, steps, j).Some?
    ensures LatestLast(CommittedAt(states, steps, i).value.seen) < LatestLast(CommittedAt(states, steps, j).value.seen)
  {
    hide Sound, VerifyStored, CommittedAt;
    EveryBookIsSound(H, name, states, steps, i, i + 1);
    EveryBookIsSound(H, name, states, steps, i + 1, j);
    CommittedLast(H, states, steps, i);
    LaterCovers(H, states[i + 1].book);
    Reaches(H, states[j].book, |states[i + 1].book.chain| - 1);
    SeenIsLatest(states, steps, i);
    SeenIsLatest(states, steps, j);
  }

  lemma SeenIsLatest(states: seq<System>, steps: seq<Step>, i: nat)
    requires i < |steps| < |states| && CommittedAt(states, steps, i).Some?
    ensures LatestLast(CommittedAt(states, steps, i).value.seen) == LatestLast(states[i].book.chain)
  {
  }

  lemma CommittedLast(H: string -> string, states: seq<System>, steps: seq<Step>, i: nat)
    requires IsRun(H, states, steps) && i < |steps| && CommittedAt(states, steps, i).Some?
    ensures states[i + 1].book.chain == states[i].book.chain + [CommittedAt(states, steps, i).value.checkpoint]
  {
    hide LatestLast, LatestRoot, Prepare;
    assert Enabled(H, states[i], steps[i]) && states[i + 1] == After(H, states[i], steps[i]);
  }

  lemma LaterCovers(H: string -> string, b: Book)
    requires Sound(H, b) && b.chain != []
    ensures b.chain[|b.chain| - 1].last > LatestLast(b.chain[..|b.chain| - 1])
  {
    hide Accepts;
    assert Covering(H, b, |b.chain| - 1);
  }

  lemma Reaches(H: string -> string, b: Book, k: nat)
    requires Sound(H, b) && k < |b.chain|
    ensures b.chain[k].last <= LatestLast(b.chain)
  {
    hide Accepts, Tiled;
    Below(H, b, |b.chain|);
    assert b.chain[..|b.chain|] == b.chain;
  }
}
