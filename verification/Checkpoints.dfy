/** Signed checkpoints over a growing journal: ranges that tile it, and what the newest one proves. */
module Checkpoints {
  import opened Amounts
  import opened Frames
  import opened Payloads
  import opened Merkle
  import opened AuditChain

  /** One book: its posted transactions and its stored checkpoints, oldest first. */
  datatype Book = Book(name: string, journal: seq<Posted>, chain: seq<Checkpoint>)

  ghost function Genesis(H: string -> string, book: string): string {
    H(Tag(LedgerGenesis) + book)
  }

  // ----- creating ---------------------------------------------------------------------------------

  function LatestLast(chain: seq<Checkpoint>): nat {
    if chain == [] then 0 else chain[|chain| - 1].last
  }

  function LatestRoot(chain: seq<Checkpoint>): Option<string> {
    if chain == [] then None else Some(chain[|chain| - 1].root)
  }

  ghost function LatestHash(H: string -> string, book: string, chain: seq<Checkpoint>): string {
    if chain == [] then Genesis(H, book) else chain[|chain| - 1].lastHash
  }

  /** The closed range as the database holds it. */
  function LoadRange(journal: seq<Posted>, first: nat, last: nat): seq<Posted> {
    if 0 < first <= last <= |journal| then journal[first - 1..last] else []
  }

  /** Verifies a range after the newest checkpoint and forms the checkpoint to be signed. */
  ghost function Prepare(H: string -> string, b: Book, first: nat, last: nat, key: string): Option<Checkpoint> {
    if b.name == "" || key == "" || first == 0 || last < first || first != LatestLast(b.chain) + 1 then None
    else
      var v := VerifyRange(H, b.name, first, last, LatestHash(H, b.name, b.chain), LoadRange(b.journal, first, last));
      if v.None? then None
      else Some(Checkpoint(b.name, first, last, v.value.count, v.value.root, v.value.lastHash, LatestRoot(b.chain),
                           key))
  }

  /** Stores a signed checkpoint unless its predecessor has changed since it was prepared. */
  function Commit(b: Book, c: Checkpoint, seen: seq<Checkpoint>): Option<Book> {
    if LatestLast(b.chain) != LatestLast(seen) || LatestRoot(b.chain) != LatestRoot(seen)
       || (b.chain != [] && seen != [] && b.chain[|b.chain| - 1].lastHash != seen[|seen| - 1].lastHash)
    then None
    else Some(b.(chain := b.chain + [c]))
  }

  // ----- the tiling ---------------------------------------------------------------------------------

  /** Checkpoint i covers its range of the journal and follows checkpoint i - 1. */
  ghost predicate Covering(H: string -> string, b: Book, i: nat)
    requires i < |b.chain|
  {
    var c := b.chain[i];
    && c.book == b.name && c.first == LatestLast(b.chain[..i]) + 1 && c.first <= c.last <= |b.journal|
    && c.leaves == c.last - c.first + 1 && c.previous == LatestRoot(b.chain[..i])
    && c.lastHash == b.journal[c.last - 1].hash && c.root == MerkleRoot(H, Hashes(b.journal[c.first - 1..c.last]))
  }

  ghost predicate Tiled(H: string -> string, b: Book) {
    forall i | 0 <= i < |b.chain| :: Covering(H, b, i)
  }

  ghost predicate Sound(H: string -> string, b: Book) {
    Accepts(H, b.name, 1, Genesis(H, b.name), b.journal) && Tiled(H, b)
  }

  lemma CoveringGrows(H: string -> string, b: Book, more: seq<Posted>, i: nat)
    requires i < |b.chain| && Covering(H, b, i)
    ensures Covering(H, b.(journal := b.journal + more), i)
  {
    hide MerkleRoot;
    var c := b.chain[i];
    assert (b.journal + more)[c.first - 1..c.last] == b.journal[c.first - 1..c.last];
  }

  /** Posting a transaction leaves every checkpoint valid. */
  lemma PostKeeps(H: string -> string, b: Book, t: Posted)
    requires Sound(H, b) && Links(H, b.name, |b.journal| + 1, LastHash(Genesis(H, b.name), b.journal), t)
    ensures Sound(H, b.(journal := b.journal + [t]))
  {
    hide Links, Covering;
    RangesCompose(H, b.name, 1, Genesis(H, b.name), b.journal, [t]);
    assert Accepts(H, b.name, 1 + |b.journal|, LastHash(Genesis(H, b.name), b.journal), [t]) by {
      OneAccepted(H, b.name, 1 + |b.journal|, LastHash(Genesis(H, b.name), b.journal), t);
    }
    forall i | 0 <= i < |b.chain| ensures Covering(H, b.(journal := b.journal + [t]), i) {
      CoveringGrows(H, b, [t], i);
    }
  }

  lemma OneAccepted(H: string -> string, book: string, n: nat, p: string, t: Posted)
    requires Links(H, book, n, p, t)
    ensures Accepts(H, book, n, p, [t])
  {
    hide Links;
    assert [t][1..] == [];
  }

  /** The hash before a range is the newest checkpoint's, so any range after it that is there verifies. */
  lemma PrepareSucceeds(H: string -> string, b: Book, first: nat, last: nat, key: string)
    requires Sound(H, b) && b.name != "" && key != "" && first == LatestLast(b.chain) + 1
             && first <= last <= |b.journal|
    ensures Prepare(H, b, first, last, key).Some?
  {
    hide Accepts, MerkleRoot;
    RangeVerifies(H, b, first, last);
    LatestIsLast(H, b);
  }

  lemma LatestIsLast(H: string -> string, b: Book)
    requires Tiled(H, b)
    ensures LatestLast(b.chain) <= |b.journal|
    ensures LatestHash(H, b.name, b.chain) == LastHash(Genesis(H, b.name), b.journal[..LatestLast(b.chain)])
  {
    hide MerkleRoot;
    if b.chain != [] {
      assert Covering(H, b, |b.chain| - 1);
    }
  }

  lemma RangeVerifies(H: string -> string, b: Book, first: nat, last: nat)
    requires Sound(H, b) && 0 < first <= last <= |b.journal|
    ensures var p := LastHash(Genesis(H, b.name), b.journal[..first - 1]);
            var list := b.journal[first - 1..last];
            VerifyRange(H, b.name, first, last, p, list) ==
            Some(Verification(last - first + 1, b.journal[last - 1].hash, MerkleRoot(H, Hashes(list))))
  {
    hide Accepts, Links, MerkleRoot;
    var g, list := Genesis(H, b.name), b.journal[first - 1..last];
    assert b.journal == b.journal[..last] + b.journal[last..];
    RangesCompose(H, b.name, 1, g, b.journal[..last], b.journal[last..]);
    assert b.journal[..last] == b.journal[..first - 1] + list;
    RangesCompose(H, b.name, 1, g, b.journal[..first - 1], list);
    VerifiesExactly(H, b.name, first, last, LastHash(g, b.journal[..first - 1]), list);
  }

  /** What a checkpoint prepared in one state says, whatever was posted since. */
  lemma PreparedCovers(H: string -> string, b: Book, more: seq<Posted>, first: nat, last: nat, key: string)
    requires Tiled(H, b) && Prepare(H, b, first, last, key).Some?
    ensures var c := Prepare(H, b, first, last, key).value;
            StillCovers(H, b.(journal := b.journal + more), c, b.chain)
  {
    hide MerkleRoot, Accepts;
    var c := Prepare(H, b, first, last, key).value;
    assert (b.chain + [c])[..|b.chain|] == b.chain;
    assert (b.journal + more)[first - 1..last] == b.journal[first - 1..last];
  }

  /** A prepared checkpoint covers its range of the journal as it is now. */
  ghost predicate StillCovers(H: string -> string, b: Book, c: Checkpoint, seen: seq<Checkpoint>) {
    Covering(H, Book(b.name, b.journal, seen + [c]), |seen|)
  }

  /** The commit's check is enough. */
  lemma CoveredCommits(H: string -> string, b: Book, c: Checkpoint, seen: seq<Checkpoint>)
    requires Sound(H, b) && StillCovers(H, b, c, seen) && Commit(b, c, seen).Some?
    ensures Sound(H, Commit(b, c, seen).value)
  {
    hide Accepts, MerkleRoot;
    var now := b.(chain := b.chain + [c]);
    forall i | 0 <= i < |now.chain| ensures Covering(H, now, i) {
      if i < |b.chain| {
        assert Covering(H, b, i);
        assert now.chain[..i] == b.chain[..i];
      } else {
        assert now.chain[..i] == b.chain;
        assert (seen + [c])[..|seen|] == seen;
      }
    }
  }

  /** A checkpoint committed later than it was prepared still tiles the journal. */
  lemma CommitKeeps(H: string -> string, was: Book, more: seq<Posted>, chain: seq<Checkpoint>, first: nat, last: nat,
                    key: string)
    requires Sound(H, was) && Sound(H, Book(was.name, was.journal + more, chain))
             && Prepare(H, was, first, last, key).Some?
    requires Commit(Book(was.name, was.journal + more, chain), Prepare(H, was, first, last, key).value, was.chain).Some?
    ensures Sound(H,
                  Commit(Book(was.name, was.journal + more, chain), Prepare(H, was, first, last, key).value,
                         was.chain).value)
  {
    hide Accepts, Covering, Prepare, Commit;
    PreparedCovers(H, was, more, first, last, key);
    CoveredCommits(H, Book(was.name, was.journal + more, chain), Prepare(H, was, first, last, key).value, was.chain);
  }

  /**
   * The ranges of the checkpoints are disjoint and leave no gap: each number up to the newest one is in exactly one.
   */
  lemma {:induction false} EachNumberOnce(H: string -> string, b: Book, n: nat, k: nat)
    requires Tiled(H, b) && k <= |b.chain| && 0 < n <= LatestLast(b.chain[..k])
    ensures exists i | 0 <= i < k :: b.chain[i].first <= n <= b.chain[i].last
    ensures forall i, j | 0 <= i < j < k ::
              !(b.chain[i].first <= n <= b.chain[i].last && b.chain[j].first <= n <= b.chain[j].last)
  {
    hide MerkleRoot;
    var c := b.chain[k - 1];
    assert Covering(H, b, k - 1);
    assert b.chain[..k][k - 1] == c && b.chain[..k - 1] == b.chain[..k][..k - 1];
    Below(H, b, k - 1);
    if n < c.first {
      EachNumberOnce(H, b, n, k - 1);
    }
  }

  lemma {:induction false} Below(H: string -> string, b: Book, k: nat)
    requires Tiled(H, b) && k <= |b.chain|
    ensures forall i | 0 <= i < k :: b.chain[i].last <= LatestLast(b.chain[..k])
  {
    hide MerkleRoot;
    if k > 0 {
      Below(H, b, k - 1);
      assert Covering(H, b, k - 1);
      assert b.chain[..k][k - 1] == b.chain[k - 1];
    }
  }

  // ----- evidence --------------------------------------------------------------------------------------

  /** The replay of a stored checkpoint before it is exported. */
  ghost function VerifyStored(H: string -> string, b: Book, i: nat): bool
    requires i < |b.chain|
  {
    var c := b.chain[i];
    && (c.first == 1 ==> c.previous.None?)
    && (c.first > 1 ==> i > 0 && b.chain[i - 1].last == c.first - 1 && c.previous == Some(b.chain[i - 1].root))
    && var previous := if c.first == 1 || i == 0 then Genesis(H, b.name) else b.chain[i - 1].lastHash;
       var v := VerifyRange(H, b.name, c.first, c.last, previous, LoadRange(b.journal, c.first, c.last));
       v == Some(Verification(c.leaves, c.lastHash, c.root))
  }

  /** Every stored checkpoint replays, at any later time. */
  lemma StoredReplays(H: string -> string, b: Book, i: nat)
    requires Sound(H, b) && i < |b.chain|
    ensures VerifyStored(H, b, i)
  {
    hide Accepts, MerkleRoot, VerifyRange;
    var c := b.chain[i];
    assert Covering(H, b, i);
    RangeVerifies(H, b, c.first, c.last);
    if i > 0 {
      assert Covering(H, b, i - 1);
      assert b.chain[..i][i - 1] == b.chain[i - 1];
      assert b.journal[..c.first - 1][c.first - 2] == b.journal[c.first - 2];
    }
  }

  /** A signed newest checkpoint fixes the whole history up to it, from the first transaction on. */
  lemma NewestFixesHistory(H: string -> string, a: Book, b: Book)
    requires Digest(H) && Sound(H, a) && Sound(H, b) && a.chain != [] && b.chain != []
    requires var c, d := a.chain[|a.chain| - 1], b.chain[|b.chain| - 1];
             ValidCheckpoint(c) && ValidCheckpoint(d)
             && Payload(H, CheckpointDocument(c)) == Payload(H, CheckpointDocument(d))
    requires ListsApart(H, a.journal, b.journal)
    ensures var n := LatestLast(a.chain);
            n == LatestLast(b.chain) <= |a.journal| && n <= |b.journal| && a.journal[..n] == b.journal[..n]
  {
    hide Accepts, MerkleRoot, Digest, Payload, ValidCheckpoint, ListsApart, Genesis;
    var c, d := a.chain[|a.chain| - 1], b.chain[|b.chain| - 1];
    PayloadsInjective(H, CheckpointDocument(c), CheckpointDocument(d));
    assert Covering(H, a, |a.chain| - 1) && Covering(H, b, |b.chain| - 1);
    PrefixDecides(H, a, b, c.last);
  }

  lemma PrefixDecides(H: string -> string, a: Book, b: Book, n: nat)
    requires Sound(H, a) && Sound(H, b) && 0 < n <= |a.journal| && n <= |b.journal|
             && ListsApart(H, a.journal, b.journal)
    requires a.journal[n - 1].hash == b.journal[n - 1].hash
    ensures a.journal[..n] == b.journal[..n]
  {
    hide Accepts, Tiled, PayloadOf, Payable, Genesis;
    assert a.journal == a.journal[..n] + a.journal[n..] && b.journal == b.journal[..n] + b.journal[n..];
    RangesCompose(H, a.name, 1, Genesis(H, a.name), a.journal[..n], a.journal[n..]);
    RangesCompose(H, b.name, 1, Genesis(H, b.name), b.journal[..n], b.journal[n..]);
    LastHashDecides(H, a.name, 1, Genesis(H, a.name), a.journal[..n], b.name, 1, Genesis(H, b.name), b.journal[..n]);
  }
}
