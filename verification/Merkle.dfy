/** The Merkle root of a checkpoint: which leaf lists share a root. */
module Merkle {
  import opened Amounts
  import opened Frames
  import opened Payloads

  /** No two texts of the set share a hash. */
  ghost predicate CollisionFree(H: string -> string, s: set<string>) {
    forall x, y | x in s && y in s && H(x) == H(y) :: x == y
  }

  predicate AllHashes(leaves: seq<string>) {
    forall i | 0 <= i < |leaves| :: |leaves[i]| == 32
  }

  // ----- the tree ------------------------------------------------------------------------------

  function NodePayload(left: string, right: string, index: nat): string {
    Tag(MerkleNode) + (left + right + BigEndian(index, 8))
  }

  /** The right child of a node; an odd last node is paired with itself. */
  function Right(leaves: seq<string>, i: nat): string
    requires 2 * i < |leaves|
  {
    if 2 * i + 1 < |leaves| then leaves[2 * i + 1] else leaves[2 * i]
  }

  function NodeOf(leaves: seq<string>, i: nat): string
    requires 2 * i < |leaves|
  {
    NodePayload(leaves[2 * i], Right(leaves, i), i)
  }

  ghost function Level(H: string -> string, leaves: seq<string>): (next: seq<string>)
    ensures |next| == (|leaves| + 1) / 2
  {
    seq((|leaves| + 1) / 2, i requires 0 <= i < (|leaves| + 1) / 2 => H(NodeOf(leaves, i)))
  }

  ghost function Root(H: string -> string, leaves: seq<string>): string
    requires leaves != []
    decreases |leaves|
  {
    if |leaves| == 1 then leaves[0] else Root(H, Level(H, leaves))
  }

  ghost function MerkleRoot(H: string -> string, leaves: seq<string>): string {
    if leaves == [] then H(Tag(MerkleEmpty)) else Root(H, leaves)
  }

  function Depth(n: nat): nat
    requires n > 0
  {
    if n == 1 then 0 else 1 + Depth((n + 1) / 2)
  }

  /** The texts hashed on the way from the leaves to the root. */
  ghost function Nodes(H: string -> string, leaves: seq<string>): set<string>
    decreases |leaves|
  {
    if |leaves| <= 1 then {}
    else (set i | 0 <= i < (|leaves| + 1) / 2 :: NodeOf(leaves, i)) + Nodes(H, Level(H, leaves))
  }

  // ----- the loops ---------------------------------------------------------------------------------

  /** Replaces each level by the next until one node is left. */
  method ComputeRoot(H: string -> string, leaves: seq<string>) returns (root: string)
    ensures root == MerkleRoot(H, leaves)
  {
    hide NodePayload;
    if leaves == [] {
      return H(Tag(MerkleEmpty));
    }
    var level := leaves;
    while |level| > 1
      invariant level != [] && Root(H, level) == Root(H, leaves)
      decreases |level|
    {
      var next: seq<string> := [];
      var i := 0;
      while i < |level|
        invariant i % 2 == 0 && 0 <= i <= |level| + 1 && |next| == i / 2 && |next| <= (|level| + 1) / 2
        invariant next == Level(H, level)[..|next|]
      {
        var right := level[i];
        if i + 1 < |level| {
          right := level[i + 1];
        }
        var parent := H(NodePayload(level[i], right, i / 2));
        LevelAt(H, level, i / 2);
        next := next + [parent];
        i := i + 2;
      }
      assert next == Level(H, level);
      level := next;
    }
    return level[0];
  }

  // ----- one level -------------------------------------------------------------------------------------

  lemma NodeReads(l: string, r: string, i: nat, l': string, r': string, i': nat)
    requires |l| == 32 && |r| == 32 && |l'| == 32 && |r'| == 32 && i < Pow(8) && i' < Pow(8)
    requires NodePayload(l, r, i) == NodePayload(l', r', i')
    ensures l == l' && r == r' && i == i'
  {
    hide TagName, BigEndian, Pow;
    var x, y := l + r + BigEndian(i, 8), l' + r' + BigEndian(i', 8);
    TagsSeparate(MerkleNode, x, MerkleNode, y);
    CutAt(l + r, BigEndian(i, 8), l' + r', BigEndian(i', 8));
    CutAt(l, r, l', r');
    BigEndianInjective(i, i', 8);
  }

  ghost predicate Small(leaves: seq<string>) {
    |leaves| < Pow(8) && AllHashes(leaves)
  }

  lemma LevelSmall(H: string -> string, leaves: seq<string>)
    requires Digest(H) && Small(leaves)
    ensures Small(Level(H, leaves))
  {
    hide Pow, NodeOf;
    var up := Level(H, leaves);
    assert |up| <= |leaves|;
    forall i | 0 <= i < |up| ensures |up[i]| == 32 {
      LevelAt(H, leaves, i);
    }
  }

  lemma LevelAt(H: string -> string, leaves: seq<string>, i: nat)
    requires 2 * i < |leaves|
    ensures Level(H, leaves)[i] == H(NodeOf(leaves, i))
  {
    hide NodeOf;
    assert i < (|leaves| + 1) / 2;
  }

  lemma NodeIn(H: string -> string, leaves: seq<string>, i: nat)
    requires |leaves| > 1 && 2 * i < |leaves|
    ensures NodeOf(leaves, i) in Nodes(H, leaves)
  {
    assert 0 <= i < (|leaves| + 1) / 2;
    var x := NodeOf(leaves, i);
    assert x in (set j | 0 <= j < (|leaves| + 1) / 2 :: NodeOf(leaves, j));
  }

  /** Equal hashes at two places of two levels mean equal children at equal places. */
  lemma ParentsDecide(H: string -> string, s: set<string>, a: seq<string>, i: nat, b: seq<string>, j: nat)
    requires CollisionFree(H, s) && Small(a) && Small(b) && |a| > 1 && |b| > 1 && 2 * i < |a| && 2 * j < |b|
    requires Nodes(H, a) <= s && Nodes(H, b) <= s && Level(H, a)[i] == Level(H, b)[j]
    ensures i == j && a[2 * i] == b[2 * i] && Right(a, i) == Right(b, i)
  {
    hide NodePayload, Nodes, Pow;
    NodeIn(H, a, i);
    NodeIn(H, b, j);
    NodeReads(a[2 * i], Right(a, i), i, b[2 * j], Right(b, j), j);
  }

  /** The second list is the first with its last leaf, at an odd place, written twice. */
  predicate Repeats(a: seq<string>, b: seq<string>) {
    |a| >= 3 && |a| % 2 == 1 && b == a + [a[|a| - 1]]
  }

  /** One level up, a repeated odd leaf leaves no trace. */
  lemma RepeatIsLost(H: string -> string, a: seq<string>, b: seq<string>)
    requires Repeats(a, b)
    ensures Root(H, a) == Root(H, b)
  {
    hide NodePayload;
    forall i | 0 <= i < |Level(H, a)| ensures Level(H, a)[i] == Level(H, b)[i] {
      assert NodeOf(a, i) == NodeOf(b, i);
    }
    assert Level(H, a) == Level(H, b);
  }

  lemma LeavesAgree(H: string -> string, s: set<string>, a: seq<string>, b: seq<string>, k: nat)
    requires CollisionFree(H, s) && Small(a) && Small(b) && 1 < |a| <= |b| && Nodes(H, a) <= s && Nodes(H, b) <= s
    requires Level(H, a) == Level(H, b) && k < |a|
    ensures a[k] == b[k]
  {
    hide Level, Nodes, Small, CollisionFree;
    ParentsDecide(H, s, a, k / 2, b, k / 2);
  }

  /** Two levels with the same parents are equal, or one repeats the other's odd last leaf. */
  lemma LevelDecides(H: string -> string, s: set<string>, a: seq<string>, b: seq<string>)
    requires CollisionFree(H, s) && Small(a) && Small(b) && 1 < |a| <= |b| && Nodes(H, a) <= s && Nodes(H, b) <= s
    requires Level(H, a) == Level(H, b)
    ensures a == b || Repeats(a, b)
  {
    hide Level, Nodes, Small, CollisionFree;
    forall k | 0 <= k < |a| ensures a[k] == b[k] {
      LeavesAgree(H, s, a, b, k);
    }
    if |a| < |b| {
      assert (|a| + 1) / 2 == |Level(H, a)| == |Level(H, b)| == (|b| + 1) / 2;
      ParentsDecide(H, s, a, |a| / 2, b, |a| / 2);
      assert b == a + [b[|a|]];
    } else {
      assert a == b;
    }
  }

  // ----- whole trees --------------------------------------------------------------------------------------

  lemma NodesAbove(H: string -> string, leaves: seq<string>)
    requires |leaves| > 1
    ensures Nodes(H, Level(H, leaves)) <= Nodes(H, leaves)
  {
  }

  /** A level never ends in a repetition: the two nodes are hashed with their places. */
  lemma NoRepeatAbove(H: string -> string, s: set<string>, a: seq<string>, b: seq<string>)
    requires CollisionFree(H, s) && Small(a) && Small(b) && |a| > 1 && |b| > 1 && Nodes(H, a) <= s && Nodes(H, b) <= s
    ensures !Repeats(Level(H, a), Level(H, b))
  {
    hide NodePayload, Nodes, Pow;
    var up := Level(H, b);
    if |up| > 1 && up[|up| - 1] == up[|up| - 2] {
      ParentsDecide(H, s, b, |up| - 1, b, |up| - 2);
    }
    RepeatEnds(Level(H, a), up);
  }

  lemma RepeatEnds(a: seq<string>, b: seq<string>)
    ensures Repeats(a, b) ==> |b| > 1 && b[|b| - 1] == b[|b| - 2]
  {
  }

  /** Trees of one depth share a root exactly for equal leaves, up to one repeated odd leaf. */
  lemma {:induction false} SameDepth(H: string -> string, s: set<string>, a: seq<string>, b: seq<string>)
    requires Digest(H) && CollisionFree(H, s) && Small(a) && Small(b) && a != [] && |a| <= |b|
    requires Nodes(H, a) <= s && Nodes(H, b) <= s && Depth(|a|) == Depth(|b|) && Root(H, a) == Root(H, b)
    ensures a == b || Repeats(a, b)
    decreases |a|
  {
    hide Nodes, Pow, Level, Repeats, Digest, CollisionFree;
    if |a| == 1 {
      SingleDepth(|b|);
      assert a == [a[0]] && b == [b[0]];
    } else {
      SingleDepth(|b|);
      LevelSmall(H, a);
      LevelSmall(H, b);
      NodesAbove(H, a);
      NodesAbove(H, b);
      SameDepth(H, s, Level(H, a), Level(H, b));
      NoRepeatAbove(H, s, a, b);
      LevelDecides(H, s, a, b);
    }
  }

  lemma SingleDepth(n: nat)
    requires n > 0
    ensures Depth(n) == 0 <==> n == 1
  {
  }

  // ----- trees of different depth ------------------------------------------------------------------------------

  /** k levels up. */
  ghost function Up(H: string -> string, leaves: seq<string>, k: nat): seq<string>
    requires leaves != [] && k <= Depth(|leaves|)
    decreases k
  {
    if k == 0 then leaves else Up(H, Level(H, leaves), k - 1)
  }

  lemma {:induction false} UpKeeps(H: string -> string, leaves: seq<string>, k: nat)
    requires Digest(H) && Small(leaves) && leaves != [] && k <= Depth(|leaves|)
    ensures var up := Up(H, leaves, k);
            && up != [] && |up| <= |leaves| && Small(up) && Depth(|up|) == Depth(|leaves|) - k
            && Root(H, up) == Root(H, leaves) && Nodes(H, up) <= Nodes(H, leaves)
            && (k > 0 ==> exists p | p in Nodes(H, leaves) :: IsNode(p) && up[0] == H(p))
    decreases k
  {
    hide Nodes, Pow, Digest, IsNode;
    if k > 0 {
      SingleDepth(|leaves|);
      LevelSmall(H, leaves);
      NodesAbove(H, leaves);
      UpKeeps(H, Level(H, leaves), k - 1);
      if k == 1 {
        NodeIn(H, leaves, 0);
        assert Level(H, leaves)[0] == H(NodeOf(leaves, 0));
        NodeTagged(leaves, 0);
      }
    }
  }

  ghost predicate IsNode(p: string) {
    exists x :: p == Tag(MerkleNode) + x
  }

  lemma NodeTagged(leaves: seq<string>, i: nat)
    requires 2 * i < |leaves|
    ensures IsNode(NodeOf(leaves, i))
  {
    hide TagName;
    assert NodeOf(leaves, i) == Tag(MerkleNode) + (leaves[2 * i] + Right(leaves, i) + BigEndian(i, 8));
  }

  /** Each leaf is the hash of a ledger entry payload of the set. */
  ghost predicate EntryHashes(H: string -> string, s: set<string>, leaves: seq<string>) {
    forall i | 0 <= i < |leaves| :: exists x :: Tag(LedgerEntry) + x in s && leaves[i] == H(Tag(LedgerEntry) + x)
  }

  /** An entry's hash is never a node's: the tags differ. */
  lemma LeafIsNoNode(H: string -> string, s: set<string>, leaves: seq<string>, p: string)
    requires CollisionFree(H, s) && EntryHashes(H, s, leaves) && leaves != [] && p in s && IsNode(p)
    ensures leaves[0] != H(p)
  {
    hide TagName;
    var x :| Tag(LedgerEntry) + x in s && leaves[0] == H(Tag(LedgerEntry) + x);
    var y :| p == Tag(MerkleNode) + y;
    if Tag(LedgerEntry) + x == p {
      TagsSeparate(LedgerEntry, x, MerkleNode, y);
    }
  }

  lemma {:induction false} DepthGrows(n: nat, m: nat)
    requires 0 < n <= m
    ensures Depth(n) <= Depth(m)
    decreases m
  {
    if n > 1 {
      DepthGrows((n + 1) / 2, (m + 1) / 2);
    }
  }

  /** Trees of different depth never share a root. */
  lemma DepthShows(H: string -> string, s: set<string>, a: seq<string>, b: seq<string>)
    requires Digest(H) && CollisionFree(H, s) && Small(a) && Small(b) && a != [] && b != [] && EntryHashes(H, s, a)
    requires Nodes(H, a) <= s && Nodes(H, b) <= s && Depth(|a|) < Depth(|b|)
    ensures Root(H, a) != Root(H, b)
  {
    hide Nodes, Pow, Digest, CollisionFree, EntryHashes, IsNode, Level, Root, Up;
    var k := Depth(|b|) - Depth(|a|);
    UpKeeps(H, b, k);
    var up := Up(H, b, k);
    var p :| p in Nodes(H, b) && IsNode(p) && up[0] == H(p);
    LeafIsNoNode(H, s, a, p);
    if Root(H, a) == Root(H, up) {
      if |a| <= |up| {
        SameDepth(H, s, a, up);
      } else {
        SameDepth(H, s, up, a);
      }
    }
  }

  /** Everything hashed for two lists of entry hashes, the empty list's tag included. */
  ghost predicate Covers(H: string -> string, s: set<string>, a: seq<string>) {
    Small(a) && EntryHashes(H, s, a) && Nodes(H, a) <= s && Tag(MerkleEmpty) in s
  }

  lemma RootIsHash(H: string -> string, s: set<string>, a: seq<string>)
    requires Digest(H) && Covers(H, s, a) && a != []
    ensures exists p | p in s :: Root(H, a) == H(p) && p != Tag(MerkleEmpty)
  {
    hide Nodes, Pow, Digest, Root, Up, TagName;
    var k := Depth(|a|);
    UpKeeps(H, a, k);
    var up := Up(H, a, k);
    SingleDepth(|up|);
    assert Root(H, up) == up[0] by { RootOfOne(H, up); }
    if k == 0 {
      var x :| Tag(LedgerEntry) + x in s && a[0] == H(Tag(LedgerEntry) + x);
      NotEmptyTag(LedgerEntry, x);
      assert up == a by { UpZero(H, a); }
    } else {
      var p :| p in Nodes(H, a) && IsNode(p) && up[0] == H(p);
      var y :| p == Tag(MerkleNode) + y;
      NotEmptyTag(MerkleNode, y);
    }
  }

  lemma RootOfOne(H: string -> string, a: seq<string>)
    requires |a| == 1
    ensures Root(H, a) == a[0]
  {
  }

  lemma UpZero(H: string -> string, a: seq<string>)
    requires a != []
    ensures Up(H, a, 0) == a
  {
  }

  lemma NotEmptyTag(d: Domain, x: string)
    requires d != MerkleEmpty
    ensures Tag(d) + x != Tag(MerkleEmpty)
  {
    hide TagName;
    if Tag(d) + x == Tag(MerkleEmpty) {
      assert Tag(d) + x == Tag(MerkleEmpty) + "";
      TagsSeparate(d, x, MerkleEmpty, "");
    }
  }

  lemma EmptyRootDiffers(H: string -> string, s: set<string>, a: seq<string>)
    requires Digest(H) && CollisionFree(H, s) && Covers(H, s, a) && a != []
    ensures MerkleRoot(H, a) != MerkleRoot(H, [])
  {
    hide Nodes, Pow, Digest, Root, TagName, Covers;
    RootIsHash(H, s, a);
    var p :| p in s && Root(H, a) == H(p) && p != Tag(MerkleEmpty);
    assert Tag(MerkleEmpty) in s by { EmptyTagIn(H, s, a); }
  }

  lemma EmptyTagIn(H: string -> string, s: set<string>, a: seq<string>)
    requires Covers(H, s, a)
    ensures Tag(MerkleEmpty) in s
  {
  }

  lemma ShorterFirst(H: string -> string, s: set<string>, a: seq<string>, b: seq<string>)
    requires Digest(H) && CollisionFree(H, s) && Covers(H, s, a) && Covers(H, s, b) && a != [] && |a| <= |b|
    ensures Root(H, a) == Root(H, b) <==> a == b || Repeats(a, b)
  {
    hide Nodes, Pow, Digest, Root, CollisionFree, EntryHashes, Repeats, Small, TagName;
    DepthGrows(|a|, |b|);
    if Repeats(a, b) {
      RepeatIsLost(H, a, b);
    } else if Depth(|a|) < Depth(|b|) {
      DepthShows(H, s, a, b);
    } else if Root(H, a) == Root(H, b) {
      SameDepth(H, s, a, b);
    }
  }

  /**
   * Without a hash collision, two leaf lists share a root exactly when they are equal or one repeats the other's odd
   * last leaf.
   */
  lemma RootsDecideLeaves(H: string -> string, s: set<string>, a: seq<string>, b: seq<string>)
    requires Digest(H) && CollisionFree(H, s) && Covers(H, s, a) && Covers(H, s, b)
    ensures MerkleRoot(H, a) == MerkleRoot(H, b) <==> a == b || Repeats(a, b) || Repeats(b, a)
  {
    hide Pow, Digest, Root, CollisionFree, Covers;
    if a == [] && b == [] {
    } else if a == [] {
      EmptyRootDiffers(H, s, b);
    } else if b == [] {
      EmptyRootDiffers(H, s, a);
    } else if |a| <= |b| {
      ShorterFirst(H, s, a, b);
    } else {
      ShorterFirst(H, s, b, a);
    }
  }

  /** With the leaf count known, as every checkpoint payload states it, the root decides the leaves. */
  lemma CountedRootsDecide(H: string -> string, s: set<string>, a: seq<string>, b: seq<string>)
    requires Digest(H) && CollisionFree(H, s) && Covers(H, s, a) && Covers(H, s, b)
    requires |a| == |b| && MerkleRoot(H, a) == MerkleRoot(H, b)
    ensures a == b
  {
    hide MerkleRoot, Covers, Digest, CollisionFree;
    RootsDecideLeaves(H, s, a, b);
  }
}
