/** The lossy, duplicating, reordering message network between regions. */
module Network {
  import opened Amounts
  import opened Names
  import opened Journal

  /** A single-use instrument that carries spending rights from one region to another. */
  datatype Certificate = Certificate(
    transfer: string, asset: string, source: string, destination: string,
    amount: int, epoch: nat, commit: nat, proof: Digest)

  /** Message bodies; encoding and decoding a certificate is taken to be lossless. */
  datatype Payload = CertificatePayload(certificate: Certificate) | ProofPayload(proof: Digest)
      | TextPayload(text: string)

  datatype EnvelopeKind = Command | Event | Response | Ack

  datatype Envelope = Envelope(
    id: MessageId, from: string, to: string, kind: EnvelopeKind,
    correlation: MessageId, payload: Payload, sequence: nat, delivery: nat)

  /** A link is the unordered pair of its two ends. */
  type Link = set<string>

  datatype Net = Net(
    sequence: nat, dropPercent: nat, duplicateEvery: nat, reorder: bool,
    partitions: set<Link>, down: set<string>,
    dropNext: map<MessageId, int>, duplicateNext: map<MessageId, int>, loseResponse: map<MessageId, int>,
    queue: seq<Envelope>,
    lot: (nat, MessageId) -> nat)  // the seeded draw that decides random packet loss

  predicate Cut(down: set<string>, partitions: set<Link>, e: Envelope) {
    e.to in down || {e.from, e.to} in partitions
  }

  function Lower(counters: map<MessageId, int>, id: MessageId): map<MessageId, int> {
    counters[id := Get(counters, id) - 1]
  }

  /** Extra copies of an accepted envelope, numbered from 1 in a 32-bit counter. */
  function Copies(e: Envelope, k: nat): seq<Envelope> {
    if k == 0 then [] else Copies(e, k - 1) + [e.(delivery := k % 0x1_0000_0000)]
  }

  function ExtraCopies(n: Net, id: MessageId, sequence: nat): int {
    Get(n.duplicateNext, id) + if n.duplicateEvery > 0 && sequence % n.duplicateEvery == 0 then 1 else 0
  }

  /** What an accepted envelope adds to the queue: itself, numbered, and its extra copies. */
  function Accepted(n: Net, e: Envelope): seq<Envelope> {
    var accepted := e.(sequence := n.sequence + 1);
    var extra := ExtraCopies(n, e.id, n.sequence + 1);
    [accepted] + Copies(accepted, if extra > 0 then extra else 0)
  }

  function Sent(n: Net, e: Envelope): (Net, Option<Error>) {
    if e.from == "" || e.to == "" then (n, Some(ErrInvalidEnvelope))
    else if e.from in n.down || e.to in n.down then (n, Some(ErrNodeDown))
    else if {e.from, e.to} in n.partitions then (n, Some(ErrPartitioned))
    else if e.kind == Response && Get(n.loseResponse, e.correlation) > 0 then
      (n.(loseResponse := Lower(n.loseResponse, e.correlation)), Some(ErrPacketLost))
    else if Get(n.dropNext, e.id) > 0 then
      (n.(dropNext := Lower(n.dropNext, e.id)), Some(ErrPacketLost))
    else
      var sequence := n.sequence + 1;
      if n.lot(sequence, e.id) % 100 < n.dropPercent then (n.(sequence := sequence), Some(ErrPacketLost))
      else
        (n.(sequence := sequence, queue := n.queue + Accepted(n, e), duplicateNext := n.duplicateNext - {e.id}), None)
  }

  /** The first k queued envelopes that are cut off, or those that are not, in queue order. */
  function Selected(n: Net, k: nat, cut: bool): seq<Envelope>
    requires k <= |n.queue|
  {
    if k == 0 then []
    else
      var rest := Selected(n, k - 1, cut);
      if Cut(n.down, n.partitions, n.queue[k - 1]) == cut then rest + [n.queue[k - 1]] else rest
  }

  /** In reordering mode the newest envelope, and of one envelope its latest copy, comes first. */
  predicate Newer(a: Envelope, b: Envelope) {
    if a.sequence == b.sequence then a.delivery > b.delivery else a.sequence > b.sequence
  }

  function Insert(sorted: seq<Envelope>, e: Envelope): seq<Envelope> {
    if sorted != [] && Newer(e, sorted[|sorted| - 1])
    then Insert(sorted[..|sorted| - 1], e) + [sorted[|sorted| - 1]]
    else sorted + [e]
  }

  /** Stable newest-first order. */
  function NewestFirst(es: seq<Envelope>): seq<Envelope> {
    if es == [] then [] else Insert(NewestFirst(es[..|es| - 1]), es[|es| - 1])
  }

  function Drained(n: Net): (Net, seq<Envelope>) {
    var deliverable := Selected(n, |n.queue|, false);
    (n.(queue := Selected(n, |n.queue|, true)), if n.reorder then NewestFirst(deliverable) else deliverable)
  }

  ghost predicate SortedNewest(es: seq<Envelope>) {
    forall i, j | 0 <= i < j < |es| :: !Newer(es[j], es[i])
  }

  lemma {:induction false} InsertPermutes(sorted: seq<Envelope>, e: Envelope)
    ensures multiset(Insert(sorted, e)) == multiset(sorted) + multiset{e}
  {
    if sorted != [] && Newer(e, sorted[|sorted| - 1]) {
      InsertPermutes(sorted[..|sorted| - 1], e);
      assert sorted == sorted[..|sorted| - 1] + [sorted[|sorted| - 1]];
    }
  }

  lemma {:induction false} InsertSorts(sorted: seq<Envelope>, e: Envelope)
    requires SortedNewest(sorted)
    ensures SortedNewest(Insert(sorted, e))
  {
    if sorted == [] {
      return;
    }
    var front, last := sorted[..|sorted| - 1], sorted[|sorted| - 1];
    assert forall i | 0 <= i < |front| :: !Newer(last, front[i]);
    if Newer(e, last) {
      var inner := Insert(front, e);
      InsertSorts(front, e);
      InsertPermutes(front, e);
      forall i | 0 <= i < |inner| ensures !Newer(last, inner[i]) {
        assert inner[i] in multiset(inner);
      }
    }
  }

  /** Reordering permutes the deliverable envelopes and puts the newest first. */
  lemma {:induction false} NewestFirstSorts(es: seq<Envelope>)
    ensures SortedNewest(NewestFirst(es))
    ensures multiset(NewestFirst(es)) == multiset(es)
  {
    if es != [] {
      var front, last := es[..|es| - 1], es[|es| - 1];
      assert es == front + [last];
      NewestFirstSorts(front);
      InsertSorts(NewestFirst(front), last);
      InsertPermutes(NewestFirst(front), last);
    }
  }

  lemma {:induction false} SelectedParts(n: Net, k: nat)
    requires k <= |n.queue|
    ensures multiset(Selected(n, k, false)) + multiset(Selected(n, k, true)) == multiset(n.queue[..k])
  {
    if k > 0 {
      SelectedParts(n, k - 1);
      var e, cut := n.queue[k - 1], Cut(n.down, n.partitions, n.queue[k - 1]);
      hide Cut;
      assert n.queue[..k] == n.queue[..k - 1] + [e];
      assert Selected(n, k, cut) == Selected(n, k - 1, cut) + [e];
      assert Selected(n, k, !cut) == Selected(n, k - 1, !cut);
    }
  }

  lemma {:induction false} SelectedCut(n: Net, k: nat, cut: bool)
    requires k <= |n.queue|
    ensures forall i | 0 <= i < |Selected(n, k, cut)| :: Cut(n.down, n.partitions, Selected(n, k, cut)[i]) == cut
  {
    if k > 0 {
      SelectedCut(n, k - 1, cut);
    }
  }

  /** When no queued envelope is cut off, nothing is kept back. */
  lemma {:induction false} NothingKept(n: Net, k: nat)
    requires k <= |n.queue| && forall i | 0 <= i < k :: !Cut(n.down, n.partitions, n.queue[i])
    ensures Selected(n, k, true) == []
  {
    if k > 0 {
      NothingKept(n, k - 1);
    }
  }

  /** Draining loses and invents nothing: it splits the queue into what is deliverable and what is cut off. */
  lemma DrainPartitions(n: Net)
    ensures multiset(Drained(n).1) + multiset(Drained(n).0.queue) == multiset(n.queue)
    ensures forall e | e in n.queue :: e in Drained(n).1 <==> !Cut(n.down, n.partitions, e)
    ensures forall e | e in Drained(n).1 :: e in n.queue
    ensures forall e | e in Drained(n).0.queue :: e in n.queue && Cut(n.down, n.partitions, e)
  {
    SelectedParts(n, |n.queue|);
    SelectedCut(n, |n.queue|, false);
    SelectedCut(n, |n.queue|, true);
    assert n.queue[..|n.queue|] == n.queue;
    var deliverable, kept, out := Selected(n, |n.queue|, false), Selected(n, |n.queue|, true), Drained(n).1;
    NewestFirstSorts(deliverable);
    assert multiset(out) == multiset(deliverable);
    forall e ensures e in out <==> e in deliverable {
      assert e in out <==> e in multiset(out);
      assert e in deliverable <==> e in multiset(deliverable);
    }
    forall e ensures e in n.queue <==> e in deliverable || e in kept {
      assert e in n.queue <==> e in multiset(n.queue);
      assert e in deliverable <==> e in multiset(deliverable);
      assert e in kept <==> e in multiset(kept);
    }
  }

  /** The same message, whatever its sequence and delivery numbers. */
  predicate SameMessage(a: Envelope, b: Envelope) {
    a.(sequence := b.sequence, delivery := b.delivery) == b
  }

  lemma {:induction false} CopiesOf(e: Envelope, k: nat)
    ensures |Copies(e, k)| == k
    ensures forall i | 0 <= i < k :: SameMessage(Copies(e, k)[i], e)
  {
    if k > 0 {
      CopiesOf(e, k - 1);
    }
  }

  lemma AcceptedCopies(n: Net, e: Envelope)
    ensures |Accepted(n, e)| > 0 && forall i | 0 <= i < |Accepted(n, e)| :: SameMessage(Accepted(n, e)[i], e)
  {
    var accepted := e.(sequence := n.sequence + 1);
    var extra := ExtraCopies(n, e.id, n.sequence + 1);
    hide ExtraCopies, Copies;
    CopiesOf(accepted, if extra > 0 then extra else 0);
  }

  /** Sending appends copies of the envelope when it reports success, and nothing otherwise. */
  lemma SentQueue(n: Net, e: Envelope)
    ensures Sent(n, e).0.queue == if Sent(n, e).1.None? then n.queue + Accepted(n, e) else n.queue
    ensures Sent(n, e).0.partitions == n.partitions && Sent(n, e).0.down == n.down
            && Sent(n, e).0.dropPercent == n.dropPercent
    ensures Sent(n, e).1.None? ==> Sent(n, e).0.dropNext == n.dropNext
  {
    hide Accepted, Lower, Get;
    if e.from == "" || e.to == "" {
    } else if e.from in n.down || e.to in n.down {
    } else if {e.from, e.to} in n.partitions {
    } else if e.kind == Response && Get(n.loseResponse, e.correlation) > 0 {
    } else if Get(n.dropNext, e.id) > 0 {
    } else if n.lot(n.sequence + 1, e.id) % 100 < n.dropPercent {
    } else {
    }
  }

  /** Sending only ever appends copies of the envelope, at least one exactly when it reports success. */
  lemma SentAppends(n: Net, e: Envelope)
    ensures n.queue <= Sent(n, e).0.queue
    ensures forall i | |n.queue| <= i < |Sent(n, e).0.queue| :: SameMessage(Sent(n, e).0.queue[i], e)
    ensures Sent(n, e).1.None? <==> |Sent(n, e).0.queue| > |n.queue|
  {
    hide Sent, Accepted, SameMessage;
    SentQueue(n, e);
    AcceptedCopies(n, e);
  }

  // ----- what one send and one drain do --------------------------------------------------------------

  lemma {:induction false} CopiesAt(e: Envelope, k: nat, i: nat)
    requires i < k
    ensures |Copies(e, k)| == k && Copies(e, k)[i] == e.(delivery := (i + 1) % 0x1_0000_0000)
  {
    if k > 1 {
      CopiesAt(e, k - 1, if i < k - 1 then i else 0);
    }
  }

  /** The queue has grown by k + 1 envelopes: the message under its number, and k copies counted from one. */
  ghost predicate Queued(n: Net, n': Net, e: Envelope, k: nat) {
    && |n'.queue| == |n.queue| + 1 + k && n'.queue[..|n.queue|] == n.queue
    && n'.queue[|n.queue|] == e.(sequence := n.sequence + 1)
    && forall i | 1 <= i <= k ::
         n'.queue[|n.queue| + i] == e.(sequence := n.sequence + 1, delivery := i % 0x1_0000_0000)
  }

  lemma AcceptedIs(n: Net, e: Envelope, k: nat)
    requires k == (if ExtraCopies(n, e.id, n.sequence + 1) > 0 then ExtraCopies(n, e.id, n.sequence + 1) else 0)
    ensures Queued(n, n.(queue := n.queue + Accepted(n, e)), e, k)
  {
    hide ExtraCopies, Copies;
    var accepted := e.(sequence := n.sequence + 1);
    if k > 0 {
      CopiesAt(accepted, k, 0);
    } else {
      NoCopies(accepted);
    }
    forall i | 1 <= i <= k ensures Copies(accepted, k)[i - 1] == accepted.(delivery := i % 0x1_0000_0000) {
      CopiesAt(accepted, k, i - 1);
    }
  }

  lemma NoCopies(e: Envelope)
    ensures Copies(e, 0) == []
  {
  }

  /**
   * A send is refused by a missing end, a stopped end, a cut link, a response or a message marked for loss, or the
   * draw, in this order; otherwise the message is queued once and as often again as duplicates were asked for.
   */
  lemma SendOutcome(n: Net, e: Envelope)
    ensures var (n', error) := Sent(n, e);
            if e.from == "" || e.to == "" then (n', error) == (n, Some(ErrInvalidEnvelope))
            else if e.from in n.down || e.to in n.down then (n', error) == (n, Some(ErrNodeDown))
            else if {e.from, e.to} in n.partitions then (n', error) == (n, Some(ErrPartitioned))
            else if e.kind == Response && Get(n.loseResponse, e.correlation) > 0
            then error == Some(ErrPacketLost)
                 && n' == n.(loseResponse := n.loseResponse[e.correlation := Get(n.loseResponse, e.correlation) - 1])
            else if Get(n.dropNext, e.id) > 0
            then error == Some(ErrPacketLost) && n' == n.(dropNext := n.dropNext[e.id := Get(n.dropNext, e.id) - 1])
            else if n.lot(n.sequence + 1, e.id) % 100 < n.dropPercent
            then (n', error) == (n.(sequence := n.sequence + 1), Some(ErrPacketLost))
            else
              var asked := Get(n.duplicateNext, e.id)
                           + if n.duplicateEvery != 0 && (n.sequence + 1) % n.duplicateEvery == 0 then 1 else 0;
              && error.None? && Queued(n, n', e, if asked > 0 then asked else 0)
              && n' == n.(sequence := n.sequence + 1, queue := n'.queue, duplicateNext := n.duplicateNext - {e.id})
  {
    hide Accepted;
    var asked := ExtraCopies(n, e.id, n.sequence + 1);
    AcceptedIs(n, e, if asked > 0 then asked else 0);
  }

  ghost predicate Rising(at: seq<nat>, bound: nat) {
    (forall i, j | 0 <= i < j < |at| :: at[i] < at[j]) && forall i | 0 <= i < |at| :: at[i] < bound
  }

  lemma {:induction false} SelectedInOrder(n: Net, k: nat, cut: bool) returns (at: seq<nat>)
    requires k <= |n.queue|
    ensures |at| == |Selected(n, k, cut)| && Rising(at, k)
    ensures forall i | 0 <= i < |at| :: at[i] < |n.queue| && Selected(n, k, cut)[i] == n.queue[at[i]]
  {
    hide Cut;
    if k == 0 {
      at := [];
    } else {
      at := SelectedInOrder(n, k - 1, cut);
      if Cut(n.down, n.partitions, n.queue[k - 1]) == cut {
        at := at + [k - 1];
      }
    }
  }

  /** Without reordering, what is delivered and what is kept each stay in the order in which they were queued. */
  lemma DrainKeepsOrder(n: Net) returns (delivered: seq<nat>, kept: seq<nat>)
    ensures |kept| == |Drained(n).0.queue| && Rising(kept, |n.queue|)
    ensures forall i | 0 <= i < |kept| :: Drained(n).0.queue[i] == n.queue[kept[i]]
    ensures !n.reorder ==>
              && |delivered| == |Drained(n).1| && Rising(delivered, |n.queue|)
              && forall i | 0 <= i < |delivered| :: Drained(n).1[i] == n.queue[delivered[i]]
  {
    hide Selected, NewestFirst;
    delivered := SelectedInOrder(n, |n.queue|, false);
    kept := SelectedInOrder(n, |n.queue|, true);
  }
}
