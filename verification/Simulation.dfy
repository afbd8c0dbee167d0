/** The deterministic fault-injecting network as the object the world sends through. */
module Simulation {
  import opened Amounts
  import opened Names
  import opened Journal
  import opened N = Network

  class Network {
    var sequence: nat
    var dropPercent: nat
    var duplicateEvery: nat
    var reorder: bool
    var partitions: set<Link>
    var down: set<string>
    var dropNext: map<MessageId, int>
    var duplicateNext: map<MessageId, int>
    var loseResponse: map<MessageId, int>
    var queue: seq<Envelope>
    const lot: (nat, MessageId) -> nat

    ghost function View(): Net
      reads this
    {
      Net(sequence, dropPercent, duplicateEvery, reorder, partitions, down, dropNext, duplicateNext, loseResponse,
          queue, lot)
    }

    constructor (lot: (nat, MessageId) -> nat)
      ensures View() == Net(0, 0, 0, false, {}, {}, map[], map[], map[], [], lot)
    {
      sequence, dropPercent, duplicateEvery, reorder := 0, 0, 0, false;
      partitions, down, dropNext, duplicateNext, loseResponse, queue := {}, {}, map[], map[], map[], [];
      this.lot := lot;
    }

    method Partition(a: string, b: string)
      modifies this
      ensures View() == old(View()).(partitions := old(partitions) + {{a, b}})
    {
      partitions := partitions + {{a, b}};
    }

    method Heal(a: string, b: string)
      modifies this
      ensures View() == old(View()).(partitions := old(partitions) - {{a, b}})
    {
      partitions := partitions - {{a, b}};
    }

    method HealAll()
      modifies this
      ensures View() == old(View()).(partitions := {})
    {
      partitions := {};
    }

    method SetDropPercent(percent: nat)
      modifies this
      ensures View() == old(View()).(dropPercent := if percent > 100 then 100 else percent)
    {
      dropPercent := if percent > 100 then 100 else percent;
    }

    method DropNext(id: MessageId, count: int)
      modifies this
      ensures View() ==
              old(View()).(dropNext := if count > 0 then old(dropNext)[id := Get(old(dropNext), id) + count]
                                       else old(dropNext))
    {
      if count > 0 {
        dropNext := dropNext[id := Get(dropNext, id) + count];
      }
    }

    method DuplicateNext(id: MessageId, extra: int)
      modifies this
      ensures View() == old(View()).(duplicateNext :=
                if extra > 0 then old(duplicateNext)[id := Get(old(duplicateNext), id) + extra] else old(duplicateNext))
    {
      if extra > 0 {
        duplicateNext := duplicateNext[id := Get(duplicateNext, id) + extra];
      }
    }

    method Crash(node: string)
      modifies this`down
      ensures down == old(down) + {node}
    {
      down := down + {node};
    }

    method Restart(node: string)
      modifies this`down
      ensures down == old(down) - {node}
    {
      down := down - {node};
    }

    /** Faults are decided in a fixed order; an accepted envelope is queued with its extra copies. */
    method Send(e: Envelope) returns (error: Option<Error>)
      modifies this
      ensures (View(), error) == Sent(old(View()), e)
    {
      if e.from == "" || e.to == "" {
        return Some(ErrInvalidEnvelope);
      }
      if e.from in down || e.to in down {
        return Some(ErrNodeDown);
      }
      if {e.from, e.to} in partitions {
        return Some(ErrPartitioned);
      }
      if e.kind == Response && Get(loseResponse, e.correlation) > 0 {
        loseResponse := Lower(loseResponse, e.correlation);
        return Some(ErrPacketLost);
      }
      if Get(dropNext, e.id) > 0 {
        dropNext := Lower(dropNext, e.id);
        return Some(ErrPacketLost);
      }
      sequence := sequence + 1;
      if lot(sequence, e.id) % 100 < dropPercent {
        return Some(ErrPacketLost);
      }
      Accept(e.(sequence := sequence));
      error := None;
    }

    /** Queues a numbered envelope and its extra copies, and clears the pending duplications of its message. */
    method Accept(e: Envelope)
      requires sequence > 0 && e.sequence == sequence
      modifies this`queue, this`duplicateNext
      ensures queue == old(queue) + Accepted(old(View()).(sequence := sequence - 1), e)
      ensures duplicateNext == old(duplicateNext) - {e.id}
    {
      ghost var n := View().(sequence := sequence - 1);
      queue := queue + [e];
      var extra := Get(duplicateNext, e.id);
      duplicateNext := duplicateNext - {e.id};
      if duplicateEvery > 0 && sequence % duplicateEvery == 0 {
        extra := extra + 1;
      }
      assert extra == ExtraCopies(n, e.id, sequence);
      var delivery := 1;
      while delivery <= extra
        invariant 1 <= delivery && (delivery <= extra + 1 || extra < 1)
        invariant queue == old(queue) + ([e] + Copies(e, if extra > 0 then delivery - 1 else 0))
        invariant duplicateNext == old(duplicateNext) - {e.id}
      {
        queue := queue + [e.(delivery := delivery % 0x1_0000_0000)];
        assert Copies(e, delivery) == Copies(e, delivery - 1) + [e.(delivery := delivery % 0x1_0000_0000)];
        delivery := delivery + 1;
      }
    }

    /** Takes every envelope that is not cut off, newest first in reordering mode, and leaves the rest queued. */
    method Drain() returns (result: seq<Envelope>)
      modifies this`queue
      ensures (View(), result) == Drained(old(View()))
    {
      ghost var n := View();
      result := [];
      var remaining: seq<Envelope> := [];
      for i := 0 to |queue|
        invariant queue == n.queue
        invariant result == Selected(n, i, false) && remaining == Selected(n, i, true)
      {
        if queue[i].to in down || {queue[i].from, queue[i].to} in partitions {
          remaining := remaining + [queue[i]];
        } else {
          result := result + [queue[i]];
        }
      }
      queue := remaining;
      if reorder {
        result := StableNewestFirst(result);
      }
    }
  }

  method InsertNewest(sorted: seq<Envelope>, e: Envelope) returns (longer: seq<Envelope>)
    ensures longer == Insert(sorted, e)
  {
    hide Insert, Newer;
    var j := |sorted|;
    assert sorted[..j] == sorted && sorted[j..] == [];
    while j > 0 && Newer(e, sorted[j - 1])
      invariant 0 <= j <= |sorted|
      invariant Insert(sorted, e) == Insert(sorted[..j], e) + sorted[j..]
    {
      InsertPasses(sorted[..j], e);
      assert sorted[..j][..j - 1] == sorted[..j - 1] && [sorted[j - 1]] + sorted[j..] == sorted[j - 1..];
      j := j - 1;
    }
    InsertStops(sorted[..j], e);
    longer := sorted[..j] + [e] + sorted[j..];
  }

  /** A stable sort, newest envelope first. */
  method StableNewestFirst(es: seq<Envelope>) returns (sorted: seq<Envelope>)
    ensures sorted == NewestFirst(es)
    ensures SortedNewest(sorted) && multiset(sorted) == multiset(es)
  {
    hide Insert, SortedNewest;
    sorted := [];
    for i := 0 to |es|
      invariant sorted == NewestFirst(es[..i])
    {
      assert es[..i + 1][..i] == es[..i];
      sorted := InsertNewest(sorted, es[i]);
    }
    assert es[..|es|] == es;
    NewestFirstSorts(es);
  }

  lemma InsertPasses(sorted: seq<Envelope>, e: Envelope)
    requires |sorted| > 0 && Newer(e, sorted[|sorted| - 1])
    ensures Insert(sorted, e) == Insert(sorted[..|sorted| - 1], e) + [sorted[|sorted| - 1]]
  {
  }

  lemma InsertStops(sorted: seq<Envelope>, e: Envelope)
    requires |sorted| > 0 ==> !Newer(e, sorted[|sorted| - 1])
    ensures Insert(sorted, e) == sorted + [e]
  {
  }
}
