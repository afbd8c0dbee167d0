/** Every message can still arrive, and an expired lease settles nothing. */
module MessagingProgress {
  import opened Amounts
  import opened Messaging

  /** The row is neither retired nor out of attempts, and this consumer has not poisoned the message. */
  predicate CanArrive(y: System, event: string, consumer: string) {
    && event in y.outbox && y.outbox[event].status != Retired
    && (y.outbox[event].status != Published ==> y.outbox[event].attempts < MAX_INT64)
    && (Slot(consumer, event) in y.inbox ==> y.inbox[Slot(consumer, event)].status != Poisoned)
  }

  /** Published, in the broker, and applied with one effect. */
  ghost predicate HasArrived(y: System, event: string, consumer: string, m: Message) {
    && event in y.outbox && y.outbox[event].status == Published && y.outbox[event].message == m && m in y.broker
    && Slot(consumer, event) in y.inbox && y.inbox[Slot(consumer, event)].status == Applied
    && y.inbox[Slot(consumer, event)].message == m && Count(y.effects, Slot(consumer, event)) == 1
  }

  /** One publisher's round on a row that is free or whose lease may be taken over. */
  lemma PublishRound(y: System, event: string, worker: nat, owner: string)
    returns (states: seq<System>, steps: seq<Step>)
    requires Inv(y) && event in y.outbox && y.outbox[event].status in {Pending, Publishing}
    requires y.outbox[event].attempts < MAX_INT64 && worker !in y.claims
    ensures IsRun(states, steps) && |steps| == 3 && states[0] == y
    ensures var z := states[3];
            && Inv(z) && event in z.outbox && z.outbox[event].status == Published
            && z.outbox[event].message == y.outbox[event].message && z.outbox[event].message in z.broker
            && z.inbox == y.inbox && z.lapses == y.lapses && z.claims == y.claims
  {
    hide Inv;
    var t0, t1, t2 := DoClaim(worker, owner, event, true), DoPublish(worker, true, Sent), DoMark(worker, 1);
    var y1 := After(y, t0);
    var y2 := After(y1, t1);
    var y3 := After(y2, t2);
    StepKeeps(y, t0);
    StepKeeps(y1, t1);
    StepKeeps(y2, t2);
    states, steps := [y, y1, y2, y3], [t0, t1, t2];
  }

  lemma Applies(y: System, event: string, consumer: string, worker: nat)
    requires Inv(y) && event in y.outbox && y.outbox[event].status == Published && consumer != ""
    requires worker !in y.lapses
    requires Slot(consumer, event) in y.inbox ==> y.inbox[Slot(consumer, event)].status != Poisoned
    ensures var m := y.outbox[event].message;
            var t := DoDeliver(worker, consumer, m, true);
            Enabled(y, t) && Inv(After(y, t)) && HasArrived(After(y, t), event, consumer, m)
  {
    hide Count, ClaimsOk;
    var m := y.outbox[event].message;
    var s, t := Slot(consumer, event), DoDeliver(worker, consumer, m, true);
    assert OutRowOk(y.invalid, y.broker, event, y.outbox[event]);
    if s in y.inbox {
      assert InRowOk(y, s, y.inbox[s]);
      SameMessage(y, event, y.inbox[s].message);
    }
    StepKeeps(y, t);
    assert InRowOk(After(y, t), s, After(y, t).inbox[s]);
  }

  lemma SameMessage(y: System, event: string, m: Message)
    requires Inv(y) && m in y.broker && m.event == event
    ensures event in y.outbox && y.outbox[event].message == m
  {
    hide InboxOk, ClaimsOk, OutboxOk;
  }

  /**
   * From every reachable state, whatever crashes, lost answers and failures came before, a message that is not retired
   * and not poisoned for a consumer can be published and applied there with exactly one effect, in at most four steps.
   */
  lemma EveryMessageCanArrive(y: System, event: string, consumer: string, worker: nat, owner: string)
    returns (states: seq<System>, steps: seq<Step>)
    requires Inv(y) && CanArrive(y, event, consumer) && consumer != "" && worker !in y.claims && worker !in y.lapses
    ensures IsRun(states, steps) && |steps| <= 4 && states[0] == y
    ensures HasArrived(states[|steps|], event, consumer, y.outbox[event].message)
  {
    hide Inv, After, Enabled, HasArrived;
    if y.outbox[event].status == Published {
      states, steps := [y], [];
    } else {
      states, steps := PublishRound(y, event, worker, owner);
    }
    var z := states[|steps|];
    Applies(z, event, consumer, worker);
    var t := DoDeliver(worker, consumer, y.outbox[event].message, true);
    RunGrows(states, steps, t);
    states, steps := states + [After(z, t)], steps + [t];
  }

  /** A publisher whose lease has been taken over, or whose row is settled, changes no row by what it reports. */
  lemma LostLeaseMarksNothing(y: System, worker: nat, most: nat)
    requires Enabled(y, DoMark(worker, most))
    requires var c := y.claims[worker];
             c.event !in y.outbox || y.outbox[c.event].status != Publishing || y.outbox[c.event].owner != c.owner
    ensures After(y, DoMark(worker, most)).outbox == y.outbox
  {
  }

  /**
   * The holder of a lease settles its row: a sent message is published; a failed one goes back to pending, unless it is
   * malformed and has used up the attempts its publisher grants, or has used up all attempts there are.
   */
  lemma HeldLeaseMarks(y: System, worker: nat, most: nat)
    requires Inv(y) && Enabled(y, DoMark(worker, most))
    requires var c := y.claims[worker];
             c.event in y.outbox && y.outbox[c.event].status == Publishing && y.outbox[c.event].owner == c.owner
    ensures var c, outbox := y.claims[worker], After(y, DoMark(worker, most)).outbox;
            && c.event in outbox
            && outbox == y.outbox[c.event := y.outbox[c.event].(status := outbox[c.event].status, owner := "")]
            && (outbox[c.event].status == Published <==> c.progress == Sent)
            && (outbox[c.event].status == Retired <==>
                  c.progress != Sent
                  && y.outbox[c.event].attempts >= if c.progress == Faulted(true) then most else MAX_INT64)
            && outbox[c.event].status != Publishing
  {
    hide Inv;
  }
}
