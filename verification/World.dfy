/** The protocol world as the object the scenarios drive: each method does to the fields what its specification says. */
module Worlds {
  import opened Amounts
  import opened Names
  import opened Journal
  import opened N = Network
  import opened Protocol
  import opened Invariants
  import opened Preservation
  import opened Delivery
  import opened Recovery
  import opened Genesis
  import opened Totals
  import opened Sorting
  import opened Posting
  import opened Auditing
  import P = Protocol
  import J = Journal
  import Simulation

  // What a commit records does not depend on the ledger it is recorded next to.

  lemma CaptureApart(s: State, region: string, key: string, op: string, amount: int, ledger: Ledger, receipt: Receipt)
    requires region in s.regions
    ensures AfterCapture(s.(ledger := ledger), region, key, op, amount, ledger, receipt) ==
            AfterCapture(s, region, key, op, amount, ledger, receipt)
  {
    hide EffectName;
  }

  lemma DepositApart(s: State, region: string, key: string, op: string, amount: int, ledger: Ledger, receipt: Receipt)
    requires region in s.regions
    ensures AfterDeposit(s.(ledger := ledger), region, key, op, amount, ledger, receipt) ==
            AfterDeposit(s, region, key, op, amount, ledger, receipt)
  {
    hide EffectName;
  }

  lemma ReleaseApart(s: State, region: string, key: string, release: string, payment: string, amount: int,
                     kind: ReleaseKind,
                     ledger: Ledger, receipt: Receipt)
    requires region in s.regions && payment in s.payments
    ensures AfterRelease(s.(ledger := ledger), region, key, release, payment, amount, kind, ledger, receipt) ==
            AfterRelease(s, region, key, release, payment, amount, kind, ledger, receipt)
  {
    hide EffectName, Released;
  }

  lemma CashbackApart(s: State, region: string, key: string, grant: string, op: string, amount: int, maximum: int,
                      ledger: Ledger, receipt: Receipt)
    requires region in s.regions
    ensures AfterCashback(s.(ledger := ledger), region, key, grant, op, amount, maximum, ledger, receipt) ==
            AfterCashback(s, region, key, grant, op, amount, maximum, ledger, receipt)
  {
    hide Get;
  }

  lemma IssueApart(s: State, c: Certificate, ledger: Ledger, receipt: Receipt)
    requires c.source in s.regions
    ensures AfterIssue(s.(ledger := ledger), c, ledger, receipt) == AfterIssue(s, c, ledger, receipt)
  {
    hide TransferRecord;
  }

  lemma ConsumeApart(s: State, m: MessageId, c: Certificate, ledger: Ledger, receipt: Receipt)
    requires c.destination in s.regions && c.transfer in s.transfers
    ensures AfterConsume(s.(ledger := ledger), m, c, ledger, receipt) == AfterConsume(s, m, c, ledger, receipt)
  {
  }

  lemma FraudApart(s: State, event: string, payment: string, rest: int, ledger: Ledger, receipt: Receipt)
    requires event in s.verdicts && payment in s.payments && s.payments[payment].region in s.regions
    ensures AfterFraud(s.(ledger := ledger), event, payment, rest, ledger, receipt) ==
            AfterFraud(s, event, payment, rest, ledger, receipt)
  {
    hide Released;
  }

  /** The transfers whose command still waits for its acknowledgement. */
  ghost function WaitingTransfers(outbox: map<MessageId, OutboxRecord>): set<string> {
    set m | m in outbox && Waiting(outbox[m]) && m.TransferMessage? :: m.transfer
  }

  lemma WaitingTransfer(outbox: map<MessageId, OutboxRecord>, id: string)
    ensures id in WaitingTransfers(outbox) <==> TransferMessage(id) in outbox && Waiting(outbox[TransferMessage(id)])
  {
    if TransferMessage(id) in outbox && Waiting(outbox[TransferMessage(id)]) {
      assert TransferMessage(id).transfer in WaitingTransfers(outbox);
    }
  }

  function Commands(names: seq<string>): (ids: seq<MessageId>)
    ensures |ids| == |names| && forall i | 0 <= i < |names| :: ids[i] == TransferMessage(names[i])
  {
    seq(|names|, i requires 0 <= i < |names| => TransferMessage(names[i]))
  }

  /** The waiting messages of the outbox, each once, in increasing order of their names. */
  ghost predicate DispatchOrder(ids: seq<MessageId>, outbox: map<MessageId, OutboxRecord>) {
    && (forall i | 0 <= i < |ids| :: ids[i] in outbox && Waiting(outbox[ids[i]]))
    && (forall m | m in outbox && Waiting(outbox[m]) :: m in ids)
    && (forall i, j | 0 <= i < j < |ids| :: Below(MessageName(ids[i]), MessageName(ids[j])))
  }

  lemma CommandsInOrder(names: seq<string>, outbox: map<MessageId, OutboxRecord>)
    requires Enumerates(names, WaitingTransfers(outbox)) && Increasing(names)
    requires forall m | m in outbox && Waiting(outbox[m]) :: m.TransferMessage?
    ensures DispatchOrder(Commands(names), outbox)
  {
    hide Below, Waiting;
    var ids := Commands(names);
    EnumeratesExactly(names, WaitingTransfers(outbox));
    forall i | 0 <= i < |ids| ensures ids[i] in outbox && Waiting(outbox[ids[i]]) {
      WaitingTransfer(outbox, names[i]);
    }
    forall m | m in outbox && Waiting(outbox[m]) ensures m in ids {
      WaitingTransfer(outbox, m.transfer);
      var i :| 0 <= i < |names| && names[i] == m.transfer;
      assert ids[i] == m;
    }
    forall i, j | 0 <= i < j < |ids| ensures Below(MessageName(ids[i]), MessageName(ids[j])) {
      BelowPrefix("transfer:", names[i], names[j]);
      assert MessageName(ids[i]) == "transfer:" + names[i] && MessageName(ids[j]) == "transfer:" + names[j];
    }
  }

  lemma NothingListed<T>()
    ensures Enumerates<T>([], {})
  {
  }

  lemma DispatchOrdered(ids: seq<MessageId>, outbox: map<MessageId, OutboxRecord>)
    requires DispatchOrder(ids, outbox)
    ensures forall i | 0 <= i < |ids| :: ids[i] in outbox && Waiting(outbox[ids[i]])
    ensures forall m | m in outbox && Waiting(outbox[m]) :: m in ids
  {
  }

  lemma AttemptedCommand(outbox: map<MessageId, OutboxRecord>, m: MessageId)
    requires m in outbox
    ensures m in Attempted(outbox) && CommandFor(Attempted(outbox)[m]) == CommandFor(outbox[m])
  {
  }

  /** Counts one more attempt on every waiting record and lists the waiting transfers in visiting order. */
  method CountAttempts(outbox: map<MessageId, OutboxRecord>)
    returns (marked: map<MessageId, OutboxRecord>, names: seq<string>)
    requires forall m | m in outbox && Waiting(outbox[m]) :: m.TransferMessage?
    ensures marked == Attempted(outbox) && Enumerates(names, WaitingTransfers(outbox))
  {
    hide Waiting, Enumerates;
    marked, names := outbox, [];
    ghost var done: set<string> := {};
    NothingListed<string>();
    var left := outbox.Keys;
    while left != {}
      invariant left <= outbox.Keys && marked.Keys == outbox.Keys
      invariant forall m | m in left :: marked[m] == outbox[m]
      invariant forall m | m in outbox.Keys - left :: marked[m] == Attempted(outbox)[m]
      invariant Enumerates(names, done)
      invariant forall id ::
                  id in done <==> TransferMessage(id) in outbox.Keys - left && Waiting(outbox[TransferMessage(id)])
      decreases |left|
    {
      var m :| m in left;
      left := left - {m};
      if Waiting(marked[m]) {
        EnumeratesMore(names, done, m.transfer);
        names := names + [m.transfer];
        done := done + {m.transfer};
        marked := marked[m := marked[m].(attempts := marked[m].attempts + 1)];
      }
    }
    assert marked == Attempted(outbox);
    forall id ensures id in done <==> id in WaitingTransfers(outbox) { WaitingTransfer(outbox, id); }
    assert done == WaitingTransfers(outbox);
  }

  lemma PostedAgain(l: Ledger, effect: EffectId, kind: Kind, request: Fingerprint, lines: seq<Line>)
    ensures match J.Post(l, effect, kind, request, lines)
            case Rejected(_) => true
            case Posted(ledger, receipt) => receipt.duplicate ==> ledger == l
  {
    hide FirstBad, Balanced, Committed;
    if effect == NoEffect || |lines| < 2 {
    } else if effect in l.effects {
      if l.effects[effect].request == request {
      } else {
      }
    } else if FirstBad(l.balances, lines, |lines|).Some? {
    } else if !Balanced(lines) {
    } else {
    }
  }

  // ----- building a world -------------------------------------------------------------------

  /** Validates the configuration: names, signs, and rights that add up to balance plus credit. */
  method CheckConfig(config: Config) returns (ok: bool)
    ensures ok <==> ValidConfig(config)
  {
    hide Total;
    if config.asset == "" || config.initialBalance < 0 || config.creditLimit < 0 || config.unallocated < 0 {
      return false;
    }
    var authority := Add(config.initialBalance, config.creditLimit);
    if authority.None? {
      return false;
    }
    ghost var rights := Plain(config.regionalRights);
    var total: int := config.unallocated;
    var left := config.regionalRights.Keys;
    assert rights - left == map[];
    TotalOfNothing();
    while left != {}
      invariant left <= config.regionalRights.Keys
      invariant forall n | n in config.regionalRights && n !in left :: n != "" && config.regionalRights[n] >= 0
      invariant total == config.unallocated + Total(rights - left) && Fits(total)
      decreases |left|
    {
      var n :| n in left;
      if n == "" || config.regionalRights[n] < 0 {
        return false;
      }
      TotalVisit(rights, left, n);
      left := left - {n};
      if !Fits(total + config.regionalRights[n]) {
        if ValidConfig(config) {
          TotalPart(rights, left);
        }
        return false;
      }
      total := total + config.regionalRights[n];
    }
    assert rights - {} == rights;
    ok := total == authority.value;
  }

  lemma TotalOfNothing()
    ensures Total<string>(map[]) == 0
  {
  }

  method RegionNames(regions: map<string, Region>) returns (names: seq<string>)
    ensures Enumerates(names, regions.Keys)
  {
    hide Enumerates;
    names := [];
    NothingListed<string>();
    var left := regions.Keys;
    assert regions.Keys - left == {};
    while left != {}
      invariant left <= regions.Keys && Enumerates(names, regions.Keys - left)
      decreases |left|
    {
      var name :| name in left;
      EnumeratesMore(names, regions.Keys - left, name);
      assert regions.Keys - left + {name} == regions.Keys - (left - {name});
      names := names + [name];
      left := left - {name};
    }
    assert regions.Keys - {} == regions.Keys;
  }

  lemma ListsRegions(names: seq<string>, regions: map<string, Region>)
    requires Enumerates(names, regions.Keys)
    ensures Lists(names, regions) && forall i | 0 <= i < |names| :: names[i] in regions
  {
    EnumeratesExactly(names, regions.Keys);
  }

  method BuildGenesisLines(config: Config, names: seq<string>) returns (lines: seq<Line>)
    requires forall i | 0 <= i < |names| :: names[i] in InitialRegions(config)
    ensures lines == GenesisLines(config, names)
  {
    hide InitialRegions;
    lines := [];
    if config.initialBalance > 0 {
      lines :=
        lines + [Line(Funding, config.asset, Debit, config.initialBalance),
                 Line(User, config.asset, Credit, config.initialBalance)];
    }
    var authority, total, regions :=
      AUTHORITY_PREFIX + config.asset, config.initialBalance + config.creditLimit, InitialRegions(config);
    if total > 0 {
      lines := lines + [Line(Issuer, authority, Debit, total)];
      if config.unallocated > 0 {
        lines := lines + [Line(Unallocated, authority, Credit, config.unallocated)];
      }
      ghost var before := lines;
      for i := 0 to |names|
        invariant lines == before + RegionLines(authority, regions, names, i)
      {
        if regions[names[i]].rights > 0 {
          lines := lines + [Line(Regional(names[i]), authority, Credit, regions[names[i]].rights)];
        }
      }
    }
  }

  lemma GenesisCreates(config: Config, names: seq<string>, lot: (nat, MessageId) -> nat)
    requires ValidConfig(config) && Lists(names, InitialRegions(config))
    ensures var lines := GenesisLines(config, names);
            if lines == [] then Created(config, names, lot) == Blank(config, lot)
            else GenesisPost(config, names).Posted? &&
                 Created(config, names, lot) == Blank(config, lot).(ledger := GenesisPost(config, names).ledger)
  {
    hide Inv, GenesisLines, GenesisPost;
    CreatedKeeps(config, names, lot);
  }

  class World {
    const asset: string
    const creditLimit: int
    const unallocated: Amount
    const key: string
    const network: Simulation.Network

    var authorityTotal: int
    var regions: map<string, Region>
    var balances: map<Account, int>
    var journal: seq<Transaction>
    var effects: map<EffectId, Effect>
    var sequence: nat
    var head: Digest
    var idempotency: map<string, Answered>
    var payments: map<string, Payment>
    var refunds: map<string, int>
    var cashbackRules: map<string, int>
    var cashbackPaid: map<string, int>
    var transfers: map<string, Transfer>
    var outbox: map<MessageId, OutboxRecord>
    var inbox: map<MessageId, InboxRecord>
    var loseResponses: map<string, int>
    var crashBefore: map<string, int>
    var crashAfter: map<string, int>
    var consumerCrash: map<MessageId, int>
    var coordinatorCrash: map<string, int>
    var coordinatorRunning: bool
    var sagas: map<string, Saga>
    var tick: nat
    var verdicts: map<string, Verdict>
    var dcHealthy: map<string, bool>

    ghost function Books(): Ledger
      reads this
    {
      Ledger(balances, journal, effects, sequence, head)
    }

    ghost function View(): State
      reads this, network
    {
      State(asset, creditLimit, unallocated, authorityTotal, key, regions, Books(), idempotency, payments, refunds,
            cashbackRules, cashbackPaid, transfers, outbox, inbox,
            Faults(loseResponses, crashBefore, crashAfter, consumerCrash, coordinatorCrash),
            coordinatorRunning, sagas, tick, verdicts, dcHealthy, network.View())
    }

    /** Every world the program builds satisfies the invariant, and every method keeps it. */
    ghost predicate Valid()
      reads this, network
    {
      Inv(View())
    }

    /** A world without history, before its genesis posting. */
    constructor (config: Config, lot: (nat, MessageId) -> nat)
      ensures View() == Blank(config, lot) && fresh(network)
    {
      asset, creditLimit, unallocated := config.asset, config.creditLimit, config.unallocated;
      key := if config.key == "" then DEFAULT_KEY else config.key;
      authorityTotal, regions := config.initialBalance + config.creditLimit, InitialRegions(config);
      balances, journal, effects, sequence, head := map[], [], map[], 0, ZeroDigest;
      idempotency, payments, refunds, cashbackRules, cashbackPaid := map[], map[], map[], map[], map[];
      transfers, outbox, inbox := map[], map[], map[];
      loseResponses, crashBefore, crashAfter, consumerCrash, coordinatorCrash := map[], map[], map[], map[], map[];
      coordinatorRunning, sagas, tick, verdicts, dcHealthy := true, map[], 0, map[], HealthyDCs();
      network := new Simulation.Network(lot);
    }

    // ----- single updates -------------------------------------------------------------

    method SetRegion(region: string, r: Region)
      modifies this`regions
      ensures View() == old(View()).(regions := old(View().regions)[region := r])
    {
      regions := regions[region := r];
    }

    method SetAuthority(total: int)
      modifies this`authorityTotal
      ensures View() == old(View()).(authorityTotal := total)
    {
      authorityTotal := total;
    }

    method MoveRights(region: string, delta: int)
      requires region in View().regions
      modifies this`regions, this`authorityTotal
      ensures View() ==
              old(View()).(regions := WithRights(old(View()), region, old(View().regions[region].rights) + delta),
                                     authorityTotal := old(View().authorityTotal) + delta)
    {
      var r := regions[region];
      SetRegion(region, r.(rights := r.rights + delta));
      SetAuthority(authorityTotal + delta);
    }

    method RecordAnswer(key: string, request: Fingerprint, receipt: Receipt)
      modifies this`idempotency
      ensures View() == old(View()).(idempotency := Answer(old(View()), key, request, receipt))
    {
      idempotency := idempotency[key := Answered(request, receipt.(key := key))];
    }

    method SetPayment(op: string, p: Payment)
      modifies this`payments
      ensures View() == old(View()).(payments := old(View().payments)[op := p])
    {
      payments := payments[op := p];
    }

    method SetTransfer(id: string, t: Transfer)
      modifies this`transfers
      ensures View() == old(View()).(transfers := old(View().transfers)[id := t])
    {
      transfers := transfers[id := t];
    }

    method SetInbox(m: MessageId, r: InboxRecord)
      modifies this`inbox
      ensures View() == old(View()).(inbox := old(View().inbox)[m := r])
    {
      inbox := inbox[m := r];
    }

    method SetVerdict(event: string, v: Verdict)
      modifies this`verdicts
      ensures View() == old(View()).(verdicts := old(View().verdicts)[event := v])
    {
      verdicts := verdicts[event := v];
    }

    method SetSaga(id: string, g: Saga)
      modifies this`sagas
      ensures View() == old(View()).(sagas := old(View().sagas)[id := g])
    {
      sagas := sagas[id := g];
    }

    method AddOutbox(record: OutboxRecord)
      modifies this`outbox
      ensures View() == old(View()).(outbox := old(View().outbox)[record.id := record])
    {
      outbox := outbox[record.id := record];
    }

    // ----- posting --------------------------------------------------------------------

    method Post(effect: EffectId, kind: Kind, request: Fingerprint, lines: seq<Line>)
      returns (receipt: Receipt, error: Option<Error>)
      modifies this`balances, this`journal, this`effects, this`sequence, this`head
      ensures match J.Post(old(Books()), effect, kind, request, lines)
              case Rejected(e) => Books() == old(Books()) && receipt == NO_RECEIPT && error == Some(e)
              case Posted(ledger, r) => Books() == ledger && receipt == r && error.None?
    {
      hide FirstBad, Balanced, Moved, Tallied, Prospective;
      if effect == NoEffect || |lines| < 2 {
        return NO_RECEIPT, Some(ErrEffectConflict);
      }
      if effect in effects {
        if effects[effect].request != request {
          return NO_RECEIPT, Some(ErrEffectConflict);
        }
        return effects[effect].receipt.(duplicate := true), None;
      }
      var bad, perAsset, prospective := Tally(balances, lines);
      if bad.Some? {
        return NO_RECEIPT, bad;
      }
      var balanced := AllBalanced(perAsset);
      TalliesBalance(perAsset, lines);
      if !balanced {
        return NO_RECEIPT, Some(ErrUnbalanced);
      }
      ProspectiveMoves(prospective, balances, lines);
      var transaction := Transaction(sequence + 1, Tx(sequence + 1), effect, kind, request, head, ZeroDigest, lines);
      transaction := transaction.(hash := HashOf(transaction));
      receipt := Receipt("", effect, Tx(sequence + 1), sequence + 1, false);
      balances := balances + prospective;
      sequence := sequence + 1;
      head := transaction.hash;
      journal := journal + [transaction];
      effects := effects[effect := Effect(request, receipt)];
      error := None;
    }

    /** The same posting, seen from the whole world: only its ledger changes. */
    method Commit(effect: EffectId, kind: Kind, request: Fingerprint, lines: seq<Line>)
      returns (receipt: Receipt, error: Option<Error>)
      modifies this`balances, this`journal, this`effects, this`sequence, this`head
      ensures match J.Post(old(View().ledger), effect, kind, request, lines)
              case Rejected(e) => View() == old(View()) && receipt == NO_RECEIPT && error == Some(e)
              case Posted(ledger, r) => View() == old(View()).(ledger := ledger) && receipt == r && error.None?
    {
      hide J.Post;
      receipt, error := Post(effect, kind, request, lines);
      assert View() == old(View()).(ledger := Books());
    }

    // ----- guards ---------------------------------------------------------------------

    method QuorumHolds() returns (ok: bool)
      ensures ok <==> HasQuorum(View())
    {
      var healthy := 0;
      for i := 0 to |REPLICAS|
        invariant healthy == HealthyReplicas(dcHealthy, i)
      {
        if REPLICAS[i] in dcHealthy && dcHealthy[REPLICAS[i]] {
          healthy := healthy + 1;
        }
      }
      ok := healthy >= QUORUM;
    }

    method RequireWriter(fence: Fence) returns (error: Option<Error>)
      ensures error == Guard(View(), fence)
    {
      hide HasQuorum;
      if fence.region !in regions || !regions[fence.region].running {
        return Some(ErrRegionDown);
      }
      if regions[fence.region].epoch != fence.epoch {
        return Some(ErrStaleEpoch);
      }
      var quorum := QuorumHolds();
      if !quorum {
        return Some(ErrNoQuorum);
      }
      error := None;
    }

    /** The fence a region holds at this moment. */
    method CurrentFence(region: string) returns (fence: Option<Fence>)
      ensures fence.Some? <==> region in regions && regions[region].running
      ensures fence.Some? ==> fence.value == Fence(region, regions[region].epoch)
    {
      if region !in regions || !regions[region].running {
        return None;
      }
      fence := Some(Fence(region, regions[region].epoch));
    }

    // ----- crashes --------------------------------------------------------------------

    method Disconnect(region: string)
      modifies network
      ensures View() == old(View()).(net := old(View().net).(down := old(View().net.down) + {region}))
    {
      network.Crash(region);
    }

    method Reconnect(region: string)
      modifies network
      ensures View() == old(View()).(net := old(View().net).(down := old(View().net.down) - {region}))
    {
      network.Restart(region);
    }

    method StopRegion(region: string)
      requires region in View().regions
      modifies this`regions, network
      ensures View() == P.CrashNode(old(View()), region)
    {
      SetRegion(region, regions[region].(running := false));
      Disconnect(region);
    }

    method CrashRegion(region: string) returns (error: Option<Error>)
      modifies this`regions, network
      ensures View() == P.CrashRegion(old(View()), region)
      ensures error.None? <==> region in old(regions)
      ensures old(Valid()) ==> Valid()
    {
      hide Inv, P.CrashNode;
      if Valid() && region in regions { CrashNodeKeeps(View(), region); }
      if region !in regions {
        return Some(ErrRegionDown);
      }
      StopRegion(region);
      error := None;
    }

    method RestartRegion(region: string) returns (error: Option<Error>)
      modifies this`regions, network
      ensures View() == P.RestartRegion(old(View()), region)
      ensures error.None? <==> region in old(regions)
      ensures old(Valid()) ==> Valid()
    {
      hide Inv;
      if Valid() { RestartKeeps(View(), region); }
      if region !in regions {
        return Some(ErrRegionDown);
      }
      SetRegion(region, regions[region].(epoch := regions[region].epoch + 1, running := true));
      Reconnect(region);
      error := None;
    }

    method SetDataCentre(dc: string, healthy: bool) returns (known: bool)
      modifies this`dcHealthy
      ensures View() == SetDC(old(View()), dc, healthy)
      ensures known <==> dc in old(dcHealthy)
    {
      known := dc in dcHealthy;
      if known {
        dcHealthy := dcHealthy[dc := healthy];
      }
    }

    // ----- replay ---------------------------------------------------------------------

    method AnswerAgain(key: string, request: Fingerprint) returns (reply: Reply)
      requires Known(View(), key, request)
      modifies this`idempotency
      ensures (View(), reply) == P.AnswerAgain(old(View()), key, request)
    {
      if key in idempotency {
        if idempotency[key].request != request {
          return Failed(ErrIdempotencyConflict);
        }
        return Reply(idempotency[key].receipt.(duplicate := true), None);
      }
      var effect := effects[EffectOf(request)];
      if effect.request != request {
        return Failed(ErrEffectConflict);
      }
      var receipt := effect.receipt.(key := key, duplicate := true);
      idempotency := idempotency[key := Answered(request, receipt)];
      reply := Reply(receipt, None);
    }

    // ----- payment --------------------------------------------------------------------

    method PayAgain(key: string) returns (reply: Reply)
      requires key in idempotency
      modifies this`loseResponses
      ensures (View(), reply) == P.PayAgain(old(View()), key)
    {
      var receipt := idempotency[key].receipt.(duplicate := true);
      var lost := Pending(loseResponses, key);
      loseResponses := Spend(loseResponses, key);
      if lost {
        return Reply(receipt, Some(ErrResponseLost));
      }
      reply := Reply(receipt, None);
    }

    method TakePayFaults(key: string) returns (crash: bool, lost: bool)
      modifies this`crashAfter, this`loseResponses
      ensures crash == Pending(old(View().faults.crashAfter), key)
              && lost == Pending(old(View().faults.loseResponses), key)
      ensures View() ==
              old(View()).(faults := old(View().faults).(crashAfter := Spend(old(View().faults.crashAfter), key),
                                                                  loseResponses :=
                                                                    Spend(old(View().faults.loseResponses), key)))
    {
      hide Pending, Spend;
      crash, lost := Pending(crashAfter, key), Pending(loseResponses, key);
      crashAfter, loseResponses := Spend(crashAfter, key), Spend(loseResponses, key);
    }

    method FinishPay(region: string, key: string, receipt: Receipt) returns (reply: Reply)
      requires region in View().regions
      modifies this`crashAfter, this`loseResponses, this`regions, network
      ensures (View(), reply) == P.FinishPay(old(View()), region, key, receipt)
    {
      hide World.View, P.CrashNode, Pending, Spend;
      var crash, lost := TakePayFaults(key);
      if crash {
        StopRegion(region);
        return Reply(receipt, Some(ErrCrashAfterCommit));
      }
      if lost {
        return Reply(receipt, Some(ErrResponseLost));
      }
      reply := Reply(receipt, None);
    }

    /** What a committed capture changes besides the ledger. */
    method RecordCapture(region: string, key: string, op: string, amount: int, receipt: Receipt)
      requires region in View().regions
      modifies this`regions, this`authorityTotal, this`payments, this`outbox, this`idempotency
      ensures View() == AfterCapture(old(View()), region, key, op, amount, old(View().ledger), receipt)
    {
      hide EffectName, World.View;
      MoveRights(region, -amount);
      SetPayment(op, Payment(op, region, amount, amount, 0, 0, 0, Captured, receipt));
      AddOutbox(EventRecord(receipt, PaymentCapturedEvent, region, EffectName(PaymentEffect(op))));
      RecordAnswer(key, PaymentRequest(op, amount), receipt);
    }

    method Capture(region: string, key: string, op: string, amount: int) returns (reply: Reply)
      requires region in View().regions
      modifies this, network
      ensures (View(), reply) == P.Capture(old(View()), region, key, op, amount)
    {
      hide J.Post, P.FinishPay, AfterCapture;
      var authority := AUTHORITY_PREFIX + asset;
      var receipt, error := Commit(PaymentEffect(op), CaptureKind, PaymentRequest(op, amount),
                                   [Line(User, asset, Debit, amount), Line(Merchant, asset, Credit, amount),
                                    Line(Regional(region), authority, Debit, amount),
                                    Line(Consumed, authority, Credit, amount)]);
      if error.Some? {
        return Failed(error.value);
      }
      CaptureApart(old(View()), region, key, op, amount, Books(), receipt);
      RecordCapture(region, key, op, amount, receipt);
      AfterCaptureRegions(old(View()), region, key, op, amount, Books(), receipt);
      reply := FinishPay(region, key, receipt.(key := key));
    }

    method PayNew(region: string, key: string, op: string, amount: int) returns (reply: Reply)
      requires region in View().regions
      modifies this, network
      ensures (View(), reply) == P.PayNew(old(View()), region, key, op, amount)
    {
      hide P.Capture, P.CrashNode;
      if Pending(crashBefore, key) {
        crashBefore := Spend(crashBefore, key);
        StopRegion(region);
        return Failed(ErrCrashBeforeCommit);
      }
      var available := Add(Get(balances, User), creditLimit);
      if available.None? {
        return Failed(ErrAmountOverflow);
      }
      if available.value < amount {
        return Failed(ErrInsufficientFunds);
      }
      if regions[region].rights < amount {
        return Failed(ErrInsufficientRights);
      }
      if Sub(regions[region].rights, amount).None? {
        return Failed(ErrAmountOverflow);
      }
      if Sub(authorityTotal, amount).None? || authorityTotal - amount < 0 {
        return Failed(ErrInsufficientRights);
      }
      reply := Capture(region, key, op, amount);
    }

    method PayWithFence(fence: Fence, key: string, op: string, amount: int) returns (reply: Reply)
      modifies this, network
      ensures (View(), reply) == P.Pay(old(View()), fence, key, op, amount)
      ensures old(Valid()) ==> Valid()
    {
      hide Inv, P.PayNew, P.PayAgain, P.AnswerAgain, HasQuorum;
      if Valid() { PayKeeps(View(), fence, key, op, amount); }
      var request := PaymentRequest(op, amount);
      var error := RequireWriter(fence);
      if error.Some? {
        return Failed(error.value);
      }
      if key == "" || op == "" || amount <= 0 {
        return Failed(ErrInvalidPosting);
      }
      if key in idempotency && idempotency[key].request == request {
        reply := PayAgain(key);
      } else if key in idempotency || PaymentEffect(op) in effects {
        reply := AnswerAgain(key, request);
      } else {
        reply := PayNew(fence.region, key, op, amount);
      }
    }

    // ----- deposit, release, cashback ----------------------------------------------------

    method RaiseOverflow(region: string, amount: int) returns (overflows: bool)
      requires region in View().regions
      ensures overflows <==> RaiseOverflows(View(), region, amount)
    {
      overflows := Add(regions[region].rights, amount).None? || Add(authorityTotal, amount).None?;
    }

    method Deposit(fence: Fence, key: string, op: string, amount: int) returns (reply: Reply)
      modifies this, network
      ensures (View(), reply) == P.Deposit(old(View()), fence, key, op, amount)
      ensures old(Valid()) ==> Valid()
    {
      hide Inv, P.DepositNew, P.AnswerAgain, HasQuorum;
      if Valid() { DepositKeeps(View(), fence, key, op, amount); }
      var request := DepositRequest(op, amount);
      var error := RequireWriter(fence);
      if error.Some? {
        return Failed(error.value);
      }
      if key == "" || op == "" || amount <= 0 {
        return Failed(ErrInvalidPosting);
      }
      if key in idempotency || DepositEffect(op) in effects {
        reply := AnswerAgain(key, request);
      } else {
        reply := DepositNew(fence.region, key, op, amount);
      }
    }

    method DepositNew(region: string, key: string, op: string, amount: int) returns (reply: Reply)
      requires region in View().regions
      modifies this, network
      ensures (View(), reply) == P.DepositNew(old(View()), region, key, op, amount)
    {
      hide J.Post, RaiseOverflows, AfterDeposit;
      var overflows := RaiseOverflow(region, amount);
      if overflows {
        return Failed(ErrAmountOverflow);
      }
      var authority := AUTHORITY_PREFIX + asset;
      var receipt, error := Commit(DepositEffect(op), DepositKind, DepositRequest(op, amount),
                                   [Line(Funding, asset, Debit, amount), Line(User, asset, Credit, amount),
                                    Line(Issuer, authority, Debit, amount),
                                    Line(Regional(region), authority, Credit, amount)]);
      if error.Some? {
        return Failed(error.value);
      }
      DepositApart(old(View()), region, key, op, amount, Books(), receipt);
      RecordDeposit(region, key, op, amount, receipt);
      reply := Reply(receipt.(key := key), None);
    }

    method RecordDeposit(region: string, key: string, op: string, amount: int, receipt: Receipt)
      requires region in View().regions
      modifies this`regions, this`authorityTotal, this`outbox, this`idempotency
      ensures View() == AfterDeposit(old(View()), region, key, op, amount, old(View().ledger), receipt)
    {
      hide EffectName, World.View;
      MoveRights(region, amount);
      AddOutbox(EventRecord(receipt, DepositConfirmedEvent, region, EffectName(DepositEffect(op))));
      RecordAnswer(key, DepositRequest(op, amount), receipt);
    }

    method ReleaseCapture(fence: Fence, key: string, release: string, payment: string, amount: int, kind: ReleaseKind)
      returns (reply: Reply)
      modifies this, network
      ensures (View(), reply) == P.Release(old(View()), fence, key, release, payment, amount, kind)
      ensures old(Valid()) ==> Valid()
    {
      hide Inv, P.ReleaseNew, P.AnswerAgain, HasQuorum;
      if Valid() { ReleaseKeeps(View(), fence, key, release, payment, amount, kind); }
      var request := ReleaseRequest(kind, release, payment, amount);
      var error := RequireWriter(fence);
      if error.Some? {
        return Failed(error.value);
      }
      if key == "" || release == "" || payment == "" || amount <= 0 {
        return Failed(ErrInvalidPosting);
      }
      if key in idempotency || ReleaseEffect(kind, release) in effects {
        reply := AnswerAgain(key, request);
      } else {
        reply := ReleaseNew(fence.region, key, release, payment, amount, kind);
      }
    }

    method ReleaseNew(region: string, key: string, release: string, payment: string, amount: int, kind: ReleaseKind)
      returns (reply: Reply)
      requires region in View().regions
      modifies this, network
      ensures (View(), reply) == P.ReleaseNew(old(View()), region, key, release, payment, amount, kind)
    {
      hide J.Post, RaiseOverflows, AfterRelease, ReleaseExceeds;
      if payment !in payments {
        return Failed(ErrPaymentNotFound);
      }
      if ReleaseExceeds(payments[payment], amount) {
        return Failed(ErrRefundExceeded);
      }
      var overflows := RaiseOverflow(region, amount);
      if overflows {
        return Failed(ErrAmountOverflow);
      }
      var authority := AUTHORITY_PREFIX + asset;
      var receipt, error :=
        Commit(ReleaseEffect(kind, release), ReleaseKindOf(kind), ReleaseRequest(kind, release, payment, amount),
                                   [Line(Merchant, asset, Debit, amount), Line(User, asset, Credit, amount),
                                    Line(Consumed, authority, Debit, amount),
                                    Line(Regional(region), authority, Credit, amount)]);
      if error.Some? {
        return Failed(error.value);
      }
      ReleaseApart(old(View()), region, key, release, payment, amount, kind, Books(), receipt);
      RecordRelease(region, key, release, payment, amount, kind, receipt);
      reply := Reply(receipt.(key := key), None);
    }

    method SetRefund(release: string, amount: int)
      modifies this`refunds
      ensures View() == old(View()).(refunds := old(View().refunds)[release := amount])
    {
      refunds := refunds[release := amount];
    }

    /** Adds one release to its payment and recomputes the payment's status. */
    method CountRelease(payment: string, amount: int, kind: ReleaseKind)
      requires payment in View().payments
      modifies this`payments
      ensures View() ==
              old(View()).(payments := old(View().payments)[payment := Released(old(View().payments[payment]), kind,
                                                                                amount)])
    {
      hide Sum3;
      var p := payments[payment];
      match kind {
        case Refund => p := p.(refunded := Add(p.refunded, amount).GetOr(0));
        case Reversal => p := p.(reversed := Add(p.reversed, amount).GetOr(0));
        case Chargeback => p := p.(chargedBack := Add(p.chargedBack, amount).GetOr(0));
      }
      var released := Sum3(p.refunded, p.reversed, p.chargedBack).GetOr(0);
      var status := Captured;
      if p.chargedBack > 0 {
        status := Disputed;
      } else if p.reversed > 0 && released == p.captured {
        status := Reversed;
      } else if p.refunded == p.captured {
        status := Refunded;
      } else if released > 0 {
        status := PartiallyRefunded;
      }
      SetPayment(payment, p.(status := status));
    }

    method RecordRelease(region: string, key: string, release: string, payment: string, amount: int, kind: ReleaseKind,
                         receipt: Receipt)
      requires region in View().regions && payment in View().payments
      modifies this`regions, this`authorityTotal, this`payments, this`refunds, this`outbox, this`idempotency
      ensures View() ==
              AfterRelease(old(View()), region, key, release, payment, amount, kind, old(View().ledger), receipt)
    {
      hide EffectName, World.View, Released;
      MoveRights(region, amount);
      CountRelease(payment, amount, kind);
      if kind == Refund {
        SetRefund(release, amount);
      }
      AddOutbox(EventRecord(receipt, ReleaseConfirmedEvent(kind), region, EffectName(ReleaseEffect(kind, release))));
      RecordAnswer(key, ReleaseRequest(kind, release, payment, amount), receipt);
    }

    method GrantCashback(fence: Fence, key: string, grant: string, op: string, amount: int, maximum: int)
      returns (reply: Reply)
      modifies this, network
      ensures (View(), reply) == P.Cashback(old(View()), fence, key, grant, op, amount, maximum)
      ensures old(Valid()) ==> Valid()
    {
      hide Inv, P.CashbackNew, P.AnswerAgain, HasQuorum;
      if Valid() { CashbackKeeps(View(), fence, key, grant, op, amount, maximum); }
      var request := CashbackRequest(grant, op, amount, maximum);
      var error := RequireWriter(fence);
      if error.Some? {
        return Failed(error.value);
      }
      if key == "" || grant == "" || op == "" || amount <= 0 || maximum < 0 {
        return Failed(ErrInvalidPosting);
      }
      if key in idempotency || CashbackEffect(grant) in effects {
        reply := AnswerAgain(key, request);
      } else {
        reply := CashbackNew(fence.region, key, grant, op, amount, maximum);
      }
    }

    method CashbackTooHigh(op: string, amount: int, maximum: int) returns (exceeds: bool)
      ensures exceeds <==> CashbackExceeds(View(), op, amount, maximum)
    {
      var paid := Add(Get(cashbackPaid, op), amount);
      exceeds := paid.None? || paid.value > maximum;
    }

    method CashbackNew(region: string, key: string, grant: string, op: string, amount: int, maximum: int)
      returns (reply: Reply)
      requires region in View().regions
      modifies this, network
      ensures (View(), reply) == P.CashbackNew(old(View()), region, key, grant, op, amount, maximum)
    {
      hide J.Post, RaiseOverflows, CashbackExceeds, AfterCashback;
      if op in cashbackRules && cashbackRules[op] != maximum {
        return Failed(ErrEffectConflict);
      }
      var exceeds := CashbackTooHigh(op, amount, maximum);
      if exceeds {
        return Failed(ErrCashbackExceeded);
      }
      var overflows := RaiseOverflow(region, amount);
      if overflows {
        return Failed(ErrAmountOverflow);
      }
      var authority := AUTHORITY_PREFIX + asset;
      var receipt, error := Commit(CashbackEffect(grant), CashbackKind, CashbackRequest(grant, op, amount, maximum),
                                   [Line(CashbackExpense, asset, Debit, amount), Line(User, asset, Credit, amount),
                                    Line(Issuer, authority, Debit, amount),
                                    Line(Regional(region), authority, Credit, amount)]);
      if error.Some? {
        return Failed(error.value);
      }
      CashbackApart(old(View()), region, key, grant, op, amount, maximum, Books(), receipt);
      RecordCashback(region, key, grant, op, amount, maximum, receipt);
      reply := Reply(receipt.(key := key), None);
    }

    method PayCashback(op: string, maximum: int, amount: int)
      modifies this`cashbackRules, this`cashbackPaid
      ensures View() == old(View()).(cashbackRules := old(View().cashbackRules)[op := maximum],
                                     cashbackPaid :=
                                       old(View().cashbackPaid)[op := Get(old(View().cashbackPaid), op) + amount])
    {
      hide Get;
      cashbackRules := cashbackRules[op := maximum];
      cashbackPaid := cashbackPaid[op := Get(cashbackPaid, op) + amount];
    }

    method RecordCashback(region: string, key: string, grant: string, op: string, amount: int, maximum: int,
                          receipt: Receipt)
      requires region in View().regions
      modifies this`regions, this`authorityTotal, this`cashbackRules, this`cashbackPaid, this`outbox, this`idempotency
      ensures View() == AfterCashback(old(View()), region, key, grant, op, amount, maximum, old(View().ledger), receipt)
    {
      hide World.View, Get;
      MoveRights(region, amount);
      PayCashback(op, maximum, amount);
      AddOutbox(EventRecord(receipt, CashbackGrantedEvent, region, grant));
      RecordAnswer(key, CashbackRequest(grant, op, amount, maximum), receipt);
    }

    // ----- rights transfer --------------------------------------------------------------

    method InitiateTransfer(fence: Fence, id: string, destination: string, amount: int) returns (reply: TransferReply)
      modifies this, network
      ensures (View(), reply) == P.Initiate(old(View()), fence, id, destination, amount)
      ensures old(Valid()) ==> Valid()
    {
      hide Inv, P.InitiateNew, HasQuorum;
      if Valid() { InitiateKeeps(View(), fence, id, destination, amount); }
      var error := RequireWriter(fence);
      if error.Some? {
        return TransferFailed(error.value);
      }
      if id == "" || destination == "" || fence.region == destination || amount <= 0 {
        return TransferFailed(ErrTransferInvalid);
      }
      if destination !in regions {
        return TransferFailed(ErrTransferInvalid);
      }
      if id in transfers {
        var c := transfers[id].certificate;
        if c.source != fence.region || c.destination != destination || c.amount != amount {
          return TransferFailed(ErrTransferConflict);
        }
        return TransferReply(Some(c), true, None);
      }
      reply := InitiateNew(fence, id, destination, amount);
    }

    method InitiateNew(fence: Fence, id: string, destination: string, amount: int) returns (reply: TransferReply)
      requires fence.region in View().regions
      modifies this, network
      ensures (View(), reply) == P.InitiateNew(old(View()), fence, id, destination, amount)
    {
      hide J.Post, AfterIssue;
      if regions[fence.region].rights < amount {
        return TransferFailed(ErrInsufficientRights);
      }
      if Sub(regions[fence.region].rights, amount).None? {
        return TransferFailed(ErrAmountOverflow);
      }
      var authority := AUTHORITY_PREFIX + asset;
      var receipt, error :=
        Commit(TransferOutEffect(id), TransferOutKind, TransferOutRequest(id, fence.region, destination, amount),
                                   [Line(Regional(fence.region), authority, Debit, amount),
                                    Line(Transit, authority, Credit, amount)]);
      if error.Some? {
        return TransferFailed(error.value);
      }
      var c := Certificate(id, asset, fence.region, destination, amount, fence.epoch, receipt.commit, ZeroDigest);
      c := c.(proof := ProofOf(key, c));
      IssueApart(old(View()), c, Books(), receipt);
      RecordIssue(c, receipt);
      reply := TransferReply(Some(c), false, None);
    }

    method RecordIssue(c: Certificate, receipt: Receipt)
      requires c.source in View().regions
      modifies this`regions, this`transfers, this`outbox
      ensures View() == AfterIssue(old(View()), c, old(View().ledger), receipt)
    {
      var r := regions[c.source];
      SetRegion(c.source, r.(rights := r.rights - c.amount));
      SetTransfer(c.transfer, Transfer(c, true, false, false, NO_RECEIPT));
      AddOutbox(TransferRecord(receipt, c));
    }

    method RefuseConsumption(c: Certificate) returns (error: Option<Error>)
      ensures error == ConsumeRefusal(View(), c)
    {
      hide HasQuorum;
      if c.destination !in regions || !regions[c.destination].running {
        return Some(ErrRegionDown);
      }
      var quorum := QuorumHolds();
      if !quorum {
        return Some(ErrNoQuorum);
      }
      if !Verified(key, asset, c) {
        return Some(ErrTransferInvalid);
      }
      if c.transfer !in transfers || transfers[c.transfer].certificate != c {
        return Some(ErrTransferConflict);
      }
      error := None;
    }

    method TakeConsumerCrash(m: MessageId) returns (crash: bool)
      modifies this`consumerCrash
      ensures crash == Pending(old(View().faults.consumerCrash), m)
      ensures View() ==
              old(View()).(faults := old(View().faults).(consumerCrash := Spend(old(View().faults.consumerCrash), m)))
    {
      crash := Get(consumerCrash, m) > 0;
      if crash {
        consumerCrash := consumerCrash[m := Get(consumerCrash, m) - 1];
      }
    }

    method FinishConsume(m: MessageId, region: string, receipt: Receipt, duplicate: bool) returns (reply: ConsumeReply)
      requires region in View().regions
      modifies this`consumerCrash, this`regions, network
      ensures (View(), reply) == P.FinishConsume(old(View()), m, region, receipt, duplicate)
    {
      hide World.View, P.CrashNode, Pending, Spend;
      var crash := TakeConsumerCrash(m);
      if crash {
        StopRegion(region);
        return ConsumeReply(receipt, duplicate, Some(ErrConsumerCrash));
      }
      reply := ConsumeReply(receipt, duplicate, None);
    }

    method ConsumeAgain(m: MessageId, c: Certificate) returns (reply: ConsumeReply)
      requires m in View().inbox && c.destination in View().regions && c.transfer in View().transfers
      modifies this`inbox, this`consumerCrash, this`regions, network
      ensures (View(), reply) == P.ConsumeAgain(old(View()), m, c)
    {
      hide P.FinishConsume;
      if inbox[m].payload != CertificatePayload(c) {
        return ConsumeFailed(ErrTransferConflict);
      }
      SetInbox(m, inbox[m].(duplicates := inbox[m].duplicates + 1));
      reply := FinishConsume(m, c.destination, transfers[c.transfer].receipt.(duplicate := true), true);
    }

    method ConsumeNew(m: MessageId, c: Certificate) returns (reply: ConsumeReply)
      requires c.destination in View().regions && c.transfer in View().transfers
      modifies this, network
      ensures (View(), reply) == P.ConsumeNew(old(View()), m, c)
    {
      hide J.Post, P.FinishConsume, AfterConsume;
      if transfers[c.transfer].consumed || !transfers[c.transfer].inTransit {
        return ConsumeFailed(ErrTransferConflict);
      }
      if Add(regions[c.destination].rights, c.amount).None? {
        return ConsumeFailed(ErrAmountOverflow);
      }
      var authority := AUTHORITY_PREFIX + asset;
      var receipt, error := Commit(TransferInEffect(c.transfer), TransferInKind, TransferInRequest(c.transfer, c.proof),
                                   [Line(Transit, authority, Debit, c.amount),
                                    Line(Regional(c.destination), authority, Credit, c.amount)]);
      if error.Some? {
        return ConsumeFailed(error.value);
      }
      ConsumeApart(old(View()), m, c, Books(), receipt);
      AfterConsumeRegions(old(View()), m, c, Books(), receipt);
      RecordConsumption(m, c, receipt);
      reply := FinishConsume(m, c.destination, receipt, false);
    }

    method RecordConsumption(m: MessageId, c: Certificate, receipt: Receipt)
      requires c.destination in View().regions && c.transfer in View().transfers
      modifies this`regions, this`transfers, this`inbox
      ensures View() == AfterConsume(old(View()), m, c, old(View().ledger), receipt)
    {
      var r, t := regions[c.destination], transfers[c.transfer];
      SetRegion(c.destination, r.(rights := r.rights + c.amount));
      SetTransfer(c.transfer, t.(inTransit := false, consumed := true, receipt := receipt));
      SetInbox(m, InboxRecord(m, CertificatePayload(c), receipt.effect, 0));
    }

    method ConsumeTransfer(m: MessageId, c: Certificate) returns (reply: ConsumeReply)
      modifies this, network
      ensures (View(), reply) == P.Consume(old(View()), m, c)
      ensures old(Valid()) && m == TransferMessage(c.transfer) ==> Valid()
    {
      hide Inv, ConsumeRefusal, P.ConsumeAgain, P.ConsumeNew;
      if Valid() { ConsumeKeeps(View(), c); }
      var error := RefuseConsumption(c);
      if error.Some? {
        return ConsumeFailed(error.value);
      }
      ConsumableHere(View(), c);
      if m in inbox {
        reply := ConsumeAgain(m, c);
      } else {
        reply := ConsumeNew(m, c);
      }
    }

    method AcceptAcknowledgement(e: Envelope) returns (error: Option<Error>)
      modifies this`outbox, this`transfers
      ensures (View(), error) == AcceptAck(old(View()), e)
    {
      if e.correlation !in outbox || outbox[e.correlation].kind != RightsTransferEvent
         || !e.correlation.TransferMessage? {
        return Some(ErrTransferInvalid);
      }
      var id := e.correlation.transfer;
      if id !in transfers || !transfers[id].consumed || e.payload != ProofPayload(transfers[id].certificate.proof) {
        return Some(ErrTransferInvalid);
      }
      SetOutbox(e.correlation, outbox[e.correlation].(acknowledged := true));
      SetTransfer(id, transfers[id].(acknowledged := true));
      error := None;
    }

    method SetOutbox(m: MessageId, record: OutboxRecord)
      modifies this`outbox
      ensures View() == old(View()).(outbox := old(View().outbox)[m := record])
    {
      outbox := outbox[m := record];
    }

    method Send(e: Envelope) returns (error: Option<Error>)
      modifies network
      ensures error == Sent(old(View().net), e).1 && View() == old(View()).(net := Sent(old(View().net), e).0)
    {
      hide Sent;
      error := network.Send(e);
    }

    method DeliverOne(e: Envelope) returns (error: Option<Error>)
      modifies this, network
      ensures (View(), error) == P.DeliverOne(old(View()), e)
    {
      hide World.View, P.Consume, Sent, AcceptAck;
      match e.kind
      case Command =>
        if !e.payload.CertificatePayload? {
          return Some(ErrUndecodable);
        }
        var c := e.payload.certificate;
        var reply := ConsumeTransfer(e.id, c);
        if reply.error.Some? {
          return reply.error;
        }
        error := Send(AckFor(e.id, c));
      case Ack =>
        error := AcceptAcknowledgement(e);
      case Event =>
        error := Some(ErrUnexpectedKind);
      case Response =>
        error := Some(ErrUnexpectedKind);
    }

    /** One broker round: consume the drained commands and accept the drained acknowledgements, in drained order. */
    method DeliverMessages() returns (failures: seq<Error>)
      modifies this, network
      ensures (View(), failures) == P.Deliver(old(View()))
      ensures old(Valid()) ==> Valid()
    {
      hide Inv, P.DeliverOne, Drained;
      if Valid() { DeliverKeeps(View()); }
      ghost var s := View();
      var es := network.Drain();
      failures := [];
      ghost var drained := View();
      assert drained == s.(net := Drained(s.net).0);
      for i := 0 to |es|
        invariant (View(), failures) == DeliverEach(drained, es, i)
      {
        var error := DeliverOne(es[i]);
        if error.Some? {
          failures := failures + [error.value];
        }
      }
    }

    method MarkAttempts() returns (names: seq<string>)
      requires forall m | m in outbox && Waiting(outbox[m]) :: m.TransferMessage?
      modifies this`outbox
      ensures View() == old(View()).(outbox := Attempted(old(View().outbox)))
      ensures Enumerates(names, WaitingTransfers(old(View().outbox)))
    {
      hide Waiting, Enumerates, Attempted;
      var marked;
      marked, names := CountAttempts(outbox);
      outbox := marked;
    }

    /** Retries every unacknowledged transfer command, in the order of the message names. */
    method DispatchOutbox() returns (failures: seq<Error>, ghost ids: seq<MessageId>)
      requires Valid()
      modifies this`outbox, network
      ensures DispatchOrder(ids, old(outbox))
      ensures (View(), failures) == P.Dispatch(old(View()), ids)
      ensures Valid()
    {
      hide Inv, Sent, Attempted, DispatchOrder;
      ghost var s := View();
      forall m | m in outbox && Waiting(outbox[m]) ensures m.TransferMessage? { TransferOutbox(s, m); }
      var listed := MarkAttempts();
      var names := SortedListing(listed, WaitingTransfers(s.outbox));
      CommandsInOrder(names, s.outbox);
      DispatchOrdered(Commands(names), s.outbox);
      ids := Commands(names);
      failures := SendCommands(names, s);
      DispatchKeeps(s, ids);
    }

    /** Sends the marked records in the order of their names. */
    method SendCommands(names: seq<string>, ghost s: State) returns (failures: seq<Error>)
      requires View() == s.(outbox := Attempted(s.outbox))
      requires forall i | 0 <= i < |names| :: TransferMessage(names[i]) in s.outbox
      modifies network
      ensures (View(), failures) == P.Dispatch(s, Commands(names))
    {
      hide Sent, Attempted;
      failures := [];
      for i := 0 to |names|
        invariant View() == s.(outbox := Attempted(s.outbox), net := SendEach(s.net, s.outbox, Commands(names), i).0)
        invariant failures == SendEach(s.net, s.outbox, Commands(names), i).1
      {
        AttemptedCommand(s.outbox, TransferMessage(names[i]));
        var error := Send(CommandFor(outbox[TransferMessage(names[i])]));
        if error.Some? {
          failures := failures + [error.value];
        }
      }
    }

    method AllTransfersAcknowledged() returns (all: bool)
      ensures all <==> forall id | id in transfers :: transfers[id].acknowledged
    {
      var left := transfers.Keys;
      while left != {}
        invariant left <= transfers.Keys
        invariant forall id | id in transfers && id !in left :: transfers[id].acknowledged
        decreases |left|
      {
        var id :| id in left;
        if !transfers[id].acknowledged {
          return false;
        }
        left := left - {id};
      }
      all := true;
    }

    /** Pumps until every transfer is acknowledged; one round is enough once all faults are repaired. */
    method PumpUntilSettled(maxRounds: nat) returns (settled: bool)
      requires Valid()
      modifies this, network
      ensures Valid()
      ensures settled ==> forall id | id in transfers :: transfers[id].consumed && transfers[id].acknowledged
      ensures old(Repaired(View())) && maxRounds > 0 ==> settled
    {
      hide Inv, P.Dispatch, P.Deliver, Repaired, DispatchOrder;
      var round := 0;
      while round < maxRounds
        invariant Valid()
        invariant round > 0 ==> !old(Repaired(View()))
        invariant round == 0 ==> View() == old(View())
      {
        ghost var s := View();
        var failures, ids := DispatchOutbox();
        DispatchOrdered(ids, s.outbox);
        failures := DeliverMessages();
        failures := DeliverMessages();
        if Repaired(s) {
          OneRoundSettlesEverything(s, ids);
        }
        var all := AllTransfersAcknowledged();
        if all {
          forall id | id in transfers ensures transfers[id].consumed { ConsumedOnce(View(), id); }
          return true;
        }
        round := round + 1;
      }
      settled := false;
    }

    // ----- sagas ------------------------------------------------------------------------

    method StartSaga(id: string, region: string, op: string, amount: int) returns (reply: SagaReply)
      modifies this`sagas
      ensures (View(), reply) == P.StartSaga(old(View()), id, region, op, amount)
      ensures old(Valid()) ==> Valid()
    {
      hide Inv;
      if Valid() { StartSagaKeeps(View(), id, region, op, amount); }
      if id == "" || op == "" || amount <= 0 {
        return SagaReply(None, Some(ErrInvalidPosting));
      }
      if id in sagas {
        var g := sagas[id];
        if g.region != region || g.operation != op || g.amount != amount {
          return SagaReply(None, Some(ErrEffectConflict));
        }
        return SagaReply(Some(g), None);
      }
      var g := Saga(id, region, op, amount, 0, false, NO_RECEIPT);
      SetSaga(id, g);
      reply := SagaReply(Some(g), None);
    }

    method SagaPay(g: Saga) returns (reply: Reply)
      modifies this, network
      ensures (View(), reply) == P.SagaPay(old(View()), g)
    {
      hide P.Pay, SagaKey;
      var fence := CurrentFence(g.region);
      if fence.None? {
        return Failed(ErrRegionDown);
      }
      reply := PayWithFence(fence.value, SagaKey(g.id), g.operation, g.amount);
    }

    method TakeCoordinatorCrash(id: string) returns (crash: bool)
      modifies this`coordinatorCrash, this`coordinatorRunning
      ensures crash == Pending(old(View().faults.coordinatorCrash), id)
      ensures var s := old(View());
              View() == if crash
                        then s.(faults := s.faults.(coordinatorCrash := Spend(s.faults.coordinatorCrash, id)),
                                coordinatorRunning := false)
                        else s
    {
      crash := Get(coordinatorCrash, id) > 0;
      if crash {
        coordinatorCrash := coordinatorCrash[id := Get(coordinatorCrash, id) - 1];
        coordinatorRunning := false;
      }
    }

    method AdvanceSaga(id: string) returns (reply: SagaReply)
      modifies this, network
      ensures (View(), reply) == P.AdvanceSaga(old(View()), id)
      ensures old(Valid()) ==> Valid()
    {
      hide Inv, P.SagaPay, Pending, Spend;
      if Valid() { AdvanceSagaKeeps(View(), id); }
      if !coordinatorRunning {
        return SagaReply(None, Some(ErrCoordinatorDown));
      }
      if id !in sagas {
        return SagaReply(None, Some(ErrEffectConflict));
      }
      var g := sagas[id];
      if g.nextStep == 0 {
        var paid := SagaPay(g);
        if !CommittedAnyway(paid.error) {
          return SagaReply(Some(g), paid.error);
        }
        var crash := TakeCoordinatorCrash(id);
        if crash {
          return SagaReply(Some(g), Some(ErrCoordinatorCrash));
        }
        g := g.(receipt := paid.receipt, nextStep := 1);
        SetSaga(id, g);
      } else if g.nextStep == 1 {
        g := g.(nextStep := 2, completed := true);
        SetSaga(id, g);
      }
      reply := SagaReply(Some(g), None);
    }

    // ----- delayed fraud verdicts ---------------------------------------------------------

    method ScheduleFraudVerdict(event: string, payment: string, fraudulent: bool, delay: nat)
      returns (error: Option<Error>)
      modifies this`verdicts
      ensures (View(), error) == P.ScheduleVerdict(old(View()), event, payment, fraudulent, delay)
      ensures old(Valid()) ==> Valid()
    {
      hide Inv;
      if Valid() { ScheduleKeeps(View(), event, payment, fraudulent, delay); }
      if event == "" || payment == "" {
        return Some(ErrInvalidPosting);
      }
      if payment !in payments {
        return Some(ErrPaymentNotFound);
      }
      if event in verdicts {
        if verdicts[event].payment != payment || verdicts[event].fraudulent != fraudulent {
          return Some(ErrEffectConflict);
        }
        return None;
      }
      SetVerdict(event, Verdict(payment, fraudulent, (tick + delay) % TICKS, false));
      error := None;
    }

    method Settle(event: string)
      requires event in View().verdicts
      modifies this`verdicts
      ensures View() == P.Settle(old(View()), event)
    {
      SetVerdict(event, verdicts[event].(processed := true));
    }

    method RecordFraud(event: string, payment: string, region: string, rest: int, receipt: Receipt)
      requires event in View().verdicts && payment in View().payments
               && View().payments[payment].region == region && region in View().regions
      modifies this`regions, this`authorityTotal, this`payments, this`outbox, this`verdicts
      ensures View() == AfterFraud(old(View()), event, payment, rest, old(View().ledger), receipt)
    {
      hide World.View, Released;
      MoveRights(region, rest);
      CountRelease(payment, rest, Chargeback);
      AddOutbox(EventRecord(receipt, FraudReversalEvent, region, event));
      Settle(event);
    }

    method ReverseRest(event: string, payment: string, rest: int) returns (error: Option<Error>)
      requires event in View().verdicts && payment in View().payments
      modifies this, network
      ensures (View(), error) == P.ReverseRest(old(View()), event, payment, rest)
    {
      hide J.Post, RaiseOverflows, AfterFraud, P.Settle;
      var p := payments[payment];
      if p.region !in regions {
        return Some(ErrRegionDown);
      }
      var overflows := RaiseOverflow(p.region, rest);
      if overflows {
        return Some(ErrAmountOverflow);
      }
      var authority := AUTHORITY_PREFIX + asset;
      var receipt, rejected := Commit(FraudEffect(event), FraudKind, FraudRequest(event, p.operation, rest),
                                      [Line(Merchant, asset, Debit, rest), Line(User, asset, Credit, rest),
                                       Line(Consumed, authority, Debit, rest),
                                       Line(Regional(p.region), authority, Credit, rest)]);
      if rejected.Some? {
        return rejected;
      }
      PostedAgain(old(Books()), FraudEffect(event), FraudKind, FraudRequest(event, p.operation, rest),
                  RaiseLines(old(View()), Merchant, Consumed, p.region, rest));
      if receipt.duplicate {
        Settle(event);
      } else {
        FraudApart(old(View()), event, payment, rest, Books(), receipt);
        RecordFraud(event, payment, p.region, rest, receipt);
      }
      error := None;
    }

    method JudgeOne(event: string) returns (error: Option<Error>)
      requires event in View().verdicts
      modifies this, network
      ensures (View(), error) == P.JudgeOne(old(View()), event)
    {
      hide P.ReverseRest, P.Settle, HasQuorum, Sum3, Sub;
      var v := verdicts[event];
      if !v.fraudulent {
        Settle(event);
        return None;
      }
      var quorum := QuorumHolds();
      if !quorum {
        return Some(ErrNoQuorum);
      }
      if v.payment !in payments {
        return Some(ErrPaymentNotFound);
      }
      var p := payments[v.payment];
      var rest := Sub(p.captured, Sum3(p.refunded, p.reversed, p.chargedBack).GetOr(0));
      if rest.None? || rest.value < 0 {
        return Some(ErrRefundExceeded);
      }
      if rest.value == 0 {
        Settle(event);
        return None;
      }
      error := ReverseRest(event, v.payment, rest.value);
    }

    /** The events whose verdict is due and unprocessed, in visiting order. */
    method DueEvents() returns (events: seq<string>)
      ensures Enumerates(events, Due(View()))
    {
      hide Enumerates;
      events := [];
      ghost var done: set<string> := {};
      NothingListed<string>();
      var left := verdicts.Keys;
      while left != {}
        invariant left <= verdicts.Keys && Enumerates(events, done)
        invariant forall e ::
                    e in done <==> e in verdicts.Keys - left && !verdicts[e].processed && verdicts[e].due <= tick
        decreases |left|
      {
        var e :| e in left;
        left := left - {e};
        if !verdicts[e].processed && verdicts[e].due <= tick {
          EnumeratesMore(events, done, e);
          events := events + [e];
          done := done + {e};
        }
      }
      assert done == Due(View());
    }

    /** Advances the logical clock and judges every verdict that has become due, in the order of the event names. */
    method AdvanceLogicalTicks(ticks: nat) returns (failures: seq<Error>, ghost events: seq<string>)
      modifies this, network
      ensures Enumerates(events, Due(Later(old(View()), ticks))) && Increasing(events)
      ensures (forall i | 0 <= i < |events| :: events[i] in old(verdicts)) &&
              (View(), failures) == P.AdvanceTicks(old(View()), ticks, events)
      ensures old(Valid()) ==> Valid()
    {
      hide Inv, JudgeEach, Enumerates, Increasing;
      tick := (tick + ticks) % TICKS;
      ghost var s := View();
      var listed := DueEvents();
      var due := SortedListing(listed, Due(s));
      EnumeratesExactly(due, Due(s));
      forall i | 0 <= i < |due| ensures due[i] in s.verdicts { assert due[i] in due; }
      events := due;
      failures := JudgeAll(due);
      if old(Valid()) { AdvanceTicksKeeps(old(View()), ticks, events); }
    }

    method JudgeAll(due: seq<string>) returns (failures: seq<Error>)
      requires forall i | 0 <= i < |due| :: due[i] in View().verdicts
      modifies this, network
      ensures (View(), failures) == JudgeEach(old(View()), due, |due|)
    {
      hide World.View, P.JudgeOne;
      ghost var s := View();
      failures := [];
      for i := 0 to |due|
        invariant (View(), failures) == JudgeEach(s, due, i)
      {
        var error := JudgeOne(due[i]);
        if error.Some? {
          failures := failures + [error.value];
        }
      }
    }

    // ----- genesis ------------------------------------------------------------------------

    /** Builds a world, or refuses the configuration. */
    static method NewWorld(config: Config, lot: (nat, MessageId) -> nat) returns (w: World?, ghost names: seq<string>)
      ensures w != null <==> ValidConfig(config)
      ensures w != null ==> fresh(w) && fresh(w.network)
      ensures w != null ==>
                Lists(names, InitialRegions(config)) && Increasing(names) && w.View() == Created(config, names, lot)
      ensures w != null ==> w.Valid()
    {
      hide Inv, Created, Lists, Enumerates, Increasing, InitialRegions, FirstBad;
      var ok := CheckConfig(config);
      if !ok {
        return null, [];
      }
      var built := new World(config, lot);
      var listed := RegionNames(InitialRegions(config));
      var sorted := SortedListing(listed, InitialRegions(config).Keys);
      ListsRegions(sorted, InitialRegions(config));
      CreatedKeeps(config, sorted, lot);
      names := sorted;
      var lines := BuildGenesisLines(config, sorted);
      GenesisCreates(config, sorted, lot);
      if lines != [] {
        var receipt, error := built.Commit(GenesisEffect, GenesisKind, GenesisRequestOf(config), lines);
      }
      w := built;
    }

    // ----- the audit ----------------------------------------------------------------------

    /** Payments, cashback, outbox, inbox and sagas against the ledger. */
    method AuditRecords(ids: map<TxId, Transaction>) returns (ok: bool)
      requires forall x :: x in ids <==> InJournal(journal, x)
      ensures ok <==>
              PaymentsBounded(View()) && CashbackBounded(View()) && OutboxLinked(View()) && InboxLinked(View())
              && SagasSound(View())
    {
      hide PaymentBounded, SagaSound, InJournal;
      var books, rules := effects, cashbackRules;
      ok := AllEntries(payments, (_, p) => PaymentBounded(p));
      if !ok {
        return;
      }
      ok := AllEntries(cashbackPaid, (op, paid) => op in rules && paid <= rules[op]);
      if !ok {
        return;
      }
      ok := AllEntries(outbox, (m, r: OutboxRecord) => r.id == m && r.parent in ids);
      if !ok {
        return;
      }
      ok := AllEntries(inbox, (m, r: InboxRecord) => r.id == m && r.effect != NoEffect && r.effect in books);
      if !ok {
        return;
      }
      ok := AllEntries(sagas, (_, g) => SagaSound(books, g));
    }

    /** Balance plus credit, regional rights and rights in transit against the authority total. */
    method AuditAuthority() returns (ok: bool)
      ensures ok <==>
              AvailableMatches(View()) && RightsMatch(View()) && TransfersSound(View()) && RightsConserved(View())
    {
      hide Total, RightsOf, InTransitOf, Verified, EffectCount;
      var available := Add(Get(balances, User), creditLimit);
      if available.None? || available.value < 0 || available.value != authorityTotal {
        return false;
      }
      var matched, rights := AuditRegions(regions, balances, unallocated);
      if !matched {
        return false;
      }
      var sound, transit := AuditTransfers(key, asset, inbox, journal, transfers);
      assert AllTransfersCheck(key, asset, inbox, journal, transfers) <==> TransfersSound(View());
      if !sound || !Fits(rights + transit) || rights + transit != authorityTotal {
        return false;
      }
      ok := Get(balances, Transit) == transit && Get(balances, Unallocated) == unallocated;
    }

    /** Refolds the journal and checks every view; it accepts exactly the states the specification calls sound. */
    method AssertAllFinancialInvariants() returns (ok: bool)
      ensures ok <==> FinancialInvariants(View())
      ensures Valid() ==> ok
    {
      hide Inv, JournalConsistent, BalancesExplained, EffectsProven, AvailableMatches, RightsMatch, TransfersSound,
           RightsConserved, PaymentsBounded, CashbackBounded, OutboxLinked, InboxLinked, SagasSound, AnswerProven;
      if Valid() { InvPassesAudit(View()); }
      var ids;
      ok, ids := AuditLedger(balances, journal, effects, sequence, head);
      if !ok {
        return;
      }
      var books := effects;
      ok := AllEntries(idempotency, (_, a) => AnswerProven(books, a));
      if !ok {
        return;
      }
      ok := AuditAuthority();
      if !ok {
        return;
      }
      ok := AuditRecords(ids);
    }

    /** Drains the transfer backlog and then audits; it succeeds on every valid world whose faults are repaired. */
    method Reconcile(maxRounds: nat) returns (ok: bool)
      requires Valid()
      modifies this, network
      ensures Valid()
      ensures ok ==>
                FinancialInvariants(View())
                && forall id | id in transfers :: transfers[id].consumed && transfers[id].acknowledged
      ensures old(Repaired(View())) && maxRounds > 0 ==> ok
    {
      hide Inv, FinancialInvariants, Repaired;
      var settled := PumpUntilSettled(maxRounds);
      if !settled {
        return false;
      }
      ok := AssertAllFinancialInvariants();
    }
  }
}
