/** Runs of the protocol world: every reachable state passes the audit, and nothing committed is ever undone. */
module Runs {
  import opened Amounts
  import opened Totals
  import opened Names
  import opened Journal
  import opened Network
  import opened Protocol
  import opened Invariants
  import opened Preservation
  import opened Delivery
  import opened History
  import opened Genesis

  datatype Step =
    | PayStep(fence: Fence, key: string, op: string, amount: int)
    | DepositStep(fence: Fence, key: string, op: string, amount: int)
    | ReleaseStep(fence: Fence, key: string, release: string, payment: string, amount: int, kind: ReleaseKind)
    | CashbackStep(fence: Fence, key: string, grant: string, op: string, amount: int, maximum: int)
    | InitiateStep(fence: Fence, transfer: string, destination: string, amount: int)
    | ConsumeStep(certificate: Certificate)
    | DispatchStep(ids: seq<MessageId>)
    | DeliverStep
    | StartSagaStep(saga: string, region: string, op: string, amount: int)
    | AdvanceSagaStep(saga: string)
    | ScheduleStep(event: string, payment: string, fraudulent: bool, delay: nat)
    | TickStep(ticks: nat, events: seq<string>)
    | CrashRegionStep(region: string)
    | RestartRegionStep(region: string)
    | DataCentreStep(dc: string, healthy: bool)
    | FaultStep(faults: Faults)
    | CoordinatorStep(running: bool)
    | NetworkStep(net: Net)

  /** A dispatch sends waiting records, a tick judges known verdicts, a network fault rewrites no queued message. */
  predicate Enabled(s: State, step: Step) {
    match step
    case DispatchStep(ids) => forall i | 0 <= i < |ids| :: ids[i] in s.outbox && Waiting(s.outbox[ids[i]])
    case TickStep(_, events) => forall i | 0 <= i < |events| :: events[i] in s.verdicts
    case NetworkStep(net) => SameQueue(net, s.net)
    case _ => true
  }

  predicate SameQueue(a: Net, b: Net) {
    |a.queue| == |b.queue| && forall i | 0 <= i < |a.queue| :: a.queue[i] == b.queue[i]
  }

  function Apply(s: State, step: Step): State
    requires Enabled(s, step)
  {
    match step
    case PayStep(fence, key, op, amount) => Pay(s, fence, key, op, amount).0
    case DepositStep(fence, key, op, amount) => Deposit(s, fence, key, op, amount).0
    case ReleaseStep(fence, key, release, payment, amount, kind) =>
      Release(s, fence, key, release, payment, amount, kind).0
    case CashbackStep(fence, key, grant, op, amount, maximum) => Cashback(s, fence, key, grant, op, amount, maximum).0
    case InitiateStep(fence, id, destination, amount) => Initiate(s, fence, id, destination, amount).0
    case ConsumeStep(c) => Consume(s, TransferMessage(c.transfer), c).0
    case DispatchStep(ids) => Dispatch(s, ids).0
    case DeliverStep => Deliver(s).0
    case StartSagaStep(id, region, op, amount) => StartSaga(s, id, region, op, amount).0
    case AdvanceSagaStep(id) => AdvanceSaga(s, id).0
    case ScheduleStep(event, payment, fraudulent, delay) => ScheduleVerdict(s, event, payment, fraudulent, delay).0
    case TickStep(ticks, events) => AdvanceTicks(s, ticks, events).0
    case CrashRegionStep(region) => CrashRegion(s, region)
    case RestartRegionStep(region) => RestartRegion(s, region)
    case DataCentreStep(dc, healthy) => SetDC(s, dc, healthy)
    case FaultStep(faults) => s.(faults := faults)
    case CoordinatorStep(running) => s.(coordinatorRunning := running)
    case NetworkStep(net) => s.(net := net)
  }

  /** A finite run: consecutive states are related by enabled steps. */
  ghost predicate IsRun(states: seq<State>, steps: seq<Step>) {
    && |states| == |steps| + 1
    && forall i | 0 <= i < |steps| :: Enabled(states[i], steps[i]) && states[i + 1] == Apply(states[i], steps[i])
  }

  /** One step of any kind keeps the invariant. */
  lemma StepKeeps(s: State, step: Step)
    requires Inv(s) && Enabled(s, step)
    ensures Inv(Apply(s, step))
  {
    hide Inv, Apply;
    if IsRequest(step) {
      RequestKeeps(s, step);
    } else if IsFault(step) {
      FaultKeeps(s, step);
    } else {
      WorkKeeps(s, step);
    }
  }

  /** Sent by a caller under a fence, or by a relay. */
  predicate IsRequest(step: Step) {
    step.PayStep? || step.DepositStep? || step.ReleaseStep? || step.CashbackStep? || step.InitiateStep?
    || step.ConsumeStep?
  }

  predicate IsFault(step: Step) {
    step.CrashRegionStep? || step.RestartRegionStep? || step.DataCentreStep? || step.FaultStep?
    || step.CoordinatorStep? || step.NetworkStep?
  }

  lemma RequestKeeps(s: State, step: Step)
    requires Inv(s) && Enabled(s, step) && IsRequest(step)
    ensures Inv(Apply(s, step))
  {
    hide Inv, Pay, Deposit, Release, Cashback, Initiate, Consume;
    match step
    case PayStep(fence, key, op, amount) => PayKeeps(s, fence, key, op, amount);
    case DepositStep(fence, key, op, amount) => DepositKeeps(s, fence, key, op, amount);
    case ReleaseStep(fence, key, release, payment, amount, kind) =>
      ReleaseKeeps(s, fence, key, release, payment, amount, kind);
    case CashbackStep(fence, key, grant, op, amount, maximum) =>
      CashbackKeeps(s, fence, key, grant, op, amount, maximum);
    case InitiateStep(fence, id, destination, amount) => InitiateKeeps(s, fence, id, destination, amount);
    case ConsumeStep(c) => ConsumeKeeps(s, c);
  }

  lemma WorkKeeps(s: State, step: Step)
    requires Inv(s) && Enabled(s, step) && !IsRequest(step) && !IsFault(step)
    ensures Inv(Apply(s, step))
  {
    hide Inv, Dispatch, Deliver, StartSaga, AdvanceSaga, ScheduleVerdict, AdvanceTicks;
    match step
    case DispatchStep(ids) => DispatchKeeps(s, ids);
    case DeliverStep => DeliverKeeps(s);
    case StartSagaStep(id, region, op, amount) => StartSagaKeeps(s, id, region, op, amount);
    case AdvanceSagaStep(id) => AdvanceSagaKeeps(s, id);
    case ScheduleStep(event, payment, fraudulent, delay) => ScheduleKeeps(s, event, payment, fraudulent, delay);
    case TickStep(ticks, events) => AdvanceTicksKeeps(s, ticks, events);
  }

  lemma FaultKeeps(s: State, step: Step)
    requires Inv(s) && Enabled(s, step) && IsFault(step)
    ensures Inv(Apply(s, step))
  {
    hide Inv, CrashNode, RestartRegion, SetDC;
    match step
    case CrashRegionStep(region) => if region in s.regions { CrashNodeKeeps(s, region); }
    case RestartRegionStep(region) => RestartKeeps(s, region);
    case DataCentreStep(dc, healthy) => SetDCKeeps(s, dc, healthy);
    case FaultStep(faults) => SwitchesKeep(s, faults, s.coordinatorRunning, s.net);
    case CoordinatorStep(running) => SwitchesKeep(s, s.faults, running, s.net);
    case NetworkStep(net) => SwitchesKeep(s, s.faults, s.coordinatorRunning, net);
  }

  lemma SetDCKeeps(s: State, dc: string, healthy: bool)
    requires Inv(s)
    ensures Inv(SetDC(s, dc, healthy))
  {
    hide Inv;
    Unread(s, SetDC(s, dc, healthy));
  }

  lemma SwitchesKeep(s: State, faults: Faults, running: bool, net: Net)
    requires Inv(s) && SameQueue(net, s.net)
    ensures Inv(s.(faults := faults, coordinatorRunning := running, net := net))
  {
    hide Inv;
    assert net.queue == s.net.queue;
    Unread(s, s.(faults := faults, coordinatorRunning := running, net := net));
  }

  lemma {:induction false} RunKeeps(states: seq<State>, steps: seq<Step>, i: nat)
    requires IsRun(states, steps) && Inv(states[0]) && i < |states|
    ensures Inv(states[i])
  {
    hide Inv, Apply;
    if i > 0 {
      RunKeeps(states, steps, i - 1);
      StepKeeps(states[i - 1], steps[i - 1]);
    }
  }

  /** Every state of every run of every validly configured world passes the whole financial audit. */
  lemma EveryReachableStatePassesAudit(config: Config, names: seq<string>, lot: (nat, MessageId) -> nat,
                                       states: seq<State>, steps: seq<Step>)
    requires ValidConfig(config) && Lists(names, InitialRegions(config))
    requires IsRun(states, steps) && states[0] == Created(config, names, lot)
    ensures forall i | 0 <= i < |states| :: Inv(states[i]) && FinancialInvariants(states[i])
  {
    hide Inv, FinancialInvariants, Created, IsRun;
    CreatedKeeps(config, names, lot);
    forall i | 0 <= i < |states| ensures Inv(states[i]) && FinancialInvariants(states[i]) {
      RunKeeps(states, steps, i);
      InvPassesAudit(states[i]);
    }
  }

  // ----- what runs never take back ---------------------------------------------------

  /** One step of any kind only extends the journal, the effect receipts, the answers and the consumed transfers. */
  lemma StepExtends(s: State, step: Step)
    requires Inv(s) && Enabled(s, step)
    ensures Extends(s, Apply(s, step))
  {
    hide Inv, Extends, Truthful, Pay, Deposit, Release, Cashback, Initiate, Consume, Dispatch, Deliver, StartSaga,
         AdvanceSaga, ScheduleVerdict, AdvanceTicks, CrashRegion, RestartRegion, SetDC;
    match step
    case PayStep(fence, key, op, amount) => PaySound(s, fence, key, op, amount);
    case DepositStep(fence, key, op, amount) => DepositSound(s, fence, key, op, amount);
    case ReleaseStep(fence, key, release, payment, amount, kind) =>
      ReleaseSound(s, fence, key, release, payment, amount, kind);
    case CashbackStep(fence, key, grant, op, amount, maximum) =>
      CashbackSound(s, fence, key, grant, op, amount, maximum);
    case InitiateStep(fence, id, destination, amount) => InitiateExtends(s, fence, id, destination, amount);
    case ConsumeStep(c) => ConsumeExtends(s, TransferMessage(c.transfer), c);
    case DeliverStep => DeliverExtends(s);
    case AdvanceSagaStep(id) => AdvanceSagaExtends(s, id);
    case TickStep(ticks, events) => AdvanceTicksExtends(s, ticks, events);
    case FaultStep(faults) => UntouchedExtends(s, s.(faults := faults));
    case CoordinatorStep(running) => UntouchedExtends(s, s.(coordinatorRunning := running));
    case NetworkStep(net) => UntouchedExtends(s, s.(net := net));
    case _ => OtherStepExtends(s, step);
  }

  lemma OtherStepExtends(s: State, step: Step)
    requires Enabled(s, step)
    requires step.DispatchStep? || step.StartSagaStep? || step.ScheduleStep? || step.CrashRegionStep?
             || step.RestartRegionStep?
             || step.DataCentreStep?
    ensures Extends(s, Apply(s, step))
  {
    hide Extends, Untouched, Dispatch, StartSaga, ScheduleVerdict, CrashRegion, RestartRegion, SetDC;
    match step
    case DispatchStep(ids) =>
      DispatchUntouched(s, ids);
      UntouchedExtends(s, Dispatch(s, ids).0);
    case StartSagaStep(id, region, op, amount) =>
      StartSagaUntouched(s, id, region, op, amount);
      UntouchedExtends(s, StartSaga(s, id, region, op, amount).0);
    case ScheduleStep(event, payment, fraudulent, delay) =>
      ScheduleUntouched(s, event, payment, fraudulent, delay);
      UntouchedExtends(s, ScheduleVerdict(s, event, payment, fraudulent, delay).0);
    case CrashRegionStep(region) =>
      RegionUntouched(s, region);
      UntouchedExtends(s, CrashRegion(s, region));
    case RestartRegionStep(region) =>
      RegionUntouched(s, region);
      UntouchedExtends(s, RestartRegion(s, region));
    case DataCentreStep(dc, healthy) =>
      SetDCUntouched(s, dc, healthy);
      UntouchedExtends(s, SetDC(s, dc, healthy));
  }

  lemma SetDCUntouched(s: State, dc: string, healthy: bool)
    ensures Untouched(s, SetDC(s, dc, healthy))
  {
    if dc in s.dcHealthy {
    } else {
    }
  }

  lemma {:induction false} RunExtends(states: seq<State>, steps: seq<Step>, i: nat, j: nat)
    requires IsRun(states, steps) && Inv(states[0]) && i <= j < |states|
    ensures Extends(states[i], states[j])
  {
    hide Inv, Apply, Extends;
    if i == j {
      UntouchedExtends(states[i], states[i]);
    } else {
      RunExtends(states, steps, i, j - 1);
      RunKeeps(states, steps, j - 1);
      StepExtends(states[j - 1], steps[j - 1]);
      ExtendsOn(states[i], states[j - 1], states[j]);
    }
  }

  // ----- at most once -----------------------------------------------------------------

  /** The operations that answer with a receipt. */
  predicate IsWrite(step: Step) {
    step.PayStep? || step.DepositStep? || step.ReleaseStep? || step.CashbackStep?
  }

  function RequestOf(step: Step): Fingerprint
    requires IsWrite(step)
  {
    match step
    case PayStep(_, _, op, amount) => PaymentRequest(op, amount)
    case DepositStep(_, _, op, amount) => DepositRequest(op, amount)
    case ReleaseStep(_, _, release, payment, amount, kind) => ReleaseRequest(kind, release, payment, amount)
    case CashbackStep(_, _, grant, op, amount, maximum) => CashbackRequest(grant, op, amount, maximum)
  }

  function Respond(s: State, step: Step): (State, Reply)
    requires IsWrite(step)
  {
    match step
    case PayStep(fence, key, op, amount) => Pay(s, fence, key, op, amount)
    case DepositStep(fence, key, op, amount) => Deposit(s, fence, key, op, amount)
    case ReleaseStep(fence, key, release, payment, amount, kind) =>
      Release(s, fence, key, release, payment, amount, kind)
    case CashbackStep(fence, key, grant, op, amount, maximum) => Cashback(s, fence, key, grant, op, amount, maximum)
  }

  lemma RespondSound(s: State, step: Step)
    requires Inv(s) && IsWrite(step)
    ensures Sound(s, Respond(s, step), RequestOf(step)) && Apply(s, step) == Respond(s, step).0
  {
    hide Inv, Sound, Pay, Deposit, Release, Cashback;
    match step
    case PayStep(fence, key, op, amount) => PaySound(s, fence, key, op, amount);
    case DepositStep(fence, key, op, amount) => DepositSound(s, fence, key, op, amount);
    case ReleaseStep(fence, key, release, payment, amount, kind) =>
      ReleaseSound(s, fence, key, release, payment, amount, kind);
    case CashbackStep(fence, key, grant, op, amount, maximum) =>
      CashbackSound(s, fence, key, grant, op, amount, maximum);
  }

  /** A write whose effect is known is answered from the records, once its caller is admitted. */
  lemma KnownIsReplayed(s: State, step: Step)
    requires IsWrite(step) && EffectOf(RequestOf(step)) in s.ledger.effects && Guard(s, step.fence).None?
             && WellFormed(step)
    ensures Respond(s, step) ==
            if step.PayStep? && step.key in s.idempotency && s.idempotency[step.key].request == RequestOf(step)
            then PayAgain(s, step.key) else AnswerAgain(s, step.key, RequestOf(step))
  {
    hide PayNew, DepositNew, ReleaseNew, CashbackNew, Guard, PayAgain, AnswerAgain;
    match step
    case PayStep(_, _, _, _) =>
    case DepositStep(_, _, _, _) =>
    case ReleaseStep(_, _, _, _, _, _) =>
    case CashbackStep(_, _, _, _, _, _) =>
  }

  lemma RefusedAtOnce(s: State, step: Step)
    requires IsWrite(step) && (Guard(s, step.fence).Some? || !WellFormed(step))
    ensures Respond(s, step).0 == s && !CommittedAnyway(Respond(s, step).1.error)
  {
    hide PayNew, DepositNew, ReleaseNew, CashbackNew, Guard, PayAgain, AnswerAgain;
    GuardErrors(s, step.fence);
    match step
    case PayStep(_, _, _, _) =>
    case DepositStep(_, _, _, _) =>
    case ReleaseStep(_, _, _, _, _, _) =>
    case CashbackStep(_, _, _, _, _, _) =>
  }

  /** Once an effect is in the ledger, asking for it again commits nothing. */
  lemma KnownCommitsNothing(s: State, step: Step)
    requires Inv(s) && IsWrite(step) && EffectOf(RequestOf(step)) in s.ledger.effects
    ensures Respond(s, step).0.ledger == s.ledger
    ensures var e := Respond(s, step).1.error;
            s.ledger.effects[EffectOf(RequestOf(step))].request == RequestOf(step) && Guard(s, step.fence).None?
            && WellFormed(step) ==>
              (CommittedAnyway(e) <==>
               (step.key in s.idempotency ==> s.idempotency[step.key].request == RequestOf(step)))
  {
    hide Inv, Respond, Guard, PayAgain, WellFormed;
    var request := RequestOf(step);
    if Guard(s, step.fence).Some? || !WellFormed(step) {
      RefusedAtOnce(s, step);
    } else {
      KnownIsReplayed(s, step);
      if step.PayStep? && step.key in s.idempotency && s.idempotency[step.key].request == request {
        PayAgainSound(s, step.key, request);
      } else if step.key in s.idempotency {
        if s.idempotency[step.key].request == request {
        } else {
        }
      } else if s.ledger.effects[EffectOf(request)].request == request {
      } else {
      }
    }
  }

  /** The identifiers are given and the amounts are in range. */
  predicate WellFormed(step: Step)
    requires IsWrite(step)
  {
    step.key != "" &&
    match step
    case PayStep(_, _, op, amount) => op != "" && amount > 0
    case DepositStep(_, _, op, amount) => op != "" && amount > 0
    case ReleaseStep(_, _, release, payment, amount, _) => release != "" && payment != "" && amount > 0
    case CashbackStep(_, _, grant, op, amount, maximum) => grant != "" && op != "" && amount > 0 && maximum >= 0
  }

  /**
    At most once, over whole runs: when a write has reported its commit, even through a lost answer or a crash, every
    later retry of the same request, under any key and any fence, commits nothing, and whenever the retry reports a
    commit it returns the receipt of the first one.
   */
  lemma RetriesReturnTheFirstReceipt(states: seq<State>, steps: seq<Step>, i: nat, j: nat, retry: Step)
    requires IsRun(states, steps) && Inv(states[0]) && i < j < |states|
    requires IsWrite(steps[i]) && CommittedAnyway(Respond(states[i], steps[i]).1.error)
    requires IsWrite(retry) && RequestOf(retry) == RequestOf(steps[i])
    ensures Respond(states[j], retry).0.ledger == states[j].ledger
    ensures CommittedAnyway(Respond(states[j], retry).1.error) ==>
              SameReceipt(Respond(states[j], retry).1.receipt, Respond(states[i], steps[i]).1.receipt)
    ensures Guard(states[j], retry.fence).None? && WellFormed(retry) ==>
              (CommittedAnyway(Respond(states[j], retry).1.error) <==>
                 (retry.key in states[j].idempotency ==> states[j].idempotency[retry.key].request == RequestOf(retry)))
  {
    hide Inv, Apply, Respond, Guard, WellFormed;
    RunKeeps(states, steps, i);
    RunKeeps(states, steps, j);
    RespondSound(states[i], steps[i]);
    RunExtends(states, steps, i + 1, j);
    RespondSound(states[j], retry);
    KnownCommitsNothing(states[j], retry);
  }
}
