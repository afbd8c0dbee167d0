/** What goes wrong when a certificate arrives under a message that is not its own. */
module ForeignMessage {
  import opened Amounts
  import opened Totals
  import opened Names
  import opened Journal
  import opened Network
  import opened Protocol
  import opened Invariants
  import opened Preservation
  import opened Delivery
  import opened Recovery
  import opened Genesis
  import opened Fencing
  import opened Outcomes

  /** The destination runs, replicas hold their quorum and no crash is pending for this message. */
  predicate Receives(s: State, region: string, m: MessageId) {
    region in s.regions && s.regions[region].running && Quorum(s) && !Pending(s.faults.consumerCrash, m)
  }

  /**
   * In every invariant state, a certificate in transit is consumed under any unused message, and fails the audit under
   * a foreign one.
   */
  lemma ForeignConsumptionFails(s: State, id: string, m: MessageId)
    requires Inv(s) && id in s.transfers && s.transfers[id].inTransit && m !in s.inbox && m != TransferMessage(id)
    requires Receives(s, s.transfers[id].certificate.destination, m)
    ensures var r := Consume(s, m, s.transfers[id].certificate); r.1.error.None? && !FinancialInvariants(r.0)
  {
    hide Inv, HasQuorum, Quorum, Verified, ConsumeNew, Pending, FinancialInvariants;
    QuorumIs(s);
    StoredVerified(s, id);
    ConsumeNewWorks(s, m, id);
    AuditedUnderItsOwnMessage(s, m, s.transfers[id].certificate);
  }

  // ----- a concrete world -----------------------------------------------------------------------------

  const CONFIG := Config("EUR", 10, 0, 0, map["A" := 10], "key")
  const NAMES := ["A", "B", "C"]

  lemma ConfigIsValid()
    ensures ValidConfig(CONFIG) && Lists(NAMES, InitialRegions(CONFIG))
  {
    assert Plain(CONFIG.regionalRights) == map["A" := 10];
    TotalUpdate<string>(map[], "A", 10);
    assert map[]["A" := 10] == map["A" := 10];
    assert NAMES[0] == "A" && NAMES[1] == "B" && NAMES[2] == "C";
  }

  lemma QuorumAtFirst()
    ensures HealthyReplicas(HealthyDCs(), 7) == 7
  {
    assert HealthyReplicas(HealthyDCs(), 2) == 2;
    assert HealthyReplicas(HealthyDCs(), 4) == 4;
    assert HealthyReplicas(HealthyDCs(), 6) == 6;
  }

  /** The world as created: three running regions, nothing sent, nothing received, no fault armed. */
  lemma WorldAtFirst(lot: (nat, MessageId) -> nat)
    requires ValidConfig(CONFIG) && Lists(NAMES, InitialRegions(CONFIG))
    ensures var s := Created(CONFIG, NAMES, lot);
            && Inv(s) && Admits(s, Fence("A", 1)) && s.transfers == map[] && s.inbox == map[]
            && s.faults == NO_FAULTS
            && "A" in s.regions && s.regions["A"].rights == 10 && "B" in s.regions && s.regions["B"].running
  {
    hide Inv, GenesisLines, Quorum;
    CreatedKeeps(CONFIG, NAMES, lot);
    QuorumAtFirst();
    QuorumIs(Created(CONFIG, NAMES, lot));
  }

  /**
   * A new world issues four from region A to region B; delivered under another transfer's message, the consumption
   * fails the audit.
   */
  lemma ForeignMessageFails(lot: (nat, MessageId) -> nat)
    ensures ValidConfig(CONFIG) && Lists(NAMES, InitialRegions(CONFIG))
    ensures var (s, reply) := Initiate(Created(CONFIG, NAMES, lot), Fence("A", 1), "t", "B", 4);
            && Inv(s) && reply.certificate.Some? && reply.certificate.value.transfer == "t"
            && var consumed := Consume(s, TransferMessage("u"), reply.certificate.value);
               consumed.1.error.None? && !FinancialInvariants(consumed.0)
  {
    hide Inv, Initiate, Consume, FinancialInvariants, Created, ValidConfig, Lists, Quorum, Entered, Shifts;
    ConfigIsValid();
    WorldAtFirst(lot);
    var first := Created(CONFIG, NAMES, lot);
    InitiateOutcome(first, Fence("A", 1), "t", "B", 4);
    InitiateKeeps(first, Fence("A", 1), "t", "B", 4);
    var s := Initiate(first, Fence("A", 1), "t", "B", 4).0;
    assert Quorum(s) by { SameQuorum(first, s); }
    ForeignConsumptionFails(s, "t", TransferMessage("u"));
  }

  lemma SameQuorum(s: State, s': State)
    requires Quorum(s) && s'.dcHealthy == s.dcHealthy
    ensures Quorum(s')
  {
  }
}
