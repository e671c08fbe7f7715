/**
 * The dispatch stipend engine: for every selected member and every selected
 * incident the member worked (a record with non-zero hours), base pay, risk
 * pay and, where the screen pays them, leadership and equipment allowances,
 * accumulated into one calculation per member with a per-incident breakdown.
 */
module Dispatch {
  import opened Maybe
  import opened Tables
  import opened Roster
  import opened Activity
  import opened Calculations

  /**
   * Which allowances a screen pays.  The payment-management screen keeps the
   * leadership and equipment allowances at 0; the two firefighter screens pay both.
   */
  datatype AllowancePolicy = BaseAndRiskOnly | WithLeadershipAndEquipment

  /** Base pay for one incident: type base rate × rank multiplier × hours. */
  function BasePay(t: IncidentType, r: Rank, hours: real): real
  {
    BaseRate(t) as real * Multiplier(r) * hours
  }

  /** Risk pay for one incident: base × (risk multiplier − 1) × risk level × 0.1. */
  function RiskPay(base: real, t: IncidentType, riskLevel: int): real
  {
    base * (RiskMultiplier(t) - 1.0) * riskLevel as real * 0.1
  }

  /** Every category whose risk multiplier is 1.0 pays no risk pay, whatever the base and level. */
  lemma RiskFreeTypePaysNoRisk(t: IncidentType, base: real, riskLevel: int)
    requires t in {Emergency, Training, Patrol, Meeting}
    ensures RiskPay(base, t, riskLevel) == 0.0
  {
  }

  /** What one worked incident adds to each accumulator of a member. */
  datatype Contribution = Contribution(
    incidentName: string,
    hours: real,
    base: real,
    risk: real,
    leadership: real,
    equipment: real)

  /** The pay of one breakdown row. */
  function Pay(c: Contribution): real
  {
    c.base + c.risk + c.leadership + c.equipment
  }

  /** The contribution of an incident the member worked under `rec`. */
  function ContributionOf(policy: AllowancePolicy, rank: Rank, incident: Incident, rec: ActivityRecord): Contribution
  {
    var hours := rec.participationHours;
    var base := BasePay(incident.kind, rank, hours);
    Contribution(
      incident.name,
      hours,
      base,
      RiskPay(base, incident.kind, incident.riskLevel),
      if policy.WithLeadershipAndEquipment? && rec.leadershipRole then base * 0.2 else 0.0,
      if policy.WithLeadershipAndEquipment? && rec.specialEquipmentUsed then 1000.0 * hours else 0.0)
  }

  /**
   * The contribution of one selected incident id to a member, or None when the
   * id is unknown, the member has no record for it, or the record has 0 hours.
   */
  function IncidentContribution(
    policy: AllowancePolicy, member: Member, incidents: seq<Incident>,
    records: seq<ActivityRecord>, incidentId: string): Option<Contribution>
  {
    var incident := FindIncident(incidents, incidentId);
    var record := GetActivityRecord(records, member.id, incidentId);
    if incident.None? || record.None? || record.value.participationHours == 0.0 then None
    else Some(ContributionOf(policy, member.rank, incident.value, record.value))
  }

  /** The contributions of the selected incidents to a member, in selection order. */
  function Contributions(
    policy: AllowancePolicy, member: Member, incidents: seq<Incident>,
    records: seq<ActivityRecord>, selected: seq<string>): seq<Contribution>
  {
    if selected == [] then []
    else
      Contributions(policy, member, incidents, records, selected[..|selected| - 1])
      + match IncidentContribution(policy, member, incidents, records, selected[|selected| - 1])
        case None => []
        case Some(c) => [c]
  }

  function SumHours(cs: seq<Contribution>): real
  {
    if cs == [] then 0.0 else SumHours(cs[..|cs| - 1]) + cs[|cs| - 1].hours
  }

  function SumBase(cs: seq<Contribution>): real
  {
    if cs == [] then 0.0 else SumBase(cs[..|cs| - 1]) + cs[|cs| - 1].base
  }

  function SumRisk(cs: seq<Contribution>): real
  {
    if cs == [] then 0.0 else SumRisk(cs[..|cs| - 1]) + cs[|cs| - 1].risk
  }

  function SumLeadership(cs: seq<Contribution>): real
  {
    if cs == [] then 0.0 else SumLeadership(cs[..|cs| - 1]) + cs[|cs| - 1].leadership
  }

  function SumEquipment(cs: seq<Contribution>): real
  {
    if cs == [] then 0.0 else SumEquipment(cs[..|cs| - 1]) + cs[|cs| - 1].equipment
  }

  /** The breakdown rows of a member. */
  function Lines(cs: seq<Contribution>): seq<IncidentLine>
  {
    if cs == [] then [] else Lines(cs[..|cs| - 1]) + [IncidentLine(cs[|cs| - 1].incidentName, cs[|cs| - 1].hours, Pay(cs[|cs| - 1]))]
  }

  /** The sum of the pay column of a breakdown. */
  function SumLinePay(lines: seq<IncidentLine>): real
  {
    if lines == [] then 0.0 else SumLinePay(lines[..|lines| - 1]) + lines[|lines| - 1].pay
  }

  /** The calculation for one known member. */
  function MemberCalculation(
    policy: AllowancePolicy, member: Member, incidents: seq<Incident>,
    records: seq<ActivityRecord>, selected: seq<string>): PayrollCalculation
  {
    var cs := Contributions(policy, member, incidents, records, selected);
    PayrollCalculation(
      member.id, member.name, RankName(member.rank),
      SumBase(cs) + SumRisk(cs) + SumLeadership(cs) + SumEquipment(cs),
      DispatchDetails(SumHours(cs), SumBase(cs), SumRisk(cs), SumLeadership(cs), SumEquipment(cs), Lines(cs)))
  }

  /** One calculation per selected id that names a known member, in selection order. */
  function DispatchCalculations(
    policy: AllowancePolicy, members: seq<Member>, incidents: seq<Incident>,
    records: seq<ActivityRecord>, selectedMembers: seq<string>, selectedIncidents: seq<string>): seq<PayrollCalculation>
  {
    if selectedMembers == [] then []
    else
      DispatchCalculations(policy, members, incidents, records, selectedMembers[..|selectedMembers| - 1], selectedIncidents)
      + match FindMember(members, selectedMembers[|selectedMembers| - 1])
        case None => []
        case Some(m) => [MemberCalculation(policy, m, incidents, records, selectedIncidents)]
  }

  /** Extending the member selection by one id adds that member's calculation, if the id is known. */
  lemma DispatchCalculationsStep(
    policy: AllowancePolicy, members: seq<Member>, incidents: seq<Incident>,
    records: seq<ActivityRecord>, selectedMembers: seq<string>, selectedIncidents: seq<string>, i: nat)
    requires i < |selectedMembers|
    ensures DispatchCalculations(policy, members, incidents, records, selectedMembers[..i + 1], selectedIncidents)
         == DispatchCalculations(policy, members, incidents, records, selectedMembers[..i], selectedIncidents)
            + match FindMember(members, selectedMembers[i])
              case None => []
              case Some(m) => [MemberCalculation(policy, m, incidents, records, selectedIncidents)]
  {
    assert selectedMembers[..i + 1][..i] == selectedMembers[..i];
  }

  /** Extending the selection by one id extends the contributions by that id's contribution, if any. */
  lemma ContributionsStep(
    policy: AllowancePolicy, member: Member, incidents: seq<Incident>,
    records: seq<ActivityRecord>, selected: seq<string>, i: nat)
    requires i < |selected|
    ensures Contributions(policy, member, incidents, records, selected[..i + 1])
         == Contributions(policy, member, incidents, records, selected[..i])
            + match IncidentContribution(policy, member, incidents, records, selected[i])
              case None => []
              case Some(c) => [c]
  {
    assert selected[..i + 1][..i] == selected[..i];
  }

  /** Appending a contribution adds it to every accumulator and one row to the breakdown. */
  lemma SumsStep(cs: seq<Contribution>, c: Contribution)
    ensures SumHours(cs + [c]) == SumHours(cs) + c.hours
    ensures SumBase(cs + [c]) == SumBase(cs) + c.base
    ensures SumRisk(cs + [c]) == SumRisk(cs) + c.risk
    ensures SumLeadership(cs + [c]) == SumLeadership(cs) + c.leadership
    ensures SumEquipment(cs + [c]) == SumEquipment(cs) + c.equipment
    ensures Lines(cs + [c]) == Lines(cs) + [IncidentLine(c.incidentName, c.hours, Pay(c))]
  {
    assert (cs + [c])[..|cs|] == cs;
  }

  /** The loop accumulators hold the sums and the breakdown of the contributions `cs`. */
  predicate Accumulated(
    cs: seq<Contribution>, totalHours: real, baseAllowance: real, riskAllowance: real,
    leadershipAllowance: real, equipmentAllowance: real, incidentDetails: seq<IncidentLine>)
  {
    && totalHours == SumHours(cs) && baseAllowance == SumBase(cs) && riskAllowance == SumRisk(cs)
    && leadershipAllowance == SumLeadership(cs) && equipmentAllowance == SumEquipment(cs)
    && incidentDetails == Lines(cs)
  }

  /** Adding one contribution to accumulators that hold `cs` gives accumulators that hold `cs + [c]`. */
  lemma AccumulatedStep(
    cs: seq<Contribution>, c: Contribution, totalHours: real, baseAllowance: real, riskAllowance: real,
    leadershipAllowance: real, equipmentAllowance: real, incidentDetails: seq<IncidentLine>)
    requires Accumulated(cs, totalHours, baseAllowance, riskAllowance, leadershipAllowance, equipmentAllowance, incidentDetails)
    ensures Accumulated(cs + [c], totalHours + c.hours, baseAllowance + c.base, riskAllowance + c.risk,
      leadershipAllowance + c.leadership, equipmentAllowance + c.equipment,
      incidentDetails + [IncidentLine(c.incidentName, c.hours, Pay(c))])
  {
    SumsStep(cs, c);
  }

  /**
   * The body of the inner loop for an incident the member worked: adds its
   * base pay, risk pay, leadership and equipment allowances and hours to the
   * accumulators and appends its breakdown row.
   */
  method AddIncident(
    policy: AllowancePolicy, rank: Rank, incident: Incident, record: ActivityRecord,
    totalHours: real, baseAllowance: real, riskAllowance: real,
    leadershipAllowance: real, equipmentAllowance: real, incidentDetails: seq<IncidentLine>)
    returns (totalHours': real, baseAllowance': real, riskAllowance': real,
             leadershipAllowance': real, equipmentAllowance': real, incidentDetails': seq<IncidentLine>)
    ensures var c := ContributionOf(policy, rank, incident, record);
      && totalHours' == totalHours + c.hours
      && baseAllowance' == baseAllowance + c.base
      && riskAllowance' == riskAllowance + c.risk
      && leadershipAllowance' == leadershipAllowance + c.leadership
      && equipmentAllowance' == equipmentAllowance + c.equipment
      && incidentDetails' == incidentDetails + [IncidentLine(c.incidentName, c.hours, Pay(c))]
  {
    var incidentType := incident.kind;
    var hours := record.participationHours;

    var basePayForIncident := BasePay(incidentType, rank, hours);
    baseAllowance' := baseAllowance + basePayForIncident;

    var riskPayForIncident := RiskPay(basePayForIncident, incidentType, incident.riskLevel);
    riskAllowance' := riskAllowance + riskPayForIncident;

    var leads := policy.WithLeadershipAndEquipment? && record.leadershipRole;
    var equips := policy.WithLeadershipAndEquipment? && record.specialEquipmentUsed;
    leadershipAllowance' := leadershipAllowance;
    if leads {
      leadershipAllowance' := leadershipAllowance + basePayForIncident * 0.2;
    }
    equipmentAllowance' := equipmentAllowance;
    if equips {
      equipmentAllowance' := equipmentAllowance + 1000.0 * hours;
    }

    totalHours' := totalHours + hours;
    var totalPayForIncident := basePayForIncident + riskPayForIncident
      + (if leads then basePayForIncident * 0.2 else 0.0)
      + (if equips then 1000.0 * hours else 0.0);
    incidentDetails' := incidentDetails + [IncidentLine(incident.name, hours, totalPayForIncident)];
  }

  /**
   * One pass of the inner loop: looks up the incident and the member's
   * record, skips an unknown incident, a missing record or 0 hours, and
   * otherwise adds the incident to the accumulators.
   */
  method VisitIncident(
    policy: AllowancePolicy, member: Member, incidents: seq<Incident>,
    records: seq<ActivityRecord>, selectedIncidents: seq<string>, i: nat,
    totalHours: real, baseAllowance: real, riskAllowance: real,
    leadershipAllowance: real, equipmentAllowance: real, incidentDetails: seq<IncidentLine>)
    returns (totalHours': real, baseAllowance': real, riskAllowance': real,
             leadershipAllowance': real, equipmentAllowance': real, incidentDetails': seq<IncidentLine>)
    requires i < |selectedIncidents|
    requires Accumulated(Contributions(policy, member, incidents, records, selectedIncidents[..i]),
      totalHours, baseAllowance, riskAllowance, leadershipAllowance, equipmentAllowance, incidentDetails)
    ensures Accumulated(Contributions(policy, member, incidents, records, selectedIncidents[..i + 1]),
      totalHours', baseAllowance', riskAllowance', leadershipAllowance', equipmentAllowance', incidentDetails')
  {
    var incidentId := selectedIncidents[i];
    ContributionsStep(policy, member, incidents, records, selectedIncidents, i);
    var incident := FindIncident(incidents, incidentId);
    var record := GetActivityRecord(records, member.id, incidentId);
    ghost var before := Contributions(policy, member, incidents, records, selectedIncidents[..i]);
    if incident.None? || record.None? || record.value.participationHours == 0.0 {
      assert IncidentContribution(policy, member, incidents, records, incidentId).None?;
      assert before + [] == before;
      return totalHours, baseAllowance, riskAllowance, leadershipAllowance, equipmentAllowance, incidentDetails;
    }
    ghost var c := ContributionOf(policy, member.rank, incident.value, record.value);
    assert IncidentContribution(policy, member, incidents, records, incidentId) == Some(c);
    AccumulatedStep(before, c, totalHours, baseAllowance, riskAllowance, leadershipAllowance, equipmentAllowance, incidentDetails);
    totalHours', baseAllowance', riskAllowance', leadershipAllowance', equipmentAllowance', incidentDetails' :=
      AddIncident(policy, member.rank, incident.value, record.value,
        totalHours, baseAllowance, riskAllowance, leadershipAllowance, equipmentAllowance, incidentDetails);
  }

  /**
   * The inner loop of `calculateDispatchPayroll` for one member: walks the
   * selected incidents, skipping the ones the member did not work, and adds
   * each worked incident to the five accumulators and the breakdown.
   */
  method CalculateMember(
    policy: AllowancePolicy, member: Member, incidents: seq<Incident>,
    records: seq<ActivityRecord>, selectedIncidents: seq<string>)
    returns (calculation: PayrollCalculation)
    ensures calculation == MemberCalculation(policy, member, incidents, records, selectedIncidents)
  {
    var totalHours, baseAllowance, riskAllowance, leadershipAllowance, equipmentAllowance := 0.0, 0.0, 0.0, 0.0, 0.0;
    var incidentDetails: seq<IncidentLine> := [];
    for i := 0 to |selectedIncidents|
      invariant Accumulated(Contributions(policy, member, incidents, records, selectedIncidents[..i]),
        totalHours, baseAllowance, riskAllowance, leadershipAllowance, equipmentAllowance, incidentDetails)
    {
      totalHours, baseAllowance, riskAllowance, leadershipAllowance, equipmentAllowance, incidentDetails :=
        VisitIncident(policy, member, incidents, records, selectedIncidents, i,
          totalHours, baseAllowance, riskAllowance, leadershipAllowance, equipmentAllowance, incidentDetails);
    }
    assert selectedIncidents[..|selectedIncidents|] == selectedIncidents;
    var totalAmount := baseAllowance + riskAllowance + leadershipAllowance + equipmentAllowance;
    calculation := PayrollCalculation(
      member.id, member.name, RankName(member.rank), totalAmount,
      DispatchDetails(totalHours, baseAllowance, riskAllowance, leadershipAllowance, equipmentAllowance, incidentDetails));
  }

  /** `calculateDispatchPayroll`: one calculation per selected known member, in order. */
  method CalculateDispatchPayroll(
    policy: AllowancePolicy, members: seq<Member>, incidents: seq<Incident>,
    records: seq<ActivityRecord>, selectedMembers: seq<string>, selectedIncidents: seq<string>)
    returns (calculations: seq<PayrollCalculation>)
    ensures calculations == DispatchCalculations(policy, members, incidents, records, selectedMembers, selectedIncidents)
  {
    calculations := [];
    for i := 0 to |selectedMembers|
      invariant calculations == DispatchCalculations(policy, members, incidents, records, selectedMembers[..i], selectedIncidents)
    {
      DispatchCalculationsStep(policy, members, incidents, records, selectedMembers, selectedIncidents, i);
      var member := FindMember(members, selectedMembers[i]);
      if member.None? {
        continue;
      }
      var memberCalculation := CalculateMember(policy, member.value, incidents, records, selectedIncidents);
      calculations := calculations + [memberCalculation];
    }
    assert selectedMembers[..|selectedMembers|] == selectedMembers;
  }

  // ---------------------------------------------------------------------------
  // Properties of the calculation
  // ---------------------------------------------------------------------------

  /** The breakdown's pay column sums to the four accumulators together. */
  lemma {:induction false} LinePaysSumToAccumulators(cs: seq<Contribution>)
    ensures SumLinePay(Lines(cs)) == SumBase(cs) + SumRisk(cs) + SumLeadership(cs) + SumEquipment(cs)
  {
    if cs != [] {
      var init, c := cs[..|cs| - 1], cs[|cs| - 1];
      assert cs == init + [c];
      LinePaysSumToAccumulators(init);
      SumsStep(init, c);
      var lines := Lines(init) + [IncidentLine(c.incidentName, c.hours, Pay(c))];
      assert lines[..|lines| - 1] == Lines(init);
    }
  }

  /**
   * A member's total is the sum of the four allowances and also the sum of
   * the pay of the rows of the member's incident breakdown.
   */
  lemma TotalIsBreakdownSum(
    policy: AllowancePolicy, member: Member, incidents: seq<Incident>,
    records: seq<ActivityRecord>, selected: seq<string>)
    ensures var mc := MemberCalculation(policy, member, incidents, records, selected);
      && mc.details.DispatchDetails?
      && mc.totalAmount == mc.details.baseAllowance + mc.details.riskAllowance
                             + mc.details.leadershipAllowance + mc.details.equipmentAllowance
      && mc.totalAmount == SumLinePay(mc.details.incidents)
  {
    LinePaysSumToAccumulators(Contributions(policy, member, incidents, records, selected));
  }

  /**
   * Under the base-and-risk policy no contribution carries leadership or
   * equipment pay, so both accumulators stay 0 and the total is base + risk.
   */
  lemma {:induction false} BaseAndRiskOnlyPaysNoAllowances(
    member: Member, incidents: seq<Incident>, records: seq<ActivityRecord>, selected: seq<string>)
    ensures var mc := MemberCalculation(BaseAndRiskOnly, member, incidents, records, selected);
      && mc.details.DispatchDetails?
      && mc.details.leadershipAllowance == 0.0
      && mc.details.equipmentAllowance == 0.0
      && mc.totalAmount == mc.details.baseAllowance + mc.details.riskAllowance
  {
    if selected != [] {
      var init := selected[..|selected| - 1];
      BaseAndRiskOnlyPaysNoAllowances(member, incidents, records, init);
      var cs := Contributions(BaseAndRiskOnly, member, incidents, records, init);
      match IncidentContribution(BaseAndRiskOnly, member, incidents, records, selected[|selected| - 1])
      case None =>
        assert cs + [] == cs;
      case Some(c) =>
        SumsStep(cs, c);
    }
  }

  /** A contribution comes from an incident in the list and a record in the list. */
  lemma ContributionSource(
    policy: AllowancePolicy, member: Member, incidents: seq<Incident>,
    records: seq<ActivityRecord>, incidentId: string)
    requires IncidentContribution(policy, member, incidents, records, incidentId).Some?
    ensures exists incident, record ::
              && incident in incidents && record in records
              && IncidentContribution(policy, member, incidents, records, incidentId)
                 == Some(ContributionOf(policy, member.rank, incident, record))
  {
    var incident := FindIncident(incidents, incidentId).value;
    var record := GetActivityRecord(records, member.id, incidentId).value;
    assert incident in incidents && record in records;
  }

  /** Non-negative hours and risk level give a contribution with no negative part. */
  lemma ContributionNonNegative(policy: AllowancePolicy, rank: Rank, incident: Incident, record: ActivityRecord)
    requires record.participationHours >= 0.0 && incident.riskLevel >= 0
    ensures var c := ContributionOf(policy, rank, incident, record);
      c.hours >= 0.0 && c.base >= 0.0 && c.risk >= 0.0 && c.leadership >= 0.0 && c.equipment >= 0.0
  {
    var c := ContributionOf(policy, rank, incident, record);
    var hours := record.participationHours;
    var rate := BaseRate(incident.kind) as real * Multiplier(rank);
    assert rate >= 0.0;
    assert c.base == rate * hours;
    var factor := (RiskMultiplier(incident.kind) - 1.0) * incident.riskLevel as real * 0.1;
    assert factor >= 0.0;
    assert c.risk == c.base * factor;
  }

  /** An incident of a risk-free category contributes no risk pay. */
  lemma ContributionRiskFree(policy: AllowancePolicy, rank: Rank, incident: Incident, record: ActivityRecord)
    requires RiskMultiplier(incident.kind) == 1.0
    ensures ContributionOf(policy, rank, incident, record).risk == 0.0
  {
    var c := ContributionOf(policy, rank, incident, record);
    assert c.risk == c.base * 0.0 * incident.riskLevel as real * 0.1;
  }

  /**
   * When every incident the member is paid for has a risk-free category
   * (risk multiplier 1.0), the member's risk allowance is exactly 0.
   */
  lemma {:induction false} RiskFreeIncidentsPayNoRisk(
    policy: AllowancePolicy, member: Member, incidents: seq<Incident>,
    records: seq<ActivityRecord>, selected: seq<string>)
    requires forall incident :: incident in incidents ==> RiskMultiplier(incident.kind) == 1.0
    ensures var mc := MemberCalculation(policy, member, incidents, records, selected);
      mc.details.DispatchDetails? && mc.details.riskAllowance == 0.0
  {
    if selected != [] {
      var init := selected[..|selected| - 1];
      RiskFreeIncidentsPayNoRisk(policy, member, incidents, records, init);
      var cs := Contributions(policy, member, incidents, records, init);
      match IncidentContribution(policy, member, incidents, records, selected[|selected| - 1])
      case None =>
        assert cs + [] == cs;
      case Some(c) =>
        ContributionSource(policy, member, incidents, records, selected[|selected| - 1]);
        var incident, record :| incident in incidents && record in records
          && c == ContributionOf(policy, member.rank, incident, record);
        ContributionRiskFree(policy, member.rank, incident, record);
        SumsStep(cs, c);
    }
  }

  /**
   * Selecting one more incident: an id that is unknown, that the member has no
   * record for, or whose record has 0 hours changes nothing; otherwise each
   * accumulator grows by that incident's share (`ContributionOf`: leadership
   * only when the record has the role and the screen pays it, equipment
   * likewise), the hours by the record's hours, and the breakdown by one row.
   */
  lemma SelectingOneMoreIncident(
    policy: AllowancePolicy, member: Member, incidents: seq<Incident>,
    records: seq<ActivityRecord>, selected: seq<string>, incidentId: string)
    ensures
      var before := MemberCalculation(policy, member, incidents, records, selected);
      var after := MemberCalculation(policy, member, incidents, records, selected + [incidentId]);
      var incident := FindIncident(incidents, incidentId);
      var record := GetActivityRecord(records, member.id, incidentId);
      if incident.None? || record.None? || record.value.participationHours == 0.0 then
        after == before
      else
        var c := ContributionOf(policy, member.rank, incident.value, record.value);
        && after.details.totalHours == before.details.totalHours + record.value.participationHours
        && after.details.baseAllowance == before.details.baseAllowance + c.base
        && after.details.riskAllowance == before.details.riskAllowance + c.risk
        && after.details.leadershipAllowance == before.details.leadershipAllowance + c.leadership
        && after.details.equipmentAllowance == before.details.equipmentAllowance + c.equipment
        && after.details.incidents
           == before.details.incidents + [IncidentLine(incident.value.name, record.value.participationHours, Pay(c))]
  {
    MemberCalculationStep(policy, member, incidents, records, selected, incidentId);
    var incident := FindIncident(incidents, incidentId);
    var record := GetActivityRecord(records, member.id, incidentId);
    if incident.None? || record.None? || record.value.participationHours == 0.0 {
      assert IncidentContribution(policy, member, incidents, records, incidentId) == None;
    } else {
      var c := ContributionOf(policy, member.rank, incident.value, record.value);
      assert IncidentContribution(policy, member, incidents, records, incidentId) == Some(c);
    }
  }

  /** Selecting one more incident adds that incident's contribution, if it has one, to the calculation. */
  lemma MemberCalculationStep(
    policy: AllowancePolicy, member: Member, incidents: seq<Incident>,
    records: seq<ActivityRecord>, selected: seq<string>, incidentId: string)
    ensures
      var before := MemberCalculation(policy, member, incidents, records, selected);
      var after := MemberCalculation(policy, member, incidents, records, selected + [incidentId]);
      match IncidentContribution(policy, member, incidents, records, incidentId)
      case None => after == before
      case Some(c) =>
        && after.details.totalHours == before.details.totalHours + c.hours
        && after.details.baseAllowance == before.details.baseAllowance + c.base
        && after.details.riskAllowance == before.details.riskAllowance + c.risk
        && after.details.leadershipAllowance == before.details.leadershipAllowance + c.leadership
        && after.details.equipmentAllowance == before.details.equipmentAllowance + c.equipment
        && after.details.incidents == before.details.incidents + [IncidentLine(c.incidentName, c.hours, Pay(c))]
  {
    var sel := selected + [incidentId];
    assert sel[..|sel| - 1] == selected;
    var cs := Contributions(policy, member, incidents, records, selected);
    match IncidentContribution(policy, member, incidents, records, incidentId)
    case None =>
      assert Contributions(policy, member, incidents, records, sel) == cs + [] == cs;
    case Some(c) =>
      assert Contributions(policy, member, incidents, records, sel) == cs + [c];
      SumsStep(cs, c);
  }

  /**
   * The calculation list names exactly the selected ids of known members, in
   * selection order, and each entry is that member's calculation.
   */
  lemma OneCalculationPerKnownMember(
    policy: AllowancePolicy, members: seq<Member>, incidents: seq<Incident>,
    records: seq<ActivityRecord>, selectedMembers: seq<string>, selectedIncidents: seq<string>)
    ensures var calcs := DispatchCalculations(policy, members, incidents, records, selectedMembers, selectedIncidents);
      && MemberIds(calcs) == KnownIds(members, selectedMembers)
      && forall k :: 0 <= k < |calcs| ==>
           FindMember(members, calcs[k].memberId).Some?
           && calcs[k] == MemberCalculation(policy, FindMember(members, calcs[k].memberId).value,
                                            incidents, records, selectedIncidents)
  {
    CalculationIdsAreKnownIds(policy, members, incidents, records, selectedMembers, selectedIncidents);
    CalculationsAreMemberCalculations(policy, members, incidents, records, selectedMembers, selectedIncidents);
  }

  /** The calculations are for the known selected ids, in selection order. */
  lemma {:induction false} CalculationIdsAreKnownIds(
    policy: AllowancePolicy, members: seq<Member>, incidents: seq<Incident>,
    records: seq<ActivityRecord>, selectedMembers: seq<string>, selectedIncidents: seq<string>)
    ensures MemberIds(DispatchCalculations(policy, members, incidents, records, selectedMembers, selectedIncidents))
         == KnownIds(members, selectedMembers)
  {
    if selectedMembers != [] {
      var n := |selectedMembers| - 1;
      var init := selectedMembers[..n];
      CalculationIdsAreKnownIds(policy, members, incidents, records, init, selectedIncidents);
      KnownIdsStep(members, selectedMembers);
      DispatchCalculationsStep(policy, members, incidents, records, selectedMembers, selectedIncidents, n);
      assert selectedMembers[..n + 1] == selectedMembers;
      var prev := DispatchCalculations(policy, members, incidents, records, init, selectedIncidents);
      match FindMember(members, selectedMembers[n])
      case None =>
        assert prev + [] == prev;
      case Some(m) =>
        var calcs := prev + [MemberCalculation(policy, m, incidents, records, selectedIncidents)];
        assert calcs[..|calcs| - 1] == prev;
    }
  }

  /** `c` is the calculation of the member its id names. */
  predicate IsMemberCalculation(
    c: PayrollCalculation, policy: AllowancePolicy, members: seq<Member>, incidents: seq<Incident>,
    records: seq<ActivityRecord>, selectedIncidents: seq<string>)
  {
    FindMember(members, c.memberId).Some?
    && c == MemberCalculation(policy, FindMember(members, c.memberId).value, incidents, records, selectedIncidents)
  }

  /** Every calculation in `calcs` is the calculation of the member its id names. */
  predicate AllMemberCalculations(
    calcs: seq<PayrollCalculation>, policy: AllowancePolicy, members: seq<Member>, incidents: seq<Incident>,
    records: seq<ActivityRecord>, selectedIncidents: seq<string>)
  {
    forall k :: 0 <= k < |calcs| ==> IsMemberCalculation(calcs[k], policy, members, incidents, records, selectedIncidents)
  }

  /** Every calculation is the calculation of the member its id names. */
  lemma {:induction false} CalculationsAreMemberCalculations(
    policy: AllowancePolicy, members: seq<Member>, incidents: seq<Incident>,
    records: seq<ActivityRecord>, selectedMembers: seq<string>, selectedIncidents: seq<string>)
    ensures AllMemberCalculations(
      DispatchCalculations(policy, members, incidents, records, selectedMembers, selectedIncidents),
      policy, members, incidents, records, selectedIncidents)
  {
    if selectedMembers != [] {
      var init := selectedMembers[..|selectedMembers| - 1];
      var last := selectedMembers[|selectedMembers| - 1];
      CalculationsAreMemberCalculations(policy, members, incidents, records, init, selectedIncidents);
      var prev := DispatchCalculations(policy, members, incidents, records, init, selectedIncidents);
      match FindMember(members, last)
      case None =>
        assert prev + [] == prev;
      case Some(m) =>
        var mc := MemberCalculation(policy, m, incidents, records, selectedIncidents);
        assert mc.memberId == last;
        assert IsMemberCalculation(mc, policy, members, incidents, records, selectedIncidents);
        var calcs := prev + [mc];
        forall k | 0 <= k < |calcs|
          ensures IsMemberCalculation(calcs[k], policy, members, incidents, records, selectedIncidents)
        {
          if k < |prev| {
            assert calcs[k] == prev[k];
          }
        }
    }
  }

  /**
   * When every record has non-negative hours and every incident a non-negative
   * risk level, every accumulator and the total are non-negative.
   */
  lemma {:induction false} NonNegativeInputsGiveNonNegativePay(
    policy: AllowancePolicy, member: Member, incidents: seq<Incident>,
    records: seq<ActivityRecord>, selected: seq<string>)
    requires forall record :: record in records ==> record.participationHours >= 0.0
    requires forall incident :: incident in incidents ==> incident.riskLevel >= 0
    ensures var mc := MemberCalculation(policy, member, incidents, records, selected);
      && mc.details.DispatchDetails?
      && mc.details.totalHours >= 0.0
      && mc.details.baseAllowance >= 0.0 && mc.details.riskAllowance >= 0.0
      && mc.details.leadershipAllowance >= 0.0 && mc.details.equipmentAllowance >= 0.0
      && mc.totalAmount >= 0.0
  {
    if selected != [] {
      var init := selected[..|selected| - 1];
      NonNegativeInputsGiveNonNegativePay(policy, member, incidents, records, init);
      var cs := Contributions(policy, member, incidents, records, init);
      match IncidentContribution(policy, member, incidents, records, selected[|selected| - 1])
      case None =>
        assert cs + [] == cs;
      case Some(c) =>
        ContributionSource(policy, member, incidents, records, selected[|selected| - 1]);
        var incident, record :| incident in incidents && record in records
          && c == ContributionOf(policy, member.rank, incident, record);
        ContributionNonNegative(policy, member.rank, incident, record);
        SumsStep(cs, c);
    }
  }

  /**
   * A chief (multiplier 1.6) at a fire (rate 3000, risk multiplier 1.5) of
   * risk level 3 for 4 hours, with the leadership role and special equipment:
   * base 19200, risk 2880, leadership 3840, equipment 4000, incident pay 29920.
   */
  lemma ChiefAtFireExample()
    ensures
      var chief := Member("mem001", "田中 太郎", Chief, 15);
      var fire := Incident("inc001", "住宅火災", Fire, 4.0, 3, []);
      var record := ActivityRecord("mem001", "inc001", 4.0, true, true, "");
      var mc := MemberCalculation(WithLeadershipAndEquipment, chief, [fire], [record], ["inc001"]);
      && mc.details == DispatchDetails(4.0, 19200.0, 2880.0, 3840.0, 4000.0, [IncidentLine("住宅火災", 4.0, 29920.0)])
      && mc.totalAmount == 29920.0
  {
    var chief := Member("mem001", "田中 太郎", Chief, 15);
    var fire := Incident("inc001", "住宅火災", Fire, 4.0, 3, []);
    var record := ActivityRecord("mem001", "inc001", 4.0, true, true, "");
    var c := ContributionOf(WithLeadershipAndEquipment, Chief, fire, record);
    assert c.base == 19200.0;
    assert c.risk == 2880.0;
    assert c == Contribution("住宅火災", 4.0, 19200.0, 2880.0, 3840.0, 4000.0);
    assert IncidentContribution(WithLeadershipAndEquipment, chief, [fire], [record], "inc001") == Some(c);
    assert ["inc001"][..0] == [];
    assert Contributions(WithLeadershipAndEquipment, chief, [fire], [record], ["inc001"]) == [c];
    SumsStep([], c);
    assert [] + [c] == [c];
  }
}
