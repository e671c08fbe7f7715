/**
 * The members and incidents the screens compute over, and the two lookups
 * the calculations use (`members.find` and `incidents.find` by id).
 */
module Roster {
  import opened Maybe
  import opened Tables
  import opened Seqs

  /** A firefighter.  The join date is display-only and not modelled. */
  datatype Member = Member(id: string, name: string, rank: Rank, yearsOfService: int)

  /**
   * An incident.  `participants` lists the member ids recorded for it (the
   * calculator screen's incidents carry none, so there it is empty).  Date and
   * description are display-only and not modelled.
   */
  datatype Incident = Incident(
    id: string,
    name: string,
    kind: IncidentType,
    duration: real,
    riskLevel: int,
    participants: seq<string>)

  /** `members.find((m) => m.id === id)`: the first member with that id. */
  function FindMember(members: seq<Member>, id: string): (r: Option<Member>)
    ensures r.None? <==> forall k :: 0 <= k < |members| ==> members[k].id != id
    ensures r.Some? ==> r.value.id == id
  {
    match FirstIndex(members, (m: Member) => m.id == id)
    case None => None
    case Some(k) => Some(members[k])
  }

  /** The member `FindMember` gives is the first one with the id. */
  lemma FindMemberIsFirst(members: seq<Member>, id: string)
    ensures FindMember(members, id).Some? ==> IsFirst(members, (m: Member) => m.id == id, FindMember(members, id).value)
  {
  }

  /** `incidents.find((i) => i.id === id)`: the first incident with that id. */
  function FindIncident(incidents: seq<Incident>, id: string): (r: Option<Incident>)
    ensures r.None? <==> forall k :: 0 <= k < |incidents| ==> incidents[k].id != id
    ensures r.Some? ==> r.value in incidents && r.value.id == id
  {
    match FirstIndex(incidents, (i: Incident) => i.id == id)
    case None => None
    case Some(k) => Some(incidents[k])
  }

  /** The incident `FindIncident` gives is the first one with the id. */
  lemma FindIncidentIsFirst(incidents: seq<Incident>, id: string)
    ensures FindIncident(incidents, id).Some? ==> IsFirst(incidents, (i: Incident) => i.id == id, FindIncident(incidents, id).value)
  {
  }

  /** The selected ids that name a known member, in selection order. */
  function KnownIds(members: seq<Member>, selected: seq<string>): (ids: seq<string>)
    ensures |ids| <= |selected|
    ensures forall id :: id in ids <==> id in selected && FindMember(members, id).Some?
  {
    Filter(selected, (id: string) => FindMember(members, id).Some?)
  }

  /** One more selected id adds that id when it names a known member. */
  lemma KnownIdsStep(members: seq<Member>, selected: seq<string>)
    requires selected != []
    ensures var last := selected[|selected| - 1];
      KnownIds(members, selected)
      == KnownIds(members, selected[..|selected| - 1]) + (if FindMember(members, last).Some? then [last] else [])
  {
    var last := selected[|selected| - 1];
    assert selected == selected[..|selected| - 1] + [last];
    FilterAppend(selected[..|selected| - 1], [last], (id: string) => FindMember(members, id).Some?);
  }
}
