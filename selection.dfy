/**
 * Checkbox handling on the calculation pages: checking or unchecking an
 * incident or a member updates the selection lists and drops the activity
 * records of what was unchecked.  On the two screens whose incidents list
 * participants, checking an incident also selects its participants, and
 * unchecking one reselects exactly the participants of the incidents left.
 */
module Selection {
  import opened Maybe
  import opened Seqs
  import opened Roster
  import Activity
  import Reward

  /**
   * Checking (`checked`) appends the id; unchecking removes every occurrence
   * of it and keeps the rest in order.
   */
  function Toggle(list: seq<string>, id: string, checked: bool): (r: seq<string>)
    ensures checked ==> r == list + [id]
    ensures !checked ==> id !in r && forall x :: x != id ==> (x in r <==> x in list)
  {
    if checked then list + [id] else Filter(list, (x: string) => x != id)
  }

  /** Checking a new id and unchecking it again restores the list. */
  lemma ToggleRoundTrip(list: seq<string>, id: string)
    requires id !in list
    ensures Toggle(Toggle(list, id, true), id, false) == list
  {
    var keep := (x: string) => x != id;
    FilterAppend(list, [id], keep);
    assert Filter([id], keep) == [];
  }

  /** Unchecking keeps a duplicate-free list duplicate-free. */
  lemma UncheckKeepsNoDuplicates(list: seq<string>, id: string)
    requires NoDuplicates(list)
    ensures NoDuplicates(Toggle(list, id, false))
  {
    FilterNoDuplicates(list, (x: string) => x != id);
  }

  // ---------------------------------------------------------------------------
  // Participants
  // ---------------------------------------------------------------------------

  /** `set.add` for each of `ps` in turn, viewed as the set's insertion order. */
  function AddAll(acc: seq<string>, ps: seq<string>): seq<string>
  {
    if ps == [] then acc
    else
      var prev := AddAll(acc, ps[..|ps| - 1]);
      if ps[|ps| - 1] in prev then prev else prev + [ps[|ps| - 1]]
  }

  /** `x` is listed as a participant of the incident with this id. */
  predicate IsParticipant(incidents: seq<Incident>, id: string, x: string)
  {
    FindIncident(incidents, id).Some? && x in FindIncident(incidents, id).value.participants
  }

  /** `x` participates in one of the incidents named by `ids`. */
  predicate InSomeIncident(incidents: seq<Incident>, ids: seq<string>, x: string)
  {
    Any(ids, (id: string) => IsParticipant(incidents, id, x))
  }

  /**
   * `Array.from` of the set filled with the participants of the known
   * incidents among `ids`, in insertion order.
   */
  function ParticipantUnion(incidents: seq<Incident>, ids: seq<string>): seq<string>
  {
    if ids == [] then []
    else
      var prev := ParticipantUnion(incidents, ids[..|ids| - 1]);
      match FindIncident(incidents, ids[|ids| - 1])
      case None => prev
      case Some(incident) => AddAll(prev, incident.participants)
  }

  /** Adding to a set: the old members stay first, the result is the union and has no duplicates. */
  lemma {:induction false} AddAllFacts(acc: seq<string>, ps: seq<string>)
    requires NoDuplicates(acc)
    ensures var r := AddAll(acc, ps);
      && NoDuplicates(r)
      && |acc| <= |r| && r[..|acc|] == acc
      && forall x :: x in r <==> x in acc || x in ps
  {
    if ps != [] {
      var init := ps[..|ps| - 1];
      AddAllFacts(acc, init);
      var prev := AddAll(acc, init);
      var p := ps[|ps| - 1];
      assert ps == init + [p];
      if p !in prev {
        var r := prev + [p];
        assert r[..|acc|] == prev[..|acc|];
      }
    }
  }

  /** Extending the selection by one id adds the participants of that id's incident, if known. */
  lemma InSomeIncidentStep(incidents: seq<Incident>, ids: seq<string>, x: string)
    requires ids != []
    ensures InSomeIncident(incidents, ids, x)
        <==> InSomeIncident(incidents, ids[..|ids| - 1], x) || IsParticipant(incidents, ids[|ids| - 1], x)
  {
    AnyStep(ids, (id: string) => IsParticipant(incidents, id, x));
  }

  /**
   * The union holds each participant of the known selected incidents exactly
   * once, and nobody else.
   */
  lemma {:induction false} ParticipantUnionFacts(incidents: seq<Incident>, ids: seq<string>)
    ensures NoDuplicates(ParticipantUnion(incidents, ids))
    ensures forall x :: x in ParticipantUnion(incidents, ids) <==> InSomeIncident(incidents, ids, x)
  {
    if ids != [] {
      var init := ids[..|ids| - 1];
      ParticipantUnionFacts(incidents, init);
      var prev := ParticipantUnion(incidents, init);
      var found := FindIncident(incidents, ids[|ids| - 1]);
      if found.Some? {
        AddAllFacts(prev, found.value.participants);
      }
      forall x ensures x in ParticipantUnion(incidents, ids) <==> InSomeIncident(incidents, ids, x) {
        InSomeIncidentStep(incidents, ids, x);
      }
    }
  }

  /**
   * The loop of `handleIncidentSelection` that rebuilds the member selection:
   * for each remaining incident id that names a known incident, add each of
   * its participants to the set.
   */
  method RemainingParticipants(incidents: seq<Incident>, remaining: seq<string>) returns (members: seq<string>)
    ensures members == ParticipantUnion(incidents, remaining)
    ensures NoDuplicates(members)
    ensures forall x :: x in members <==> InSomeIncident(incidents, remaining, x)
  {
    members := [];
    for i := 0 to |remaining|
      invariant members == ParticipantUnion(incidents, remaining[..i])
    {
      assert remaining[..i + 1][..i] == remaining[..i];
      var remainingIncident := FindIncident(incidents, remaining[i]);
      if remainingIncident.Some? {
        var participants := remainingIncident.value.participants;
        ghost var before := members;
        for j := 0 to |participants|
          invariant members == AddAll(before, participants[..j])
        {
          assert participants[..j + 1][..j] == participants[..j];
          if participants[j] !in members {
            members := members + [participants[j]];
          }
        }
        assert participants[..|participants|] == participants;
      }
    }
    assert remaining[..|remaining|] == remaining;
    ParticipantUnionFacts(incidents, remaining);
  }

  /** The member and incident selection of a calculation page. */
  datatype Picks = Picks(incidents: seq<string>, members: seq<string>)

  /**
   * The selection after `handleIncidentSelection` on the screens whose
   * incidents list participants.  Checking appends the incident and those of
   * its participants not yet selected; unchecking removes the incident and,
   * when the id names a known incident, replaces the members by the
   * participants of the incidents that remain, in the order the set received
   * them, each once.  An unknown incident leaves the members as they were.
   */
  ghost predicate SelectionAfter(incidents: seq<Incident>, picks: Picks, incidentId: string, checked: bool, r: Picks)
  {
    && r.incidents == Toggle(picks.incidents, incidentId, checked)
    && (checked ==> match FindIncident(incidents, incidentId)
        case None => r.members == picks.members
        case Some(incident) =>
          r.members == picks.members + Filter(incident.participants, (id: string) => id !in picks.members))
    && (!checked ==> match FindIncident(incidents, incidentId)
        case None => r.members == picks.members
        case Some(_) =>
          && r.members == ParticipantUnion(incidents, r.incidents)
          && NoDuplicates(r.members)
          && forall x :: x in r.members <==> InSomeIncident(incidents, r.incidents, x))
  }

  /** The selection part of `handleIncidentSelection`. */
  method PickIncident(incidents: seq<Incident>, picks: Picks, incidentId: string, checked: bool)
    returns (r: Picks)
    ensures SelectionAfter(incidents, picks, incidentId, checked, r)
  {
    if checked {
      var selectedIncidents := picks.incidents + [incidentId];
      var incident := FindIncident(incidents, incidentId);
      var selectedMembers := picks.members;
      if incident.Some? {
        var newParticipants := Filter(incident.value.participants, (id: string) => id !in picks.members);
        selectedMembers := picks.members + newParticipants;
      }
      r := Picks(selectedIncidents, selectedMembers);
    } else {
      var remainingIncidents := Filter(picks.incidents, (id: string) => id != incidentId);
      var incident := FindIncident(incidents, incidentId);
      var selectedMembers := picks.members;
      if incident.Some? {
        selectedMembers := RemainingParticipants(incidents, remainingIncidents);
      }
      r := Picks(remainingIncidents, selectedMembers);
    }
  }

  /**
   * Checking an incident keeps a duplicate-free member selection
   * duplicate-free (given duplicate-free participants) and selects exactly
   * the old members and the incident's participants.
   */
  lemma CheckKeepsMembersUnique(members: seq<string>, participants: seq<string>)
    requires NoDuplicates(members) && NoDuplicates(participants)
    ensures var r := members + Filter(participants, (id: string) => id !in members);
      && NoDuplicates(r)
      && forall x :: x in r <==> x in members || x in participants
  {
    var keep := (id: string) => id !in members;
    var added := Filter(participants, keep);
    FilterNoDuplicates(participants, keep);
    var r := members + added;
    forall i, j | 0 <= i < j < |r| ensures r[i] != r[j] {
      if j >= |members| {
        assert r[j] == added[j - |members|];
        if i < |members| {
          assert r[i] in members;
        } else {
          assert r[i] == added[i - |members|];
        }
      }
    }
    forall x | x in participants ensures x in r {
      if x !in members {
        var k :| 0 <= k < |participants| && participants[k] == x;
        assert keep(participants[k]);
      }
    }
  }

  // ---------------------------------------------------------------------------
  // The three screens' handlers
  // ---------------------------------------------------------------------------

  /**
   * `handleIncidentSelection` of the firefighter payroll system: the selection
   * update, and on unchecking the removal of the incident's activity records.
   */
  method HandleIncidentSelection(
    incidents: seq<Incident>, picks: Picks, records: seq<Activity.ActivityRecord>, incidentId: string, checked: bool)
    returns (picks': Picks, records': seq<Activity.ActivityRecord>)
    ensures SelectionAfter(incidents, picks, incidentId, checked, picks')
    ensures checked ==> records' == records
    ensures !checked ==> records' == Activity.WithoutIncident(records, incidentId)
  {
    picks' := PickIncident(incidents, picks, incidentId, checked);
    records' := if checked then records else Activity.WithoutIncident(records, incidentId);
  }

  /** `handleIncidentSelection` of the payment-management screen, over its reward records. */
  method HandleRewardIncidentSelection(
    incidents: seq<Incident>, picks: Picks, records: seq<Reward.RewardRecord>, incidentId: string, checked: bool)
    returns (picks': Picks, records': seq<Reward.RewardRecord>)
    ensures SelectionAfter(incidents, picks, incidentId, checked, picks')
    ensures checked ==> records' == records
    ensures !checked ==> records' == Reward.WithoutIncident(records, incidentId)
  {
    picks' := PickIncident(incidents, picks, incidentId, checked);
    records' := if checked then records else Reward.WithoutIncident(records, incidentId);
  }

  /**
   * `handleIncidentSelection` of the calculator screen (no participants):
   * checking appends the incident; unchecking removes it and its records.
   */
  function ToggleIncident(selectedIncidents: seq<string>, records: seq<Activity.ActivityRecord>, incidentId: string, checked: bool)
    : (r: (seq<string>, seq<Activity.ActivityRecord>))
    ensures checked ==> r == (selectedIncidents + [incidentId], records)
    ensures !checked ==> incidentId !in r.0 && forall x :: x != incidentId ==> (x in r.0 <==> x in selectedIncidents)
    ensures !checked ==> forall rec :: rec in r.1 <==> rec in records && rec.incidentId != incidentId
  {
    (Toggle(selectedIncidents, incidentId, checked),
     if checked then records else Activity.WithoutIncident(records, incidentId))
  }

  /**
   * `handleMemberSelection` (calculator screen and firefighter payroll
   * system): checking appends the member; unchecking removes it and its records.
   */
  function ToggleMember(selectedMembers: seq<string>, records: seq<Activity.ActivityRecord>, memberId: string, checked: bool)
    : (r: (seq<string>, seq<Activity.ActivityRecord>))
    ensures checked ==> r == (selectedMembers + [memberId], records)
    ensures !checked ==> memberId !in r.0 && forall x :: x != memberId ==> (x in r.0 <==> x in selectedMembers)
    ensures !checked ==> forall rec :: rec in r.1 <==> rec in records && rec.memberId != memberId
  {
    (Toggle(selectedMembers, memberId, checked),
     if checked then records else Activity.WithoutMember(records, memberId))
  }
}
