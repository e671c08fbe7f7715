/**
 * The activity records of the two firefighter screens: one record per
 * (member, incident) pair holding the hours worked and the two allowance
 * flags, maintained by find-then-update-or-append.
 */
module Activity {
  import opened Maybe
  import opened Seqs

  datatype ActivityRecord = ActivityRecord(
    memberId: string,
    incidentId: string,
    participationHours: real,
    leadershipRole: bool,
    specialEquipmentUsed: bool,
    notes: string)

  /** One form edit: the field being set and its new value. */
  datatype ActivityEdit =
    | SetParticipationHours(hours: real)
    | SetLeadershipRole(on: bool)
    | SetSpecialEquipmentUsed(on: bool)
    | SetNotes(text: string)

  /** `{ ...record, [field]: value }` */
  function ApplyEdit(r: ActivityRecord, e: ActivityEdit): (r': ActivityRecord)
    ensures r'.memberId == r.memberId && r'.incidentId == r.incidentId
  {
    match e
    case SetParticipationHours(h) => r.(participationHours := h)
    case SetLeadershipRole(b) => r.(leadershipRole := b)
    case SetSpecialEquipmentUsed(b) => r.(specialEquipmentUsed := b)
    case SetNotes(t) => r.(notes := t)
  }

  /** The defaults a new record starts from: no hours, no flags, no notes. */
  function BlankRecord(memberId: string, incidentId: string): ActivityRecord
  {
    ActivityRecord(memberId, incidentId, 0.0, false, false, "")
  }

  predicate HasKey(r: ActivityRecord, memberId: string, incidentId: string)
  {
    r.memberId == memberId && r.incidentId == incidentId
  }

  /** `findIndex` on (memberId, incidentId): the first position holding that pair. */
  function IndexOfRecord(records: seq<ActivityRecord>, memberId: string, incidentId: string): (r: Option<nat>)
    ensures r.None? <==> forall k :: 0 <= k < |records| ==> !HasKey(records[k], memberId, incidentId)
    ensures r.Some? ==> r.value < |records| && HasKey(records[r.value], memberId, incidentId)
                        && forall k :: 0 <= k < r.value ==> !HasKey(records[k], memberId, incidentId)
  {
    FirstIndex(records, (x: ActivityRecord) => HasKey(x, memberId, incidentId))
  }

  /** `getActivityRecord`: the first record for the pair, if there is one. */
  function GetActivityRecord(records: seq<ActivityRecord>, memberId: string, incidentId: string): (r: Option<ActivityRecord>)
    ensures r.None? <==> forall k :: 0 <= k < |records| ==> !HasKey(records[k], memberId, incidentId)
    ensures r.Some? ==> r.value in records && HasKey(r.value, memberId, incidentId)
    ensures r.Some? && UniqueKeys(records) ==>
              forall k :: 0 <= k < |records| && HasKey(records[k], memberId, incidentId) ==> records[k] == r.value
  {
    match IndexOfRecord(records, memberId, incidentId)
    case None => None
    case Some(k) => Some(records[k])
  }

  /** The record `GetActivityRecord` gives is the first one with the pair. */
  lemma GetActivityRecordIsFirst(records: seq<ActivityRecord>, memberId: string, incidentId: string)
    ensures var r := GetActivityRecord(records, memberId, incidentId);
      r.Some? ==> IsFirst(records, (x: ActivityRecord) => HasKey(x, memberId, incidentId), r.value)
  {
  }

  /** At most one record per (member, incident) pair. */
  predicate UniqueKeys(records: seq<ActivityRecord>)
  {
    forall i, j :: 0 <= i < j < |records| ==>
      !HasKey(records[j], records[i].memberId, records[i].incidentId)
  }

  /** Replacing a record by one with the same pair keeps the pairs unique. */
  lemma UniqueAfterReplace(records: seq<ActivityRecord>, k: nat, x: ActivityRecord)
    requires k < |records| && UniqueKeys(records)
    requires x.memberId == records[k].memberId && x.incidentId == records[k].incidentId
    ensures UniqueKeys(records[k := x])
  {
    var u := records[k := x];
    forall i, j | 0 <= i < j < |u| ensures !HasKey(u[j], u[i].memberId, u[i].incidentId) {
      assert !HasKey(records[j], records[i].memberId, records[i].incidentId);
    }
  }

  /** Appending a record whose pair is absent keeps the pairs unique. */
  lemma UniqueAfterAppend(records: seq<ActivityRecord>, x: ActivityRecord)
    requires UniqueKeys(records)
    requires forall k :: 0 <= k < |records| ==> !HasKey(records[k], x.memberId, x.incidentId)
    ensures UniqueKeys(records + [x])
  {
    var u := records + [x];
    forall i, j | 0 <= i < j < |u| ensures !HasKey(u[j], u[i].memberId, u[i].incidentId) {
      if j < |records| {
        assert !HasKey(records[j], records[i].memberId, records[i].incidentId);
      }
    }
  }

  /**
   * `updateActivityRecord`: when a record for the pair exists, only the edited
   * field of that (first) record changes; otherwise one blank record with the
   * edit applied is appended.  Either way the pairs stay unique.
   */
  method UpdateActivityRecord(records: seq<ActivityRecord>, memberId: string, incidentId: string, edit: ActivityEdit)
    returns (updated: seq<ActivityRecord>)
    ensures (exists k :: 0 <= k < |records| && HasKey(records[k], memberId, incidentId)) ==>
              |updated| == |records|
              && exists k :: 0 <= k < |records| && HasKey(records[k], memberId, incidentId)
                             && (forall j :: 0 <= j < k ==> !HasKey(records[j], memberId, incidentId))
                             && updated == records[k := ApplyEdit(records[k], edit)]
    ensures (forall k :: 0 <= k < |records| ==> !HasKey(records[k], memberId, incidentId)) ==>
              updated == records + [ApplyEdit(BlankRecord(memberId, incidentId), edit)]
    ensures UniqueKeys(records) ==> UniqueKeys(updated)
    ensures exists k :: 0 <= k < |updated| && HasKey(updated[k], memberId, incidentId)
  {
    var existingIndex := IndexOfRecord(records, memberId, incidentId);
    if existingIndex.Some? {
      var k := existingIndex.value;
      updated := records;
      updated := updated[k := ApplyEdit(updated[k], edit)];
      if UniqueKeys(records) {
        UniqueAfterReplace(records, k, ApplyEdit(records[k], edit));
      }
      assert HasKey(updated[k], memberId, incidentId);
    } else {
      var newRecord := ApplyEdit(BlankRecord(memberId, incidentId), edit);
      updated := records + [newRecord];
      if UniqueKeys(records) {
        UniqueAfterAppend(records, newRecord);
      }
      assert HasKey(updated[|records|], memberId, incidentId);
    }
  }

  /** The records that do not refer to the incident (unchecking an incident). */
  function WithoutIncident(records: seq<ActivityRecord>, incidentId: string): (r: seq<ActivityRecord>)
    ensures forall x :: x in r <==> x in records && x.incidentId != incidentId
  {
    Filter(records, (x: ActivityRecord) => x.incidentId != incidentId)
  }

  /** The records that do not refer to the member (unchecking a member). */
  function WithoutMember(records: seq<ActivityRecord>, memberId: string): (r: seq<ActivityRecord>)
    ensures forall x :: x in r <==> x in records && x.memberId != memberId
  {
    Filter(records, (x: ActivityRecord) => x.memberId != memberId)
  }
}
