/**
 * The activity records of the payment-management screen.  Besides the hours
 * they carry a reward, its withholding tax, other deductions and the amount
 * transferred; editing the reward or the deductions of a record re-derives
 * the withholding and the transfer.
 */
module Reward {
  import opened Maybe
  import opened Seqs
  import Activity

  /** ACTIVITY_TYPES */
  datatype ActivityType = Dispatch | Training | Meeting | Inspection | Patrol | Other

  datatype RewardRecord = RewardRecord(
    memberId: string,
    incidentId: string,
    activityType: ActivityType,
    participationHours: real,
    rewardAmount: real,
    withholdingTax: real,
    otherDeductions: real,
    transferAmount: real,
    notes: string)

  /** One form edit: the field being set and its new value. */
  datatype RewardEdit =
    | SetActivityType(kind: ActivityType)
    | SetParticipationHours(hours: real)
    | SetRewardAmount(amount: real)
    | SetWithholdingTax(tax: real)
    | SetOtherDeductions(deductions: real)
    | SetTransferAmount(transfer: real)
    | SetNotes(text: string)

  /** The withholding rate, 10.21 percent. */
  const WithholdingRate: real := 0.1021

  /**
   * `Math.floor(reward * 0.1021)`: the tax is the largest whole yen not above
   * 10.21 percent of the reward.
   */
  function WithholdingTax(reward: real): (tax: int)
    ensures tax as real <= reward * WithholdingRate < tax as real + 1.0
  {
    (reward * WithholdingRate).Floor
  }

  /** For a non-negative reward the tax is between zero and the reward. */
  lemma WithholdingWithinReward(reward: real)
    requires reward >= 0.0
    ensures 0 <= WithholdingTax(reward) && WithholdingTax(reward) as real <= reward
  {
  }

  /** A larger reward never has a smaller tax. */
  lemma WithholdingMonotone(a: real, b: real)
    requires a <= b
    ensures WithholdingTax(a) <= WithholdingTax(b)
  {
    assert a * WithholdingRate <= b * WithholdingRate;
  }

  /** The withholding and transfer of a record agree with its reward and deductions. */
  predicate Settled(r: RewardRecord)
  {
    && r.withholdingTax == WithholdingTax(r.rewardAmount) as real
    && r.transferAmount == r.rewardAmount - r.withholdingTax - r.otherDeductions
  }

  /** Re-derives the withholding tax and the transfer amount of a record. */
  function Settle(r: RewardRecord): (s: RewardRecord)
    ensures Settled(s)
    ensures s.(withholdingTax := r.withholdingTax, transferAmount := r.transferAmount) == r
  {
    var tax := WithholdingTax(r.rewardAmount) as real;
    r.(withholdingTax := tax, transferAmount := r.rewardAmount - tax - r.otherDeductions)
  }

  /** `{ ...record, [field]: value }` */
  function ApplyEdit(r: RewardRecord, e: RewardEdit): (r': RewardRecord)
    ensures r'.memberId == r.memberId && r'.incidentId == r.incidentId
  {
    match e
    case SetActivityType(k) => r.(activityType := k)
    case SetParticipationHours(h) => r.(participationHours := h)
    case SetRewardAmount(a) => r.(rewardAmount := a)
    case SetWithholdingTax(t) => r.(withholdingTax := t)
    case SetOtherDeductions(d) => r.(otherDeductions := d)
    case SetTransferAmount(t) => r.(transferAmount := t)
    case SetNotes(t) => r.(notes := t)
  }

  /** An edit of an existing record: the reward and the deductions re-derive the tax and the transfer. */
  function EditExisting(r: RewardRecord, e: RewardEdit): RewardRecord
  {
    var r' := ApplyEdit(r, e);
    if e.SetRewardAmount? || e.SetOtherDeductions? then Settle(r') else r'
  }

  /** A new record: defaults, the edit, and a re-derivation only when the edit is the reward. */
  function NewRecord(memberId: string, incidentId: string, e: RewardEdit): RewardRecord
  {
    var r := ApplyEdit(RewardRecord(memberId, incidentId, Dispatch, 0.0, 0.0, 0.0, 0.0, 0.0, ""), e);
    if e.SetRewardAmount? then Settle(r) else r
  }

  /**
   * Editing the reward or the deductions of an existing record leaves it
   * settled: the tax is the floor of 10.21 percent of the reward, the transfer
   * is the reward less tax and deductions, and only the edited field, the tax
   * and the transfer differ from before.  Nothing clamps the transfer.
   */
  lemma EditSettles(r: RewardRecord, e: RewardEdit)
    requires e.SetRewardAmount? || e.SetOtherDeductions?
    ensures var s := EditExisting(r, e);
      && Settled(s)
      && (e.SetRewardAmount? ==> s.rewardAmount == e.amount && s.otherDeductions == r.otherDeductions)
      && (e.SetOtherDeductions? ==> s.otherDeductions == e.deductions && s.rewardAmount == r.rewardAmount)
      && s.(withholdingTax := r.withholdingTax, transferAmount := r.transferAmount,
            rewardAmount := r.rewardAmount, otherDeductions := r.otherDeductions) == r
  {
  }

  /** The transfer is not clamped: deductions above the net reward make it negative. */
  lemma TransferMayBeNegative()
    ensures var r := EditExisting(RewardRecord("m", "i", Dispatch, 1.0, 1000.0, 0.0, 2000.0, 0.0, ""),
                                  SetRewardAmount(1000.0));
      r.withholdingTax == 102.0 && r.transferAmount == -1102.0
  {
    assert WithholdingTax(1000.0) == 102;
  }

  /**
   * A new record created by editing its deductions is not re-derived: its
   * transfer stays 0 instead of minus the deductions.
   */
  lemma NewRecordFromDeductionsUnsettled(d: real)
    requires d != 0.0
    ensures !Settled(NewRecord("m", "i", SetOtherDeductions(d)))
  {
  }

  predicate HasKey(r: RewardRecord, memberId: string, incidentId: string)
  {
    r.memberId == memberId && r.incidentId == incidentId
  }

  /** `findIndex` on (memberId, incidentId): the first position holding that pair. */
  function IndexOfRecord(records: seq<RewardRecord>, memberId: string, incidentId: string): (r: Option<nat>)
    ensures r.None? <==> forall k :: 0 <= k < |records| ==> !HasKey(records[k], memberId, incidentId)
    ensures r.Some? ==> r.value < |records| && HasKey(records[r.value], memberId, incidentId)
                        && forall k :: 0 <= k < r.value ==> !HasKey(records[k], memberId, incidentId)
  {
    FirstIndex(records, (x: RewardRecord) => HasKey(x, memberId, incidentId))
  }

  /**
   * At most one record per (member, incident) pair, read through the view the
   * dispatch calculation takes of the records.
   */
  predicate UniqueKeys(records: seq<RewardRecord>)
  {
    Activity.UniqueKeys(AsActivities(records))
  }

  /** Replacing a record by one with the same pair keeps the pairs unique. */
  lemma UniqueAfterReplace(records: seq<RewardRecord>, k: nat, x: RewardRecord)
    requires k < |records| && UniqueKeys(records)
    requires x.memberId == records[k].memberId && x.incidentId == records[k].incidentId
    ensures UniqueKeys(records[k := x])
  {
    var view := AsActivities(records);
    assert AsActivities(records[k := x]) == view[k := AsActivity(x)];
    Activity.UniqueAfterReplace(view, k, AsActivity(x));
  }

  /** Appending a record whose pair is absent keeps the pairs unique. */
  lemma UniqueAfterAppend(records: seq<RewardRecord>, x: RewardRecord)
    requires UniqueKeys(records)
    requires forall k :: 0 <= k < |records| ==> !HasKey(records[k], x.memberId, x.incidentId)
    ensures UniqueKeys(records + [x])
  {
    var view := AsActivities(records);
    assert AsActivities(records + [x]) == view + [AsActivity(x)];
    Activity.UniqueAfterAppend(view, AsActivity(x));
  }

  /**
   * `updateActivityRecord` of the payment-management screen: the first record
   * for the pair is edited in place (re-deriving tax and transfer for reward
   * and deduction edits), or a new record is appended.  Either way the pair
   * is present afterwards and unique pairs stay unique.
   */
  method UpdateRewardRecord(records: seq<RewardRecord>, memberId: string, incidentId: string, edit: RewardEdit)
    returns (updated: seq<RewardRecord>)
    ensures (exists k :: 0 <= k < |records| && HasKey(records[k], memberId, incidentId)) ==>
              exists k :: 0 <= k < |records| && HasKey(records[k], memberId, incidentId)
                          && (forall j :: 0 <= j < k ==> !HasKey(records[j], memberId, incidentId))
                          && updated == records[k := EditExisting(records[k], edit)]
    ensures (forall k :: 0 <= k < |records| ==> !HasKey(records[k], memberId, incidentId)) ==>
              updated == records + [NewRecord(memberId, incidentId, edit)]
    ensures UniqueKeys(records) ==> UniqueKeys(updated)
    ensures exists k :: 0 <= k < |updated| && HasKey(updated[k], memberId, incidentId)
  {
    var existingIndex := IndexOfRecord(records, memberId, incidentId);
    if existingIndex.Some? {
      var k := existingIndex.value;
      updated := records;
      var record := ApplyEdit(updated[k], edit);
      if edit.SetRewardAmount? || edit.SetOtherDeductions? {
        var tax := WithholdingTax(record.rewardAmount) as real;
        record := record.(withholdingTax := tax);
        record := record.(transferAmount := record.rewardAmount - record.withholdingTax - record.otherDeductions);
      }
      assert record == EditExisting(records[k], edit);
      updated := updated[k := record];
      if UniqueKeys(records) {
        UniqueAfterReplace(records, k, record);
      }
      assert HasKey(updated[k], memberId, incidentId);
    } else {
      var newRecord := ApplyEdit(RewardRecord(memberId, incidentId, Dispatch, 0.0, 0.0, 0.0, 0.0, 0.0, ""), edit);
      if edit.SetRewardAmount? {
        var tax := WithholdingTax(newRecord.rewardAmount) as real;
        newRecord := newRecord.(withholdingTax := tax);
        newRecord := newRecord.(transferAmount := newRecord.rewardAmount - newRecord.withholdingTax - newRecord.otherDeductions);
      }
      assert newRecord == NewRecord(memberId, incidentId, edit);
      updated := records + [newRecord];
      if UniqueKeys(records) {
        UniqueAfterAppend(records, newRecord);
      }
      assert HasKey(updated[|records|], memberId, incidentId);
    }
  }

  /** The records that do not refer to the incident (unchecking an incident). */
  function WithoutIncident(records: seq<RewardRecord>, incidentId: string): (r: seq<RewardRecord>)
    ensures forall x :: x in r <==> x in records && x.incidentId != incidentId
  {
    Filter(records, (x: RewardRecord) => x.incidentId != incidentId)
  }

  /**
   * How the dispatch calculation sees a record: the pair and the hours.  This
   * screen has no leadership or equipment flags, so both read as unset.
   */
  function AsActivity(r: RewardRecord): (a: Activity.ActivityRecord)
    ensures a.memberId == r.memberId && a.incidentId == r.incidentId
    ensures a.participationHours == r.participationHours
    ensures !a.leadershipRole && !a.specialEquipmentUsed
  {
    Activity.ActivityRecord(r.memberId, r.incidentId, r.participationHours, false, false, r.notes)
  }

  /** The records as the dispatch calculation sees them, in the same order. */
  function AsActivities(records: seq<RewardRecord>): (rs: seq<Activity.ActivityRecord>)
    ensures |rs| == |records|
    ensures forall k :: 0 <= k < |records| ==> rs[k] == AsActivity(records[k])
  {
    if records == [] then [] else [AsActivity(records[0])] + AsActivities(records[1..])
  }
}
