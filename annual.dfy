/**
 * The annual stipend: per member and year, a base amount, a service-year
 * bonus and a special allowance, each defaulting from rank and tenure, and
 * the records that override them, maintained by find-then-update-or-append.
 */
module Annual {
  import opened Maybe
  import opened Seqs
  import opened Tables
  import opened Roster
  import opened Calculations

  datatype AnnualPaymentRecord = AnnualPaymentRecord(
    memberId: string,
    year: int,
    baseAmount: real,
    serviceYearBonus: real,
    specialAllowance: real,
    notes: string)

  /** One form edit: the field being set and its new value. */
  datatype AnnualEdit =
    | SetBaseAmount(amount: real)
    | SetServiceYearBonus(bonus: real)
    | SetSpecialAllowance(allowance: real)
    | SetNotes(text: string)

  /** `{ ...record, [field]: value }` */
  function ApplyEdit(r: AnnualPaymentRecord, e: AnnualEdit): (r': AnnualPaymentRecord)
    ensures r'.memberId == r.memberId && r'.year == r.year
  {
    match e
    case SetBaseAmount(a) => r.(baseAmount := a)
    case SetServiceYearBonus(b) => r.(serviceYearBonus := b)
    case SetSpecialAllowance(a) => r.(specialAllowance := a)
    case SetNotes(t) => r.(notes := t)
  }

  /** The rank's annual base. */
  function DefaultBase(m: Member): real
  {
    AnnualBase(m.rank) as real
  }

  /** 2000 yen per year of service. */
  function DefaultBonus(m: Member): real
  {
    (m.yearsOfService * 2000) as real
  }

  /** The record a member starts from: both defaults, no special allowance, no notes. */
  function DefaultRecord(m: Member, year: int): AnnualPaymentRecord
  {
    AnnualPaymentRecord(m.id, year, DefaultBase(m), DefaultBonus(m), 0.0, "")
  }

  predicate HasKey(r: AnnualPaymentRecord, memberId: string, year: int)
  {
    r.memberId == memberId && r.year == year
  }

  /** `findIndex` on (memberId, year): the first position holding that pair. */
  function IndexOfRecord(records: seq<AnnualPaymentRecord>, memberId: string, year: int): (r: Option<nat>)
    ensures r.None? <==> forall k :: 0 <= k < |records| ==> !HasKey(records[k], memberId, year)
    ensures r.Some? ==> r.value < |records| && HasKey(records[r.value], memberId, year)
                        && forall k :: 0 <= k < r.value ==> !HasKey(records[k], memberId, year)
  {
    FirstIndex(records, (x: AnnualPaymentRecord) => HasKey(x, memberId, year))
  }

  /** `getAnnualPaymentRecord` (`find` on member and year): the first record of the member for the year. */
  function GetAnnualPaymentRecord(records: seq<AnnualPaymentRecord>, memberId: string, year: int): (r: Option<AnnualPaymentRecord>)
    ensures r.None? <==> forall k :: 0 <= k < |records| ==> !HasKey(records[k], memberId, year)
    ensures r.Some? ==> r.value in records && HasKey(r.value, memberId, year)
  {
    match IndexOfRecord(records, memberId, year)
    case None => None
    case Some(k) => Some(records[k])
  }

  /** The record `GetAnnualPaymentRecord` gives is the first one for the member and year. */
  lemma GetAnnualPaymentRecordIsFirst(records: seq<AnnualPaymentRecord>, memberId: string, year: int)
    ensures var r := GetAnnualPaymentRecord(records, memberId, year);
      r.Some? ==> IsFirst(records, (x: AnnualPaymentRecord) => HasKey(x, memberId, year), r.value)
  {
  }

  /** `value || fallback` for a number: a 0 falls back like a missing value. */
  function OrElse(value: Option<real>, fallback: real): real
  {
    if value.Some? && value.value != 0.0 then value.value else fallback
  }

  /** The annual calculation of one known member for the year. */
  function AnnualCalculation(m: Member, records: seq<AnnualPaymentRecord>, year: int): PayrollCalculation
  {
    var record := GetAnnualPaymentRecord(records, m.id, year);
    var baseAmount := OrElse(if record.Some? then Some(record.value.baseAmount) else None, DefaultBase(m));
    var serviceYearBonus := OrElse(if record.Some? then Some(record.value.serviceYearBonus) else None, DefaultBonus(m));
    var specialAllowance := OrElse(if record.Some? then Some(record.value.specialAllowance) else None, 0.0);
    PayrollCalculation(
      m.id, m.name, RankName(m.rank),
      baseAmount + serviceYearBonus + specialAllowance,
      AnnualDetails(year, baseAmount, serviceYearBonus, specialAllowance, m.yearsOfService,
                    if record.Some? then record.value.notes else ""))
  }

  /** One calculation per selected id that names a known member, in selection order. */
  function AnnualCalculations(
    members: seq<Member>, records: seq<AnnualPaymentRecord>, year: int, selectedMembers: seq<string>): seq<PayrollCalculation>
  {
    if selectedMembers == [] then []
    else
      AnnualCalculations(members, records, year, selectedMembers[..|selectedMembers| - 1])
      + match FindMember(members, selectedMembers[|selectedMembers| - 1])
        case None => []
        case Some(m) => [AnnualCalculation(m, records, year)]
  }

  /** Extending the member selection by one id adds that member's calculation, if the id is known. */
  lemma AnnualCalculationsStep(
    members: seq<Member>, records: seq<AnnualPaymentRecord>, year: int, selectedMembers: seq<string>, i: nat)
    requires i < |selectedMembers|
    ensures AnnualCalculations(members, records, year, selectedMembers[..i + 1])
         == AnnualCalculations(members, records, year, selectedMembers[..i])
            + match FindMember(members, selectedMembers[i])
              case None => []
              case Some(m) => [AnnualCalculation(m, records, year)]
  {
    assert selectedMembers[..i + 1][..i] == selectedMembers[..i];
  }

  /**
   * The body of `calculateAnnualPayroll`'s loop for a known member: each
   * component is taken from the member's record for the year unless it is
   * missing or 0, and the total is their sum.
   */
  method MemberAnnualCalculation(m: Member, records: seq<AnnualPaymentRecord>, year: int)
    returns (calculation: PayrollCalculation)
    ensures calculation == AnnualCalculation(m, records, year)
  {
    var record := GetAnnualPaymentRecord(records, m.id, year);
    var baseAmount := if record.Some? && record.value.baseAmount != 0.0 then record.value.baseAmount else AnnualBase(m.rank) as real;
    var serviceYearBonus := if record.Some? && record.value.serviceYearBonus != 0.0 then record.value.serviceYearBonus else (m.yearsOfService * 2000) as real;
    var specialAllowance := if record.Some? && record.value.specialAllowance != 0.0 then record.value.specialAllowance else 0.0;
    var totalAmount := baseAmount + serviceYearBonus + specialAllowance;
    var notes := if record.Some? then record.value.notes else "";
    calculation := PayrollCalculation(
      m.id, m.name, RankName(m.rank), totalAmount,
      AnnualDetails(year, baseAmount, serviceYearBonus, specialAllowance, m.yearsOfService, notes));
  }

  /** `calculateAnnualPayroll`: walks the selected members and pushes one calculation per known member. */
  method CalculateAnnualPayroll(
    members: seq<Member>, records: seq<AnnualPaymentRecord>, year: int, selectedMembers: seq<string>)
    returns (calculations: seq<PayrollCalculation>)
    ensures calculations == AnnualCalculations(members, records, year, selectedMembers)
  {
    calculations := [];
    for i := 0 to |selectedMembers|
      invariant calculations == AnnualCalculations(members, records, year, selectedMembers[..i])
    {
      AnnualCalculationsStep(members, records, year, selectedMembers, i);
      var member := FindMember(members, selectedMembers[i]);
      if member.None? {
        continue;
      }
      var calculation := MemberAnnualCalculation(member.value, records, year);
      calculations := calculations + [calculation];
    }
    assert selectedMembers[..|selectedMembers|] == selectedMembers;
  }

  /**
   * Each component is the record's value unless there is no record or the
   * value is 0, in which case it is the default (the rank's annual base,
   * 2000 per year of service, and 0); the total is their sum.
   */
  lemma FallbackRule(m: Member, records: seq<AnnualPaymentRecord>, year: int)
    ensures var ac := AnnualCalculation(m, records, year);
      var record := GetAnnualPaymentRecord(records, m.id, year);
      && ac.details.AnnualDetails?
      && (if record.Some? && record.value.baseAmount != 0.0
          then ac.details.baseAmount == record.value.baseAmount
          else ac.details.baseAmount == AnnualBase(m.rank) as real)
      && (if record.Some? && record.value.serviceYearBonus != 0.0
          then ac.details.serviceYearBonus == record.value.serviceYearBonus
          else ac.details.serviceYearBonus == (m.yearsOfService * 2000) as real)
      && (if record.Some? && record.value.specialAllowance != 0.0
          then ac.details.specialAllowance == record.value.specialAllowance
          else ac.details.specialAllowance == 0.0)
      && ac.totalAmount == ac.details.baseAmount + ac.details.serviceYearBonus + ac.details.specialAllowance
  {
  }

  /** A member without a record for the year is paid the rank's annual base plus 2000 per year of service. */
  lemma NoRecordPaysDefaults(m: Member, records: seq<AnnualPaymentRecord>, year: int)
    requires forall k :: 0 <= k < |records| ==> !HasKey(records[k], m.id, year)
    ensures AnnualCalculation(m, records, year).totalAmount == (AnnualBase(m.rank) + m.yearsOfService * 2000) as real
  {
  }

  /**
   * Writing the defaults into a record changes no total: a member's default
   * record pays what having no record pays.
   */
  lemma DefaultRecordPaysDefaults(m: Member, year: int)
    ensures AnnualCalculation(m, [DefaultRecord(m, year)], year).totalAmount
         == AnnualCalculation(m, [], year).totalAmount
  {
  }

  /** `c` is the annual calculation of the member its id names. */
  predicate IsAnnualCalculation(c: PayrollCalculation, members: seq<Member>, records: seq<AnnualPaymentRecord>, year: int)
  {
    FindMember(members, c.memberId).Some? && c == AnnualCalculation(FindMember(members, c.memberId).value, records, year)
  }

  /**
   * The calculation list names exactly the selected ids of known members, in
   * selection order, and each entry is that member's annual calculation.
   */
  lemma {:induction false} OneCalculationPerKnownMember(
    members: seq<Member>, records: seq<AnnualPaymentRecord>, year: int, selectedMembers: seq<string>)
    ensures MemberIds(AnnualCalculations(members, records, year, selectedMembers)) == KnownIds(members, selectedMembers)
    ensures var calcs := AnnualCalculations(members, records, year, selectedMembers);
      forall k :: 0 <= k < |calcs| ==> IsAnnualCalculation(calcs[k], members, records, year)
  {
    if selectedMembers != [] {
      var init := selectedMembers[..|selectedMembers| - 1];
      OneCalculationPerKnownMember(members, records, year, init);
      KnownIdsStep(members, selectedMembers);
      var prev := AnnualCalculations(members, records, year, init);
      match FindMember(members, selectedMembers[|selectedMembers| - 1])
      case None =>
        assert prev + [] == prev;
      case Some(m) =>
        var calcs := prev + [AnnualCalculation(m, records, year)];
        assert calcs[..|calcs| - 1] == prev;
        assert m.id == selectedMembers[|selectedMembers| - 1];
        assert IsAnnualCalculation(calcs[|calcs| - 1], members, records, year);
    }
  }

  /**
   * `updateAnnualPaymentRecord` for the selected year: the member's first
   * record for the year gets the edited field; without one, a known member
   * gets a default record with the edit applied appended; an unknown member
   * leaves the list unchanged.
   */
  method UpdateAnnualPaymentRecord(
    records: seq<AnnualPaymentRecord>, members: seq<Member>, year: int, memberId: string, edit: AnnualEdit)
    returns (updated: seq<AnnualPaymentRecord>)
    ensures (exists k :: 0 <= k < |records| && HasKey(records[k], memberId, year)) ==>
              exists k :: 0 <= k < |records| && HasKey(records[k], memberId, year)
                          && (forall j :: 0 <= j < k ==> !HasKey(records[j], memberId, year))
                          && updated == records[k := ApplyEdit(records[k], edit)]
    ensures (forall k :: 0 <= k < |records| ==> !HasKey(records[k], memberId, year)) ==>
              match FindMember(members, memberId)
              case None => updated == records
              case Some(m) => updated == records + [ApplyEdit(DefaultRecord(m, year), edit)]
  {
    var existingIndex := IndexOfRecord(records, memberId, year);
    if existingIndex.Some? {
      var k := existingIndex.value;
      updated := records;
      updated := updated[k := ApplyEdit(updated[k], edit)];
    } else {
      var member := FindMember(members, memberId);
      if member.None? {
        return records;
      }
      var m := member.value;
      var newRecord := ApplyEdit(AnnualPaymentRecord(memberId, year, AnnualBase(m.rank) as real, (m.yearsOfService * 2000) as real, 0.0, ""), edit);
      updated := records + [newRecord];
    }
  }

  /**
   * After an edit that sets a non-zero base amount, the member's calculation
   * pays exactly that base amount, whichever case of
   * `UpdateAnnualPaymentRecord` applied: the edit of the member's first record
   * for the year, or the appended default record.
   */
  lemma EditedBaseIsPaid(m: Member, records: seq<AnnualPaymentRecord>, year: int, amount: real)
    requires amount != 0.0
    ensures forall k :: 0 <= k < |records| && HasKey(records[k], m.id, year)
                        && (forall j :: 0 <= j < k ==> !HasKey(records[j], m.id, year)) ==>
              AnnualCalculation(m, records[k := ApplyEdit(records[k], SetBaseAmount(amount))], year).details.baseAmount
              == amount
    ensures (forall k :: 0 <= k < |records| ==> !HasKey(records[k], m.id, year)) ==>
              AnnualCalculation(m, records + [ApplyEdit(DefaultRecord(m, year), SetBaseAmount(amount))], year).details.baseAmount
              == amount
  {
    forall k | 0 <= k < |records| && HasKey(records[k], m.id, year)
                && (forall j :: 0 <= j < k ==> !HasKey(records[j], m.id, year))
      ensures AnnualCalculation(m, records[k := ApplyEdit(records[k], SetBaseAmount(amount))], year).details.baseAmount
              == amount
    {
      var edited := records[k := ApplyEdit(records[k], SetBaseAmount(amount))];
      assert HasKey(edited[k], m.id, year);
      var i := IndexOfRecord(edited, m.id, year);
      assert i.Some? && i.value == k;
      assert GetAnnualPaymentRecord(edited, m.id, year) == Some(edited[k]);
    }
    if forall k :: 0 <= k < |records| ==> !HasKey(records[k], m.id, year) {
      var appended := records + [ApplyEdit(DefaultRecord(m, year), SetBaseAmount(amount))];
      assert HasKey(appended[|records|], m.id, year);
      var i := IndexOfRecord(appended, m.id, year);
      assert i.Some? && i.value == |records|;
      assert GetAnnualPaymentRecord(appended, m.id, year) == Some(appended[|records|]);
    }
  }
}
