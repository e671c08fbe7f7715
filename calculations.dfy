/**
 * The per-member result both stipend calculations produce, and the sum a
 * batch stores when a calculation is saved.
 */
module Calculations {

  /** One row of a member's dispatch breakdown. */
  datatype IncidentLine = IncidentLine(incidentName: string, hours: real, pay: real)

  /** The itemised breakdown behind a member's total (`details`). */
  datatype Details =
    | DispatchDetails(
        totalHours: real,
        baseAllowance: real,
        riskAllowance: real,
        leadershipAllowance: real,
        equipmentAllowance: real,
        incidents: seq<IncidentLine>)
    | AnnualDetails(
        year: int,
        baseAmount: real,
        serviceYearBonus: real,
        specialAllowance: real,
        yearsOfService: int,
        notes: string)

  datatype PayrollCalculation = PayrollCalculation(
    memberId: string,
    memberName: string,
    rank: string,
    totalAmount: real,
    details: Details)

  /** `calculations.reduce((sum, calc) => sum + calc.totalAmount, 0)`, folded from the left. */
  function SumTotals(calcs: seq<PayrollCalculation>): real
  {
    if calcs == [] then 0.0 else SumTotals(calcs[..|calcs| - 1]) + calcs[|calcs| - 1].totalAmount
  }

  /** The sum of a concatenation is the sum of the parts. */
  lemma {:induction false} SumTotalsAppend(a: seq<PayrollCalculation>, b: seq<PayrollCalculation>)
    ensures SumTotals(a + b) == SumTotals(a) + SumTotals(b)
  {
    if b != [] {
      assert (a + b)[..|a + b| - 1] == a + b[..|b| - 1];
      SumTotalsAppend(a, b[..|b| - 1]);
    } else {
      assert a + b == a;
    }
  }

  /** When every total is non-negative, so is the sum. */
  lemma {:induction false} SumTotalsNonNegative(calcs: seq<PayrollCalculation>)
    requires forall k :: 0 <= k < |calcs| ==> calcs[k].totalAmount >= 0.0
    ensures SumTotals(calcs) >= 0.0
  {
    if calcs != [] {
      SumTotalsNonNegative(calcs[..|calcs| - 1]);
    }
  }

  /** The member ids of a calculation list, in order. */
  function MemberIds(calcs: seq<PayrollCalculation>): (ids: seq<string>)
    ensures |ids| == |calcs|
    ensures forall k :: 0 <= k < |calcs| ==> ids[k] == calcs[k].memberId
  {
    if calcs == [] then [] else MemberIds(calcs[..|calcs| - 1]) + [calcs[|calcs| - 1].memberId]
  }
}
