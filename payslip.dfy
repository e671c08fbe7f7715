/**
 * The general monthly payslip: gross pay from base salary, overtime and
 * allowances, four percentage deductions each rounded down to a whole yen,
 * and the net pay that remains.
 */
module Payslip {
  import opened Maybe

  /** The form; rates are percentages. */
  datatype PayrollData = PayrollData(
    baseSalary: real,
    overtimeHours: real,
    overtimeRate: real,
    transportationAllowance: real,
    housingAllowance: real,
    otherAllowances: real,
    incomeTaxRate: real,
    residentTaxRate: real,
    socialInsuranceRate: real,
    employmentInsuranceRate: real)

  datatype Field =
    | BaseSalary | OvertimeHours | OvertimeRate
    | TransportationAllowance | HousingAllowance | OtherAllowances
    | IncomeTaxRate | ResidentTaxRate | SocialInsuranceRate | EmploymentInsuranceRate

  /** The initial form. */
  const InitialData := PayrollData(300000.0, 20.0, 1.25, 10000.0, 20000.0, 5000.0, 10.21, 10.0, 15.0, 0.6)

  function Get(data: PayrollData, field: Field): real
  {
    match field
    case BaseSalary => data.baseSalary
    case OvertimeHours => data.overtimeHours
    case OvertimeRate => data.overtimeRate
    case TransportationAllowance => data.transportationAllowance
    case HousingAllowance => data.housingAllowance
    case OtherAllowances => data.otherAllowances
    case IncomeTaxRate => data.incomeTaxRate
    case ResidentTaxRate => data.residentTaxRate
    case SocialInsuranceRate => data.socialInsuranceRate
    case EmploymentInsuranceRate => data.employmentInsuranceRate
  }

  /** Two forms that agree on every field are the same form. */
  lemma SameFieldsSameData(a: PayrollData, b: PayrollData)
    requires forall f: Field :: Get(a, f) == Get(b, f)
    ensures a == b
  {
    assert Get(a, BaseSalary) == Get(b, BaseSalary);
    assert Get(a, OvertimeHours) == Get(b, OvertimeHours);
    assert Get(a, OvertimeRate) == Get(b, OvertimeRate);
    assert Get(a, TransportationAllowance) == Get(b, TransportationAllowance);
    assert Get(a, HousingAllowance) == Get(b, HousingAllowance);
    assert Get(a, OtherAllowances) == Get(b, OtherAllowances);
    assert Get(a, IncomeTaxRate) == Get(b, IncomeTaxRate);
    assert Get(a, ResidentTaxRate) == Get(b, ResidentTaxRate);
    assert Get(a, SocialInsuranceRate) == Get(b, SocialInsuranceRate);
    assert Get(a, EmploymentInsuranceRate) == Get(b, EmploymentInsuranceRate);
  }

  /**
   * Typing into one input: `parsed` is what the text parses to (`None` when
   * it is not a number), and an unparseable entry stores 0.  Only that field
   * changes.
   */
  function HandleInputChange(data: PayrollData, field: Field, parsed: Option<real>): (r: PayrollData)
    ensures Get(r, field) == (if parsed.Some? then parsed.value else 0.0)
    ensures forall f: Field :: f != field ==> Get(r, f) == Get(data, f)
  {
    var v := if parsed.Some? then parsed.value else 0.0;
    match field
    case BaseSalary => data.(baseSalary := v)
    case OvertimeHours => data.(overtimeHours := v)
    case OvertimeRate => data.(overtimeRate := v)
    case TransportationAllowance => data.(transportationAllowance := v)
    case HousingAllowance => data.(housingAllowance := v)
    case OtherAllowances => data.(otherAllowances := v)
    case IncomeTaxRate => data.(incomeTaxRate := v)
    case ResidentTaxRate => data.(residentTaxRate := v)
    case SocialInsuranceRate => data.(socialInsuranceRate := v)
    case EmploymentInsuranceRate => data.(employmentInsuranceRate := v)
  }

  /** Typing a field's old value back into it restores the form. */
  lemma {:induction false} InputChangeUndone(data: PayrollData, field: Field, parsed: Option<real>)
    ensures HandleInputChange(HandleInputChange(data, field, parsed), field, Some(Get(data, field))) == data
  {
    var r := HandleInputChange(HandleInputChange(data, field, parsed), field, Some(Get(data, field)));
    forall f: Field ensures Get(r, f) == Get(data, f) {
      if f != field {
        assert Get(HandleInputChange(data, field, parsed), f) == Get(data, f);
      }
    }
    SameFieldsSameData(r, data);
  }

  /** A percentage of an amount, rounded down to a whole yen. */
  function Deduction(gross: real, ratePercent: real): (d: int)
    ensures d as real <= gross * (ratePercent / 100.0) < d as real + 1.0
  {
    (gross * (ratePercent / 100.0)).Floor
  }

  datatype Payslip = Payslip(
    overtimePay: real,
    totalAllowances: real,
    grossSalary: real,
    incomeTax: int,
    residentTax: int,
    socialInsurance: int,
    employmentInsurance: int,
    totalDeductions: int,
    netSalary: real)

  /** Sum of the four deduction rates, in percent. */
  function TotalRate(data: PayrollData): real
  {
    data.incomeTaxRate + data.residentTaxRate + data.socialInsuranceRate + data.employmentInsuranceRate
  }

  /**
   * The payslip: overtime at the hourly rate of a 160-hour month times the
   * overtime factor; gross is base plus overtime plus the three allowances;
   * each deduction is its rate of gross rounded down; net is gross minus the
   * deductions.
   */
  function CalculatePayroll(data: PayrollData): (p: Payslip)
    ensures p.overtimePay == data.baseSalary / 160.0 * data.overtimeHours * data.overtimeRate
    ensures p.grossSalary == data.baseSalary + p.overtimePay + p.totalAllowances
    ensures p.totalAllowances == data.transportationAllowance + data.housingAllowance + data.otherAllowances
    ensures p.incomeTax == Deduction(p.grossSalary, data.incomeTaxRate)
    ensures p.residentTax == Deduction(p.grossSalary, data.residentTaxRate)
    ensures p.socialInsurance == Deduction(p.grossSalary, data.socialInsuranceRate)
    ensures p.employmentInsurance == Deduction(p.grossSalary, data.employmentInsuranceRate)
    ensures p.totalDeductions == p.incomeTax + p.residentTax + p.socialInsurance + p.employmentInsurance
    ensures p.netSalary == p.grossSalary - p.totalDeductions as real
  {
    var hourlyRate := data.baseSalary / 160.0;
    var overtimePay := hourlyRate * data.overtimeHours * data.overtimeRate;
    var totalAllowances := data.transportationAllowance + data.housingAllowance + data.otherAllowances;
    var grossSalary := data.baseSalary + overtimePay + totalAllowances;
    var incomeTax := Deduction(grossSalary, data.incomeTaxRate);
    var residentTax := Deduction(grossSalary, data.residentTaxRate);
    var socialInsurance := Deduction(grossSalary, data.socialInsuranceRate);
    var employmentInsurance := Deduction(grossSalary, data.employmentInsuranceRate);
    var totalDeductions := incomeTax + residentTax + socialInsurance + employmentInsurance;
    Payslip(overtimePay, totalAllowances, grossSalary, incomeTax, residentTax, socialInsurance,
            employmentInsurance, totalDeductions, grossSalary - totalDeductions as real)
  }

  /**
   * Rounding each deduction down never takes more than the exact
   * percentages and leaves less than 4 yen over them.
   */
  lemma NetSalaryBounds(data: PayrollData)
    ensures var p := CalculatePayroll(data);
      && p.grossSalary * (1.0 - TotalRate(data) / 100.0) <= p.netSalary
      && p.netSalary < p.grossSalary * (1.0 - TotalRate(data) / 100.0) + 4.0
  {
    var p := CalculatePayroll(data);
    var g := p.grossSalary;
    assert g * (TotalRate(data) / 100.0)
        == g * (data.incomeTaxRate / 100.0) + g * (data.residentTaxRate / 100.0)
         + g * (data.socialInsuranceRate / 100.0) + g * (data.employmentInsuranceRate / 100.0);
  }

  /** With non-negative entries and rates adding up to at most 100%, pay and deductions are non-negative. */
  lemma NonNegativePayslip(data: PayrollData)
    requires forall f: Field :: Get(data, f) >= 0.0
    requires TotalRate(data) <= 100.0
    ensures var p := CalculatePayroll(data);
      && p.grossSalary >= 0.0 && p.netSalary >= 0.0
      && p.incomeTax >= 0 && p.residentTax >= 0 && p.socialInsurance >= 0 && p.employmentInsurance >= 0
  {
    var p := CalculatePayroll(data);
    assert Get(data, BaseSalary) >= 0.0 && Get(data, OvertimeHours) >= 0.0 && Get(data, OvertimeRate) >= 0.0;
    assert Get(data, TransportationAllowance) >= 0.0 && Get(data, HousingAllowance) >= 0.0;
    assert Get(data, OtherAllowances) >= 0.0;
    assert Get(data, IncomeTaxRate) >= 0.0 && Get(data, ResidentTaxRate) >= 0.0;
    assert Get(data, SocialInsuranceRate) >= 0.0 && Get(data, EmploymentInsuranceRate) >= 0.0;
    assert data.baseSalary / 160.0 >= 0.0;
    assert p.overtimePay >= 0.0;
    NetSalaryBounds(data);
    var share := 1.0 - TotalRate(data) / 100.0;
    assert p.grossSalary >= 0.0 && share >= 0.0;
    ProductNonNegative(p.grossSalary, share);
  }

  /** Kept apart so the solver meets the product without the payslip's other facts. */
  lemma ProductNonNegative(a: real, b: real)
    requires a >= 0.0 && b >= 0.0
    ensures a * b >= 0.0
  {
  }

  /** The initial form gives a gross of 381,875 yen, deductions of 136,748 yen and a net of 245,127 yen. */
  lemma InitialPayslip()
    ensures var p := CalculatePayroll(InitialData);
      && p.overtimePay == 46875.0 && p.grossSalary == 381875.0
      && p.incomeTax == 38989 && p.residentTax == 38187 && p.socialInsurance == 57281 && p.employmentInsurance == 2291
      && p.totalDeductions == 136748 && p.netSalary == 245127.0
  {
    var p := CalculatePayroll(InitialData);
    assert p.grossSalary == 381875.0;
    assert 381875.0 * (10.21 / 100.0) == 38989.4375;
    assert 381875.0 * (10.0 / 100.0) == 38187.5;
    assert 381875.0 * (15.0 / 100.0) == 57281.25;
    assert 381875.0 * (0.6 / 100.0) == 2291.25;
  }
}
