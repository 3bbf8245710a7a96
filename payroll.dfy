/** Payroll: a month's salary from the staff member's basic salary, the days
    attended and the allowances, rounded to a whole unit; and the status
    transition that stamps the payment date. */
module Payroll {
  import opened Common
  import opened Users

  datatype PayrollStatus = Pending | Approved | Paid

  datatype PayrollRecord = PayrollRecord(
    staff: Id,
    month: string,
    basicSalary: int,
    allowances: int,
    attendanceDays: int,
    totalCalculatedSalary: int,
    status: PayrollStatus,
    paymentDate: Option<Time>)

  /** The fixed divisor of the daily rate, whatever the month's length. */
  const DaysPerMonth: int := 30

  /** `Math.round(num / den)`: the nearest integer, a half rounded up. */
  function RoundDiv(num: int, den: int): (r: int)
    requires den > 0
    ensures 2 * den * r - den <= 2 * num < 2 * den * r + den
  {
    var q := (2 * num + den) / (2 * den);
    DivBounds(2 * num + den, 2 * den);
    q
  }

  /** Euclidean division with a positive divisor brackets the dividend. */
  lemma DivBounds(a: int, b: int)
    requires b > 0
    ensures b * (a / b) <= a < b * (a / b) + b
  {
  }

  /** Only one integer lies within half a unit of num / den, halves going up:
      RoundDiv is that integer. */
  lemma RoundDivUnique(num: int, den: int, r: int)
    requires den > 0
    requires 2 * den * r - den <= 2 * num < 2 * den * r + den
    ensures r == RoundDiv(num, den)
  {
    var q := RoundDiv(num, den);
    if r < q {
      MulMonotone(2 * den, r + 1, q);
    } else if r > q {
      MulMonotone(2 * den, q + 1, r);
    }
  }

  lemma MulMonotone(k: int, a: int, b: int)
    requires k > 0 && a <= b
    ensures k * a <= k * b
  {
  }

  /** `user.salaryDetails.basicSalary || 0`, the basic salary the formula uses. */
  function FormulaBasic(s: SalaryDetails): int {
    if s.basicSalary.Some? then s.basicSalary.value else 0
  }

  /** The allowance the formula adds: a non-zero requested amount, else the
      user's non-zero configured allowance, else 0. `requested` is
      `Number(allowances)`, None when that is NaN. */
  function FormulaAllowance(requested: Option<int>, s: SalaryDetails): int {
    if requested.Some? && requested.value != 0 then requested.value
    else if s.allowances.Some? && s.allowances.value != 0 then s.allowances.value
    else 0
  }

  /** The allowance stored on the record: `Number(allowances) ||
      user.salaryDetails.allowances`, with the schema default 0 when that is
      undefined. */
  function StoredAllowance(requested: Option<int>, s: SalaryDetails): int {
    if requested.Some? && requested.value != 0 then requested.value
    else s.allowances.GetOr(0)
  }

  /** The record stores exactly the allowance the salary was computed with. */
  lemma StoredAllowanceIsFormulaAllowance(requested: Option<int>, s: SalaryDetails)
    ensures StoredAllowance(requested, s) == FormulaAllowance(requested, s)
    ensures requested.Some? && requested.value != 0 ==> FormulaAllowance(requested, s) == requested.value
    ensures (requested.None? || requested == Some(0)) ==> FormulaAllowance(requested, s) == s.allowances.GetOr(0)
  {
  }

  /** `Math.round(basic / 30 × days + allowance)` in exact arithmetic. */
  function CalculatedSalary(basic: int, days: int, allowance: int): (r: int)
    ensures 60 * r - 30 <= 2 * (basic * days + DaysPerMonth * allowance) < 60 * r + 30
  {
    RoundDiv(basic * days + DaysPerMonth * allowance, DaysPerMonth)
  }

  /** A whole month's attendance with no allowance pays exactly the basic salary. */
  lemma FullMonthPaysBasic(basic: int)
    ensures CalculatedSalary(basic, DaysPerMonth, 0) == basic
  {
    RoundDivUnique(basic * DaysPerMonth, DaysPerMonth, basic);
  }

  /** When the daily rate is whole, nothing is rounded: the salary is rate ×
      days + allowance. */
  lemma WholeDailyRateIsExact(rate: int, days: int, allowance: int)
    ensures CalculatedSalary(DaysPerMonth * rate, days, allowance) == rate * days + allowance
  {
    var num := DaysPerMonth * rate * days + DaysPerMonth * allowance;
    assert num == DaysPerMonth * (rate * days + allowance);
    RoundDivUnique(num, DaysPerMonth, rate * days + allowance);
  }

  /** Basic 30000, 22 days, allowance 2000 gives 24000. */
  lemma WorkedExample()
    ensures CalculatedSalary(30000, 22, 2000) == 24000
  {
    WholeDailyRateIsExact(1000, 22, 2000);
  }

  /** Every paid record carries the date it was paid. */
  predicate PaidHasDate(p: PayrollRecord) {
    p.status == Paid ==> p.paymentDate.Some?
  }

  class PayrollDb {
    var payrolls: map<Id, PayrollRecord>

    constructor ()
      ensures payrolls == map[]
    {
      payrolls := map[];
    }

    /** calculatePayroll. An unknown staff id is a 404. The record requires a
        basic salary and a month, so a user without a configured basic salary
        gets a 500 from `Payroll.create` and no record. */
    method CalculatePayroll(newId: Id, users: map<Id, User>, staffId: Id, month: string,
                            attendanceDays: int, allowances: Option<int>)
      returns (r: Result<PayrollRecord>)
      requires newId !in payrolls
      modifies this
      ensures r.Ok? ==> PaidHasDate(r.value) && r.value.status == Pending
      ensures staffId !in users ==> r == Err(Failure(404, "Staff member not found")) && payrolls == old(payrolls)
      ensures staffId in users && (users[staffId].salaryDetails.basicSalary.None? || month == "") ==>
        r.IsStatus(500) && payrolls == old(payrolls)
      ensures staffId in users && users[staffId].salaryDetails.basicSalary.Some? && month != "" ==>
        var s := users[staffId].salaryDetails;
        && r == Ok(PayrollRecord(staffId, month, s.basicSalary.value, FormulaAllowance(allowances, s),
                                 attendanceDays,
                                 CalculatedSalary(FormulaBasic(s), attendanceDays, FormulaAllowance(allowances, s)),
                                 Pending, None))
        && payrolls == old(payrolls)[newId := r.value]
    {
      if staffId !in users {
        return Err(Failure(404, "Staff member not found"));
      }
      var salary := users[staffId].salaryDetails;
      var allowance := FormulaAllowance(allowances, salary);
      var total := CalculatedSalary(FormulaBasic(salary), attendanceDays, allowance);
      if salary.basicSalary.None? || month == "" {
        return Err(Failure(500, "Payroll validation failed"));
      }
      StoredAllowanceIsFormulaAllowance(allowances, salary);
      var record := PayrollRecord(staffId, month, salary.basicSalary.value, StoredAllowance(allowances, salary),
                                  attendanceDays, total, Pending, None);
      payrolls := payrolls[newId := record];
      r := Ok(record);
    }

    /** updatePayrollStatus: sets the status; only Paid stamps the payment
        date (again on every call), and no status clears it. A record stored
        as Paid without a date by other means keeps lacking one until it is
        set to Paid here. */
    method UpdatePayrollStatus(id: Id, status: PayrollStatus, now: Time) returns (r: Result<PayrollRecord>)
      modifies this
      ensures r.Ok? && status == Paid ==> PaidHasDate(r.value)
      ensures id in old(payrolls) && PaidHasDate(old(payrolls)[id]) ==> r.Ok? && PaidHasDate(r.value)
      ensures id !in old(payrolls) ==> r == Err(Failure(404, "Payroll record not found")) && payrolls == old(payrolls)
      ensures id in old(payrolls) ==>
        && r.Ok? && payrolls == old(payrolls)[id := r.value]
        && r.value.status == status
        && r.value.paymentDate == (if status == Paid then Some(now) else old(payrolls)[id].paymentDate)
        && r.value.(status := old(payrolls)[id].status, paymentDate := old(payrolls)[id].paymentDate) == old(payrolls)[id]
    {
      if id !in payrolls {
        return Err(Failure(404, "Payroll record not found"));
      }
      var payroll := payrolls[id];
      payroll := payroll.(status := status);
      if status == Paid {
        payroll := payroll.(paymentDate := Some(now));
      }
      payrolls := payrolls[id := payroll];
      r := Ok(payroll);
    }
  }
}
