/**
 * The part of the payroll database that the maintenance scripts touch,
 * held in memory.  Money columns are PostgreSQL `numeric`, kept here as
 * `real`; a NULL column is `None`.
 */
module PayrollDb {
  import opened Wrappers

  type Money = real

  /** One row of `payslips`. */
  datatype Payslip = Payslip(
    id: nat,
    employeeId: nat,
    payrunId: nat,
    totalWorkedDays: Option<real>,
    totalLeaves: Option<real>,
    payableDays: Option<real>,
    basicWage: Option<Money>,
    grossWage: Option<Money>,
    netWage: Option<Money>,
    employerCost: Option<Money>)

  /** One row of `payslip_components`; `isDeduction` is a nullable boolean column. */
  datatype PayslipComponent = PayslipComponent(
    payslipId: nat,
    componentName: string,
    amount: Option<Money>,
    isDeduction: Option<bool>)

  /** The tables the scripts read and write: `payslips` keyed by its primary key,
      the ids present in `payruns` and `employees`, and `payslip_components`. */
  class Database {
    var payslips: map<nat, Payslip>
    var payruns: set<nat>
    var employees: set<nat>
    var components: seq<PayslipComponent>

    /** Every row is filed under its own primary key. */
    ghost predicate Valid()
      reads this
    {
      KeyedById(payslips)
    }
  }

  ghost predicate KeyedById(rows: map<nat, Payslip>) {
    forall id :: id in rows ==> rows[id].id == id
  }

  /** `after` differs from `before` at most in the `employer_cost` column:
      same rows, and every other column of every row as it was. */
  ghost predicate OnlyEmployerCostDiffers(before: map<nat, Payslip>, after: map<nat, Payslip>) {
    before.Keys == after.Keys &&
    forall id :: id in before ==> after[id] == before[id].(employerCost := after[id].employerCost)
  }

  /** JavaScript `Number(v)` of a `numeric` column: NULL reads as 0. */
  function NumberOf(v: Option<Money>): real {
    v.GetOr(0.0)
  }
}
