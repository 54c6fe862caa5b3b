/**
 * The repair of `employer_cost`: one bulk
 * `UPDATE payslips SET employer_cost = basic_wage
 *  WHERE employer_cost IS NOT NULL OR employer_cost IS NULL`.
 */
module FixEmployerCost {
  import opened Wrappers
  import opened PayrollDb
  import VerifyPayrollFormulas
  import AddEmployerCostColumn

  /** The WHERE clause of the repair, evaluated on one row. */
  predicate RepairWhere(row: Payslip) {
    row.employerCost != None || row.employerCost == None
  }

  /** The UPDATE on one row: a row that meets the WHERE clause gets its basic
      wage, NULL included, as employer cost. */
  function RepairRow(row: Payslip): Payslip {
    if RepairWhere(row) then row.(employerCost := row.basicWage) else row
  }

  /** The table after the UPDATE. */
  function Repaired(rows: map<nat, Payslip>): map<nat, Payslip> {
    map id | id in rows :: RepairRow(rows[id])
  }

  /** The rows the UPDATE touches, whose number PostgreSQL reports as `rowCount`. */
  function UpdatedRows(rows: map<nat, Payslip>): (ids: set<nat>)
    ensures ids == rows.Keys
  {
    var ids := set id | id in rows && RepairWhere(rows[id]);
    assert forall id :: id in rows ==> RepairWhere(rows[id]);
    ids
  }

  /**
   * The repair. A failing statement (`fails`) changes nothing, since one
   * UPDATE statement is atomic; otherwise every row is rewritten and the row
   * count is the number of payslips.
   */
  method FixEmployerCost(db: Database, fails: bool) returns (rowCount: Option<nat>)
    requires db.Valid()
    modifies db`payslips
    ensures db.Valid()
    ensures fails ==> rowCount == None && db.payslips == old(db.payslips)
    ensures !fails ==> rowCount == Some(|old(db.payslips)|) && db.payslips == Repaired(old(db.payslips))
  {
    if fails {
      return None;
    }
    var updated := UpdatedRows(db.payslips);
    db.payslips := map id | id in db.payslips :: RepairRow(db.payslips[id]);
    rowCount := Some(|updated|);
  }

  // ---------------------------------------------------------------------------
  // What the repair guarantees
  // ---------------------------------------------------------------------------

  /** Afterwards every row's employer cost is its basic wage, NULL copied as
      NULL, and no other column of any row has changed. */
  lemma RepairCopiesBasicWage(rows: map<nat, Payslip>)
    ensures OnlyEmployerCostDiffers(rows, Repaired(rows))
    ensures forall id :: id in rows ==> Repaired(rows)[id].employerCost == rows[id].basicWage
  {
  }

  /** Running the repair twice gives the table that running it once gives. */
  lemma RepairIdempotent(rows: map<nat, Payslip>)
    ensures Repaired(Repaired(rows)) == Repaired(rows)
  {
  }

  /** After the repair every payslip passes the audit's employer-cost check. */
  lemma RepairedRowsPassAudit(rows: map<nat, Payslip>, id: nat)
    requires id in rows
    ensures VerifyPayrollFormulas.EmployerCostAgrees(Repaired(rows)[id])
  {
  }

  /** Repair and backfill disagree on a NULL basic wage: on every row the
      backfill selects, the backfill writes 0 where the repair copies NULL. */
  lemma RepairDiffersFromBackfillOnNullBasicWage(rows: map<nat, Payslip>, payruns: set<nat>, id: nat)
    requires id in AddEmployerCostColumn.RowsToBackfill(rows, payruns)
    requires rows[id].basicWage == None
    ensures AddEmployerCostColumn.Backfilled(rows, payruns)[id].employerCost == Some(0.0)
    ensures Repaired(rows)[id].employerCost == None
  {
  }

  /** Once the backfill has run, the repair leaves the joined rows whose basic
      wage is set exactly as the backfill wrote them. */
  lemma RepairAgreesWithBackfillOnSetBasicWage(rows: map<nat, Payslip>, payruns: set<nat>, id: nat)
    requires id in AddEmployerCostColumn.RowsToBackfill(rows, payruns)
    requires rows[id].basicWage != None
    ensures Repaired(AddEmployerCostColumn.Backfilled(rows, payruns))[id] ==
            AddEmployerCostColumn.Backfilled(rows, payruns)[id]
  {
  }
}
