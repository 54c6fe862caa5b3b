/**
 * The backfill of `employer_cost` that follows the column migration: every
 * payslip whose employer cost is NULL and that joins to a pay run gets its
 * basic wage as employer cost, or 0 when the basic wage is NULL.
 */
module AddEmployerCostColumn {
  import opened Wrappers
  import opened PayrollDb
  import VerifyPayrollFormulas

  /** `SELECT p.id … FROM payslips p JOIN payruns pr ON pr.id = p.payrun_id
      WHERE p.employer_cost IS NULL`. */
  function RowsToBackfill(rows: map<nat, Payslip>, payruns: set<nat>): set<nat> {
    set id | id in rows && rows[id].employerCost == None && rows[id].payrunId in payruns
  }

  /** `Number(basic_wage || 0)`: the basic wage, with NULL read as 0. */
  function CostFromBasicWage(basicWage: Option<Money>): Money {
    basicWage.GetOr(0.0)
  }

  /** The table when exactly the rows of `done` have been written. */
  function PartlyBackfilled(rows: map<nat, Payslip>, done: set<nat>): map<nat, Payslip> {
    map id | id in rows ::
      if id in done
      then rows[id].(employerCost := Some(CostFromBasicWage(rows[id].basicWage)))
      else rows[id]
  }

  /** The table once every selected row has had its employer cost written. */
  function Backfilled(rows: map<nat, Payslip>, payruns: set<nat>): map<nat, Payslip> {
    PartlyBackfilled(rows, RowsToBackfill(rows, payruns))
  }

  /**
   * The backfill loop. `failAt`, when present, is the position in the loop at
   * which an UPDATE throws: the run then aborts with the earlier updates kept.
   * `found` is the number of selected rows that the script reports.
   */
  method RunMigration(db: Database, failAt: Option<nat>) returns (found: nat, completed: bool)
    requires db.Valid()
    modifies db`payslips
    ensures db.Valid()
    ensures found == |RowsToBackfill(old(db.payslips), db.payruns)|
    ensures completed <==> (failAt.None? || found <= failAt.value)
    ensures completed ==> db.payslips == Backfilled(old(db.payslips), db.payruns)
    ensures exists done :: (done <= RowsToBackfill(old(db.payslips), db.payruns) &&
                            |done| == (if completed then found else failAt.value) &&
                            db.payslips == PartlyBackfilled(old(db.payslips), done))
  {
    var selected := RowsToBackfill(db.payslips, db.payruns);
    found := |selected|;
    ghost var before := db.payslips;
    var todo := selected;
    var step := 0;
    completed := true;
    while todo != {}
      invariant todo <= selected
      invariant step + |todo| == found
      invariant db.payslips == PartlyBackfilled(before, selected - todo)
      invariant completed
      invariant failAt.Some? ==> step <= failAt.value
      decreases |todo|
    {
      if failAt == Some(step) {
        completed := false;
        break;
      }
      var id :| id in todo;
      var basicWage := db.payslips[id].basicWage;
      var employerCost := CostFromBasicWage(basicWage);
      db.payslips := db.payslips[id := db.payslips[id].(employerCost := Some(employerCost))];
      todo := todo - {id};
      step := step + 1;
    }
    ghost var done := selected - todo;
    assert done <= selected && |done| == (if completed then found else failAt.value);
    assert db.payslips == PartlyBackfilled(before, done);
    assert completed ==> db.payslips == Backfilled(before, db.payruns);
  }

  // ---------------------------------------------------------------------------
  // What the backfill guarantees
  // ---------------------------------------------------------------------------

  /** The selected rows are exactly the rows the backfill changes. */
  lemma BackfillChangesExactlySelectedRows(rows: map<nat, Payslip>, payruns: set<nat>, id: nat)
    requires id in rows
    ensures id in RowsToBackfill(rows, payruns) <==> Backfilled(rows, payruns)[id] != rows[id]
  {
  }

  /** Each selected row ends with its basic wage as employer cost, and never
      NULL: a NULL basic wage becomes 0. */
  lemma SelectedRowsGetBasicWage(rows: map<nat, Payslip>, payruns: set<nat>, id: nat)
    requires id in RowsToBackfill(rows, payruns)
    ensures Backfilled(rows, payruns)[id].employerCost ==
      if rows[id].basicWage == None then Some(0.0) else rows[id].basicWage
  {
  }

  /** Rows whose employer cost was already set, and NULL-cost rows with no
      matching pay run, are left exactly as they were. */
  lemma UnselectedRowsUnchanged(rows: map<nat, Payslip>, payruns: set<nat>, id: nat)
    requires id in rows
    requires rows[id].employerCost != None || rows[id].payrunId !in payruns
    ensures Backfilled(rows, payruns)[id] == rows[id]
  {
  }

  /** Only the employer cost column is written. */
  lemma BackfillWritesOnlyEmployerCost(rows: map<nat, Payslip>, payruns: set<nat>)
    ensures OnlyEmployerCostDiffers(rows, Backfilled(rows, payruns))
  {
  }

  /** After a complete run no row qualifies any more, so a second run reports
      0 rows found and changes nothing. */
  lemma BackfillIdempotent(rows: map<nat, Payslip>, payruns: set<nat>)
    ensures RowsToBackfill(Backfilled(rows, payruns), payruns) == {}
    ensures Backfilled(Backfilled(rows, payruns), payruns) == Backfilled(rows, payruns)
  {
  }

  /** Every backfilled row passes the audit's employer-cost check. */
  lemma BackfilledRowsPassAudit(rows: map<nat, Payslip>, payruns: set<nat>, id: nat)
    requires id in RowsToBackfill(rows, payruns)
    ensures VerifyPayrollFormulas.EmployerCostAgrees(Backfilled(rows, payruns)[id])
  {
  }
}
