# Payslip maintenance scripts and salary-setup form, modelled in Dafny

This project models the small pieces of logic in the payroll feature of an HR
web application:

- **the payslip audit** (`verifyPayrollFormulas.js`): for up to three payslips
  joined to their employee, it checks that the employer cost equals the basic
  wage at two decimals, totals the payslip's components into earnings and
  deductions, and checks the stored gross against the earnings and the stored
  net against earnings minus deductions, each within 0.01;
- **the employer-cost backfill** (`addEmployerCostColumn.js`): every payslip
  whose `employer_cost` is NULL and that joins to a pay run gets its
  `basic_wage` as employer cost, or 0 when the basic wage is NULL;
- **the employer-cost repair** (`fixEmployerCost.js`): one bulk UPDATE sets
  `employer_cost = basic_wage` on every payslip (its WHERE clause is always
  true), copying a NULL basic wage as NULL;
- **the salary-setup modal** (`SalarySetupModal.jsx`): the initial form
  state, the `||`-defaulting of a loaded structure, the guards of the save and
  add handlers, the reset of the new-component form, the delete confirmation,
  and the `loading` flag around every API call.

The database is held in memory by the class `PayrollDb.Database`: `payslips`
is a map from primary key to row, `payruns` and `employees` are the sets of
ids those tables hold, and `payslip_components` is a sequence. Money columns
are PostgreSQL `numeric` and are `real` here. A NULL column is `None`.
JavaScript's `Number(null)` is 0, so `NumberOf` reads NULL as 0.

`toFixed(2)` is modelled as the text it produces. That text is a minus sign
exactly when the value is negative, followed by the magnitude rounded to the
nearest hundredth, with a tie going up. So the audit's employer-cost check
compares rounded values, not a tolerance. It also tells "-0.00" from "0.00".

The audit takes the rows returned by `LIMIT 3` as a parameter: any distinct
joined payslips, as many as exist up to three. `VerifyFormulas` has no
`modifies` clause, so it cannot change any table. An optional `failAt` names
the sampled payslip whose component query throws. The script then exits with
status 1, and the model returns the reports of the payslips before it.

The backfill loop visits the selected ids in an unspecified order, as the
unordered SELECT does. An optional `failAt` names the iteration whose UPDATE
throws. The run then aborts with the earlier updates kept, and
`RunMigration` states that exactly `failAt` of the selected rows are then
backfilled, in whatever order they were visited, and nothing else changed.

The repair is one statement. If it fails, nothing changes. Otherwise the
reported row count is the number of payslips.

In the modal, form values are `JsValue` (text, a number, or null) with
JavaScript truthiness. Each handler takes the server's answer (`Outcome`) as
an input. It returns the log of what it did outside its own state: set the
loading flag, send a request, ask the parent to refresh.

Where the scripts' own comments and messages say more than their code does,
the model follows the code:

- `verifyPayrollFormulas.js:81` prints "Gross Wage = Basic Wage + All
  Allowances", but line 68 compares the stored gross with the sum of the
  earning components alone (`GrossCheckDoesNotAddBasicWage`);
- the backfill's SELECT joins `payruns` and keeps only NULL-cost rows
  (`addEmployerCostColumn.js:31-32`), so a NULL-cost payslip without a matching
  pay run stays NULL (`UnselectedRowsUnchanged`);
- the comments at `addEmployerCostColumn.js:38,43` and the message at
  `fixEmployerCost.js:21` say "Employer Cost = Basic Wage", which holds exactly
  only for a set basic wage. For a NULL basic wage the backfill writes 0
  (`addEmployerCostColumn.js:41`) and the repair copies the NULL
  (`fixEmployerCost.js:16`) (`RepairDiffersFromBackfillOnNullBasicWage`).

## Model

| member | source | states |
|---|---|---|
| `VerifyPayrollFormulas.VerifyFormulas` | backend/scripts/verifyPayrollFormulas.js:13-87 | one report per sampled payslip, never more than 3, or on a failed component query exactly the reports of the payslips before it; each report is the audit of that row with its own components, its totals starting from zero; no table is written |
| `VerifyPayrollFormulas.ToFixed2` | backend/scripts/verifyPayrollFormulas.js:41 | `toFixed(2)` text: negative sign exactly for x < 0, and hundredths within half a unit of abs(x)·100 |
| `VerifyPayrollFormulas.SameFixedTextWithinCent` | backend/scripts/verifyPayrollFormulas.js:41 | two amounts with the same two-decimal text differ by less than 0.01 |
| `VerifyPayrollFormulas.EmployerCostCheckSound` | backend/scripts/verifyPayrollFormulas.js:41 | when the employer-cost check passes, employer cost and basic wage (NULL as 0) are less than a cent apart |
| `VerifyPayrollFormulas.EmployerCostCheckIsNotATolerance` | backend/scripts/verifyPayrollFormulas.js:41 | the check compares rounded texts: 0.004 and 0.006 are within 0.01 yet fail it |
| `VerifyPayrollFormulas.NegativeZeroTextDiffers` | backend/scripts/verifyPayrollFormulas.js:41 | -0.001 and 0 both round to zero hundredths but print differently, so they do not match |
| `VerifyPayrollFormulas.ComponentsOf` | backend/scripts/verifyPayrollFormulas.js:45-49 | every fetched component belongs to the payslip, and every component of the payslip is fetched |
| `VerifyPayrollFormulas.ComponentsOfMultiplicity` | backend/scripts/verifyPayrollFormulas.js:45-49 | the fetch holds each component of the payslip as many times as the table does, and no other component |
| `VerifyPayrollFormulas.TotalsAreBucketSums` | backend/scripts/verifyPayrollFormulas.js:52-63 | the earnings accumulator ends at the sum over components whose is_deduction is false or NULL, the deductions accumulator at the sum over those with it true |
| `VerifyPayrollFormulas.BucketsPartition` | backend/scripts/verifyPayrollFormulas.js:58-62 | every component falls in exactly one bucket: the two buckets together are the components as a multiset |
| `VerifyPayrollFormulas.TotalsCoverAllComponents` | backend/scripts/verifyPayrollFormulas.js:58-62 | earnings plus deductions equals the sum of all component amounts |
| `VerifyPayrollFormulas.ReportIgnoresOtherPayslips` | backend/scripts/verifyPayrollFormulas.js:45-63 | adding a component of another payslip leaves a payslip's report unchanged: totals never carry over between payslips |
| `VerifyPayrollFormulas.GrossCheckDoesNotAddBasicWage` | backend/scripts/verifyPayrollFormulas.js:68 | a gross stored as basic wage plus earning components passes the gross check exactly when the basic wage is under a cent |
| `VerifyPayrollFormulas.NetCheckFollowsFromGross` | backend/scripts/verifyPayrollFormulas.js:72-73 | if the gross check passes and stored net is stored gross minus deductions, the net check passes |
| `VerifyPayrollFormulas.ConsistentPayslipPasses` | backend/scripts/verifyPayrollFormulas.js:41-73 | a payslip whose cost, gross and net agree with its components passes all three checks |
| `AddEmployerCostColumn.BackfillChangesExactlySelectedRows` | backend/scripts/addEmployerCostColumn.js:28-46 | the rows the SELECT returns are exactly the rows the backfill changes |
| `AddEmployerCostColumn.RunMigration` | backend/scripts/addEmployerCostColumn.js:28-47 | reports the number of selected rows; a complete run leaves the backfilled table; a run aborted at update `failAt` leaves exactly `failAt` of the selected rows backfilled and all else as it was |
| `AddEmployerCostColumn.SelectedRowsGetBasicWage` | backend/scripts/addEmployerCostColumn.js:40-46 | each selected row ends with its basic wage as employer cost, or 0 when the basic wage is NULL, never NULL |
| `AddEmployerCostColumn.UnselectedRowsUnchanged` | backend/scripts/addEmployerCostColumn.js:28-33 | a row with a set employer cost, or with no matching pay run, is left exactly as it was |
| `AddEmployerCostColumn.BackfillWritesOnlyEmployerCost` | backend/scripts/addEmployerCostColumn.js:46 | same rows, and every column but employer_cost of every row unchanged |
| `AddEmployerCostColumn.BackfillIdempotent` | backend/scripts/addEmployerCostColumn.js:32-37 | after a run no row qualifies (a second run finds 0) and backfilling again changes nothing |
| `AddEmployerCostColumn.BackfilledRowsPassAudit` | backend/scripts/addEmployerCostColumn.js:41-46 | every backfilled row passes the audit's employer-cost check |
| `FixEmployerCost.UpdatedRows` | backend/scripts/fixEmployerCost.js:17-20 | the WHERE clause holds for every row, so the rows updated are all the payslips |
| `FixEmployerCost.FixEmployerCost` | backend/scripts/fixEmployerCost.js:14-20 | a failing statement changes nothing; otherwise the table is repaired and the row count is the number of payslips |
| `FixEmployerCost.RepairCopiesBasicWage` | backend/scripts/fixEmployerCost.js:15-17 | afterwards every row's employer cost is its basic wage, NULL copied as NULL, and no other column changed |
| `FixEmployerCost.RepairIdempotent` | backend/scripts/fixEmployerCost.js:15-17 | repairing twice gives the same table as repairing once |
| `FixEmployerCost.RepairedRowsPassAudit` | backend/scripts/fixEmployerCost.js:16 | after the repair every payslip passes the audit's employer-cost check |
| `FixEmployerCost.RepairDiffersFromBackfillOnNullBasicWage` | backend/scripts/fixEmployerCost.js:16 | on every row the backfill selects whose basic wage is NULL, the backfill writes 0 where the repair writes NULL |
| `FixEmployerCost.RepairAgreesWithBackfillOnSetBasicWage` | backend/scripts/fixEmployerCost.js:16 | on a backfilled row with a set basic wage the repair changes nothing |
| `SalarySetup.LoadedStructure` | frontend/src/components/modals/SalarySetupModal.jsx:43-48 | each loaded field is kept when truthy and otherwise falls back to the form's initial value |
| `SalarySetup.LoadedStructureIdempotent` | frontend/src/components/modals/SalarySetupModal.jsx:43-48 | loading a loaded structure again changes nothing, and the initial structure loads as itself |
| `SalarySetup.ZeroFieldsTakeDefaults` | frontend/src/components/modals/SalarySetupModal.jsx:43-48 | zeros become working days 5, break hours 1, PF rates 12 and a null tax override; the text "0.00" is kept |
| `SalarySetup.SaveGuardAfterLoad` | frontend/src/components/modals/SalarySetupModal.jsx:43-60 | after loading, saving is allowed exactly when the loaded monthly wage was truthy; the initial form cannot be saved |
| `SalarySetup.SavedPayloadAfterLoad` | frontend/src/components/modals/SalarySetupModal.jsx:43-71 | saving a loaded structure sends a null tax override exactly when the loaded one was falsy, and always sends truthy working days, break hours and PF rates |
| `SalarySetup.ZeroTaxOverrideSentAsNull` | frontend/src/components/modals/SalarySetupModal.jsx:48-70 | a loaded tax override of 0 or "" is saved as null |
| `SalarySetup.ResetFormIsRejected` | frontend/src/components/modals/SalarySetupModal.jsx:83-103 | the form as reset after a successful add fails the add guard |
| `SalarySetup.LoadingBracketsEveryCall` | frontend/src/components/modals/SalarySetupModal.jsx:62-79 | whatever the outcome: one request, loading on while it is sent, off at the end, and a refresh exactly on success |
| `SalarySetup.SalarySetupModal.constructor` | frontend/src/components/modals/SalarySetupModal.jsx:22-38 | the initial state: not loading, the initial structure, no components, the initial new-component form, nothing being edited |
| `SalarySetup.SalarySetupModal.LoadSalaryData` | frontend/src/components/modals/SalarySetupModal.jsx:40-54 | a present structure replaces the form's, defaulted; a present component list replaces the components; nothing else changes |
| `SalarySetup.SalarySetupModal.HandleSaveStructure` | frontend/src/components/modals/SalarySetupModal.jsx:56-80 | a falsy monthly wage sends nothing and leaves loading untouched; otherwise the PUT of the payload is bracketed by loading on/off |
| `SalarySetup.SalarySetupModal.HandleAddComponent` | frontend/src/components/modals/SalarySetupModal.jsx:82-110 | an empty name or value sends nothing; otherwise the POST is bracketed by loading, and the form is reset on success and kept on failure |
| `SalarySetup.SalarySetupModal.HandleDeleteComponent` | frontend/src/components/modals/SalarySetupModal.jsx:112-125 | without confirmation nothing changes; with it the DELETE is bracketed by loading on/off |

## Left out

- `frontend/src/api/salary.js` is not part of this model: it only builds URLs for an HTTP client that is not shown. Requests appear as `Request` values.
- The database connection pool, the connection string, and reading and running the migration `.sql` file (the ALTER TABLE) are not modelled; the tables are in memory.
- Console output, `toLocaleString`, toasts and the employee name concatenation are only for display and are not modelled.
- `process.exit(1)` is each script's abort path. It is modelled as an abort: `failAt` in the backfill and the audit, `fails` in the repair. The exit status itself and `pool.end()` are not modelled.
- VerifyPayrollFormulas.VerifyFormulas: the payslip whose component query fails has had its employer-cost line printed but gets no report; a failure of the sampling SELECT itself is not modelled separately, as it returns no reports either way.
- Floating point is not modelled: amounts are exact reals, `Number(...)` of a `numeric` is its exact value, and sums are exact.
- `ToFixed2`: does not model the exponential text `toFixed` produces for magnitudes of 1e21 or more.
- `parseFloat` and `parseInt` are not modelled: a payload holds the form value handed to them.
- `SalarySetup.Truthy`: NaN, which is falsy in JavaScript, is not a `JsValue`.
- Rendering, animations, the input `onChange` setters and `isOpen` are not modelled; `editingComponentId` is only initialised, as in the handlers shown; the `confirm` dialog is the input `confirmed`.
- The basic-wage proration formula is only printed as text by the audit and is computed in no modelled file, so it is not modelled.
- Which rows `LIMIT 3` returns, and the order of the backfill, are left open: the model accepts any.
- Concurrent writers between the backfill's SELECT and its UPDATEs are not modelled.
- Each modal handler runs its `await` as one atomic step with the server's answer as an input. Nothing that can happen while a request is in flight is modelled: a `salaryData` reload, typing into the inputs (which stay enabled), or a second click on the delete button.
