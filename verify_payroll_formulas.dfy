/**
 * The read-only payslip audit: for up to three payslips it compares the
 * stored employer cost with the basic wage at two decimals, totals the
 * payslip's earning and deduction components, and compares the stored gross
 * and net wages with those totals within 0.01.
 */
module VerifyPayrollFormulas {
  import opened Wrappers
  import opened PayrollDb

  /** The audit looks at no more than this many payslips (`LIMIT 3`). */
  const SampleSize: nat := 3

  /** The largest absolute difference the gross and net checks still call a match,
      exclusive. */
  const Tolerance: real := 0.01

  function Abs(x: real): real {
    if x < 0.0 then -x else x
  }

  // ---------------------------------------------------------------------------
  // Employer-cost check: `Number(a).toFixed(2) === Number(b).toFixed(2)`
  // ---------------------------------------------------------------------------

  /** The text of `x.toFixed(2)`: a minus sign exactly when x is negative, then
      the magnitude in hundredths. */
  datatype FixedText = FixedText(negative: bool, hundredths: int)

  /** `x.toFixed(2)`: the magnitude is rounded to the nearest hundredth, a tie
      going to the larger one. */
  function ToFixed2(x: real): (t: FixedText)
    ensures t.negative <==> x < 0.0
    ensures 0 <= t.hundredths
    ensures Abs(x) * 100.0 - 0.5 < t.hundredths as real <= Abs(x) * 100.0 + 0.5
  {
    FixedText(x < 0.0, (Abs(x) * 100.0 + 0.5).Floor)
  }

  /** The employer-cost check of one payslip row. */
  predicate EmployerCostAgrees(slip: Payslip) {
    ToFixed2(NumberOf(slip.employerCost)) == ToFixed2(NumberOf(slip.basicWage))
  }

  /** Two amounts that print alike at two decimals are less than a cent apart. */
  lemma SameFixedTextWithinCent(a: real, b: real)
    requires ToFixed2(a) == ToFixed2(b)
    ensures Abs(a - b) < Tolerance
  {
  }

  /** When the check passes, employer cost and basic wage (NULL read as 0)
      differ by less than a cent. */
  lemma EmployerCostCheckSound(slip: Payslip)
    requires EmployerCostAgrees(slip)
    ensures Abs(NumberOf(slip.employerCost) - NumberOf(slip.basicWage)) < Tolerance
  {
  }

  /** The check compares rounded texts, not a tolerance: 0.004 and 0.006 are a
      fifth of a cent apart, yet print as "0.00" and "0.01". */
  lemma EmployerCostCheckIsNotATolerance()
    ensures Abs(0.006 - 0.004) < Tolerance
    ensures ToFixed2(0.004) != ToFixed2(0.006)
  {
  }

  /** The sign is part of the text: -0.001 prints as "-0.00", so it does not
      match a basic wage of 0 although both round to zero cents. */
  lemma NegativeZeroTextDiffers()
    ensures ToFixed2(-0.001).hundredths == ToFixed2(0.0).hundredths == 0
    ensures ToFixed2(-0.001) != ToFixed2(0.0)
  {
  }

  // ---------------------------------------------------------------------------
  // Components and their totals
  // ---------------------------------------------------------------------------

  /** `if (comp.is_deduction)`: only a true flag is a deduction; false and NULL
      are earnings. */
  predicate IsDeduction(c: PayslipComponent) {
    c.isDeduction == Some(true)
  }

  /** What the earnings accumulator holds after visiting `cs` in order. */
  function Earnings(cs: seq<PayslipComponent>): real {
    if cs == [] then 0.0
    else
      var last := cs[|cs| - 1];
      Earnings(cs[..|cs| - 1]) + (if IsDeduction(last) then 0.0 else NumberOf(last.amount))
  }

  /** What the deductions accumulator holds after visiting `cs` in order. */
  function Deductions(cs: seq<PayslipComponent>): real {
    if cs == [] then 0.0
    else
      var last := cs[|cs| - 1];
      Deductions(cs[..|cs| - 1]) + (if IsDeduction(last) then NumberOf(last.amount) else 0.0)
  }

  /** The sum of `Number(amount)` over all of `cs`. */
  function SumAmounts(cs: seq<PayslipComponent>): real {
    if cs == [] then 0.0 else SumAmounts(cs[..|cs| - 1]) + NumberOf(cs[|cs| - 1].amount)
  }

  /** The components with `is_deduction` true, in order. */
  function DeductionComponents(cs: seq<PayslipComponent>): (r: seq<PayslipComponent>)
    ensures forall c :: c in r ==> IsDeduction(c)
  {
    if cs == [] then []
    else
      var last := cs[|cs| - 1];
      DeductionComponents(cs[..|cs| - 1]) + (if IsDeduction(last) then [last] else [])
  }

  /** The components with `is_deduction` false or NULL, in order. */
  function EarningComponents(cs: seq<PayslipComponent>): (r: seq<PayslipComponent>)
    ensures forall c :: c in r ==> !IsDeduction(c)
  {
    if cs == [] then []
    else
      var last := cs[|cs| - 1];
      EarningComponents(cs[..|cs| - 1]) + (if IsDeduction(last) then [] else [last])
  }

  lemma {:induction false} SumAmountsAppend(a: seq<PayslipComponent>, b: seq<PayslipComponent>)
    ensures SumAmounts(a + b) == SumAmounts(a) + SumAmounts(b)
    decreases |b|
  {
    if b == [] {
      assert a + b == a;
    } else {
      assert (a + b)[..|a + b| - 1] == a + b[..|b| - 1];
      SumAmountsAppend(a, b[..|b| - 1]);
    }
  }

  /** The earnings total is the sum over the earning components, the deductions
      total the sum over the deduction components. */
  lemma {:induction false} TotalsAreBucketSums(cs: seq<PayslipComponent>)
    ensures Earnings(cs) == SumAmounts(EarningComponents(cs))
    ensures Deductions(cs) == SumAmounts(DeductionComponents(cs))
  {
    if cs != [] {
      var init, last := cs[..|cs| - 1], cs[|cs| - 1];
      TotalsAreBucketSums(init);
      SumAmountsAppend(EarningComponents(init), if IsDeduction(last) then [] else [last]);
      SumAmountsAppend(DeductionComponents(init), if IsDeduction(last) then [last] else []);
      assert SumAmounts([last]) == NumberOf(last.amount) by {
        assert [last][..0] == [];
      }
    }
  }

  /** Every component lands in exactly one bucket. */
  lemma {:induction false} BucketsPartition(cs: seq<PayslipComponent>)
    ensures multiset(EarningComponents(cs)) + multiset(DeductionComponents(cs)) == multiset(cs)
  {
    if cs != [] {
      var init := cs[..|cs| - 1];
      BucketsPartition(init);
      assert cs == init + [cs[|cs| - 1]];
    }
  }

  /** Earnings plus deductions is the sum of every component amount. */
  lemma {:induction false} TotalsCoverAllComponents(cs: seq<PayslipComponent>)
    ensures Earnings(cs) + Deductions(cs) == SumAmounts(cs)
  {
    if cs != [] {
      TotalsCoverAllComponents(cs[..|cs| - 1]);
    }
  }

  /** `SELECT … FROM payslip_components WHERE payslip_id = $1`, in table order. */
  function ComponentsOf(all: seq<PayslipComponent>, payslipId: nat): (r: seq<PayslipComponent>)
    ensures forall c :: c in r ==> c.payslipId == payslipId
    ensures forall c :: c in all && c.payslipId == payslipId ==> c in r
  {
    if all == [] then []
    else
      var last := all[|all| - 1];
      ComponentsOf(all[..|all| - 1], payslipId) + (if last.payslipId == payslipId then [last] else [])
  }

  /** The fetch keeps every matching row as often as the table holds it, so two
      identical component rows are both counted. */
  lemma {:induction false} ComponentsOfMultiplicity(all: seq<PayslipComponent>, payslipId: nat)
    ensures forall c :: multiset(ComponentsOf(all, payslipId))[c] ==
                        (if c.payslipId == payslipId then multiset(all)[c] else 0)
  {
    if all != [] {
      var init, last := all[..|all| - 1], all[|all| - 1];
      ComponentsOfMultiplicity(init, payslipId);
      assert all == init + [last];
    }
  }

  // ---------------------------------------------------------------------------
  // The per-payslip report
  // ---------------------------------------------------------------------------

  /** What the audit establishes about one payslip. */
  datatype SlipReport = SlipReport(
    payslipId: nat,
    employerCostOk: bool,
    totalEarnings: real,
    totalDeductions: real,
    expectedNet: real,
    grossOk: bool,
    netOk: bool)

  /** The report for `slip` with components `comps`. */
  function AuditOf(slip: Payslip, comps: seq<PayslipComponent>): SlipReport {
    var earnings := Earnings(comps);
    var deductions := Deductions(comps);
    SlipReport(
      slip.id,
      EmployerCostAgrees(slip),
      earnings,
      deductions,
      earnings - deductions,
      Abs(earnings - NumberOf(slip.grossWage)) < Tolerance,
      Abs((earnings - deductions) - NumberOf(slip.netWage)) < Tolerance)
  }

  /** A report depends on nothing but its own payslip and components: the
      totals of another payslip never carry over. */
  lemma ReportIgnoresOtherPayslips(slip: Payslip, all: seq<PayslipComponent>, other: PayslipComponent)
    requires other.payslipId != slip.id
    ensures AuditOf(slip, ComponentsOf(all + [other], slip.id)) == AuditOf(slip, ComponentsOf(all, slip.id))
  {
    var extended := all + [other];
    assert extended[..|extended| - 1] == all;
    assert extended[|extended| - 1] == other;
    assert ComponentsOf(extended, slip.id) == ComponentsOf(all, slip.id) + [];
    assert ComponentsOf(all, slip.id) + [] == ComponentsOf(all, slip.id);
  }

  /** The gross check compares against the earning components alone: a payslip
      whose gross is basic wage plus its earning components fails it whenever
      the basic wage is a cent or more, unless basic wage is itself a component. */
  lemma GrossCheckDoesNotAddBasicWage(slip: Payslip, comps: seq<PayslipComponent>)
    requires NumberOf(slip.grossWage) == NumberOf(slip.basicWage) + Earnings(comps)
    ensures AuditOf(slip, comps).grossOk <==> Abs(NumberOf(slip.basicWage)) < Tolerance
  {
  }

  /** The net check follows from the gross check when the stored net is the
      stored gross less the deductions total. */
  lemma NetCheckFollowsFromGross(slip: Payslip, comps: seq<PayslipComponent>)
    requires AuditOf(slip, comps).grossOk
    requires NumberOf(slip.netWage) == NumberOf(slip.grossWage) - Deductions(comps)
    ensures AuditOf(slip, comps).netOk
  {
  }

  /** A payslip stored exactly as the formulas say passes all three checks. */
  lemma ConsistentPayslipPasses(slip: Payslip, comps: seq<PayslipComponent>)
    requires slip.employerCost == slip.basicWage
    requires NumberOf(slip.grossWage) == SumAmounts(EarningComponents(comps))
    requires NumberOf(slip.netWage) == SumAmounts(EarningComponents(comps)) - SumAmounts(DeductionComponents(comps))
    ensures var r := AuditOf(slip, comps); r.employerCostOk && r.grossOk && r.netOk
  {
    TotalsAreBucketSums(comps);
  }

  // ---------------------------------------------------------------------------
  // The audit run
  // ---------------------------------------------------------------------------

  /** The payslips that join to an existing employee. */
  function JoinedPayslips(db: Database): set<nat>
    reads db
  {
    set id | id in db.payslips && db.payslips[id].employeeId in db.employees
  }

  /** What `SELECT … FROM payslips JOIN employees … LIMIT 3` may return: distinct
      joined payslips, as many as there are up to three, in any order. */
  ghost predicate IsSample(db: Database, sample: seq<nat>)
    reads db
  {
    (forall k :: 0 <= k < |sample| ==> sample[k] in JoinedPayslips(db)) &&
    (forall k, l :: 0 <= k < l < |sample| ==> sample[k] != sample[l]) &&
    |sample| == (if |JoinedPayslips(db)| < SampleSize then |JoinedPayslips(db)| else SampleSize)
  }

  /**
   * The audit. It declares no `modifies` clause, so it cannot change any table.
   * `failAt`, when present, is the position in the sample whose component
   * query throws: the run then aborts, keeping the reports of the payslips
   * before it.
   */
  method VerifyFormulas(db: Database, sample: seq<nat>, failAt: Option<nat>)
    returns (reports: seq<SlipReport>, completed: bool)
    requires db.Valid()
    requires IsSample(db, sample)
    ensures completed <==> (failAt.None? || |sample| <= failAt.value)
    ensures |reports| == (if completed then |sample| else failAt.value)
    ensures |reports| <= |sample| <= SampleSize
    ensures forall k :: 0 <= k < |reports| ==>
      sample[k] in db.payslips && reports[k].payslipId == sample[k] &&
      reports[k] == AuditOf(db.payslips[sample[k]], ComponentsOf(db.components, db.payslips[sample[k]].id))
  {
    reports := [];
    completed := true;
    var i := 0;
    while i < |sample|
      invariant 0 <= i <= |sample|
      invariant |reports| == i
      invariant completed
      invariant failAt.Some? ==> i <= failAt.value
      invariant forall k :: 0 <= k < i ==>
        reports[k] == AuditOf(db.payslips[sample[k]], ComponentsOf(db.components, db.payslips[sample[k]].id))
    {
      var slip := db.payslips[sample[i]];
      var isCorrect := ToFixed2(NumberOf(slip.employerCost)) == ToFixed2(NumberOf(slip.basicWage));
      if failAt == Some(i) {
        completed := false;
        break;
      }
      var comps := ComponentsOf(db.components, slip.id);
      var totalEarnings, totalDeductions := 0.0, 0.0;
      var j := 0;
      while j < |comps|
        invariant 0 <= j <= |comps|
        invariant totalEarnings == Earnings(comps[..j])
        invariant totalDeductions == Deductions(comps[..j])
      {
        var comp := comps[j];
        if IsDeduction(comp) {
          totalDeductions := totalDeductions + NumberOf(comp.amount);
        } else {
          totalEarnings := totalEarnings + NumberOf(comp.amount);
        }
        assert comps[..j + 1][..j] == comps[..j];
        j := j + 1;
      }
      assert comps[..j] == comps;
      var grossOk := Abs(totalEarnings - NumberOf(slip.grossWage)) < Tolerance;
      var netOk := Abs((totalEarnings - totalDeductions) - NumberOf(slip.netWage)) < Tolerance;
      reports := reports + [SlipReport(slip.id, isCorrect, totalEarnings, totalDeductions,
                                       totalEarnings - totalDeductions, grossOk, netOk)];
      i := i + 1;
    }
  }
}
