/** The derived values of the project details page: totals, profit, ROI,
    the odometer panel, the "Add Expense" gate and the status badge. */
module ProjectDetails {
  import opened Wrappers
  import opened Types
  import opened Ledger
  import opened Text

  /** The financial summary shown in the sidebar. */
  datatype Summary = Summary(expenseTotal: real, buyPrice: real, totalSpent: real,
                             soldPrice: real, profit: real, isProfitable: bool)

  /** Total investment is buy price plus expenses, profit is sold price minus
      that, and the page reads as profitable exactly when profit is not negative;
      a missing buy or sold price counts as 0. */
  function Summarize(p: Project, expenses: seq<Expense>): (s: Summary)
    ensures s.expenseTotal == AmountSum(expenses)
    ensures s.totalSpent == OrZero(p.buyPrice) + AmountSum(expenses)
    ensures s.profit == OrZero(p.soldPrice) - OrZero(p.buyPrice) - AmountSum(expenses)
    ensures s.isProfitable <==> OrZero(p.buyPrice) + AmountSum(expenses) <= OrZero(p.soldPrice)
    ensures expenses == [] ==> s.totalSpent == OrZero(p.buyPrice)
  {
    var expenseTotal := AmountSum(expenses);
    var buyPrice := OrZero(p.buyPrice);
    var totalSpent := buyPrice + expenseTotal;
    var soldPrice := OrZero(p.soldPrice);
    var profit := soldPrice - totalSpent;
    Summary(expenseTotal, buyPrice, totalSpent, soldPrice, profit, profit >= 0.0)
  }

  /** `totalSpent > 0 ? profit / totalSpent * 100 : 0`, before `toFixed(1)`. */
  function Roi(s: Summary): real {
    if s.totalSpent > 0.0 then s.profit / s.totalSpent * 100.0 else 0.0
  }

  /** ROI is 0 whenever the investment is not positive (zero or negative);
      otherwise it has the sign of the profit and scales back to it. */
  lemma RoiGuard(p: Project, expenses: seq<Expense>)
    ensures var s := Summarize(p, expenses);
      && (s.totalSpent <= 0.0 ==> Roi(s) == 0.0)
      && (s.totalSpent > 0.0 ==> Roi(s) * s.totalSpent == s.profit * 100.0)
      && (s.totalSpent > 0.0 ==> (Roi(s) >= 0.0 <==> s.isProfitable))
  {
    var s := Summarize(p, expenses);
    if s.totalSpent > 0.0 {
      var q := s.profit / s.totalSpent;
      assert q * s.totalSpent == s.profit;
      assert q >= 0.0 <==> s.profit >= 0.0;
    }
  }

  /** A completed project bought for 5000, sold for 7000, with expenses of 300
      and 200: investment 5500, profit 1500, ROI 27.27..., shown as 27.3. */
  lemma CompletedDealScenario(p: Project, e1: Expense, e2: Expense)
    requires p.buyPrice == Some(5000.0) && p.soldPrice == Some(7000.0) && p.status == Some(Completed)
    requires e1.amount == Some(300.0) && e2.amount == Some(200.0)
    ensures Summarize(p, [e1, e2]).totalSpent == 5500.0
    ensures Summarize(p, [e1, e2]).profit == 1500.0
    ensures Summarize(p, [e1, e2]).isProfitable
    ensures 27.25 <= Roi(Summarize(p, [e1, e2])) < 27.35
  {
    assert [e1, e2][..1] == [e1];
    assert [e1][..0] == [];
    assert AmountSum([e1]) == 300.0;
    assert AmountSum([e1, e2]) == 500.0;
  }

  /** The "Add Expense" button is offered unless the project is completed. */
  predicate AddExpenseOffered(p: Project) {
    p.status != Some(Completed)
  }

  function StatusText(st: Status): string {
    match st
    case Active => "active"
    case Completed => "completed"
  }

  /** `project.status?.toUpperCase() || 'ACTIVE'`. */
  function StatusLabel(p: Project): string {
    match p.status
    case None => "ACTIVE"
    case Some(st) => ToUpperAscii(StatusText(st))
  }

  /** The badge reads "COMPLETED" for a completed project and "ACTIVE" otherwise,
      including when the status is absent; the "Add Expense" button appears
      exactly when the badge reads "ACTIVE". */
  lemma StatusLabelCases(p: Project)
    ensures StatusLabel(p) == (if p.status == Some(Completed) then "COMPLETED" else "ACTIVE")
    ensures AddExpenseOffered(p) <==> StatusLabel(p) == "ACTIVE"
  {
    match p.status
    case None =>
    case Some(st) =>
      var u := ToUpperAscii(StatusText(st));
      if st == Active {
        assert u == "ACTIVE" by {
          assert |u| == 6;
          forall i | 0 <= i < 6 ensures u[i] == "ACTIVE"[i] {}
        }
      } else {
        assert u == "COMPLETED" by {
          assert |u| == 9;
          forall i | 0 <= i < 9 ensures u[i] == "COMPLETED"[i] {}
        }
      }
  }

  /** The odometer panel's guard as written: `type === 'Car Rebuild' && odometer !== undefined`.
      A stored row carries `null`, never `undefined`, so the second test always passes. */
  predicate OdometerPanelAsWritten(p: Project) {
    p.kind == CarRebuild
  }

  /** The "km driven" figure as written: shown for a completed project whose
      end reading is set and non-zero and exceeds the start reading, where a
      `null` start reading compares and subtracts as 0. */
  function KmDrivenAsWritten(p: Project): Option<real> {
    if OdometerPanelAsWritten(p) && p.status == Some(Completed)
       && p.odometerEnd.Some? && p.odometerEnd.value != 0.0
       && p.odometerEnd.value > OrZero(p.odometer)
    then Some(p.odometerEnd.value - OrZero(p.odometer))
    else None
  }

  /** A car project with no start reading still gets the panel, and its whole
      end reading is reported as distance driven. */
  lemma KmDrivenWithoutStartReading(p: Project)
    requires p.kind == CarRebuild && p.status == Some(Completed)
    requires p.odometer == None && p.odometerEnd == Some(120000.0)
    ensures OdometerPanelAsWritten(p)
    ensures KmDrivenAsWritten(p) == Some(120000.0)
    ensures KmDriven(p) == None
  {
  }

  /** The odometer panel as intended: a car project with a start reading. */
  predicate OdometerPanel(p: Project) {
    p.kind == CarRebuild && p.odometer.Some?
  }

  /** "km driven" as intended: end minus start, only inside the panel, only for a
      completed project with a non-zero end reading above the start reading. */
  function KmDriven(p: Project): (r: Option<real>)
    ensures r.Some? <==> OdometerPanel(p) && p.status == Some(Completed) && p.odometerEnd.Some?
                         && p.odometerEnd.value != 0.0 && p.odometerEnd.value > p.odometer.value
    ensures r.Some? ==> r.value == p.odometerEnd.value - p.odometer.value && r.value > 0.0
  {
    if OdometerPanel(p) && p.status == Some(Completed)
       && p.odometerEnd.Some? && p.odometerEnd.value != 0.0
       && p.odometerEnd.value > p.odometer.value
    then Some(p.odometerEnd.value - p.odometer.value)
    else None
  }

  /** Where a start reading exists, the corrected figure agrees with the code. */
  lemma KmDrivenAgrees(p: Project)
    requires p.odometer.Some?
    ensures KmDriven(p) == KmDrivenAsWritten(p)
  {
  }
}
