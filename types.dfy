/** The stored records (`src/types.ts`) and the truthiness defaults the views apply to them. */
module Types {
  import opened Wrappers

  datatype Status = Active | Completed

  /** A row of the `project` table. Absent columns arrive as `null`, written `None`.
      The three reminder dates are read by the reminders modal although
      `src/types.ts` does not declare them. */
  datatype Project = Project(
    id: int,
    name: string,
    kind: string,               // the `type` column: "Car Rebuild", "PC Build", ...
    description: Option<string>,
    imagePath: Option<string>,
    isDeleted: Option<bool>,
    createdAt: string,
    userId: Option<string>,
    soldPrice: Option<real>,
    status: Option<Status>,
    buyPrice: Option<real>,
    odometer: Option<real>,
    odometerEnd: Option<real>,
    vin: Option<string>,
    insuranceDate: Option<string>,
    technicalCheckDate: Option<string>,
    vinetkaDate: Option<string>)

  /** A row of the `expense` table. */
  datatype Expense = Expense(
    id: int,
    projectId: int,
    amount: Option<real>,
    amountBgn: Option<real>,
    description: string,
    category: Option<string>,
    date: string)

  const CarRebuild: string := "Car Rebuild"

  /** `x || 0` on a stored number: a missing value (and a zero) reads as 0. */
  function OrZero(x: Option<real>): real {
    match x
    case None => 0.0
    case Some(v) => v
  }

  /** `s || ''` on a stored text. */
  function OrEmpty(s: Option<string>): string {
    match s
    case None => ""
    case Some(v) => v
  }

  /** What an expense adds to a running total: `sum + e.amount` and
      `sum + (e.amount || 0)` agree on a stored `null`, which adds 0. */
  function Amount(e: Expense): real {
    OrZero(e.amount)
  }

  /** `!p.is_deleted`: the dashboard keeps a project whose flag is false or absent. */
  predicate IsVisible(p: Project) {
    p.isDeleted != Some(true)
  }
}
