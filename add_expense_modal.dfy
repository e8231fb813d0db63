/** The add-expense form of one project: description, amount, category and day,
    inserted as one `expense` row.

    `parseFloat` is the parameter `parse` (`None` for NaN, which the store
    receives as `null`); `new Date(day).toISOString()` is `toIso`, and the
    current day (`new Date().toISOString().split('T')[0]`) is `today`. */
module AddExpenseModal {
  import opened Wrappers
  import opened Types
  import opened Ledger
  import opened Store
  import Dashboard

  /** The category a fresh form offers. */
  const DefaultCategory: string := "Service"

  /** The row `handleSubmit` inserts: it belongs to the form's project, its
      amount is the parsed text with no fallback to 0, and no leva amount is
      sent. */
  function NewExpenseRow(projectId: int, description: string, amountText: string, category: string,
                         day: string, parse: string -> Option<real>, toIso: string -> string): (row: NewExpense)
    ensures row.projectId == projectId && row.description == description && row.category == category
    ensures row.amount == parse(amountText) && row.amountBgn == None
    ensures row.date == toIso(day)
  {
    NewExpense(projectId, description, None, parse(amountText), category, toIso(day))
  }

  /** An added expense reaches its own project's card and no other, and raises
      that card's total by the parsed amount, or by 0 when the amount does not
      parse. */
  lemma {:induction false} AddedExpenseReachesCard(es: seq<Expense>, row: NewExpense, id: int, other: int)
    requires other != row.projectId
    ensures Dashboard.CardExpenses(es + [CreatedExpense(row, id)], row.projectId) ==
            Dashboard.CardExpenses(es, row.projectId) + [CreatedExpense(row, id)]
    ensures Dashboard.CardExpenses(es + [CreatedExpense(row, id)], other) == Dashboard.CardExpenses(es, other)
    ensures AmountSum(Dashboard.CardExpenses(es + [CreatedExpense(row, id)], row.projectId)) ==
            AmountSum(Dashboard.CardExpenses(es, row.projectId)) + OrZero(row.amount)
  {
    var created := CreatedExpense(row, id);
    assert (es + [created])[..|es|] == es;
    var before := Dashboard.CardExpenses(es, row.projectId);
    assert (before + [created])[..|before|] == before;
  }

  class Dialog {
    const projectId: int
    var description: string
    var amount: string
    var date: string
    var category: string
    var loading: bool

    /** An empty form for today in category "Service". */
    constructor (projectId: int, today: string)
      ensures this.projectId == projectId
      ensures description == "" && amount == "" && date == today && category == DefaultCategory && !loading
      ensures !SubmitEnabled()
    {
      this.projectId := projectId;
      description, amount, date, category, loading := "", "", today, DefaultCategory, false;
    }

    /** The submit button is enabled iff nothing is in flight and both the
        amount and the description are non-empty. */
    predicate SubmitEnabled()
      reads this
    {
      !loading && amount != "" && description != ""
    }

    /** `handleSubmit`. A successful insert adds the one row `NewExpenseRow`
        under a new id, calls `onAdded` and `onClose` and resets the form to
        today's empty "Service" entry; a refused insert changes neither the
        table nor the form and calls nothing. Loading is off afterwards. */
    method HandleSubmit(db: Db, parse: string -> Option<real>, toIso: string -> string,
                        today: string, rejected: bool) returns (added: bool)
      requires db.Valid()
      modifies this`description, this`amount, this`date, this`category, this`loading, db`expenses, db`nextExpenseId
      ensures db.Valid() && !loading
      ensures added == !rejected
      ensures added ==> old(db.nextExpenseId) !in old(db.expenses)
      ensures added ==> db.expenses == old(db.expenses)[old(db.nextExpenseId) := CreatedExpense(
        NewExpenseRow(projectId, old(description), old(amount), old(category), old(date), parse, toIso),
        old(db.nextExpenseId))]
      ensures added ==> description == "" && amount == "" && category == DefaultCategory && date == today
      ensures added ==> !SubmitEnabled()
      ensures !added ==> SubmitEnabled() == (old(amount) != "" && old(description) != "")
      ensures !added ==> db.expenses == old(db.expenses)
      ensures !added ==> description == old(description) && amount == old(amount)
      ensures !added ==> category == old(category) && date == old(date)
    {
      loading := true;
      var row := NewExpenseRow(projectId, description, amount, category, date, parse, toIso);
      added := db.InsertExpense(row, rejected);
      if added {
        description, amount, category, date := "", "", DefaultCategory, today;
      }
      loading := false;
    }
  }
}
