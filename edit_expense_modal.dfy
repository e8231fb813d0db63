/** The expense editor: the form starts from one expense and saving updates
    that row's description, amount, category and date.

    `parseFloat` is `parse`, `String(number)` is `show`, and the day shown in
    the date field is an input: `isoDay` for the first render
    (`toISOString().split('T')[0]`), `localDay` for the effect
    (`toLocaleDateString('en-CA')`); `new Date(day).toISOString()` is `toIso`. */
module EditExpenseModal {
  import opened Wrappers
  import opened Types
  import opened Store

  /** `expense.category || 'Service'`: a missing or empty category shows as
      "Service". */
  function CategoryOrService(category: Option<string>): (r: string)
    ensures r != ""
    ensures category.Some? && category.value != "" ==> r == category.value
    ensures category.None? || category.value == "" ==> r == "Service"
  {
    match category
    case Some(c) => if c == "" then "Service" else c
    case None => "Service"
  }

  /** `String(expense.amount)`: a stored `null` shows as "null". */
  function AmountText(amount: Option<real>, show: real -> string): string {
    match amount
    case None => "null"
    case Some(v) => show(v)
  }

  /** The update `handleSubmit` sends: the four form fields, the amount parsed
      with no fallback to 0. */
  function Payload(description: string, amountText: string, category: string, day: string,
                   parse: string -> Option<real>, toIso: string -> string): (u: ExpenseUpdate)
    ensures u.description == description && u.amount == parse(amountText)
    ensures u.category == category && u.date == toIso(day)
  {
    ExpenseUpdate(description, parse(amountText), category, toIso(day))
  }

  /** The payload never moves an expense: on every row of the table the id and
      the project stay, and only row `id` changes. */
  lemma UpdateKeepsProjects(table: map<int, Expense>, id: int, u: ExpenseUpdate)
    ensures UpdateExpenseRow(table, id, u).Keys == table.Keys
    ensures forall k :: k in table ==>
      UpdateExpenseRow(table, id, u)[k].projectId == table[k].projectId &&
      UpdateExpenseRow(table, id, u)[k].id == table[k].id
    ensures forall k :: k in table && k != id ==> UpdateExpenseRow(table, id, u)[k] == table[k]
  {
  }

  /** Saving the form as it was opened leaves the row unchanged, when the
      amount, category and day read back as they were stored. A `null`
      amount shows as "null", which parses to NaN and is stored as `null`
      again. */
  lemma UntouchedEditKeepsRow(e: Expense, day: string, show: real -> string,
                              parse: string -> Option<real>, toIso: string -> string)
    requires e.amount.Some? ==> parse(show(e.amount.value)) == e.amount
    requires e.amount.None? ==> parse("null").None?
    requires e.category.Some? && e.category.value != ""
    requires toIso(day) == e.date
    ensures ApplyExpenseUpdate(e, Payload(e.description, AmountText(e.amount, show),
                                          CategoryOrService(e.category), day, parse, toIso)) == e
  {
  }

  /** Saving an expense whose category is missing or empty files it under
      "Service". */
  lemma MissingCategoryBecomesService(e: Expense, amountText: string, day: string,
                                      parse: string -> Option<real>, toIso: string -> string)
    requires e.category.None? || e.category == Some("")
    ensures ApplyExpenseUpdate(e, Payload(e.description, amountText, CategoryOrService(e.category),
                                          day, parse, toIso)).category == Some("Service")
  {
  }

  class Dialog {
    var expense: Expense
    var description: string
    var amount: string
    var date: string
    var category: string
    var loading: bool

    constructor (e: Expense, show: real -> string, isoDay: string -> string)
      ensures expense == e && description == e.description && amount == AmountText(e.amount, show)
      ensures date == isoDay(e.date) && category == CategoryOrService(e.category) && !loading
      ensures e.amount.None? ==> (SubmitEnabled() <==> e.description != "")
    {
      expense, description, amount := e, e.description, AmountText(e.amount, show);
      date, category, loading := isoDay(e.date), CategoryOrService(e.category), false;
    }

    /** The `useEffect` on `[expense]`: every field follows the new expense. */
    method Reload(e: Expense, show: real -> string, localDay: string -> string)
      modifies this`expense, this`description, this`amount, this`date, this`category
      ensures expense == e && description == e.description && amount == AmountText(e.amount, show)
      ensures date == localDay(e.date) && category == CategoryOrService(e.category)
    {
      expense, description, amount := e, e.description, AmountText(e.amount, show);
      date, category := localDay(e.date), CategoryOrService(e.category);
    }

    /** The submit button is enabled iff nothing is in flight and both the
        amount and the description are non-empty. */
    predicate SubmitEnabled()
      reads this
    {
      !loading && amount != "" && description != ""
    }

    /** `handleSubmit`. Only row `expense.id` is updated, with `Payload` of the
        form; a refused update changes nothing and calls no callback. The
        form keeps its fields either way, and loading is off afterwards. */
    method HandleSubmit(db: Db, parse: string -> Option<real>, toIso: string -> string, rejected: bool)
      returns (updated: bool)
      requires db.Valid()
      modifies this`loading, db`expenses
      ensures db.Valid() && !loading
      ensures updated == !rejected
      ensures SubmitEnabled() <==> amount != "" && description != ""
      ensures db.expenses == if updated
        then UpdateExpenseRow(old(db.expenses), expense.id, Payload(description, amount, category, date, parse, toIso))
        else old(db.expenses)
    {
      loading := true;
      updated := db.UpdateExpense(expense.id, Payload(description, amount, category, date, parse, toIso), rejected);
      loading := false;
    }
  }
}
