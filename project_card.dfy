/** The project card: its "Total Spent" figure and the argument its add button passes. */
module ProjectCard {
  import opened Types
  import opened Ledger
  import ProjectDetails

  /** The card's total, `reduce((sum, e) => sum + (e.amount || 0), 0)`: 0 for no
      expenses, and one more expense raises it by exactly its amount, or by 0
      when the amount is missing. */
  lemma {:induction false} CardTotalAppend(expenses: seq<Expense>, e: Expense)
    ensures AmountSum([]) == 0.0
    ensures e.amount.Some? ==> AmountSum(expenses + [e]) == AmountSum(expenses) + e.amount.value
    ensures e.amount.None? ==> AmountSum(expenses + [e]) == AmountSum(expenses)
  {
    assert (expenses + [e])[..|expenses|] == expenses;
  }

  /** The card's total leaves the buy price out: it is the details page's total
      investment minus the buy price, and falls short of it by exactly that. */
  lemma CardTotalExcludesBuyPrice(p: Project, expenses: seq<Expense>)
    ensures AmountSum(expenses) == ProjectDetails.Summarize(p, expenses).totalSpent - OrZero(p.buyPrice)
    ensures OrZero(p.buyPrice) > 0.0 ==> AmountSum(expenses) < ProjectDetails.Summarize(p, expenses).totalSpent
  {
  }

  /** `onAddExpense(project.id)`: the add button names this card's project. */
  function AddExpenseArgument(p: Project): int {
    p.id
  }
}
