/** The hosted tables as an in-memory store keyed by id. Every write in the
    views is `update(payload).eq('id', x)` or `insert([row])`; here an update
    rewrites the one row whose key is `x`, and an insert adds a row under a
    key the store hands out. Whether the backend accepts a write is an input. */
module Store {
  import opened Wrappers
  import opened Types

  /** The payloads the modals send to `project`. */
  datatype ProjectPatch =
    | SoftDelete                                    // { is_deleted: true }
    | SetReminders(insurance: Option<string>, technical: Option<string>, vinetka: Option<string>)
    | SetDetails(name: string, kind: string, description: string, imagePath: Option<string>,
                 status: Status, buyPrice: real, soldPrice: real)

  /** The payload the expense editor sends to `expense`. */
  datatype ExpenseUpdate = ExpenseUpdate(description: string, amount: Option<real>, category: string, date: string)

  /** An inserted `project` row, before the store gives it an id and a creation time. */
  datatype NewProject = NewProject(name: string, kind: string, description: string, imagePath: Option<string>,
                                   isDeleted: bool, userId: string, status: Status, soldPrice: real)

  /** An inserted `expense` row, before the store gives it an id. */
  datatype NewExpense = NewExpense(projectId: int, description: string, amountBgn: Option<real>,
                                   amount: Option<real>, category: string, date: string)

  /** The row after the columns named by the payload are overwritten. */
  function ApplyProjectPatch(p: Project, patch: ProjectPatch): Project {
    match patch
    case SoftDelete => p.(isDeleted := Some(true))
    case SetReminders(i, t, v) => p.(insuranceDate := i, technicalCheckDate := t, vinetkaDate := v)
    case SetDetails(n, k, d, img, st, buy, sold) =>
      p.(name := n, kind := k, description := Some(d), imagePath := img, status := Some(st),
         buyPrice := Some(buy), soldPrice := Some(sold))
  }

  function ApplyExpenseUpdate(e: Expense, u: ExpenseUpdate): Expense {
    e.(description := u.description, amount := u.amount, category := Some(u.category), date := u.date)
  }

  /** `update(patch).eq('id', id)` on the project table: no row appears or
      disappears, the row `id` (if any) takes the patch, no other row changes. */
  function UpdateProjectRow(table: map<int, Project>, id: int, patch: ProjectPatch): (t: map<int, Project>)
    ensures t.Keys == table.Keys
    ensures forall k :: k in table && k != id ==> t[k] == table[k]
    ensures id in table ==> t[id] == ApplyProjectPatch(table[id], patch)
  {
    if id in table then table[id := ApplyProjectPatch(table[id], patch)] else table
  }

  /** `update(u).eq('id', id)` on the expense table. */
  function UpdateExpenseRow(table: map<int, Expense>, id: int, u: ExpenseUpdate): (t: map<int, Expense>)
    ensures t.Keys == table.Keys
    ensures forall k :: k in table && k != id ==> t[k] == table[k]
    ensures id in table ==> t[id] == ApplyExpenseUpdate(table[id], u)
  {
    if id in table then table[id := ApplyExpenseUpdate(table[id], u)] else table
  }

  /** The row the store keeps for an inserted project; columns the payload
      leaves out (`buy_price`, the car fields, the reminder dates) are taken
      to default to `null`. */
  function CreatedProject(row: NewProject, id: int, createdAt: string): Project {
    Project(id, row.name, row.kind, Some(row.description), row.imagePath, Some(row.isDeleted), createdAt,
            Some(row.userId), Some(row.soldPrice), Some(row.status), None, None, None, None, None, None, None)
  }

  function CreatedExpense(row: NewExpense, id: int): Expense {
    Expense(id, row.projectId, row.amount, row.amountBgn, row.description, Some(row.category), row.date)
  }

  class Db {
    var projects: map<int, Project>
    var expenses: map<int, Expense>
    var nextProjectId: int
    var nextExpenseId: int

    /** Each row sits under its own id, and the next ids are unused. */
    ghost predicate Valid()
      reads this
    {
      && (forall k :: k in projects ==> projects[k].id == k && k < nextProjectId)
      && (forall k :: k in expenses ==> expenses[k].id == k && k < nextExpenseId)
    }

    constructor ()
      ensures Valid() && projects == map[] && expenses == map[]
    {
      projects, expenses := map[], map[];
      nextProjectId, nextExpenseId := 1, 1;
    }

    method UpdateProject(id: int, patch: ProjectPatch, rejected: bool) returns (ok: bool)
      requires Valid()
      modifies this`projects
      ensures Valid()
      ensures ok == !rejected
      ensures projects == if ok then UpdateProjectRow(old(projects), id, patch) else old(projects)
    {
      ok := !rejected;
      if ok {
        projects := UpdateProjectRow(projects, id, patch);
      }
    }

    method UpdateExpense(id: int, u: ExpenseUpdate, rejected: bool) returns (ok: bool)
      requires Valid()
      modifies this`expenses
      ensures Valid()
      ensures ok == !rejected
      ensures expenses == if ok then UpdateExpenseRow(old(expenses), id, u) else old(expenses)
    {
      ok := !rejected;
      if ok {
        expenses := UpdateExpenseRow(expenses, id, u);
      }
    }

    method InsertProject(row: NewProject, createdAt: string, rejected: bool) returns (ok: bool)
      requires Valid()
      modifies this`projects, this`nextProjectId
      ensures Valid()
      ensures ok == !rejected
      ensures ok ==> old(nextProjectId) !in old(projects)
      ensures ok ==> projects == old(projects)[old(nextProjectId) := CreatedProject(row, old(nextProjectId), createdAt)]
      ensures !ok ==> projects == old(projects)
    {
      ok := !rejected;
      if ok {
        projects := projects[nextProjectId := CreatedProject(row, nextProjectId, createdAt)];
        nextProjectId := nextProjectId + 1;
      }
    }

    method InsertExpense(row: NewExpense, rejected: bool) returns (ok: bool)
      requires Valid()
      modifies this`expenses, this`nextExpenseId
      ensures Valid()
      ensures ok == !rejected
      ensures ok ==> old(nextExpenseId) !in old(expenses)
      ensures ok ==> expenses == old(expenses)[old(nextExpenseId) := CreatedExpense(row, old(nextExpenseId))]
      ensures !ok ==> expenses == old(expenses)
    {
      ok := !rejected;
      if ok {
        expenses := expenses[nextExpenseId := CreatedExpense(row, nextExpenseId)];
        nextExpenseId := nextExpenseId + 1;
      }
    }
  }
}
