/** The dashboard: the soft-delete filter, the header totals, the per-card
    expense lists, the empty state and the add-expense target. */
module Dashboard {
  import opened Wrappers
  import opened Types
  import opened Ledger
  import ProjectCard

  /** `projects.filter(p => !p.is_deleted)`. */
  function Visible(ps: seq<Project>): (r: seq<Project>)
    ensures forall p :: p in r <==> p in ps && IsVisible(p)
    ensures |r| <= |ps|
  {
    if ps == [] then []
    else if IsVisible(ps[|ps| - 1]) then Visible(ps[..|ps| - 1]) + [ps[|ps| - 1]]
    else Visible(ps[..|ps| - 1])
  }

  /** The filter keeps the fetched order: it distributes over concatenation. */
  lemma {:induction false} VisibleConcat(a: seq<Project>, b: seq<Project>)
    ensures Visible(a + b) == Visible(a) + Visible(b)
  {
    if b == [] {
      assert a + b == a;
    } else {
      assert (a + b)[..|a + b| - 1] == a + b[..|b| - 1];
      VisibleConcat(a, b[..|b| - 1]);
    }
  }

  /** "Active Projects" counts every visible project, completed ones included. */
  function TotalProjects(visible: seq<Project>): nat {
    |visible|
  }

  lemma CompletedProjectsCounted(ps: seq<Project>, p: Project)
    requires p in ps && IsVisible(p) && p.status == Some(Completed)
    ensures p in Visible(ps) && TotalProjects(Visible(ps)) >= 1
  {
  }

  /** `expenses.filter(e => e.project_id === id)`, the list handed to one card. */
  function CardExpenses(es: seq<Expense>, id: int): (r: seq<Expense>)
    ensures forall e :: e in r <==> e in es && e.projectId == id
  {
    if es == [] then []
    else if es[|es| - 1].projectId == id then CardExpenses(es[..|es| - 1], id) + [es[|es| - 1]]
    else CardExpenses(es[..|es| - 1], id)
  }

  /** The expenses that reach no card: their project is not among `ids`. */
  function Unshown(es: seq<Expense>, ids: set<int>): (r: seq<Expense>)
    ensures forall e :: e in r <==> e in es && e.projectId !in ids
  {
    if es == [] then []
    else if es[|es| - 1].projectId !in ids then Unshown(es[..|es| - 1], ids) + [es[|es| - 1]]
    else Unshown(es[..|es| - 1], ids)
  }

  function Ids(ps: seq<Project>): set<int> {
    set p | p in ps :: p.id
  }

  predicate DistinctIds(ps: seq<Project>) {
    forall i, j :: 0 <= i < j < |ps| ==> ps[i].id != ps[j].id
  }

  /** Sum of the "Total Spent" figures of the cards for `cards`. */
  function CardsTotal(cards: seq<Project>, es: seq<Expense>): real {
    if cards == [] then 0.0
    else CardsTotal(cards[..|cards| - 1], es) + AmountSum(CardExpenses(es, cards[|cards| - 1].id))
  }

  /** Giving one more project its card moves exactly its expenses out of the unshown ones. */
  lemma {:induction false} SplitOffCard(es: seq<Expense>, ids: set<int>, id: int)
    requires id !in ids
    ensures AmountSum(Unshown(es, ids)) == AmountSum(CardExpenses(es, id)) + AmountSum(Unshown(es, ids + {id}))
  {
    if es != [] {
      var init, e := es[..|es| - 1], es[|es| - 1];
      SplitOffCard(init, ids, id);
      if e.projectId == id {
        AmountSumConcat(CardExpenses(init, id), [e]);
        AmountSumConcat(Unshown(init, ids), [e]);
      } else if e.projectId !in ids {
        AmountSumConcat(Unshown(init, ids + {id}), [e]);
        AmountSumConcat(Unshown(init, ids), [e]);
      }
    }
  }

  /** "Total Expenses" sums every fetched expense: it is the sum of the card
      totals plus the expenses of projects that have no card (soft-deleted or
      not fetched). With distinct ids no expense is counted on two cards. */
  lemma {:induction false} TotalExpensesPartition(cards: seq<Project>, es: seq<Expense>)
    requires DistinctIds(cards)
    ensures AmountSum(es) == CardsTotal(cards, es) + AmountSum(Unshown(es, Ids(cards)))
  {
    if cards == [] {
      assert Ids(cards) == {};
      UnshownNone(es);
    } else {
      var init := cards[..|cards| - 1];
      var p := cards[|cards| - 1];
      TotalExpensesPartition(init, es);
      forall q | q in init
        ensures q.id != p.id
      {
        var i :| 0 <= i < |init| && init[i] == q;
        assert cards[i] == q;
      }
      SplitOffCard(es, Ids(init), p.id);
      assert Ids(cards) == Ids(init) + {p.id} by {
        assert cards == init + [p];
      }
    }
  }

  lemma {:induction false} UnshownNone(es: seq<Expense>)
    ensures Unshown(es, {}) == es
  {
    if es != [] {
      UnshownNone(es[..|es| - 1]);
    }
  }

  /** Two cards of different projects never receive the same expense. */
  lemma CardsDisjoint(es: seq<Expense>, id1: int, id2: int, e: Expense)
    requires id1 != id2 && e in CardExpenses(es, id1)
    ensures e !in CardExpenses(es, id2)
  {
  }

  /** `projects.find(p => p.id === id)`: the first project with that id. */
  function Find(ps: seq<Project>, id: int): (r: Option<Project>)
    ensures r.None? <==> forall p :: p in ps ==> p.id != id
    ensures r.Some? ==> exists i :: 0 <= i < |ps| && ps[i] == r.value && r.value.id == id
                                    && forall j :: 0 <= j < i ==> ps[j].id != id
  {
    if ps == [] then None
    else if ps[0].id == id then Some(ps[0])
    else
      var r := Find(ps[1..], id);
      if r.Some? then
        var i :| 0 <= i < |ps[1..]| && ps[1..][i] == r.value && r.value.id == id
                 && forall j :: 0 <= j < i ==> ps[1..][j].id != id;
        assert ps[i + 1] == r.value;
        r
      else r
  }

  /** The project the add-expense modal is opened for. */
  datatype ModalTarget = ModalTarget(id: int, name: string)

  /** What the page body shows. */
  datatype Card = Card(project: Project, expenses: seq<Expense>)
  datatype View = Loading | EmptyState | Cards(cards: seq<Card>)

  function CardsFor(projects: seq<Project>, es: seq<Expense>): (cards: seq<Card>)
    ensures |cards| == |projects|
    ensures forall i :: 0 <= i < |projects| ==> cards[i] == Card(projects[i], CardExpenses(es, projects[i].id))
  {
    if projects == [] then []
    else CardsFor(projects[..|projects| - 1], es) + [Card(projects[|projects| - 1], CardExpenses(es, projects[|projects| - 1].id))]
  }

  /** `loading ? … : projects.length === 0 ? <empty state> : projects.map(<ProjectCard>)`. */
  function Render(loading: bool, projects: seq<Project>, es: seq<Expense>): View {
    if loading then Loading
    else if projects == [] then EmptyState
    else Cards(CardsFor(projects, es))
  }

  /** With nothing visible the empty state replaces the cards; otherwise there is
      one card per visible project, in order, each given exactly its own expenses. */
  lemma RenderCases(loading: bool, projects: seq<Project>, es: seq<Expense>)
    ensures !loading && projects == [] ==> Render(loading, projects, es) == EmptyState
    ensures !loading && projects != [] ==>
      Render(loading, projects, es).Cards? &&
      |Render(loading, projects, es).cards| == |projects| &&
      forall i :: 0 <= i < |projects| ==>
        Render(loading, projects, es).cards[i].project == projects[i] &&
        forall e :: e in Render(loading, projects, es).cards[i].expenses <==> e in es && e.projectId == projects[i].id
  {
  }

  /** A card's add button always opens the modal for that card's own project. */
  lemma CardButtonTargetsItsProject(projects: seq<Project>, k: nat)
    requires DistinctIds(projects) && k < |projects|
    ensures Find(projects, ProjectCard.AddExpenseArgument(projects[k])) == Some(projects[k])
  {
    var r := Find(projects, projects[k].id);
    var i :| 0 <= i < |projects| && projects[i] == r.value && r.value.id == projects[k].id
             && forall j :: 0 <= j < i ==> projects[j].id != projects[k].id;
    assert i == k;
  }

  /** The result of a `select` call: rows (possibly `null`) or an error. */
  datatype Fetch<T> = Rows(data: Option<seq<T>>) | FetchError

  class Page {
    var projects: seq<Project>
    var expenses: seq<Expense>
    var loading: bool
    var expenseModalProject: Option<ModalTarget>

    constructor ()
      ensures projects == [] && expenses == [] && loading && expenseModalProject == None
    {
      projects, expenses, loading, expenseModalProject := [], [], true, None;
    }

    /** `fetchData`: an error on the project query leaves both lists as they were;
        an error on the expense query leaves the expenses as they were. */
    method FetchData(projectRows: Fetch<Project>, expenseRows: Fetch<Expense>)
      modifies this`projects, this`expenses, this`loading
      ensures !loading
      ensures projectRows.FetchError? ==> projects == old(projects) && expenses == old(expenses)
      ensures projectRows.Rows? ==> projects == Visible(projectRows.data.GetOr([]))
      ensures projectRows.Rows? && expenseRows.Rows? ==> expenses == expenseRows.data.GetOr([])
      ensures projectRows.Rows? && expenseRows.FetchError? ==> expenses == old(expenses)
    {
      loading := true;
      if projectRows.Rows? {
        projects := Visible(projectRows.data.GetOr([]));
        if expenseRows.Rows? {
          expenses := expenseRows.data.GetOr([]);
        }
      }
      loading := false;
    }

    /** `handleAddExpense`: the modal target is set only for a listed project. */
    method HandleAddExpense(projectId: int)
      modifies this`expenseModalProject
      ensures Find(projects, projectId).None? ==> expenseModalProject == old(expenseModalProject)
      ensures Find(projects, projectId).Some? ==>
        expenseModalProject == Some(ModalTarget(projectId, Find(projects, projectId).value.name))
    {
      var project := Find(projects, projectId);
      if project.Some? {
        expenseModalProject := Some(ModalTarget(projectId, project.value.name));
      }
    }

    /** The header's two figures. */
    method Totals() returns (totalProjects: nat, totalExpenses: real)
      ensures totalProjects == |projects|
      ensures totalExpenses == AmountSum(expenses)
    {
      totalProjects := TotalProjects(projects);
      totalExpenses := AmountSum(expenses);
    }
  }
}
