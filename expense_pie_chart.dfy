/** The expense pie chart: expenses grouped by category in order of first
    occurrence, and each category laid out as a contiguous slice of the circle. */
module ExpensePieChart {
  import opened Wrappers
  import opened Types
  import opened Ledger

  /** `e.category || 'Other'`: a missing or empty category counts as "Other". */
  function CategoryOf(e: Expense): string {
    match e.category
    case None => "Other"
    case Some(c) => if c == "" then "Other" else c
  }

  /** The category of each expense, in order. */
  function Categories(es: seq<Expense>): (cs: seq<string>)
    ensures |cs| == |es|
    ensures forall i :: 0 <= i < |es| ==> cs[i] == CategoryOf(es[i])
  {
    if es == [] then [] else Categories(es[..|es| - 1]) + [CategoryOf(es[|es| - 1])]
  }

  predicate Distinct(s: seq<string>) {
    forall i, j :: 0 <= i < j < |s| ==> s[i] != s[j]
  }

  /** Each name once, where it first appears. */
  function Dedup(s: seq<string>): (r: seq<string>)
    ensures forall x :: x in r <==> x in s
    ensures Distinct(r)
  {
    if s == [] then []
    else
      var d := Dedup(s[..|s| - 1]);
      if s[|s| - 1] in d then d else d + [s[|s| - 1]]
  }

  /** The position of the first occurrence of `x` in `s`. */
  function FirstIndex(s: seq<string>, x: string): (k: nat)
    requires x in s
    ensures k < |s| && s[k] == x
    ensures forall j :: 0 <= j < k ==> s[j] != x
  {
    if s[0] == x then 0 else 1 + FirstIndex(s[1..], x)
  }

  lemma {:induction false} FirstIndexAppend(s: seq<string>, y: string, x: string)
    requires x in s
    ensures FirstIndex(s + [y], x) == FirstIndex(s, x)
  {
    if s[0] != x {
      assert (s + [y])[1..] == s[1..] + [y];
      FirstIndexAppend(s[1..], y, x);
    }
  }

  /** `Dedup` lists the names by the position of their first occurrence. */
  lemma {:induction false} DedupFirstOccurrence(s: seq<string>)
    ensures forall i, j :: 0 <= i < j < |Dedup(s)| ==> FirstIndex(s, Dedup(s)[i]) < FirstIndex(s, Dedup(s)[j])
  {
    if s != [] {
      var s' := s[..|s| - 1];
      var x := s[|s| - 1];
      assert s == s' + [x];
      DedupFirstOccurrence(s');
      var d' := Dedup(s');
      forall y | y in s' ensures FirstIndex(s, y) == FirstIndex(s', y) {
        FirstIndexAppend(s', x, y);
      }
      if x !in d' {
        assert FirstIndex(s, x) == |s'|;
      }
    }
  }

  /** The categories in the order the chart lists them. */
  function Order(es: seq<Expense>): seq<string> {
    Dedup(Categories(es))
  }

  /** `expenses.filter(e => category(e) === c)`. */
  function InCategory(es: seq<Expense>, c: string): (r: seq<Expense>)
    ensures forall e :: e in r <==> e in es && CategoryOf(e) == c
  {
    if es == [] then []
    else if CategoryOf(es[|es| - 1]) == c then InCategory(es[..|es| - 1], c) + [es[|es| - 1]]
    else InCategory(es[..|es| - 1], c)
  }

  /** The sum of the amounts of the expenses in category `c`. */
  function CategorySum(es: seq<Expense>, c: string): real {
    AmountSum(InCategory(es, c))
  }

  lemma CategorySumStep(es: seq<Expense>, e: Expense, c: string)
    ensures CategorySum(es + [e], c) == CategorySum(es, c) + (if CategoryOf(e) == c then Amount(e) else 0.0)
  {
    assert (es + [e])[..|es|] == es;
    if CategoryOf(e) == c {
      assert InCategory(es + [e], c) == InCategory(es, c) + [e];
      assert (InCategory(es, c) + [e])[..|InCategory(es, c)|] == InCategory(es, c);
    }
  }

  lemma {:induction false} CategorySumAbsent(es: seq<Expense>, c: string)
    requires c !in Categories(es)
    ensures CategorySum(es, c) == 0.0
  {
    if es != [] {
      assert Categories(es) == Categories(es[..|es| - 1]) + [CategoryOf(es[|es| - 1])];
      CategorySumAbsent(es[..|es| - 1], c);
    }
  }

  /** One chart entry: `[name, amount]` of `Object.entries(categories)`. */
  datatype CategoryTotal = CategoryTotal(name: string, amount: real)

  function Entries(names: seq<string>, es: seq<Expense>): (r: seq<CategoryTotal>)
    ensures |r| == |names|
    ensures forall i :: 0 <= i < |names| ==> r[i] == CategoryTotal(names[i], CategorySum(es, names[i]))
  {
    seq(|names|, i requires 0 <= i < |names| => CategoryTotal(names[i], CategorySum(es, names[i])))
  }

  /** The reference grouping: one entry per distinct category, in order of first
      occurrence, holding the sum of that category's amounts. */
  function Breakdown(es: seq<Expense>): seq<CategoryTotal> {
    Entries(Order(es), es)
  }

  /** `Object.values(categories).reduce((a, b) => a + b, 0)`. */
  function Total(entries: seq<CategoryTotal>): real {
    if entries == [] then 0.0 else Total(entries[..|entries| - 1]) + entries[|entries| - 1].amount
  }

  /** Dropping the last name drops the last entry. */
  lemma EntriesPrefix(names: seq<string>, es: seq<Expense>)
    requires names != []
    ensures Entries(names, es)[..|names| - 1] == Entries(names[..|names| - 1], es)
  {
  }

  /** One more expense raises the total over a list of distinct names by its
      amount when its category is listed, and leaves it alone otherwise. */
  lemma {:induction false} EntriesTotalStep(names: seq<string>, es: seq<Expense>, e: Expense)
    requires Distinct(names)
    ensures Total(Entries(names, es + [e])) ==
            Total(Entries(names, es)) + (if CategoryOf(e) in names then Amount(e) else 0.0)
  {
    if names != [] {
      var init := names[..|names| - 1];
      var last := names[|names| - 1];
      assert names == init + [last];
      EntriesPrefix(names, es + [e]);
      EntriesPrefix(names, es);
      EntriesTotalStep(init, es, e);
      CategorySumStep(es, e, last);
      assert last !in init;
    }
  }

  /** The categories' amounts add up to the sum of all expense amounts. */
  lemma {:induction false} BreakdownTotal(es: seq<Expense>)
    ensures Total(Breakdown(es)) == AmountSum(es)
  {
    if es != [] {
      var es' := es[..|es| - 1];
      var e := es[|es| - 1];
      assert es == es' + [e];
      BreakdownTotal(es');
      var c := CategoryOf(e);
      assert Categories(es) == Categories(es') + [c];
      var o' := Order(es');
      EntriesTotalStep(o', es', e);
      if c !in o' {
        assert Order(es) == o' + [c];
        assert Entries(Order(es), es)[..|o'|] == Entries(o', es);
        CategorySumAbsent(es', c);
        CategorySumStep(es', e, c);
      }
    }
  }

  /** An expense with no category, or an empty one, is counted in the "Other" entry. */
  lemma OtherBucket(es: seq<Expense>, e: Expense)
    requires e in es && (e.category == None || e.category == Some(""))
    ensures "Other" in Order(es)
    ensures e in InCategory(es, "Other")
  {
    var i :| 0 <= i < |es| && es[i] == e;
    assert Categories(es)[i] == "Other";
  }

  /** The chart has one entry per distinct category, each category appears in it
      iff some expense carries it, and entries follow first occurrence. */
  lemma BreakdownShape(es: seq<Expense>)
    ensures Distinct(Order(es)) && |Breakdown(es)| == |Order(es)|
    ensures forall c :: c in Order(es) <==> exists e :: e in es && CategoryOf(e) == c
    ensures forall i, j :: 0 <= i < j < |Order(es)| ==>
      FirstIndex(Categories(es), Order(es)[i]) < FirstIndex(Categories(es), Order(es)[j])
  {
    DedupFirstOccurrence(Categories(es));
    forall c ensures c in Order(es) <==> exists e :: e in es && CategoryOf(e) == c {
      if c in Order(es) {
        var i :| 0 <= i < |es| && Categories(es)[i] == c;
        assert es[i] in es;
      }
      if e :| e in es && CategoryOf(e) == c {
        var i :| 0 <= i < |es| && es[i] == e;
        assert Categories(es)[i] == c;
      }
    }
  }

  /** A new category joins the order at the end; a known one leaves it as it is. */
  lemma OrderStep(es: seq<Expense>, e: Expense)
    ensures Order(es + [e]) == if CategoryOf(e) in Order(es) then Order(es) else Order(es) + [CategoryOf(e)]
  {
    assert (es + [e])[..|es|] == es;
    assert Categories(es + [e]) == Categories(es) + [CategoryOf(e)];
    assert (Categories(es) + [CategoryOf(e)])[..|es|] == Categories(es);
  }

  /** The record the `forEach` fills: `categories[cat] = (categories[cat] || 0) + e.amount`
      for each expense in turn. */
  function Totals(es: seq<Expense>): map<string, real> {
    if es == [] then map[]
    else
      var t := Totals(es[..|es| - 1]);
      var c := CategoryOf(es[|es| - 1]);
      t[c := (if c in t then t[c] else 0.0) + Amount(es[|es| - 1])]
  }

  /** One turn of the `forEach`: a known category's value grows by the amount;
      a new category gets the amount as its value. */
  lemma TotalsStep(es: seq<Expense>, e: Expense)
    ensures CategoryOf(e) in Totals(es) ==>
      Totals(es + [e]) == Totals(es)[CategoryOf(e) := Totals(es)[CategoryOf(e)] + Amount(e)]
    ensures CategoryOf(e) !in Totals(es) ==>
      Totals(es + [e]) == Totals(es)[CategoryOf(e) := 0.0 + Amount(e)]
  {
    assert (es + [e])[..|es|] == es;
  }

  /** A category has a key in the record iff it occurs among the expenses. */
  lemma {:induction false} TotalsKey(es: seq<Expense>, c: string)
    ensures c in Totals(es) <==> c in Order(es)
  {
    if es != [] {
      var es' := es[..|es| - 1];
      var e := es[|es| - 1];
      assert es == es' + [e];
      TotalsKey(es', c);
      OrderStep(es', e);
    }
  }

  /** The record holds exactly the categories that occur, each with the sum of
      its expenses' amounts. */
  lemma {:induction false} TotalsAreCategorySums(es: seq<Expense>)
    ensures forall c :: c in Totals(es) <==> c in Order(es)
    ensures forall c :: c in Totals(es) ==> Totals(es)[c] == CategorySum(es, c)
  {
    forall c ensures c in Totals(es) <==> c in Order(es) {
      TotalsKey(es, c);
    }
    if es != [] {
      var es' := es[..|es| - 1];
      var e := es[|es| - 1];
      var cat := CategoryOf(e);
      assert es == es' + [e];
      TotalsAreCategorySums(es');
      if cat !in Totals(es') {
        CategorySumAbsent(es', cat);
      }
      forall c | c in Totals(es)
        ensures Totals(es)[c] == CategorySum(es, c)
      {
        CategorySumStep(es', e, c);
      }
    }
  }

  /** The `forEach` over the expenses, filling an insertion-ordered record of
      per-category totals, read back with `Object.entries`. */
  method CollectCategories(expenses: seq<Expense>) returns (entries: seq<CategoryTotal>)
    ensures entries == Breakdown(expenses)
  {
    var order: seq<string> := [];
    var categories: map<string, real> := map[];
    for i := 0 to |expenses|
      invariant order == Order(expenses[..i])
      invariant categories == Totals(expenses[..i])
    {
      var e := expenses[i];
      var cat := CategoryOf(e);
      assert expenses[..i + 1] == expenses[..i] + [e];
      TotalsKey(expenses[..i], cat);
      TotalsStep(expenses[..i], e);
      OrderStep(expenses[..i], e);
      if cat in categories {
        categories := categories[cat := categories[cat] + Amount(e)];
      } else {
        order := order + [cat];
        categories := categories[cat := 0.0 + Amount(e)];
      }
    }
    assert expenses[..|expenses|] == expenses;
    ReadBackTotals(expenses);
    entries := ReadBack(order, categories);
  }

  /** `Object.entries(categories)`: the keys in insertion order with their values. */
  function ReadBack(order: seq<string>, categories: map<string, real>): seq<CategoryTotal>
    requires forall c :: c in order ==> c in categories
  {
    seq(|order|, k requires 0 <= k < |order| => CategoryTotal(order[k], categories[order[k]]))
  }

  /** Reading back the filled record gives the reference grouping. */
  lemma ReadBackTotals(es: seq<Expense>)
    ensures forall c :: c in Order(es) ==> c in Totals(es)
    ensures ReadBack(Order(es), Totals(es)) == Breakdown(es)
  {
    TotalsAreCategorySums(es);
  }

  /** The six slice colours, cycled by position. */
  const Palette: seq<string> := ["#3b82f6", "#10b981", "#f59e0b", "#ef4444", "#8b5cf6", "#ec4899"]

  /** `colors[i % colors.length]`. */
  function PaletteColor(i: nat): string {
    Palette[i % |Palette|]
  }

  /** One slice; `percent` is the value before `toFixed(0)` and the SVG path
      string is not modelled. */
  datatype Slice = Slice(name: string, amount: real, startAngle: real, endAngle: real,
                         angle: real, percent: real, color: string, largeArc: bool)

  /** Sum of `amount / total * k` over the entries: the angles swept so far
      for k = 360, the percentages for k = 100. */
  function ScaledSum(entries: seq<CategoryTotal>, total: real, k: real): real
    requires total != 0.0
  {
    if entries == [] then 0.0
    else ScaledSum(entries[..|entries| - 1], total, k) + entries[|entries| - 1].amount / total * k
  }

  /** Slice `i` for `entry`, starting where the previous slices stopped. */
  predicate SliceOk(s: Slice, entry: CategoryTotal, i: nat, total: real, start: real)
    requires total != 0.0
  {
    && s.name == entry.name
    && s.amount == entry.amount
    && s.angle == entry.amount / total * 360.0
    && s.startAngle == start
    && s.endAngle == start + s.angle
    && s.percent == entry.amount / total * 100.0
    && s.color == PaletteColor(i)
    && s.largeArc == (s.angle > 180.0)
  }

  predicate IsLayout(slices: seq<Slice>, entries: seq<CategoryTotal>, total: real)
    requires total != 0.0
  {
    && |slices| == |entries|
    && forall i :: 0 <= i < |slices| ==> SliceOk(slices[i], entries[i], i, total, ScaledSum(entries[..i], total, 360.0))
  }

  /** The sweep up to entry `i` inclusive adds entry `i`'s share to the sweep before it. */
  lemma ScaledSumStep(entries: seq<CategoryTotal>, total: real, k: real, i: nat)
    requires total != 0.0 && i < |entries|
    ensures ScaledSum(entries[..i + 1], total, k) == ScaledSum(entries[..i], total, k) + entries[i].amount / total * k
  {
    assert entries[..i + 1][..i] == entries[..i];
  }

  /** The `map` over the entries that threads `currentAngle`. */
  method Layout(entries: seq<CategoryTotal>, total: real) returns (slices: seq<Slice>)
    requires total != 0.0
    ensures IsLayout(slices, entries, total)
  {
    slices := [];
    var currentAngle := 0.0;
    var i := 0;
    while i < |entries|
      invariant 0 <= i <= |entries| && |slices| == i
      invariant currentAngle == ScaledSum(entries[..i], total, 360.0)
      invariant forall j :: 0 <= j < i ==> SliceOk(slices[j], entries[j], j, total, ScaledSum(entries[..j], total, 360.0))
    {
      var name, amount := entries[i].name, entries[i].amount;
      var angle := amount / total * 360.0;
      var startAngle := currentAngle;
      currentAngle := currentAngle + angle;
      var largeArcFlag := angle > 180.0;
      ScaledSumStep(entries, total, 360.0, i);
      var slice := Slice(name, amount, startAngle, currentAngle, angle, amount / total * 100.0,
                         PaletteColor(i), largeArcFlag);
      assert SliceOk(slice, entries[i], i, total, ScaledSum(entries[..i], total, 360.0));
      slices := slices + [slice];
      i := i + 1;
    }
  }

  /** The chart data: nothing when the total is 0, otherwise one slice per
      category entry laid out over the total of all expenses. */
  method PieData(expenses: seq<Expense>) returns (slices: seq<Slice>)
    ensures AmountSum(expenses) == 0.0 ==> slices == []
    ensures AmountSum(expenses) != 0.0 ==> IsLayout(slices, Breakdown(expenses), AmountSum(expenses))
  {
    var entries := CollectCategories(expenses);
    var total := Total(entries);
    BreakdownTotal(expenses);
    if total == 0.0 {
      return [];
    }
    slices := Layout(entries, total);
  }

  lemma ScaledAdd(x: real, y: real, t: real, k: real)
    requires t != 0.0
    ensures x / t * k + y / t * k == (x + y) / t * k
  {
    assert x / t + y / t == (x + y) / t;
  }

  /** Scaling each amount is scaling their sum. */
  lemma {:induction false} ScaledSumOfTotal(entries: seq<CategoryTotal>, total: real, k: real)
    requires total != 0.0
    ensures ScaledSum(entries, total, k) == Total(entries) / total * k
  {
    if entries != [] {
      var init := entries[..|entries| - 1];
      ScaledSumOfTotal(init, total, k);
      ScaledAdd(Total(init), entries[|entries| - 1].amount, total, k);
    }
  }

  /** Over the whole list the scaled amounts add up to `k`. */
  lemma ScaledSumWhole(entries: seq<CategoryTotal>, total: real, k: real)
    requires total != 0.0 && total == Total(entries)
    ensures ScaledSum(entries, total, k) == k
  {
    ScaledSumOfTotal(entries, total, k);
    assert total / total == 1.0;
  }

  /** Slices tile the circle: the first starts at 0, each starts where the
      previous one ends, and the last ends at 360. */
  lemma SlicesTile(slices: seq<Slice>, entries: seq<CategoryTotal>, total: real)
    requires total != 0.0 && total == Total(entries) && IsLayout(slices, entries, total)
    ensures |slices| > 0 ==> slices[0].startAngle == 0.0
    ensures forall i :: 0 < i < |slices| ==> slices[i].startAngle == slices[i - 1].endAngle
    ensures |slices| > 0 ==> slices[|slices| - 1].endAngle == 360.0
  {
    forall i | 0 < i < |slices| ensures slices[i].startAngle == slices[i - 1].endAngle {
      assert entries[..i][..i - 1] == entries[..i - 1];
    }
    if |slices| > 0 {
      var n := |slices|;
      assert entries[..n - 1] == entries[..|entries| - 1];
      ScaledSumWhole(entries, total, 360.0);
    }
  }

  function PercentSum(slices: seq<Slice>): real {
    if slices == [] then 0.0 else PercentSum(slices[..|slices| - 1]) + slices[|slices| - 1].percent
  }

  lemma {:induction false} PercentSumIsScaled(slices: seq<Slice>, entries: seq<CategoryTotal>, total: real)
    requires total != 0.0 && IsLayout(slices, entries, total)
    ensures PercentSum(slices) == ScaledSum(entries, total, 100.0)
  {
    if slices != [] {
      var n := |slices|;
      assert IsLayout(slices[..n - 1], entries[..n - 1], total) by {
        forall i | 0 <= i < n - 1 ensures entries[..n - 1][..i] == entries[..i] {}
      }
      PercentSumIsScaled(slices[..n - 1], entries[..n - 1], total);
    }
  }

  /** The unrounded percentages add up to 100. */
  lemma PercentsSumTo100(slices: seq<Slice>, entries: seq<CategoryTotal>, total: real)
    requires total != 0.0 && total == Total(entries) && IsLayout(slices, entries, total)
    ensures PercentSum(slices) == 100.0
  {
    PercentSumIsScaled(slices, entries, total);
    ScaledSumWhole(entries, total, 100.0);
  }

  /** With non-negative amounts each angle is at most the whole sweep, and two
      angles together are at most the whole sweep. */
  lemma {:induction false} ScaledSumBounds(entries: seq<CategoryTotal>, total: real, i: nat, j: nat)
    requires total > 0.0 && i < j < |entries|
    requires forall k :: 0 <= k < |entries| ==> entries[k].amount >= 0.0
    ensures ScaledSum(entries, total, 360.0) >= entries[i].amount / total * 360.0 + entries[j].amount / total * 360.0
  {
    var n := |entries|;
    var init := entries[..n - 1];
    ScaledSumNonNegative(init, total);
    if j < n - 1 {
      ScaledSumBounds(init, total, i, j);
    } else {
      ScaledSumSingle(init, total, i);
    }
  }

  lemma {:induction false} ScaledSumSingle(entries: seq<CategoryTotal>, total: real, i: nat)
    requires total > 0.0 && i < |entries|
    requires forall k :: 0 <= k < |entries| ==> entries[k].amount >= 0.0
    ensures ScaledSum(entries, total, 360.0) >= entries[i].amount / total * 360.0
  {
    var n := |entries|;
    var init := entries[..n - 1];
    ScaledSumNonNegative(init, total);
    if i < n - 1 {
      ScaledSumSingle(init, total, i);
    }
  }

  lemma {:induction false} ScaledSumNonNegative(entries: seq<CategoryTotal>, total: real)
    requires total > 0.0
    requires forall k :: 0 <= k < |entries| ==> entries[k].amount >= 0.0
    ensures ScaledSum(entries, total, 360.0) >= 0.0
  {
    if entries != [] {
      ScaledSumNonNegative(entries[..|entries| - 1], total);
    }
  }

  /** With non-negative amounts two categories together take at most the whole circle. */
  lemma PairAngleBound(entries: seq<CategoryTotal>, total: real, i: nat, j: nat)
    requires total != 0.0 && total == Total(entries) && i < j < |entries|
    requires forall k :: 0 <= k < |entries| ==> entries[k].amount >= 0.0
    ensures entries[i].amount / total * 360.0 + entries[j].amount / total * 360.0 <= 360.0
  {
    TotalNonNegative(entries);
    assert total > 0.0;
    ScaledSumOfTotal(entries, total, 360.0);
    assert total / total == 1.0;
    ScaledSumBounds(entries, total, i, j);
  }

  /** With non-negative amounts at most one slice is drawn with the large-arc flag. */
  lemma AtMostOneLargeArc(slices: seq<Slice>, entries: seq<CategoryTotal>, total: real)
    requires total != 0.0 && total == Total(entries) && IsLayout(slices, entries, total)
    requires forall k :: 0 <= k < |entries| ==> entries[k].amount >= 0.0
    ensures forall i, j :: 0 <= i < j < |slices| ==> !(slices[i].largeArc && slices[j].largeArc)
  {
    forall i, j | 0 <= i < j < |slices| ensures !(slices[i].largeArc && slices[j].largeArc) {
      PairAngleBound(entries, total, i, j);
    }
  }

  lemma {:induction false} TotalNonNegative(entries: seq<CategoryTotal>)
    requires forall k :: 0 <= k < |entries| ==> entries[k].amount >= 0.0
    ensures Total(entries) >= 0.0
  {
    if entries != [] {
      TotalNonNegative(entries[..|entries| - 1]);
    }
  }

  /** Non-negative expense amounts give non-negative category amounts. */
  lemma {:induction false} AmountSumNonNegative(es: seq<Expense>)
    requires forall e :: e in es ==> Amount(e) >= 0.0
    ensures AmountSum(es) >= 0.0
  {
    if es != [] {
      AmountSumNonNegative(es[..|es| - 1]);
    }
  }

  lemma BreakdownNonNegative(es: seq<Expense>)
    requires forall e :: e in es ==> Amount(e) >= 0.0
    ensures forall k :: 0 <= k < |Breakdown(es)| ==> Breakdown(es)[k].amount >= 0.0
  {
    forall k | 0 <= k < |Breakdown(es)| ensures Breakdown(es)[k].amount >= 0.0 {
      AmountSumNonNegative(InCategory(es, Order(es)[k]));
    }
  }
}
