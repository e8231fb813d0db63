/** The left-to-right `reduce((sum, e) => sum + e.amount, 0)` shared by the
    project card, the project details page and the dashboard. */
module Ledger {
  import opened Types

  /** Sum of the amounts of `es`, folded from the left as `reduce` does. */
  function AmountSum(es: seq<Expense>): real {
    if es == [] then 0.0 else AmountSum(es[..|es| - 1]) + Amount(es[|es| - 1])
  }

  /** Appending a list of expenses adds its total. */
  lemma {:induction false} AmountSumConcat(a: seq<Expense>, b: seq<Expense>)
    ensures AmountSum(a + b) == AmountSum(a) + AmountSum(b)
  {
    if b != [] {
      assert (a + b)[..|a + b| - 1] == a + b[..|b| - 1];
      AmountSumConcat(a, b[..|b| - 1]);
    } else {
      assert a + b == a;
    }
  }

  /** Removing the expense at index `j` removes exactly its amount. */
  lemma AmountSumRemove(s: seq<Expense>, j: nat)
    requires j < |s|
    ensures AmountSum(s) == AmountSum(s[..j] + s[j + 1..]) + Amount(s[j])
  {
    var before, x, after := s[..j], s[j], s[j + 1..];
    assert s == (before + [x]) + after;
    AmountSumConcat(before + [x], after);
    AmountSumConcat(before, after);
    assert (before + [x])[..|before|] == before;
  }

  /** The total does not depend on the order of the expenses. */
  lemma {:induction false} AmountSumPermutation(a: seq<Expense>, b: seq<Expense>)
    requires multiset(a) == multiset(b)
    ensures AmountSum(a) == AmountSum(b)
  {
    if a == [] {
      assert |b| == |multiset(b)| == 0;
    } else {
      var x := a[|a| - 1];
      var a' := a[..|a| - 1];
      assert a == a' + [x];
      assert x in multiset(b);
      var j :| 0 <= j < |b| && b[j] == x;
      var b' := b[..j] + b[j + 1..];
      assert b == b[..j] + [x] + b[j + 1..];
      assert multiset(b') == multiset(b) - multiset{x};
      assert multiset(a') == multiset(a) - multiset{x};
      AmountSumPermutation(a', b');
      AmountSumRemove(b, j);
    }
  }
}
