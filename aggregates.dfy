/**
 * The values the page derives from the ledger and the goal on every render:
 * the balance, the income and expense totals of the chart, the goal progress
 * and the insight message. All are recomputed from the current state.
 */
module Aggregates {
  import opened Wrappers
  import opened Seqs
  import opened Ledger

  /** `ts.reduce((acc, t) => acc + t.amount, 0)`, folded from the left. */
  function Sum(ts: seq<Transaction>): real
    decreases |ts|
  {
    if ts == [] then 0.0 else Sum(ts[..|ts| - 1]) + ts[|ts| - 1].amount
  }

  /** The filter predicates of the chart and the insight. */
  predicate IsIncome(t: Transaction) { t.amount > 0.0 }
  predicate IsExpense(t: Transaction) { t.amount < 0.0 }

  /** The balance label and the basis of the goal progress. */
  function Balance(ts: seq<Transaction>): real {
    Sum(ts)
  }

  /** The chart's income slice: the sum of the positive amounts. */
  function Income(ts: seq<Transaction>): (r: real)
    ensures r >= 0.0
    ensures r == 0.0 <==> forall i :: 0 <= i < |ts| ==> !IsIncome(ts[i])
  {
    var incomes := Filter(ts, IsIncome);
    SumOfPositives(incomes);
    FilterIsEmpty(ts, IsIncome);
    Sum(incomes)
  }

  /** The chart's expense slice: the sum of the negative amounts, times -1. */
  function Expense(ts: seq<Transaction>): (r: real)
    ensures r >= 0.0
    ensures r == 0.0 <==> forall i :: 0 <= i < |ts| ==> !IsExpense(ts[i])
  {
    var expenses := Filter(ts, IsExpense);
    SumOfNegatives(expenses);
    FilterIsEmpty(ts, IsExpense);
    Sum(expenses) * -1.0
  }

  /** A sum of positive amounts is non-negative, and zero only when there are none. */
  lemma {:induction false} SumOfPositives(ts: seq<Transaction>)
    requires forall i :: 0 <= i < |ts| ==> ts[i].amount > 0.0
    ensures Sum(ts) >= 0.0
    ensures Sum(ts) == 0.0 <==> ts == []
    decreases |ts|
  {
    if ts != [] {
      SumOfPositives(ts[..|ts| - 1]);
    }
  }

  /** A sum of negative amounts is non-positive, and zero only when there are none. */
  lemma {:induction false} SumOfNegatives(ts: seq<Transaction>)
    requires forall i :: 0 <= i < |ts| ==> ts[i].amount < 0.0
    ensures Sum(ts) <= 0.0
    ensures Sum(ts) == 0.0 <==> ts == []
    decreases |ts|
  {
    if ts != [] {
      SumOfNegatives(ts[..|ts| - 1]);
    }
  }

  /** Sums add up over concatenation. */
  lemma {:induction false} SumConcat(a: seq<Transaction>, b: seq<Transaction>)
    ensures Sum(a + b) == Sum(a) + Sum(b)
    decreases |b|
  {
    if b == [] {
      assert a + b == a;
    } else {
      assert (a + b)[..|a + b| - 1] == a + b[..|b| - 1];
      SumConcat(a, b[..|b| - 1]);
    }
  }

  /** Adding an entry moves the balance by exactly its amount. */
  lemma BalanceAfterAppend(ts: seq<Transaction>, t: Transaction)
    ensures Balance(ts + [t]) == Balance(ts) + t.amount
  {
    assert (ts + [t])[..|ts|] == ts;
  }

  /** With unique ids, removing entry `k` moves the balance by minus its amount. */
  lemma BalanceAfterRemove(ts: seq<Transaction>, k: int)
    requires HasUniqueIds(ts)
    requires 0 <= k < |ts|
    ensures Balance(WithoutId(ts, ts[k].id)) == Balance(ts) - ts[k].amount
  {
    RemoveUnique(ts, k);
    assert ts == ts[..k] + [ts[k]] + ts[k + 1..];
    SumConcat(ts[..k] + [ts[k]], ts[k + 1..]);
    SumConcat(ts[..k], [ts[k]]);
    SumConcat(ts[..k], ts[k + 1..]);
    assert Sum([ts[k]]) == ts[k].amount by {
      assert [ts[k]][..0] == [];
    }
  }

  /** The balance is the income slice minus the expense slice. */
  lemma {:induction false} BalanceIsIncomeMinusExpense(ts: seq<Transaction>)
    ensures Balance(ts) == Income(ts) - Expense(ts)
    decreases |ts|
  {
    if ts != [] {
      var init, last := ts[..|ts| - 1], ts[|ts| - 1];
      assert ts == init + [last];
      BalanceIsIncomeMinusExpense(init);
      BalanceAfterAppend(init, last);
      var incomes, expenses := Filter(init, IsIncome), Filter(init, IsExpense);
      assert Filter(ts, IsIncome) == if IsIncome(last) then incomes + [last] else incomes;
      assert Filter(ts, IsExpense) == if IsExpense(last) then expenses + [last] else expenses;
      if IsIncome(last) {
        BalanceAfterAppend(incomes, last);
      } else if IsExpense(last) {
        BalanceAfterAppend(expenses, last);
      }
    }
  }

  /** `Math.max(0, totalBalance)`: the part of the balance counted toward the goal. */
  function SavedAmount(ts: seq<Transaction>): (r: real)
    ensures r >= 0.0 && r >= Balance(ts)
    ensures r == 0.0 || r == Balance(ts)
  {
    if Balance(ts) > 0.0 then Balance(ts) else 0.0
  }

  /**
   * `Math.min(100, (saved / target) * 100)`: the share of the target reached,
   * capped at 100; it is 100 exactly when the target is met and otherwise the
   * exact proportion.
   */
  function Percentage(saved: real, target: real): (r: real)
    requires target > 0.0
    ensures r <= 100.0
    ensures saved >= 0.0 ==> r >= 0.0
    ensures r == 100.0 <==> saved >= target
    ensures r < 100.0 ==> r * target == saved * 100.0
  {
    var p := saved / target * 100.0;
    ShareOfTarget(saved, target);
    if p < 100.0 then p else 100.0
  }

  /** The uncapped share `saved / target * 100` against the target it is taken of. */
  lemma ShareOfTarget(saved: real, target: real)
    requires target > 0.0
    ensures (saved / target * 100.0) * target == saved * 100.0
    ensures saved / target * 100.0 >= 100.0 <==> saved >= target
    ensures saved >= 0.0 ==> saved / target * 100.0 >= 0.0
  {
    var q := saved / target;
    assert q * target == saved;
    if q >= 1.0 {
      assert (q - 1.0) * target >= 0.0;
    } else {
      assert (1.0 - q) * target > 0.0;
    }
  }

  /** What the goal panel shows: the prompt, or the name, saved and target amounts and the bar's value. */
  datatype Progress = NoGoal | Toward(name: string, saved: real, target: real, percentage: real) {
    /** The value of the progress bar: 0 while no goal is set. */
    function BarValue(): real {
      match this
      case NoGoal => 0.0
      case Toward(_, _, _, p) => p
    }
  }

  /** `updateGoalProgress` for the current ledger and goal. */
  function GoalProgress(ts: seq<Transaction>, goal: Option<Goal>): (r: Progress)
    requires goal.Some? ==> goal.value.amount > 0.0
    ensures r.NoGoal? <==> goal.None?
    ensures goal.None? ==> r.BarValue() == 0.0
    ensures 0.0 <= r.BarValue() <= 100.0
    ensures r.Toward? ==> r.name == goal.value.name && r.target == goal.value.amount
    ensures r.Toward? ==> r.saved >= 0.0 && r.saved >= Balance(ts) && (r.saved == 0.0 || r.saved == Balance(ts))
    ensures r.Toward? ==> (r.percentage == 100.0 <==> Balance(ts) >= goal.value.amount)
    ensures r.Toward? ==> (r.percentage == 0.0 <==> Balance(ts) <= 0.0)
    ensures r.Toward? ==> r.percentage == Percentage(r.saved, r.target)
  {
    match goal
    case None => NoGoal
    case Some(g) =>
      var saved := SavedAmount(ts);
      var p := Percentage(saved, g.amount);
      assert p == 0.0 <==> saved == 0.0 by {
        if p < 100.0 { assert p * g.amount == saved * 100.0; }
      }
      Toward(g.name, saved, g.amount, p)
  }

  /** One step of the largest-expense reduce: the new entry wins only when strictly larger. */
  function Larger(max: Transaction, t: Transaction): Transaction {
    if Abs(t.amount) > Abs(max.amount) then t else max
  }

  /** `xs.reduce(Larger, init)`, folded from the left. */
  function Reduce(init: Transaction, xs: seq<Transaction>): Transaction
    decreases |xs|
  {
    if xs == [] then init else Larger(Reduce(init, xs[..|xs| - 1]), xs[|xs| - 1])
  }

  /** The entry `updateInsights` reports: the reduce over the expenses, seeded with the first one. */
  function LargestExpense(ts: seq<Transaction>): (r: Option<Transaction>)
    ensures r.None? <==> forall i :: 0 <= i < |ts| ==> !IsExpense(ts[i])
    ensures r.Some? ==> r.value in ts && IsExpense(r.value)
  {
    var expenses := Filter(ts, IsExpense);
    FilterIsEmpty(ts, IsExpense);
    if expenses == [] then None
    else
      ReduceIn(expenses[0], expenses);
      Some(Reduce(expenses[0], expenses))
  }

  /** The reduce returns its seed or one of the elements. */
  lemma {:induction false} ReduceIn(init: Transaction, xs: seq<Transaction>)
    ensures Reduce(init, xs) == init || Reduce(init, xs) in xs
    decreases |xs|
  {
    if xs != [] {
      ReduceIn(init, xs[..|xs| - 1]);
    }
  }

  /**
   * Entry `k` is the expense the insight should report: no expense is larger,
   * and every expense before it is strictly smaller (ties go to the first).
   */
  predicate IsFirstLargest(ts: seq<Transaction>, k: int) {
    0 <= k < |ts| && IsExpense(ts[k]) &&
    (forall j :: 0 <= j < |ts| && IsExpense(ts[j]) ==> Abs(ts[j].amount) <= Abs(ts[k].amount)) &&
    (forall j :: 0 <= j < k && IsExpense(ts[j]) ==> Abs(ts[j].amount) < Abs(ts[k].amount))
  }

  /** At most one position is the first largest expense. */
  lemma FirstLargestUnique(ts: seq<Transaction>, k1: int, k2: int)
    requires IsFirstLargest(ts, k1) && IsFirstLargest(ts, k2)
    ensures k1 == k2
  {
  }

  /** The largest expense after one more entry, from the one before it. */
  lemma LargestExpenseAppend(ts: seq<Transaction>, x: Transaction)
    ensures LargestExpense(ts + [x]) ==
      if !IsExpense(x) then LargestExpense(ts)
      else if LargestExpense(ts).None? then Some(x)
      else Some(Larger(LargestExpense(ts).value, x))
  {
    var tx := ts + [x];
    assert tx[..|tx| - 1] == ts;
    var e := Filter(ts, IsExpense);
    assert Filter(tx, IsExpense) == if IsExpense(x) then e + [x] else e;
    if IsExpense(x) {
      var e2 := e + [x];
      assert e2[..|e2| - 1] == e;
      if e == [] {
        assert e2 == [x];
        assert Reduce(x, [x]) == Larger(Reduce(x, []), x);
      } else {
        assert e2[0] == e[0];
        assert Reduce(e[0], e2) == Larger(Reduce(e[0], e), x);
      }
    }
  }

  /**
   * The reduce in `updateInsights` finds the first largest expense: it exists
   * exactly when there is an expense, and it sits at a position `k` with
   * `IsFirstLargest(ts, k)`.
   */
  lemma {:induction false} LargestExpenseIsFirstLargest(ts: seq<Transaction>)
    ensures LargestExpense(ts).Some? ==> exists k :: IsFirstLargest(ts, k) && ts[k] == LargestExpense(ts).value
    decreases |ts|
  {
    if ts != [] {
      var init, x := ts[..|ts| - 1], ts[|ts| - 1];
      assert ts == init + [x];
      LargestExpenseIsFirstLargest(init);
      LargestExpenseAppend(init, x);
      var before := LargestExpense(init);
      if before.None? {
        if IsExpense(x) {
          FirstLargestFirstExpense(init, x);
        }
      } else {
        var k :| IsFirstLargest(init, k) && init[k] == before.value;
        if IsExpense(x) && Abs(x.amount) > Abs(before.value.amount) {
          FirstLargestOvertaken(init, x, k);
        } else {
          FirstLargestKept(init, x, k);
        }
      }
    }
  }

  /** The first expense of a ledger is its first largest one. */
  lemma FirstLargestFirstExpense(init: seq<Transaction>, x: Transaction)
    requires forall i :: 0 <= i < |init| ==> !IsExpense(init[i])
    requires IsExpense(x)
    ensures IsFirstLargest(init + [x], |init|)
  {
  }

  /** An appended entry that is no expense, or no larger one, leaves the first largest in place. */
  lemma FirstLargestKept(init: seq<Transaction>, x: Transaction, k: int)
    requires IsFirstLargest(init, k)
    requires !IsExpense(x) || Abs(x.amount) <= Abs(init[k].amount)
    ensures IsFirstLargest(init + [x], k)
  {
  }

  /** An appended expense strictly larger than the first largest takes its place. */
  lemma FirstLargestOvertaken(init: seq<Transaction>, x: Transaction, k: int)
    requires IsFirstLargest(init, k)
    requires IsExpense(x) && Abs(x.amount) > Abs(init[k].amount)
    ensures IsFirstLargest(init + [x], |init|)
  {
  }

  /** Conversely, the first largest expense is what the reduce returns. */
  lemma LargestExpenseAt(ts: seq<Transaction>, k: int)
    requires IsFirstLargest(ts, k)
    ensures LargestExpense(ts) == Some(ts[k])
  {
    LargestExpenseIsFirstLargest(ts);
    var k' :| IsFirstLargest(ts, k') && ts[k'] == LargestExpense(ts).value;
    FirstLargestUnique(ts, k, k');
  }

  /** The three messages of the insight panel. */
  datatype Insight = AddTransactions | NoExpenses | BiggestExpense(description: string, magnitude: real)

  /**
   * `updateInsights`: too few entries, else no expenses, else the first largest
   * expense with its magnitude.
   */
  function InsightFor(ts: seq<Transaction>): (r: Insight)
    ensures r == AddTransactions <==> |ts| < 2
    ensures r == NoExpenses <==> |ts| >= 2 && forall i :: 0 <= i < |ts| ==> !IsExpense(ts[i])
    ensures r.BiggestExpense? ==>
      exists k :: IsFirstLargest(ts, k) && r == BiggestExpense(ts[k].description, Abs(ts[k].amount))
  {
    if |ts| < 2 then AddTransactions
    else
      match LargestExpense(ts)
      case None => NoExpenses
      case Some(t) =>
        LargestExpenseIsFirstLargest(ts);
        BiggestExpense(t.description, Abs(t.amount))
  }
}
