/**
 * The ledger and the goal: the two pieces of state the tracker keeps, the
 * validation the two forms apply before changing them, and removal by id.
 * Amounts are exact reals in place of JavaScript numbers; `parseFloat`'s
 * outcome is an `Option<real>` whose `None` is `NaN`.
 */
module Ledger {
  import opened Wrappers
  import opened Seqs
  import opened Text

  /** A stored entry: a positive amount is income, a negative one an expense. */
  datatype Transaction = Transaction(id: int, description: string, amount: real)

  /** The single savings target. */
  datatype Goal = Goal(name: string, amount: real)

  /** `Math.abs`. */
  function Abs(x: real): (r: real)
    ensures r >= 0.0 && (r == x || r == -x)
  {
    if x < 0.0 then -x else x
  }

  /** What every entry that `NewTransaction` accepts satisfies. */
  predicate IsWellFormed(t: Transaction) {
    t.amount != 0.0 && t.description != [] && Trim(t.description) == t.description
  }

  /** What every goal that `NewGoal` accepts satisfies. */
  predicate IsWellFormedGoal(g: Goal) {
    g.amount > 0.0 && g.name != [] && Trim(g.name) == g.name
  }

  /** The add form's test: a non-blank description and a number other than zero. */
  predicate IsValidEntry(description: string, amount: Option<real>) {
    Trim(description) != [] && amount.Some? && amount.value != 0.0
  }

  /** The goal form's test: a non-blank name and a positive number. */
  predicate IsValidGoal(name: string, amount: Option<real>) {
    Trim(name) != [] && amount.Some? && amount.value > 0.0
  }

  /**
   * The entry the add form creates from its fields, or `None` when it shows
   * the alert. `id` is the timestamp the page takes from the clock; `kind` is
   * the value of the type selector, and only "expense" flips the sign,
   * whatever the sign of the number typed in.
   */
  function NewTransaction(id: int, description: string, amount: Option<real>, kind: string): (r: Option<Transaction>)
    ensures r.None? <==> !IsValidEntry(description, amount)
    ensures r.Some? ==> r.value.id == id && r.value.description == Trim(description)
    ensures r.Some? ==> Abs(r.value.amount) == Abs(amount.value)
    ensures r.Some? ==> (r.value.amount < 0.0 <==> (kind == "expense" <==> amount.value > 0.0))
    ensures r.Some? ==> IsWellFormed(r.value)
  {
    if !IsValidEntry(description, amount) then None
    else
      TrimIdempotent(description);
      var signed := if kind == "expense" then -amount.value else amount.value;
      Some(Transaction(id, Trim(description), signed))
  }

  /** The goal the goal form creates from its fields, or `None` when it shows the alert. */
  function NewGoal(name: string, amount: Option<real>): (r: Option<Goal>)
    ensures r.None? <==> !IsValidGoal(name, amount)
    ensures r.Some? ==> r.value == Goal(Trim(name), amount.value)
    ensures r.Some? ==> IsWellFormedGoal(r.value)
  {
    if !IsValidGoal(name, amount) then None
    else
      TrimIdempotent(name);
      Some(Goal(Trim(name), amount.value))
  }

  /** The filter predicate `t => t.id !== id`. */
  function IdIsNot(id: int): Transaction -> bool {
    (t: Transaction) => t.id != id
  }

  /** `transactions.filter(t => t.id !== id)`. */
  function WithoutId(ts: seq<Transaction>, id: int): (r: seq<Transaction>)
    ensures |r| <= |ts|
    ensures forall t :: t in r <==> t in ts && t.id != id
  {
    Filter(ts, IdIsNot(id))
  }

  /** No two entries share an id (what the page relies on the clock for). */
  predicate HasUniqueIds(ts: seq<Transaction>) {
    forall i, j :: 0 <= i < j < |ts| ==> ts[i].id != ts[j].id
  }

  /** Removal keeps the surviving entries in their original relative order. */
  lemma RemoveKeepsOrder(ts: seq<Transaction>, id: int)
    ensures IsSubsequence(WithoutId(ts, id), ts)
  {
    FilterIsSubsequence(ts, IdIsNot(id));
  }

  /** Removing an id no entry carries leaves the ledger as it was. */
  lemma RemoveAbsent(ts: seq<Transaction>, id: int)
    requires forall i :: 0 <= i < |ts| ==> ts[i].id != id
    ensures WithoutId(ts, id) == ts
  {
    FilterKeepsAll(ts, IdIsNot(id));
  }

  /** Removing twice by the same id is removing once. */
  lemma RemoveIdempotent(ts: seq<Transaction>, id: int)
    ensures WithoutId(WithoutId(ts, id), id) == WithoutId(ts, id)
  {
    var r := WithoutId(ts, id);
    assert forall i :: 0 <= i < |r| ==> r[i] in r;
    RemoveAbsent(r, id);
  }

  /**
   * When ids are unique and entry `k` carries `id`, removal deletes exactly that
   * entry: the ledger shrinks by one and the rest stays in order.
   */
  lemma RemoveUnique(ts: seq<Transaction>, k: int)
    requires HasUniqueIds(ts)
    requires 0 <= k < |ts|
    ensures WithoutId(ts, ts[k].id) == ts[..k] + ts[k + 1..]
    ensures |WithoutId(ts, ts[k].id)| == |ts| - 1
  {
    var id := ts[k].id;
    var before, after := ts[..k], ts[k + 1..];
    assert ts == before + [ts[k]] + after;
    forall i | 0 <= i < |before|
      ensures before[i].id != id
    {
      assert before[i] == ts[i];
    }
    forall i | 0 <= i < |after|
      ensures after[i].id != id
    {
      assert after[i] == ts[k + 1 + i];
    }
    RemoveAbsent(before, id);
    RemoveAbsent(after, id);
    FilterDropsAll([ts[k]], IdIsNot(id));
    FilterConcat(before, [ts[k]], IdIsNot(id));
    assert Filter(before + [ts[k]], IdIsNot(id)) == before;
    FilterConcat(before + [ts[k]], after, IdIsNot(id));
  }

  /** Appending an entry whose id is new keeps the ids unique. */
  lemma AppendKeepsUnique(ts: seq<Transaction>, t: Transaction)
    requires HasUniqueIds(ts)
    requires forall i :: 0 <= i < |ts| ==> ts[i].id != t.id
    ensures HasUniqueIds(ts + [t])
  {
  }

  /**
   * The code negates the typed number for "expense" whatever its sign, so a
   * negative number typed as an expense is stored as income.
   */
  lemma NegativeExpenseIsIncome(id: int, description: string, x: real)
    requires Trim(description) != [] && x < 0.0
    ensures NewTransaction(id, description, Some(x), "expense").Some?
    ensures NewTransaction(id, description, Some(x), "expense").value.amount == -x
    ensures NewTransaction(id, description, Some(x), "expense").value.amount > 0.0
  {
  }

  /**
   * The in-memory state of the page: the ledger in display order (oldest
   * first) and the goal, `null` until one is set. Every change goes through
   * the three form handlers below.
   */
  class Tracker {
    var transactions: seq<Transaction>
    var goal: Option<Goal>

    /** What the handlers guarantee about everything they store. */
    ghost predicate Valid()
      reads this
    {
      (forall t :: t in transactions ==> IsWellFormed(t)) &&
      (goal.Some? ==> IsWellFormedGoal(goal.value))
    }

    /** The invariant gives the goal panel the positive target its division needs. */
    lemma GoalIsPositive()
      requires Valid()
      ensures goal.Some? ==> goal.value.amount > 0.0
    {
    }

    /** The state on a first visit: no entries and no goal. */
    constructor ()
      ensures Valid()
      ensures transactions == [] && goal == None
    {
      transactions := [];
      goal := None;
    }

    /**
     * `addTransaction`: on invalid input nothing changes (the page alerts);
     * otherwise exactly one entry is appended at the end and the goal is untouched.
     */
    method AddTransaction(id: int, description: string, amount: Option<real>, kind: string) returns (accepted: bool)
      requires Valid()
      modifies this
      ensures Valid()
      ensures accepted <==> IsValidEntry(description, amount)
      ensures !accepted ==> transactions == old(transactions)
      ensures accepted ==> transactions == old(transactions) + [NewTransaction(id, description, amount, kind).value]
      ensures goal == old(goal)
    {
      var entry := NewTransaction(id, description, amount, kind);
      if entry.None? {
        return false;
      }
      assert IsWellFormed(entry.value);
      transactions := transactions + [entry.value];
      return true;
    }

    /** `removeTransaction`: keeps every entry whose id differs, in order; the goal is untouched. */
    method RemoveTransaction(id: int)
      requires Valid()
      modifies this
      ensures Valid()
      ensures transactions == WithoutId(old(transactions), id)
      ensures |transactions| <= |old(transactions)|
      ensures goal == old(goal)
    {
      transactions := WithoutId(transactions, id);
    }

    /**
     * `setGoal`: on invalid input nothing changes (the page alerts); otherwise
     * the goal is replaced by the new name and amount. The ledger is untouched.
     */
    method SetGoal(name: string, amount: Option<real>) returns (accepted: bool)
      requires Valid()
      modifies this
      ensures Valid()
      ensures accepted <==> IsValidGoal(name, amount)
      ensures !accepted ==> goal == old(goal)
      ensures accepted ==> goal == Some(Goal(Trim(name), amount.value))
      ensures transactions == old(transactions)
    {
      var g := NewGoal(name, amount);
      if g.None? {
        return false;
      }
      goal := g;
      return true;
    }
  }
}
