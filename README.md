# Expense tracker ledger, in Dafny

A model of the state and the derived values of a browser expense tracker
(`script.js`). The page keeps two pieces of state:

- an ordered list of transactions, oldest first, each with an id, a description and a signed amount (positive for income, negative for an expense);
- an optional savings goal, with a name and a target amount.

Three form handlers change that state:

- `addTransaction` validates and appends one entry;
- `removeTransaction` filters entries out by id;
- `setGoal` validates and replaces the goal.

On every render the page recomputes these values from the state:

- the balance;
- the income and expense slices of the chart;
- the saved amount and the goal percentage;
- the largest expense and the insight message.

Modules, one per component:

- `Wrappers`: `Option`, which stands both for `null` and for a `NaN` from `parseFloat`.
- `Seqs`: `Filter` (the model of `Array.prototype.filter`) and an independent subsequence predicate.
- `Text`: `String.prototype.trim` with ECMAScript's white-space set.
- `Ledger`: the `Transaction` and `Goal` values and the validation of both forms. It holds removal by id and the `Tracker` class, whose `transactions` (a `seq`) and `goal` (an `Option`) fields the three handler methods reassign. `Tracker.Valid()` is the invariant the handlers keep: every stored entry has a non-zero amount and a trimmed, non-empty description, and a goal has a positive amount and a trimmed, non-empty name.
- `Aggregates`: the values derived on each render, as pure functions with lemmas.
- `Scenarios`: worked sessions that drive the handlers of one `Tracker` (salary, rent, a goal of 2000, equal expenses, rejected input). In each, the derived values are shown to follow from the contracts.

Modelling choices:

- Amounts are exact `real`s, not IEEE doubles.
- `parseFloat` followed by `isNaN` becomes an `Option<real>` argument.
- The value of the type selector is a `string`. Only `"expense"` negates the amount.
- The id that `Date.now()` supplies is a parameter.
- Each `reduce` is a left fold, and so is `filter`. Both recurse on the last element, so appending an entry extends the fold by one step.

Two behaviours of the code are worth stating on their own:

- The entry built at script.js:40 negates whatever number was typed when the type is `"expense"`. So `-50` typed as an expense is stored as `+50`, that is as income (`Ledger.NegativeExpenseIsIncome`).
- The filter at script.js:49 removes every entry that carries the id. Exactly one entry goes only when ids are unique (`Ledger.RemoveUnique`), and the code relies on the clock for that.

## Model

| member | source | states |
|---|---|---|
| Seqs.Filter | script.js:49 | the result is no longer than the input, holds exactly the input's elements that pass the predicate, and each of its elements passes |
| Seqs.FilterIsSubsequence | script.js:49 | a filter's output is a subsequence of its input, so survivors keep their relative order |
| Seqs.FilterConcat | script.js:118-119 | filtering a concatenation is concatenating the filtered parts |
| Seqs.FilterKeepsAll | script.js:49 | when every element passes, the filter returns its input unchanged |
| Seqs.FilterDropsAll | script.js:108 | when no element passes, the filter returns the empty list |
| Seqs.FilterIsEmpty | script.js:109 | a filter is empty exactly when no element passes it |
| Seqs.SubsequenceOfLonger | script.js:49 | a subsequence stays one when the longer list grows at the end |
| Seqs.SubsequenceDropLast | script.js:49 | dropping the last element of a subsequence keeps it a subsequence |
| Text.IsWhiteSpace | script.js:31 | (no contract) the characters `trim` strips: ECMAScript WhiteSpace and LineTerminator |
| Text.TrimStart | script.js:31 | (no contract) drops leading white space; characterised by `Text.TrimStartIsSuffix` |
| Text.TrimEnd | script.js:31 | (no contract) drops trailing white space; characterised by `Text.TrimEndIsPrefix` |
| Text.Trim | script.js:55 | (no contract) `trim` as the two steps in turn; characterised by `Text.TrimIsCore`, `Text.TrimIsEmpty` and `Text.TrimIdempotent` |
| Text.TrimStartIsSuffix | script.js:31 | trimming the start yields a suffix that does not start with white space, and everything cut is white space |
| Text.TrimEndIsPrefix | script.js:31 | trimming the end yields a prefix that does not end with white space, and everything cut is white space |
| Text.TrimIsCore | script.js:31 | `trim` yields a slice of its input with only white space outside it, and the slice neither starts nor ends with white space |
| Text.TrimIsEmpty | script.js:35 | the trimmed text is empty exactly when the input is all white space |
| Text.TrimUntrimmable | script.js:31 | text without white space at either end is its own trim |
| Text.TrimIdempotent | script.js:31 | trimming twice equals trimming once |
| Ledger.Abs | script.js:113 | the result is non-negative and is either the argument or its negation |
| Ledger.IsValidEntry | script.js:35 | (no contract) the add form's test: a non-blank trimmed description, a number, and not zero |
| Ledger.IsValidGoal | script.js:58 | (no contract) the goal form's test: a non-blank trimmed name, a number, and positive |
| Ledger.NewTransaction | script.js:31-40 | rejects exactly a blank description, NaN or zero. Otherwise the entry carries the given id and the trimmed description; its amount is the typed number negated when the type is "expense" and the typed number otherwise (so it is negative when an expense is typed positive or anything else is typed negative). It is well formed |
| Ledger.NewGoal | script.js:55-62 | rejects exactly a blank name, NaN or a non-positive amount. Otherwise the goal is exactly the trimmed name and the amount, and it is well formed |
| Ledger.IdIsNot | script.js:49 | (no contract) the filter predicate `t => t.id !== id`; its properties are those of `Ledger.WithoutId` |
| Ledger.WithoutId | script.js:49 | the result is no longer than the ledger and holds exactly the entries whose id differs |
| Ledger.RemoveKeepsOrder | script.js:49 | the entries that are kept appear in their original relative order |
| Ledger.RemoveAbsent | script.js:49 | removing an id no entry carries leaves the ledger unchanged |
| Ledger.RemoveIdempotent | script.js:49 | removing the same id twice equals removing it once |
| Ledger.RemoveUnique | script.js:49 | with unique ids, removing entry k's id yields the ledger without position k and one shorter |
| Ledger.AppendKeepsUnique | script.js:40-41 | appending an entry with an unused id keeps ids unique |
| Ledger.NegativeExpenseIsIncome | script.js:32-40 | for every valid description and every negative number x typed as an expense, the entry is accepted and stored with amount -x, which is positive |
| Ledger.Tracker.GoalIsPositive | script.js:98 | the invariant gives any goal a positive amount, which the goal panel's division needs |
| Ledger.Tracker.constructor | script.js:19-20 | the initial state is an empty ledger and no goal, and it satisfies the invariant |
| Ledger.Tracker.AddTransaction | script.js:29-46 | accepted exactly on valid input. A rejection changes nothing. An acceptance appends exactly the new entry at the end and keeps earlier entries and the goal. The invariant is kept |
| Ledger.Tracker.RemoveTransaction | script.js:48-51 | the ledger becomes the filter by differing id and never grows. The goal is unchanged and the invariant kept |
| Ledger.Tracker.SetGoal | script.js:53-66 | accepted exactly on valid input. A rejection changes nothing. An acceptance replaces the goal by the trimmed name and amount. The ledger is unchanged and the invariant kept |
| Aggregates.Sum | script.js:86 | (no contract) the left fold `reduce((acc, t) => acc + t.amount, 0)`; its properties are `Aggregates.SumConcat`, `Aggregates.SumOfPositives` and `Aggregates.SumOfNegatives` |
| Aggregates.Balance | script.js:96 | (no contract) the total balance, the sum of all amounts; its properties are `Aggregates.BalanceAfterAppend`, `Aggregates.BalanceAfterRemove` and `Aggregates.BalanceIsIncomeMinusExpense` |
| Aggregates.IsIncome | script.js:118 | (no contract) the filter predicate `t.amount > 0` |
| Aggregates.IsExpense | script.js:108 | (no contract) the filter predicate `t.amount < 0`, used by the insight and by the chart's expense slice (script.js:119) |
| Aggregates.Income | script.js:118 | the income total is non-negative, and zero exactly when there is no positive amount |
| Aggregates.Expense | script.js:119 | the expense total is non-negative, and zero exactly when there is no negative amount |
| Aggregates.SumOfPositives | script.js:118 | a sum of positive amounts is non-negative, and zero only for the empty list |
| Aggregates.SumOfNegatives | script.js:119 | a sum of negative amounts is non-positive, and zero only for the empty list |
| Aggregates.SumConcat | script.js:86 | the sum of a concatenation is the sum of the parts |
| Aggregates.BalanceAfterAppend | script.js:86 | appending an entry moves the balance by exactly its amount |
| Aggregates.BalanceAfterRemove | script.js:96 | with unique ids, removing an entry moves the balance by minus its amount |
| Aggregates.BalanceIsIncomeMinusExpense | script.js:118-119 | the balance equals the income total minus the expense total |
| Aggregates.SavedAmount | script.js:97 | the result is at least zero and at least the balance, and is one of the two |
| Aggregates.ShareOfTarget | script.js:98 | the uncapped share times the target is 100 times the saved amount. It reaches 100 exactly when the target is met, and it is non-negative for a non-negative saved amount |
| Aggregates.Percentage | script.js:98 | the result is at most 100, and non-negative for a non-negative saved amount. It equals 100 exactly when the saved amount meets the target. Below 100 it is the exact proportion |
| Aggregates.GoalProgress | script.js:90-101 | no goal gives the prompt and a bar value of 0. Otherwise the panel shows the goal's name and target and the floored balance, and the bar lies in [0, 100]. The bar's value is `Percentage(saved, target)`, so it is the exact proportion below 100. It is full exactly when the balance reaches the target, and empty exactly when the balance is not positive |
| Aggregates.Progress.BarValue | script.js:90-101 | (no contract) the progress bar's value: 0 with no goal, else the percentage |
| Aggregates.LargestExpense | script.js:108-113 | absent exactly when no amount is negative. Otherwise an entry of the ledger with a negative amount |
| Aggregates.Larger | script.js:113 | (no contract) the reduce callback: the new entry replaces the running maximum only when its magnitude is strictly larger |
| Aggregates.Reduce | script.js:113 | (no contract) `reduce(Larger, seed)` as a left fold; its properties are `Aggregates.ReduceIn` and `Aggregates.LargestExpenseAppend` |
| Aggregates.ReduceIn | script.js:113 | the reduce yields its seed or one of the elements |
| Aggregates.LargestExpenseAppend | script.js:113 | the largest expense after appending an entry, in terms of the one before |
| Aggregates.LargestExpenseIsFirstLargest | script.js:108-113 | when present, the largest expense sits at a position k where no expense is larger and every earlier expense is strictly smaller |
| Aggregates.LargestExpenseAt | script.js:108-113 | conversely, the first largest expense is exactly what the reduce returns |
| Aggregates.FirstLargestUnique | script.js:113 | at most one position is the first largest expense |
| Aggregates.FirstLargestFirstExpense | script.js:113 | the first expense after only income is the first largest |
| Aggregates.FirstLargestKept | script.js:113 | an appended entry that is not a strictly larger expense keeps the first largest in place |
| Aggregates.FirstLargestOvertaken | script.js:113 | an appended expense strictly larger than the first largest takes its place |
| Aggregates.InsightFor | script.js:103-115 | the prompt exactly for fewer than two entries. The no-expense message exactly for two or more entries with no negative amount. Otherwise the description and magnitude of the first largest expense |

## Left out

- Rendering: DOM lookup, list templating, focus and field clearing are presentation, not state (script.js:3-16, 42-44, 63-64, 69-84).
- Persistence: the `localStorage` load and save and the JSON (de)serialisation are external I/O. The initial state is an empty ledger and no goal, as on a first visit.
- The Chart.js construction and updates belong to a foreign library. The model keeps only the two numbers given to it (`Income`, `Expense`).
- Event wiring and the `parseInt` of the delete button's `data-id` are event plumbing. `RemoveTransaction` takes the id as an integer.
- `Date.now()` is a clock. The id is a parameter, and uniqueness is stated as a hypothesis (`HasUniqueIds`), not guaranteed.
- `alert` is UI. It is the `false` returned by `AddTransaction` and `SetGoal`.
- `toFixed(2)` currency formatting is float formatting. The insight carries the expense's magnitude as a number.
- IEEE-754 arithmetic is not modelled. Sums and the percentage are exact over the reals. `parseFloat` results of `Infinity` and the distinction of `-0` are not modelled.
- Aggregates.GoalProgress: requires a positive goal amount, which `setGoal` guarantees and the `Tracker` invariant keeps. A goal read back from storage with another amount is outside the model.
- Re-rendering twice without a change yields the same values. This holds by construction: every derived value is a function of the state.
