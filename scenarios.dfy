/**
 * Worked sessions driven through the three handlers, with what the derived
 * values must be afterwards, shown to follow from the contracts of the
 * handlers and of the derived values.
 */
module Scenarios {
  import opened Wrappers
  import opened Text
  import opened Ledger
  import opened Aggregates

  /** The entry the add form creates from an already-trimmed description. */
  lemma Entry(id: int, description: string, amount: real, kind: string)
    requires description != [] && Trim(description) == description && amount != 0.0
    ensures NewTransaction(id, description, Some(amount), kind) ==
      Some(Transaction(id, description, if kind == "expense" then -amount else amount))
  {
  }

  /** A first visit, then a salary: balance and chart slices. */
  method FirstSalary() {
    var tracker := new Tracker();
    assert Balance(tracker.transactions) == 0.0;
    assert InsightFor(tracker.transactions) == AddTransactions;
    assert GoalProgress(tracker.transactions, tracker.goal) == NoGoal;

    TrimUntrimmable("Salary");
    Entry(1, "Salary", 1000.0, "income");
    var ok := tracker.AddTransaction(1, "Salary", Some(1000.0), "income");
    assert ok;
    assert tracker.transactions == [] + [Transaction(1, "Salary", 1000.0)];
    assert Balance(tracker.transactions) == 1000.0;
    BalanceIsIncomeMinusExpense(tracker.transactions);
    assert Income(tracker.transactions) == 1000.0;
  }

  /** Rent after the salary: the balance drops and the insight names the rent. */
  method RentAfterSalary() {
    var tracker := new Tracker();
    TrimUntrimmable("Salary");
    TrimUntrimmable("Rent");
    var salary, rent := Transaction(1, "Salary", 1000.0), Transaction(2, "Rent", -500.0);
    Entry(1, "Salary", 1000.0, "income");
    Entry(2, "Rent", 500.0, "expense");
    var ok := tracker.AddTransaction(1, "Salary", Some(1000.0), "income");
    ok := tracker.AddTransaction(2, "Rent", Some(500.0), "expense");
    assert ok;
    assert tracker.transactions == [] + [salary] + [rent];
    assert [] + [salary] + [rent] == [salary, rent];
    BalanceAfterAppend([], salary);
    assert [] + [salary] == [salary];
    BalanceAfterAppend([salary], rent);
    var ledger := tracker.transactions;
    assert [salary] + [rent] == ledger;
    assert Balance(ledger) == 500.0;
    assert IsFirstLargest(ledger, 1);
    LargestExpenseAt(ledger, 1);
    assert InsightFor(ledger) == BiggestExpense("Rent", 500.0);
  }

  /** Deleting the rent again leaves the salary alone. */
  method DeleteRent() {
    var tracker := new Tracker();
    TrimUntrimmable("Salary");
    TrimUntrimmable("Rent");
    var salary, rent := Transaction(1, "Salary", 1000.0), Transaction(2, "Rent", -500.0);
    Entry(1, "Salary", 1000.0, "income");
    Entry(2, "Rent", 500.0, "expense");
    var ok := tracker.AddTransaction(1, "Salary", Some(1000.0), "income");
    ok := tracker.AddTransaction(2, "Rent", Some(500.0), "expense");
    assert tracker.transactions == [] + [salary] + [rent];
    assert [] + [salary] + [rent] == [salary, rent];
    var ledger := tracker.transactions;
    assert HasUniqueIds(ledger);
    RemoveUnique(ledger, 1);
    assert ledger[..1] + ledger[2..] == [salary];
    tracker.RemoveTransaction(2);
    assert tracker.transactions == [salary];
    RemoveAbsent([salary], 2);
    tracker.RemoveTransaction(2);
    assert tracker.transactions == [salary];
  }

  /** Salary and rent, then a goal of 2000: the balance of 500 is a quarter of it. */
  method VacationGoal() {
    var tracker := new Tracker();
    TrimUntrimmable("Salary");
    TrimUntrimmable("Rent");
    TrimUntrimmable("Vacation");
    var salary, rent := Transaction(1, "Salary", 1000.0), Transaction(2, "Rent", -500.0);
    Entry(1, "Salary", 1000.0, "income");
    Entry(2, "Rent", 500.0, "expense");
    var ok := tracker.AddTransaction(1, "Salary", Some(1000.0), "income");
    ok := tracker.AddTransaction(2, "Rent", Some(500.0), "expense");
    ok := tracker.SetGoal("Vacation", Some(2000.0));
    assert ok && tracker.goal == Some(Goal("Vacation", 2000.0));
    var ledger := tracker.transactions;
    assert ledger == [] + [salary] + [rent];
    BalanceAfterAppend([], salary);
    BalanceAfterAppend([salary], rent);
    assert [] + [salary] == [salary];
    assert Balance(ledger) == 500.0;
    tracker.GoalIsPositive();
    var progress := GoalProgress(ledger, tracker.goal);
    assert progress.percentage * 2000.0 == 500.0 * 100.0;
    assert progress.BarValue() == 25.0;
  }

  /** Two expenses of the same size: the insight reports the first one. */
  method EqualExpenses() {
    var tracker := new Tracker();
    TrimUntrimmable("Taxi");
    TrimUntrimmable("Lunch");
    var taxi, lunch := Transaction(10, "Taxi", -20.0), Transaction(11, "Lunch", -20.0);
    Entry(10, "Taxi", 20.0, "expense");
    Entry(11, "Lunch", 20.0, "expense");
    var ok := tracker.AddTransaction(10, "Taxi", Some(20.0), "expense");
    ok := tracker.AddTransaction(11, "Lunch", Some(20.0), "expense");
    assert tracker.transactions == [] + [taxi] + [lunch];
    assert [] + [taxi] + [lunch] == [taxi, lunch];
    assert IsFirstLargest(tracker.transactions, 0);
    LargestExpenseAt(tracker.transactions, 0);
    assert InsightFor(tracker.transactions) == BiggestExpense("Taxi", 20.0);
  }

  /** Blank text, `NaN` and zero are turned away and leave the state as it was. */
  method RejectedInputs() {
    var tracker := new Tracker();
    TrimIsEmpty("   ");
    var ok := tracker.AddTransaction(1, "   ", Some(5.0), "income");
    assert !ok && tracker.transactions == [];
    ok := tracker.AddTransaction(2, "Coffee", None, "expense");
    assert !ok && tracker.transactions == [];
    ok := tracker.AddTransaction(3, "Coffee", Some(0.0), "expense");
    assert !ok && tracker.transactions == [];
    ok := tracker.SetGoal("Car", Some(-1.0));
    assert !ok && tracker.goal == None;
    ok := tracker.SetGoal("\t", Some(100.0));
    assert !ok && tracker.goal == None;
  }
}
