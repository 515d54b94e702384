/**
  The expense tracker itself: one mutable object holding the running balance,
  the append-only transaction log and the category registry. The mutators
  update these fields in place; the queries read them and return values.
 */
module Tracker {
  import opened Ledger

  class ExpenseTracker {
    var balance: int
    var transactions: seq<Transaction>
    var categories: seq<string>

    /** The balance is the sum of the log, the registry holds no name twice,
        and every logged transaction is filed under `General` or a registered
        category. */
    ghost predicate Valid()
      reads this
    {
      balance == Sum(transactions) && NoDuplicates(categories) && Filed(transactions, categories)
    }

    constructor ()
      ensures Valid()
      ensures balance == 0 && transactions == [] && categories == DefaultCategories
    {
      balance := 0;
      transactions := [];
      categories := DefaultCategories;
    }

    /** Records `amount` under `category` (or `General` when it is empty),
        stamped `now`; a non-empty category that is not registered is refused. */
    method AddTransaction(amount: int, category: string, now: int) returns (status: Status)
      requires Valid()
      modifies this
      ensures Valid()
      ensures status == if category != "" && category !in old(categories)
                        then Rejected(UnknownCategory) else Done
      ensures status.Rejected? ==> transactions == old(transactions) && balance == old(balance)
      ensures status.Done? ==>
        && transactions == old(transactions) + [Transaction(amount, EffectiveCategory(category), now)]
        && balance == old(balance) + amount
      ensures categories == old(categories)
    {
      if category != "" && category !in categories {
        return Rejected(UnknownCategory);
      }
      var transaction := Transaction(amount, EffectiveCategory(category), now);
      SumAppend(transactions, [transaction]);
      transactions := transactions + [transaction];
      balance := balance + amount;
      status := Done;
    }

    /** The current balance, which is always the sum of the logged amounts. */
    function ShowBalance(): (b: int)
      requires Valid()
      reads this
      ensures b == Sum(transactions)
    {
      balance
    }

    /** Removes the most recent transaction and takes its amount off the balance;
        refused when the log is empty. */
    method UndoLastTransaction() returns (result: Result<Transaction>)
      requires Valid()
      modifies this
      ensures Valid()
      ensures result.Err? <==> old(transactions) == []
      ensures result.Err? ==>
        result.error == EmptyLedger && transactions == old(transactions) && balance == old(balance)
      ensures result.Ok? ==>
        && result.value == old(transactions)[|old(transactions)| - 1]
        && transactions == old(transactions)[..|old(transactions)| - 1]
        && balance == old(balance) - result.value.amount
      ensures categories == old(categories)
    {
      if transactions == [] {
        return Err(EmptyLedger);
      }
      var last := transactions[|transactions| - 1];
      SumDropLast(transactions);
      transactions := transactions[..|transactions| - 1];
      balance := balance - last.amount;
      result := Ok(last);
    }

    /** The history listing: one entry per transaction, oldest first, labelled
        Expense exactly when its amount is negative. */
    function ShowHistory(): (h: seq<Entry>)
      reads this
      ensures |h| == |transactions|
      ensures forall i :: 0 <= i < |h| ==>
        && h[i].dateTime == transactions[i].dateTime
        && h[i].amount == transactions[i].amount
        && h[i].category == transactions[i].category
        && (h[i].kind == Income <==> transactions[i].amount >= 0)
    {
      History(transactions)
    }

    /** Registers `name` at the end of the registry; refused when it is already there. */
    method AddCategory(name: string) returns (status: Status)
      requires Valid()
      modifies this
      ensures Valid()
      ensures status == if name in old(categories) then Rejected(DuplicateCategory) else Done
      ensures categories == if status.Done? then old(categories) + [name] else old(categories)
      ensures transactions == old(transactions) && balance == old(balance)
    {
      if name in categories {
        return Rejected(DuplicateCategory);
      }
      categories := categories + [name];
      status := Done;
    }

    /** Sum of the amounts filed under exactly `category`; refused for a name
        that is not registered, `General` included. */
    function ShowBalanceByCategory(category: string): (result: Result<int>)
      reads this
      ensures result.Err? <==> category !in categories
      ensures result.Err? ==> result.error == UnknownCategory
      ensures result.Ok? ==> result.value == CategoryTotal(transactions, category)
    {
      if category !in categories then Err(UnknownCategory)
      else Ok(CategoryTotal(transactions, category))
    }

    /** Sum of the amounts stamped strictly inside the trailing window that
        `period` names, ending at `now`; refused for any other period. */
    function ShowBalanceByPeriod(period: string, now: int): (result: Result<int>)
      reads this
      ensures result.Err? <==>
        !(EqualsIgnoringCase(period, "hour") || EqualsIgnoringCase(period, "day")
          || EqualsIgnoringCase(period, "month"))
      ensures result.Err? ==> result.error == InvalidPeriod
      ensures EqualsIgnoringCase(period, "hour") ==>
        result == Ok(PeriodTotal(transactions, now - HourMillis, now))
      ensures EqualsIgnoringCase(period, "day") ==>
        result == Ok(PeriodTotal(transactions, now - DayMillis, now))
      ensures EqualsIgnoringCase(period, "month") ==>
        result == Ok(PeriodTotal(transactions, now - MonthMillis, now))
    {
      match PeriodLength(period)
      case None => Err(InvalidPeriod)
      case Some(length) => Ok(PeriodTotal(transactions, now - length, now))
    }
  }

  /** A successful AddTransaction followed by UndoLastTransaction leaves the
      tracker exactly as it was. */
  method AddThenUndo(tracker: ExpenseTracker, amount: int, category: string, now: int)
    requires tracker.Valid()
    requires category == "" || category in tracker.categories
    modifies tracker
    ensures tracker.Valid()
    ensures tracker.transactions == old(tracker.transactions)
    ensures tracker.balance == old(tracker.balance)
    ensures tracker.categories == old(tracker.categories)
  {
    var status := tracker.AddTransaction(amount, category, now);
    assert status == Done;
    var undone := tracker.UndoLastTransaction();
    assert undone == Ok(Transaction(amount, EffectiveCategory(category), now));
  }

  /** A transaction recorded at the very instant of a period query is not
      counted by that query. */
  method RecordedAtQueryInstant(tracker: ExpenseTracker, amount: int, category: string, period: string, now: int)
    requires tracker.Valid()
    modifies tracker
    ensures tracker.Valid()
    ensures tracker.ShowBalanceByPeriod(period, now) == old(tracker.ShowBalanceByPeriod(period, now))
  {
    var status := tracker.AddTransaction(amount, category, now);
    if status == Done {
      var t := Transaction(amount, EffectiveCategory(category), now);
      var length := PeriodLength(period);
      if length.Some? {
        PeriodExcludesEndpoints(old(tracker.transactions), t, now - length.value, now);
      }
    }
  }

  // Example sessions, each on a fresh tracker.

  method ExpenseSession()
  {
    var tracker := new ExpenseTracker();
    var s := tracker.AddTransaction(-2000, "Food", 0);
    assert s == Done && tracker.ShowBalance() == -2000;
  }

  /** An empty category is stored as `General`, which is still not a registered category. */
  method DefaultCategorySession()
  {
    var tracker := new ExpenseTracker();
    var s := tracker.AddTransaction(5000, "", 0);
    assert tracker.transactions[0].category == General;
    assert tracker.ShowBalanceByCategory(General) == Err(UnknownCategory);
  }

  method RejectionSession()
  {
    var tracker := new ExpenseTracker();
    var s := tracker.AddTransaction(-1000, "Unknown", 0);
    assert s == Rejected(UnknownCategory) && tracker.ShowBalance() == 0;
    s := tracker.AddCategory("Food");
    assert s == Rejected(DuplicateCategory);
    var u := tracker.UndoLastTransaction();
    assert u == Err(EmptyLedger);
  }

  method CategoryBalanceSession()
  {
    var tracker := new ExpenseTracker();
    var s := tracker.AddTransaction(10000, "Food", 0);
    var first := tracker.transactions[0];
    CategoryTotalAppend([], first, "Food");
    assert [first] == [] + [first];
    s := tracker.AddTransaction(-3000, "Food", 1);
    CategoryTotalAppend([first], tracker.transactions[1], "Food");
    assert tracker.ShowBalanceByCategory("Food") == Ok(7000);
  }

  /** A zero amount is listed as income. */
  method ZeroAmountSession()
  {
    var tracker := new ExpenseTracker();
    var s := tracker.AddTransaction(0, "Food", 0);
    assert tracker.ShowHistory()[0].kind == Income;
  }
}
