/**
 * ModelManager: the in-memory model the commands act on. It owns a copy of the store, the
 * predicate behind the displayed (filtered) list, the running balance, the budgets and the
 * undo/redo history. The history is generic in the command type so that the commands can be
 * modelled in a module of their own.
 */
module Models {
  import opened Wrappers
  import opened Indexes
  import opened Sequences
  import opened CurrencyUtil
  import opened Values
  import opened Transactions
  import opened Budgets
  import opened ThriftStore

  /** The predicate of the displayed list. */
  datatype TransactionFilter =
    | ShowAll
    | InMonthYear(period: MonthYear)
    | Matching(p: Transaction -> bool)

  predicate Shows(f: TransactionFilter, t: Transaction) {
    match f
    case ShowAll => true
    case InMonthYear(period) => t.date.month == period.month && t.date.year == period.year
    case Matching(p) => p(t)
  }

  function ShowsFn(f: TransactionFilter): Transaction -> bool {
    t => Shows(f, t)
  }

  /** The displayed list: the store elements the filter shows, in store order. */
  function Displayed(store: seq<Transaction>, f: TransactionFilter): (r: seq<Transaction>)
    ensures |r| <= |store|
    ensures forall i :: 0 <= i < |r| ==> r[i] in store && Shows(f, r[i])
    ensures forall i :: 0 <= i < |store| && Shows(f, store[i]) ==> store[i] in r
  {
    Filter(store, ShowsFn(f))
  }

  /** With the show-all predicate the displayed list is the whole store. */
  lemma ShowAllDisplaysStore(store: seq<Transaction>)
    ensures Displayed(store, ShowAll) == store
  {
    FilterKeepsAll(store, ShowsFn(ShowAll));
  }

  /** An empty store displays nothing, whatever the filter. */
  lemma EmptyStoreDisplaysNothing(f: TransactionFilter)
    ensures Displayed([], f) == []
  {
  }

  /** A transaction's contribution to the balance: its monetary value, negated for an expense. */
  function SignedValue(t: Transaction, rates: Rates): real {
    var v := MonetaryValue(t.value, rates);
    if t.Expense? then -v else v
  }

  /** The sum updateBalance adds: signed values over a list. */
  function BalanceDelta(ts: seq<Transaction>, rates: Rates): real {
    if ts == [] then 0.0 else SignedValue(ts[0], rates) + BalanceDelta(ts[1..], rates)
  }

  /** The plain sum of the monetary values of a list. */
  function Total(ts: seq<Transaction>, rates: Rates): real {
    if ts == [] then 0.0 else MonetaryValue(ts[0].value, rates) + Total(ts[1..], rates)
  }

  function IsIncomeFn(): Transaction -> bool {
    (t: Transaction) => t.Income?
  }

  function IsExpenseFn(): Transaction -> bool {
    (t: Transaction) => t.Expense?
  }

  /** The sum over a concatenation is the sum of the two sums. */
  lemma {:induction false} BalanceDeltaAppend(a: seq<Transaction>, b: seq<Transaction>, rates: Rates)
    ensures BalanceDelta(a + b, rates) == BalanceDelta(a, rates) + BalanceDelta(b, rates)
  {
    if a == [] {
      assert a + b == b;
    } else {
      assert (a + b)[1..] == a[1..] + b;
      BalanceDeltaAppend(a[1..], b, rates);
    }
  }

  /** The balance change equals the income total minus the expense total. */
  lemma {:induction false} BalanceIsIncomeMinusExpense(ts: seq<Transaction>, rates: Rates)
    ensures BalanceDelta(ts, rates) ==
            Total(Filter(ts, IsIncomeFn()), rates) - Total(Filter(ts, IsExpenseFn()), rates)
  {
    if ts != [] {
      BalanceIsIncomeMinusExpense(ts[1..], rates);
    }
  }

  class ModelManager<C> {
    const thrift: Thrift
    const currentMonthYear: MonthYear
    var filter: TransactionFilter
    var balance: real
    var budgets: map<MonthYear, Budget>
    var undoStack: seq<C>
    var redoStack: seq<C>

    /**
     * The model works on a fresh copy of the given store, shows everything and starts the
     * balance at 1. The current month is the clock's reading, given here as a parameter.
     */
    constructor(source: Thrift, pastUndo: seq<C>, pastRedo: seq<C>, now: MonthYear)
      ensures fresh(thrift) && thrift.transactions == source.transactions
      ensures filter == ShowAll && balance == 1.0 && budgets == map[]
      ensures undoStack == pastUndo && redoStack == pastRedo && currentMonthYear == now
    {
      thrift := new Thrift.Copy(source);
      currentMonthYear := now;
      filter := ShowAll;
      balance := 1.0;
      budgets := map[];
      undoStack := pastUndo;
      redoStack := pastRedo;
    }

    /** Everything outside the store and the filter keeps its value. */
    twostate predicate LedgerAndHistoryUnchanged()
      reads this
    {
      old(balance) == balance && old(budgets) == budgets &&
      old(undoStack) == undoStack && old(redoStack) == redoStack
    }

    /** The displayed list, derived from the store and the current predicate. */
    function FilteredList(): (r: seq<Transaction>)
      reads this, thrift
      ensures r == Displayed(thrift.transactions, filter)
      ensures filter == ShowAll ==> r == thrift.transactions
    {
      ShowAllDisplaysStore(thrift.transactions);
      Displayed(thrift.transactions, filter)
    }

    /** setThrift: take over the other store's list; the predicate of the displayed list is kept. */
    method SetThrift(data: Thrift)
      modifies thrift
      ensures thrift.transactions == old(data.transactions)
      ensures filter == old(filter) && FilteredList() == Displayed(thrift.transactions, filter)
      ensures LedgerAndHistoryUnchanged()
    {
      thrift.ResetData(data);
    }

    /** hasTransaction: the store holds t, exactly when t has a position in it. */
    function HasTransaction(t: Transaction): (r: bool)
      reads this, thrift
      ensures r <==> GetIndexInFullTransactionList(t).Some?
    {
      thrift.HasTransaction(t)
    }

    /** getIndexInFullTransactionList: the store position of the first element equal to t. */
    function GetIndexInFullTransactionList(t: Transaction): (r: Option<Index>)
      reads this, thrift
      ensures r.Some? <==> t in thrift.transactions
      ensures r.Some? ==> r.value.zeroBased < |thrift.transactions| && thrift.transactions[r.value.zeroBased] == t
      ensures r.Some? ==> forall j :: 0 <= j < r.value.zeroBased ==> thrift.transactions[j] != t
    {
      thrift.GetTransactionIndex(t)
    }

    /** deleteTransaction(Transaction): remove the first equal element; the filter is not reset. */
    method DeleteTransaction(t: Transaction) returns (ok: bool)
      modifies thrift
      ensures ok <==> t in old(thrift.transactions)
      ensures ok ==> thrift.transactions == RemoveAt(old(thrift.transactions), IndexOf(old(thrift.transactions), t).value)
      ensures !ok ==> thrift.transactions == old(thrift.transactions)
    {
      ok := thrift.RemoveTransaction(t);
    }

    /** deleteTransaction(Index): remove at a store position, then show everything. */
    method DeleteTransactionAt(index: Index) returns (ok: bool)
      modifies this, thrift
      ensures ok <==> index.zeroBased < |old(thrift.transactions)|
      ensures ok ==> thrift.transactions == RemoveAt(old(thrift.transactions), index.zeroBased)
      ensures !ok ==> thrift.transactions == old(thrift.transactions)
      ensures ok ==> filter == ShowAll
      ensures !ok ==> filter == old(filter)
      ensures LedgerAndHistoryUnchanged()
    {
      ok := thrift.RemoveTransactionByIndex(index);
      if ok {
        UpdateFilteredTransactionList(ShowAll);
      }
    }

    /** deleteLastTransaction: remove the final element, then show everything. */
    method DeleteLastTransaction() returns (ok: bool)
      modifies this, thrift
      ensures ok <==> |old(thrift.transactions)| > 0
      ensures ok ==> thrift.transactions == old(thrift.transactions)[..|old(thrift.transactions)| - 1]
      ensures !ok ==> thrift.transactions == old(thrift.transactions)
      ensures ok ==> filter == ShowAll
      ensures !ok ==> filter == old(filter)
      ensures LedgerAndHistoryUnchanged()
    {
      ok := thrift.RemoveLastTransaction();
      if ok {
        UpdateFilteredTransactionList(ShowAll);
      }
    }

    /** addExpense(expense): append, then show everything. */
    method AddExpense(expense: Transaction)
      requires expense.Expense?
      modifies this, thrift
      ensures thrift.transactions == old(thrift.transactions) + [expense]
      ensures filter == ShowAll && FilteredList() == thrift.transactions
      ensures LedgerAndHistoryUnchanged()
    {
      thrift.AddTransaction(expense);
      UpdateFilteredTransactionList(ShowAll);
    }

    /** addExpense(expense, index): insert at a store position, then show everything. */
    method AddExpenseAt(expense: Transaction, index: Index) returns (ok: bool)
      requires expense.Expense?
      modifies this, thrift
      ensures ok <==> index.zeroBased <= |old(thrift.transactions)|
      ensures ok ==> thrift.transactions == InsertAt(old(thrift.transactions), index.zeroBased, expense)
      ensures !ok ==> thrift.transactions == old(thrift.transactions)
      ensures ok ==> filter == ShowAll
      ensures !ok ==> filter == old(filter)
      ensures LedgerAndHistoryUnchanged()
    {
      ok := thrift.AddTransactionAt(expense, index);
      if ok {
        UpdateFilteredTransactionList(ShowAll);
      }
    }

    /** addIncome(income): append, then show everything. */
    method AddIncome(income: Transaction)
      requires income.Income?
      modifies this, thrift
      ensures thrift.transactions == old(thrift.transactions) + [income]
      ensures filter == ShowAll && FilteredList() == thrift.transactions
      ensures LedgerAndHistoryUnchanged()
    {
      thrift.AddTransaction(income);
      UpdateFilteredTransactionList(ShowAll);
    }

    /** addIncome(income, index): insert at a store position, then show everything. */
    method AddIncomeAt(income: Transaction, index: Index) returns (ok: bool)
      requires income.Income?
      modifies this, thrift
      ensures ok <==> index.zeroBased <= |old(thrift.transactions)|
      ensures ok ==> thrift.transactions == InsertAt(old(thrift.transactions), index.zeroBased, income)
      ensures !ok ==> thrift.transactions == old(thrift.transactions)
      ensures ok ==> filter == ShowAll
      ensures !ok ==> filter == old(filter)
      ensures LedgerAndHistoryUnchanged()
    {
      ok := thrift.AddTransactionAt(income, index);
      if ok {
        UpdateFilteredTransactionList(ShowAll);
      }
    }

    /**
     * getCurrentMonthBudget: the budget of the current month, scaled by its currency's rate
     * (unknown codes keep the amount), or 0 when no budget is set for the month.
     */
    function GetCurrentMonthBudget(rates: Rates): (r: real)
      reads this
      ensures currentMonthYear !in budgets ==> r == 0.0
      ensures currentMonthYear in budgets && RateOf(rates, budgets[currentMonthYear].value.currency).Some? ==>
                r == budgets[currentMonthYear].value.amount * RateOf(rates, budgets[currentMonthYear].value.currency).value
      ensures currentMonthYear in budgets && RateOf(rates, budgets[currentMonthYear].value.currency).None? ==>
                r == budgets[currentMonthYear].value.amount
    {
      if currentMonthYear in budgets then MonetaryValue(budgets[currentMonthYear].value, rates) else 0.0
    }

    /** setBudget: a budget replaces any earlier one for the same month. */
    method SetBudget(budget: Budget)
      modifies this
      ensures budgets == old(budgets)[budget.period := budget]
      ensures filter == old(filter) && balance == old(balance)
      ensures undoStack == old(undoStack) && redoStack == old(redoStack)
    {
      budgets := budgets[budget.period := budget];
    }

    /** setTransaction: replace the first element equal to target, then show everything. */
    method SetTransaction(target: Transaction, updated: Transaction) returns (ok: bool)
      modifies this, thrift
      ensures ok <==> target in old(thrift.transactions)
      ensures ok ==> thrift.transactions == old(thrift.transactions)[IndexOf(old(thrift.transactions), target).value := updated]
      ensures !ok ==> thrift.transactions == old(thrift.transactions)
      ensures ok ==> filter == ShowAll
      ensures !ok ==> filter == old(filter)
      ensures LedgerAndHistoryUnchanged()
    {
      ok := thrift.SetTransaction(target, updated);
      if ok {
        UpdateFilteredTransactionList(ShowAll);
      }
    }

    /** setTransactionWithIndex: replace at a store position, then show everything. */
    method SetTransactionWithIndex(actualIndex: Index, updated: Transaction) returns (ok: bool)
      modifies this, thrift
      ensures ok <==> actualIndex.zeroBased < |old(thrift.transactions)|
      ensures ok ==> thrift.transactions == old(thrift.transactions)[actualIndex.zeroBased := updated]
      ensures !ok ==> thrift.transactions == old(thrift.transactions)
      ensures ok ==> filter == ShowAll
      ensures !ok ==> filter == old(filter)
      ensures LedgerAndHistoryUnchanged()
    {
      ok := thrift.SetTransactionWithIndex(actualIndex, updated);
      if ok {
        UpdateFilteredTransactionList(ShowAll);
      }
    }

    function GetLastTransactionFromThrift(): (r: Option<Transaction>)
      reads this, thrift
      ensures r.Some? <==> |thrift.transactions| > 0
      ensures r.Some? ==> r.value == thrift.transactions[|thrift.transactions| - 1]
    {
      thrift.GetLastTransaction()
    }

    /** Show only the transactions dated in the current month. */
    method UpdateFilteredTransactionListToCurrentMonth()
      modifies this
      ensures filter == InMonthYear(currentMonthYear)
      ensures forall t :: t in FilteredList() ==> t.date.month == currentMonthYear.month && t.date.year == currentMonthYear.year
      ensures LedgerAndHistoryUnchanged()
    {
      filter := InMonthYear(currentMonthYear);
      var shown := FilteredList();
      assert forall i :: 0 <= i < |shown| ==> Shows(filter, shown[i]);
    }

    method UpdateFilteredTransactionList(f: TransactionFilter)
      modifies this
      ensures filter == f
      ensures LedgerAndHistoryUnchanged()
    {
      filter := f;
    }

    /** updateBalance: add the signed sum over the displayed list to the running balance. */
    method UpdateBalance(rates: Rates)
      modifies this
      ensures balance == old(balance) + BalanceDelta(FilteredList(), rates)
      ensures filter == old(filter) && budgets == old(budgets)
      ensures undoStack == old(undoStack) && redoStack == old(redoStack)
    {
      balance := balance + BalanceDelta(FilteredList(), rates);
    }

    /** getBalance: the running balance that UpdateBalance accumulates. */
    function GetBalance(): (r: real)
      reads this
      ensures r == balance
    {
      balance
    }

    /** equals: equal stores and equal displayed lists (user preferences are not modelled). */
    function Equals(other: ModelManager<C>): (r: bool)
      reads this, thrift, other, other.thrift
      ensures other == this ==> r
      ensures r ==> forall t :: HasTransaction(t) <==> other.HasTransaction(t)
      ensures r ==> GetLastTransactionFromThrift() == other.GetLastTransactionFromThrift()
      ensures r ==> thrift.transactions == other.thrift.transactions && FilteredList() == other.FilteredList()
      ensures thrift.Equals(other.thrift) && filter == other.filter ==> r
    {
      thrift.Equals(other.thrift) && FilteredList() == other.FilteredList()
    }

    /** keepTrackCommands: push onto the undo stack. */
    method KeepTrackCommands(command: C)
      modifies this
      ensures undoStack == old(undoStack) + [command] && redoStack == old(redoStack)
      ensures filter == old(filter) && balance == old(balance) && budgets == old(budgets)
    {
      undoStack := undoStack + [command];
    }

    /** getPreviousUndoableCommand: pop the undo stack and push the command onto the redo stack. */
    method GetPreviousUndoableCommand() returns (command: Option<C>)
      modifies this
      ensures old(undoStack) == [] ==> command.None? && undoStack == old(undoStack) && redoStack == old(redoStack)
      ensures old(undoStack) != [] ==>
                command == Some(old(undoStack)[|old(undoStack)| - 1]) &&
                undoStack == old(undoStack)[..|old(undoStack)| - 1] &&
                redoStack == old(redoStack) + [command.value]
      ensures filter == old(filter) && balance == old(balance) && budgets == old(budgets)
    {
      if undoStack == [] {
        command := None;
      } else {
        var top := undoStack[|undoStack| - 1];
        undoStack := undoStack[..|undoStack| - 1];
        redoStack := redoStack + [top];
        command := Some(top);
      }
    }

    /** hasUndoableCommand: the undo stack is not empty, so getPreviousUndoableCommand yields a command. */
    function HasUndoableCommand(): (r: bool)
      reads this
      ensures r <==> |undoStack| > 0
    {
      undoStack != []
    }

    /** getUndoneCommand: pop the redo stack and push the command back onto the undo stack. */
    method GetUndoneCommand() returns (command: Option<C>)
      modifies this
      ensures old(redoStack) == [] ==> command.None? && undoStack == old(undoStack) && redoStack == old(redoStack)
      ensures old(redoStack) != [] ==>
                command == Some(old(redoStack)[|old(redoStack)| - 1]) &&
                redoStack == old(redoStack)[..|old(redoStack)| - 1] &&
                undoStack == old(undoStack) + [command.value]
      ensures filter == old(filter) && balance == old(balance) && budgets == old(budgets)
    {
      if redoStack == [] {
        command := None;
      } else {
        var top := redoStack[|redoStack| - 1];
        redoStack := redoStack[..|redoStack| - 1];
        undoStack := undoStack + [top];
        command := Some(top);
      }
    }

    /** hasUndoneCommand: the redo stack is not empty, so getUndoneCommand yields a command. */
    function HasUndoneCommand(): (r: bool)
      reads this
      ensures r <==> |redoStack| > 0
    {
      redoStack != []
    }
  }

  /** Mutating the model leaves the store it was built from untouched. */
  method ModelCopiesSource(initial: seq<Transaction>, e: Transaction, now: MonthYear)
    returns (sourceAfter: seq<Transaction>, modelAfter: seq<Transaction>)
    requires e.Expense?
    ensures sourceAfter == initial && modelAfter == initial + [e]
  {
    var source := new Thrift();
    source.SetTransactions(initial);
    var model := new ModelManager<int>(source, [], [], now);
    model.AddExpense(e);
    sourceAfter := source.transactions;
    modelAfter := model.thrift.transactions;
  }

  /** The balance accumulates: two refreshes over the same list add the sum twice to the initial 1. */
  method BalanceAccumulates(initial: seq<Transaction>, rates: Rates, now: MonthYear) returns (b: real)
    ensures b == 1.0 + 2.0 * BalanceDelta(initial, rates)
  {
    var source := new Thrift();
    source.SetTransactions(initial);
    var model := new ModelManager<int>(source, [], [], now);
    model.UpdateBalance(rates);
    model.UpdateBalance(rates);
    b := model.GetBalance();
  }

  /** The current-month budget is the stored one, a later budget for the month replaces it, and other months do not count. */
  method CurrentMonthBudget(first: Budget, second: Budget, other: Budget, rates: Rates)
    returns (none: real, afterFirst: real, afterSecond: real, afterOther: real)
    requires first.period == second.period && other.period != first.period
    ensures none == 0.0
    ensures afterFirst == MonetaryValue(first.value, rates)
    ensures afterSecond == MonetaryValue(second.value, rates)
    ensures afterOther == afterSecond
  {
    var source := new Thrift();
    var model := new ModelManager<int>(source, [], [], first.period);
    none := model.GetCurrentMonthBudget(rates);
    model.SetBudget(first);
    afterFirst := model.GetCurrentMonthBudget(rates);
    model.SetBudget(second);
    afterSecond := model.GetCurrentMonthBudget(rates);
    model.SetBudget(other);
    afterOther := model.GetCurrentMonthBudget(rates);
  }

  /** Undo then redo of a tracked command hands back that command each time and restores both stacks. */
  method HistoryRoundTrip(c: int, now: MonthYear) returns (undone: Option<int>, redone: Option<int>, canUndo: bool, canRedo: bool)
    ensures undone == Some(c) && redone == Some(c)
    ensures canUndo && !canRedo
  {
    var source := new Thrift();
    var model := new ModelManager<int>(source, [], [], now);
    model.KeepTrackCommands(c);
    undone := model.GetPreviousUndoableCommand();
    redone := model.GetUndoneCommand();
    canUndo := model.HasUndoableCommand();
    canRedo := model.HasUndoneCommand();
  }
}
