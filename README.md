# THRIFT finance tracker: a Dafny model of the model and command core

THRIFT records expense and income transactions in an ordered store. Its commands act on the
model: adding, cloning, tagging and clearing, with undo and redo for the undoable ones. Around
that core sit the value objects (amount and currency, budget periods, expenses and incomes),
the currency conversions and the argument parsers. This project models:

- the value objects and their validators (`Values`, `Budgets`, `Transactions`);
- the currency rate table and the conversions (`CurrencyUtil`);
- the store (`ThriftStore.Thrift`, a class over a `seq<Transaction>`);
- the model (`Models.ModelManager`, a class holding the store, the filter of the displayed list,
  the running balance, the budgets and the two history stacks);
- the commands (`Commands`: add_expense, clone, tag and clear, with undo and redo);
- the parsers (`Parsers`: ParserUtil and TagCommandParser).

The model states and proves what these promise. Some contracts are about one call: what an
operation returns, how it changes the state, and what stays unchanged. Others are lemmas that
relate several calls, such as round trips, undo followed by redo, or parsing that ignores
padding. `Text` and `Sequences` hold the string and list helpers they rely on.

Amounts, rates and the balance are `real`, so conversions are exact. The clock ("today", the
current month) is a parameter, and so are the rate table and the tag-name rule.

## Model

| member | source | states |
|---|---|---|
| Values.ValidValueIffRegex | src/main/java/thrift/model/transaction/Value.java:22 | The scanner accepts an amount string exactly when it has the form the pattern describes: 1-9 digits, then optionally '.' and 0-2 digits, with at least one digit 1-9 somewhere. Both directions are proved. |
| Values.DigitRun | src/main/java/thrift/model/transaction/Value.java:22 | The leading digit run: every character in it is a digit, and the character after it is not. |
| Values.RejectedAmounts | src/main/java/thrift/model/transaction/Value.java:22 | "0", "0.00", ".00" and "" are rejected. |
| Values.RejectedLongAmounts | src/main/java/thrift/model/transaction/Value.java:17-22 | Ten integer digits and three decimals are both rejected. |
| Values.AcceptedAmounts | src/main/java/thrift/model/transaction/Value.java:22 | "5." and "0.01" are accepted, with amounts 5 and 0.01. |
| Values.AcceptedTestAmounts | src/main/java/thrift/model/transaction/Value.java:22 | "3.50" reads as 3.5 and "350" as 350. |
| Values.AmountOf | src/main/java/thrift/model/transaction/Value.java:17-40 | The amount of every valid string is positive and below one billion. |
| Values.IntegerDigits | src/main/java/thrift/model/transaction/Value.java:22 | The integer part of a valid amount is a string of 1 to 9 digits. |
| Values.FractionDigits | src/main/java/thrift/model/transaction/Value.java:22 | The fraction part of a valid amount is at most 2 digits. |
| Values.AmountBounds | src/main/java/thrift/model/transaction/Value.java:17-22 | A valid amount lies strictly between 0 and 10^9. |
| Values.Pow10Monotone | src/main/java/thrift/model/transaction/Value.java:22 | 10^a <= 10^b when a <= b (used for the bound). |
| Values.DefaultCurrencies | src/main/java/thrift/model/transaction/Value.java:63-66 | With the default table, a code is valid exactly when it is SGD, MYR, USD or EUR. The check is case-sensitive ("sgd" is refused). |
| Values.NewValue | src/main/java/thrift/model/transaction/Value.java:35-40 | Succeeds exactly when the amount is valid; the currency is then always SGD. |
| Values.NewValueIn | src/main/java/thrift/model/transaction/Value.java:48-55 | Succeeds exactly when both amount and currency are valid. The amount is checked first. Both are stored unchanged. |
| Values.MonetaryValueOfDefaultCurrency | src/main/java/thrift/model/transaction/Value.java:83-86 | An SGD value's monetary value is its amount when SGD's rate is 1. |
| Values.MonetaryValue | src/main/java/thrift/model/transaction/Value.java:83-86 | The amount times its currency's rate when the upper-cased code is in the table; the amount unchanged otherwise. |
| Values.Equals | src/main/java/thrift/model/transaction/Value.java:101-107 | Holds exactly when amount and currency are equal. |
| Values.HashRespectsEquals | src/main/java/thrift/model/transaction/Value.java:109-112 | Equal values hash equally. So do values that differ only in currency, because only the amount is hashed. |
| Values.Hash | src/main/java/thrift/model/transaction/Value.java:109-112 | The hash is the hash of the amount alone. This ensures only restates the body; HashRespectsEquals is the lemma that states that the currency never changes the hash. |
| CurrencyUtil.DefaultRates | src/main/java/thrift/model/util/CurrencyUtil.java:19-23 | The default table has exactly the keys SGD, MYR, USD and EUR. |
| CurrencyUtil.DefaultRatesNonZero | src/main/java/thrift/model/util/CurrencyUtil.java:19-23 | No default rate is zero. |
| CurrencyUtil.CurrencyRegistry.constructor | src/main/java/thrift/model/util/CurrencyUtil.java:15 | The static table starts unset. |
| CurrencyUtil.CurrencyRegistry.GetCurrencyMap | src/main/java/thrift/model/util/CurrencyUtil.java:17-26 | Builds the default table only when none is set and then keeps it; otherwise returns the stored table unchanged. |
| CurrencyUtil.CurrencyRegistry.SetCurrencyMap | src/main/java/thrift/model/util/CurrencyUtil.java:28-30 | Stores the given table. |
| CurrencyUtil.GetTwiceFromFresh | src/main/java/thrift/model/util/CurrencyUtil.java:17-26 | The first call returns the default table, and a second call returns the same table. |
| CurrencyUtil.SetThenGet | src/main/java/thrift/model/util/CurrencyUtil.java:17-30 | After setting a table, getting returns that table. |
| CurrencyUtil.ConvertFromDefault | src/main/java/thrift/model/util/CurrencyUtil.java:42-53 | The value times the rate of the upper-cased code when the code is in the table, and the value unchanged otherwise. |
| CurrencyUtil.ConvertToDefault | src/main/java/thrift/model/util/CurrencyUtil.java:65-74 | The value divided by the rate of the upper-cased code when the code is in the table, and the value unchanged otherwise. Only the rate divided by must be non-zero. |
| CurrencyUtil.Convert | src/main/java/thrift/model/util/CurrencyUtil.java:85-95 | Closed form: the value divided by the source rate and multiplied by the target rate, where a code missing from the table contributes no factor. Only the source rate must be non-zero. |
| CurrencyUtil.RateOfIgnoresCase | src/main/java/thrift/model/util/CurrencyUtil.java:42-74 | The rate lookup gives the same answer for a code and its upper-cased form. |
| CurrencyUtil.ConvertFromDefaultIgnoresCase | src/main/java/thrift/model/util/CurrencyUtil.java:47-48 | Conversion from SGD gives the same result for lower- and upper-case codes. |
| CurrencyUtil.ToDefaultUndoesFromDefault | src/main/java/thrift/model/util/CurrencyUtil.java:42-74 | With non-zero rates, converting to SGD undoes converting from SGD. |
| CurrencyUtil.FromDefaultUndoesToDefault | src/main/java/thrift/model/util/CurrencyUtil.java:42-74 | With non-zero rates, converting from SGD undoes converting to SGD. |
| CurrencyUtil.ConvertSameCurrency | src/main/java/thrift/model/util/CurrencyUtil.java:85-95 | Converting a value to its own currency gives it back. |
| CurrencyUtil.ConvertRoundTrip | src/main/java/thrift/model/util/CurrencyUtil.java:85-95 | Converting there and back again gives the value back. |
| CurrencyUtil.DefaultConversions | src/main/java/thrift/model/util/CurrencyUtil.java:17-95 | 1000 SGD is 3030 MYR, and 100 USD is between 136.98 and 136.99 SGD. Lower-case codes work. |
| CurrencyUtil.UnknownCurrenciesPassThrough | src/main/java/thrift/model/util/CurrencyUtil.java:42-74 | A code missing from the table leaves every conversion unchanged. |
| Transactions.ExpenseEquals | src/main/java/thrift/model/transaction/Expense.java:80-95 | Holds exactly when the other transaction is an expense with equal description, date, value and tags, that is, the same record. |
| Transactions.IncomeEquals | src/main/java/thrift/model/transaction/Income.java:75-91 | Holds exactly when the other transaction is an income with equal description, date, value, remark and tags. |
| Transactions.IsSameTransaction | src/main/java/thrift/model/transaction/Expense.java:58-66 | Holds exactly when description and value are equal; kind, date, remark and tags are ignored. |
| Transactions.EqualsImpliesSame | src/main/java/thrift/model/transaction/Expense.java:58-95 | Equal transactions are the same transaction in the weaker isSameTransaction sense. |
| Transactions.SameAcrossKinds | src/main/java/thrift/model/transaction/Expense.java:58-66 | An expense and an income with equal description and value count as the same, although they are not equal. |
| Transactions.HashRespectsEquals | src/main/java/thrift/model/transaction/Income.java:93-97 | Equal transactions hash alike. Incomes that differ only in remark also hash alike, because the remark is not hashed, and so do transactions whose values differ only in currency, because a value hashes its amount only. |
| Transactions.ExpenseRecord.constructor | src/main/java/thrift/model/transaction/Expense.java:26-32 | The flag starts false, and the expense is stored as given. |
| Transactions.ExpenseRecord.SetIsJustUpdated | src/main/java/thrift/model/transaction/Expense.java:72-74 | The flag becomes true. |
| Transactions.ExpenseRecord.SetNotJustUpdated | src/main/java/thrift/model/transaction/Expense.java:76-78 | The flag becomes false. |
| Transactions.FlagIgnoredByEquals | src/main/java/thrift/model/transaction/Expense.java:68-95 | Raising the flag on one of two records of the same expense leaves them equal. Clearing it makes it false again. |
| Budgets.ValidPeriodMeaning | src/main/java/thrift/model/transaction/Budget.java:16 | A period string is valid exactly when it is a two-digit month whose value is 1 to 12, then '/', then four digits. |
| Budgets.IsValidPeriod | src/main/java/thrift/model/transaction/Budget.java:16 | A valid period has seven characters with '/' third; the first two are digits naming 1 to 12 and the last four are digits. |
| Budgets.RejectedPeriods | src/main/java/thrift/model/transaction/Budget.java:16 | "13/2019", "1/2019", "00/2019" and "03/19" are rejected; "01/2019" and "12/2019" are accepted. |
| Budgets.PeriodOf | src/main/java/thrift/model/transaction/Budget.java:14-16 | A valid period reads as a month in 1..12 and a year in 0..9999. |
| Budgets.PeriodTextRoundTrip | src/main/java/thrift/model/transaction/Budget.java:14-16 | Every month 1..12 and year 0..9999, written zero-padded as MM/yyyy, is a valid period that reads back as that month and year. |
| Budgets.PeriodOfRoundTrip | src/main/java/thrift/model/transaction/Budget.java:14-16 | Every valid period string is exactly the zero-padded text of the month and year it reads as. |
| Budgets.Equals | src/main/java/thrift/model/transaction/Budget.java:38-51 | Holds exactly when period and value are equal. |
| Budgets.HashRespectsEquals | src/main/java/thrift/model/transaction/Budget.java:53-56 | Equal budgets hash equally, and so do budgets whose values differ only in currency, because a value hashes its amount only. |
| Sequences.IndexOf | src/main/java/thrift/model/Thrift.java:118-121 | The position of the first element equal to x. It is present exactly when x is in the list. |
| Sequences.InsertAt | src/main/java/thrift/model/Thrift.java:71-73 | Inserting puts x at position i and shifts the later elements up by one. |
| Sequences.RemoveAt | src/main/java/thrift/model/Thrift.java:99-101 | Removing deletes position i and shifts the later elements down by one. |
| Sequences.RemoveUndoesInsert | src/main/java/thrift/model/Thrift.java:71-101 | Removing at the insertion position restores the list. |
| Sequences.Filter | src/main/java/thrift/model/ModelManager.java:197-212 | The kept elements are elements of the list that satisfy the predicate. Every satisfying element is kept. |
| Sequences.FilterAppend | src/main/java/thrift/model/ModelManager.java:49 | Filtering commutes with concatenation, so store order is kept. |
| Sequences.FilterKeepsAll | src/main/java/thrift/model/ModelManager.java:125 | A predicate true of every element keeps the whole list. |
| ThriftStore.Thrift.constructor | src/main/java/thrift/model/Thrift.java:27-31 | A new store is empty. |
| ThriftStore.Thrift.Copy | src/main/java/thrift/model/Thrift.java:36-39 | The copy holds the other store's list. |
| ThriftStore.Thrift.SetTransactions | src/main/java/thrift/model/Thrift.java:46-48 | The list becomes the given one. |
| ThriftStore.Thrift.ResetData | src/main/java/thrift/model/Thrift.java:53-57 | The list becomes the other store's list, and the two stores are then equal. |
| ThriftStore.Thrift.AddTransaction | src/main/java/thrift/model/Thrift.java:64-66 | The transaction is appended. |
| ThriftStore.Thrift.AddTransactionAt | src/main/java/thrift/model/Thrift.java:71-73 | Inserts at the position; a position past the end is refused and nothing changes. |
| ThriftStore.Thrift.SetTransaction | src/main/java/thrift/model/Thrift.java:75-85 | Replaces the first element equal to the target. The length and every other element are unchanged. An absent target is refused. |
| ThriftStore.Thrift.SetTransactionWithIndex | src/main/java/thrift/model/ModelManager.java:181-185 | Replaces the element at a store position; a position outside the store is refused. |
| ThriftStore.Thrift.RemoveTransaction | src/main/java/thrift/model/Thrift.java:95-101 | Removes the first element equal to the key; an absent key is refused. |
| ThriftStore.Thrift.RemoveTransactionByIndex | src/main/java/thrift/model/ModelManager.java:123-126 | Removes the element at a store position; a position outside the store is refused. |
| ThriftStore.Thrift.RemoveLastTransaction | src/main/java/thrift/model/Thrift.java:103-108 | Removes exactly the final element; an empty store is refused. |
| ThriftStore.Thrift.GetTransactionIndex | src/main/java/thrift/model/Thrift.java:118-121 | The index of the first equal element, present exactly when some element is equal. |
| ThriftStore.Thrift.HasTransaction | src/main/java/thrift/model/Thrift.java:90-93 | Holds exactly when some position holds t, that is, exactly when getTransactionIndex finds it. |
| ThriftStore.Thrift.GetLastTransaction | src/main/java/thrift/model/ModelManager.java:187-190 | Present exactly when the store is not empty; the store is then its first n-1 elements followed by that transaction. |
| ThriftStore.Thrift.Equals | src/main/java/thrift/model/Thrift.java:135-139 | Holds exactly when both lists have the same length and equal elements at every position. |
| ThriftStore.HasAfterAdd | src/main/java/thrift/model/Thrift.java:64-93 | hasTransaction is false on a new store and true after adding that transaction. |
| ThriftStore.AddThenRemoveLast | src/main/java/thrift/model/Thrift.java:64-108 | Adding then removing the last transaction restores the list. |
| ThriftStore.InsertThenRemoveAt | src/main/java/thrift/model/Thrift.java:71-73 | Inserting at a position and removing there restores the list. |
| Models.Displayed | src/main/java/thrift/model/ModelManager.java:197-212 | The displayed list is the store elements the filter shows, in store order. |
| Models.ShowAllDisplaysStore | src/main/java/thrift/model/ModelManager.java:122-138 | With the show-all filter, the displayed list is the whole store. |
| Models.EmptyStoreDisplaysNothing | src/main/java/thrift/model/ModelManager.java:41-53 | An empty store displays nothing under any filter. |
| Models.BalanceDeltaAppend | src/main/java/thrift/model/ModelManager.java:214-225 | The balance change over a concatenation is the sum of the two changes. |
| Models.BalanceIsIncomeMinusExpense | src/main/java/thrift/model/ModelManager.java:214-225 | The balance change is the total of the incomes minus the total of the expenses. |
| Models.ModelManager.constructor | src/main/java/thrift/model/ModelManager.java:41-53 | The model works on a fresh copy of the given store. It shows everything and starts the balance at 1. |
| Models.ModelManager.FilteredList | src/main/java/thrift/model/ModelManager.java:197-200 | The displayed list under the current filter. With the show-all filter it is the store. |
| Models.ModelManager.SetThrift | src/main/java/thrift/model/ModelManager.java:96-99 | The store takes the other store's list and the filter is kept, so the new list is displayed under the old predicate. Balance, budgets and history are unchanged. |
| Models.ModelManager.GetIndexInFullTransactionList | src/main/java/thrift/model/ModelManager.java:112-115 | The store position of the first equal element, present exactly when there is one. |
| Models.ModelManager.HasTransaction | src/main/java/thrift/model/ModelManager.java:106-110 | Holds exactly when getIndexInFullTransactionList finds a position for t. |
| Models.ModelManager.DeleteTransaction | src/main/java/thrift/model/ModelManager.java:117-120 | Removes the first equal element; the filter is not reset. |
| Models.ModelManager.DeleteTransactionAt | src/main/java/thrift/model/ModelManager.java:122-126 | Removes at a store position and resets the filter to show all. Balance, budgets and history are unchanged. |
| Models.ModelManager.DeleteLastTransaction | src/main/java/thrift/model/ModelManager.java:128-132 | Removes the last element and resets the filter to show all. |
| Models.ModelManager.AddExpense | src/main/java/thrift/model/ModelManager.java:134-138 | Appends and resets the filter; the displayed list is then the whole store. |
| Models.ModelManager.AddExpenseAt | src/main/java/thrift/model/ModelManager.java:140-144 | Inserts at a store position and resets the filter. A position past the end is refused, and then store and filter are unchanged. |
| Models.ModelManager.AddIncome | src/main/java/thrift/model/ModelManager.java:146-150 | Appends and resets the filter; the displayed list is then the whole store. |
| Models.ModelManager.AddIncomeAt | src/main/java/thrift/model/ModelManager.java:152-156 | Inserts at a store position and resets the filter. A position past the end is refused, and then store and filter are unchanged. |
| Models.ModelManager.SetBudget | src/main/java/thrift/model/ModelManager.java:168-171 | The budget replaces any earlier one for its month; nothing else changes. |
| Models.ModelManager.GetCurrentMonthBudget | src/main/java/thrift/model/ModelManager.java:158-166 | 0 when the current month has no budget; otherwise the budget amount times its currency's rate, or the amount itself for a code missing from the table. |
| Models.ModelManager.SetTransaction | src/main/java/thrift/model/ModelManager.java:173-178 | Replaces the first element equal to the target and resets the filter. An absent target is refused, and then store and filter are unchanged. |
| Models.ModelManager.SetTransactionWithIndex | src/main/java/thrift/model/ModelManager.java:180-185 | Replaces at a store position and resets the filter. A position outside the store is refused, and then store and filter are unchanged. |
| Models.ModelManager.GetLastTransactionFromThrift | src/main/java/thrift/model/ModelManager.java:187-190 | The final store element, present exactly when the store is not empty. |
| Models.ModelManager.UpdateFilteredTransactionListToCurrentMonth | src/main/java/thrift/model/ModelManager.java:202-206 | After the call, every displayed transaction is dated in the current month and year. |
| Models.ModelManager.UpdateFilteredTransactionList | src/main/java/thrift/model/ModelManager.java:208-212 | The filter becomes the given one. |
| Models.ModelManager.UpdateBalance | src/main/java/thrift/model/ModelManager.java:214-225 | Adds the signed sum over the displayed list to the balance, with expenses negated. |
| Models.ModelManager.GetBalance | src/main/java/thrift/model/ModelManager.java:227-230 | The running balance field, which UpdateBalance accumulates (see BalanceAccumulates). |
| Models.ModelManager.Equals | src/main/java/thrift/model/ModelManager.java:232-249 | A model equals itself; equal models have the same store list and the same displayed list, hence the same transactions and the same last transaction; equal stores under the same filter give equal models. |
| Models.ModelManager.KeepTrackCommands | src/main/java/thrift/model/ModelManager.java:252-255 | Pushes the command onto the undo stack; the redo stack is unchanged. |
| Models.ModelManager.GetPreviousUndoableCommand | src/main/java/thrift/model/ModelManager.java:257-260 | Pops the undo stack and pushes that command onto the redo stack. An empty stack gives nothing and changes nothing. |
| Models.ModelManager.HasUndoableCommand | src/main/java/thrift/model/ModelManager.java:262-265 | Holds exactly when the undo stack is not empty, that is, when getPreviousUndoableCommand yields a command. |
| Models.ModelManager.GetUndoneCommand | src/main/java/thrift/model/ModelManager.java:267-270 | Pops the redo stack and pushes that command back onto the undo stack. An empty stack gives nothing and changes nothing. |
| Models.ModelManager.HasUndoneCommand | src/main/java/thrift/model/ModelManager.java:272-275 | Holds exactly when the redo stack is not empty, that is, when getUndoneCommand yields a command. |
| Models.ModelCopiesSource | src/main/java/thrift/model/ModelManager.java:47 | Adding to the model leaves the store it was built from unchanged. |
| Models.BalanceAccumulates | src/main/java/thrift/model/ModelManager.java:214-225 | Two balance updates give 1 + 2 × the sum: the balance accumulates rather than being recomputed. |
| Models.CurrentMonthBudget | src/main/java/thrift/model/ModelManager.java:158-171 | The current-month budget is 0 when none is set, and the budget's monetary value once one is set. A later budget for the month replaces it. A budget for another month does not count. |
| Models.HistoryRoundTrip | src/main/java/thrift/model/ModelManager.java:252-275 | Track, undo and redo hand back the same command. Afterwards there is something to undo and nothing to redo. |
| Commands.AddExpenseCommand.constructor | src/main/java/thrift/logic/commands/AddExpenseCommand.java:34-37 | Wraps the given expense. |
| Commands.AddExpenseCommand.Execute | src/main/java/thrift/logic/commands/AddExpenseCommand.java:39-44 | Appends exactly the wrapped expense and never fails. There is no duplicate check. |
| Commands.AddExpenseCommand.Undo | src/test/java/thrift/logic/commands/AddExpenseCommandTest.java:53-78 | Drops the last transaction and resets the filter; on an empty store nothing changes. |
| Commands.AddExpenseCommand.Redo | src/test/java/thrift/logic/commands/AddExpenseCommandTest.java:53-78 | Appends the wrapped expense again and resets the filter. |
| Commands.AddExpenseCommand.Equals | src/main/java/thrift/logic/commands/AddExpenseCommand.java:46-51 | Holds exactly when the wrapped expenses are equal. |
| Commands.CreateClonedTransaction | src/main/java/thrift/logic/commands/CloneCommand.java:79-91 | The clone keeps the kind, description, value, remark and tags, and is dated today. It differs from the source only in its date. |
| Commands.CloneCommand.constructor | src/main/java/thrift/logic/commands/CloneCommand.java:47-51 | Stores the index; there is no clone yet. |
| Commands.CloneCommand.Execute | src/main/java/thrift/logic/commands/CloneCommand.java:53-71 | An index outside the displayed list is refused and nothing changes. Otherwise the clone of the displayed transaction is recorded and appended, and the filter is reset. |
| Commands.CloneCommand.Undo | src/main/java/thrift/logic/commands/CloneCommand.java:100-104 | Drops the last transaction and resets the filter; on an empty store nothing changes. |
| Commands.CloneCommand.Redo | src/main/java/thrift/logic/commands/CloneCommand.java:106-114 | Appends the recorded clone again and resets the filter. Fails when there is none, and then store and filter are unchanged. |
| Commands.CloneCommand.Equals | src/main/java/thrift/logic/commands/CloneCommand.java:93-98 | Compares the target index only. |
| Commands.UndoCommand | src/main/java/thrift/logic/commands/CloneCommand.java:100-104 | Undoing any history entry drops the last transaction and resets the filter; on an empty store nothing changes. |
| Commands.RedoCommand | src/main/java/thrift/logic/commands/CloneCommand.java:106-114 | Redoing an entry re-appends its transaction and resets the filter; a clone entry without a recorded clone changes nothing. |
| Commands.Tagged | src/main/java/thrift/logic/commands/TagCommand.java:86-119 | The tagged transaction keeps the kind, description, value, date and remark. Its tags are the old tags united with the supplied ones. |
| Commands.IgnoredAllIff | src/main/java/thrift/logic/commands/TagCommand.java:111-113 | Every supplied tag is ignored exactly when all of them are already present. |
| Commands.IgnoredCountIsIntersection | src/main/java/thrift/logic/commands/TagCommand.java:95-109 | The number of ignored tags is the size of the supplied set intersected with the old tags. |
| Commands.JoinSnoc | src/main/java/thrift/logic/commands/TagCommand.java:98-103 | The corrected listing adds a separator only when a name came before. |
| Commands.JoinSeparators | src/main/java/thrift/logic/commands/TagCommand.java:95-109 | The corrected listing has exactly one separator between consecutive ignored names. |
| Commands.CountCharAppend | src/main/java/thrift/logic/commands/TagCommand.java:99 | Counting separators is additive over concatenation. |
| Commands.CommaFree | src/main/java/thrift/logic/commands/TagCommand.java:103 | A name without commas adds no separator. |
| Commands.ExistedTagsSeparatorFinding | src/main/java/thrift/logic/commands/TagCommand.java:96-109 | The loop as written yields "a, , c" and "a, " where the ignored names are "a, c" and "a". |
| Commands.TagCommand.constructor | src/main/java/thrift/logic/commands/TagCommand.java:52-59 | Stores the index and tags; the ignored-names text starts empty. |
| Commands.TagCommand.CreateTaggedTransaction | src/main/java/thrift/logic/commands/TagCommand.java:86-120 | Appends the ignored names to existedTags. Refuses with NoNewTags exactly when every supplied tag is already present. Otherwise it returns the tagged transaction. |
| Commands.TagCommand.Execute | src/main/java/thrift/logic/commands/TagCommand.java:61-79 | An index outside the displayed list, or no new tag, leaves store and filter unchanged. Otherwise the first store element equal to the displayed target is replaced by its tagged version, and the filter is reset. |
| Commands.ClearCommand.Execute | src/main/java/thrift/logic/commands/ClearCommand.java:18-22 | The store and the displayed list become empty under whatever filter was set, and the filter is kept. It never fails. |
| Commands.AddExpenseTrackUndoRedo | src/test/java/thrift/logic/commands/AddExpenseCommandTest.java:53-78 | Track, undo and redo take the store size from 1 to 0 to 1. The history hands back the same command each time. |
| Commands.CloneExecuteUndoRedo | src/test/java/thrift/logic/commands/CloneCommandTest.java:208-236 | Execute appends the clone, undo restores the earlier store, and redo restores the store after execute. |
| Commands.CloneOutsideFilter | src/test/java/thrift/logic/commands/CloneCommandTest.java:111-122 | An index valid in the store but outside the displayed list is refused, and the store is unchanged. |
| Commands.ClearTwice | src/main/java/thrift/logic/commands/ClearCommand.java:18-22 | Clearing twice gives the same empty store and displayed list as clearing once. |
| Commands.TagFirstTransaction | src/test/java/thrift/logic/commands/TagCommandTest.java:43-66 | Tagging with two new tags adds both and keeps the other fields. |
| Parsers.ParseIndex | src/main/java/thrift/logic/parser/ParserUtil.java:26-40 | Succeeds exactly when the trimmed text is a non-zero unsigned integer. The one-based index is that integer. |
| Parsers.ParseIndexRoundTrip | src/main/java/thrift/logic/parser/ParserUtil.java:34-40 | Parsing the decimal text of n gives index n, for 1 <= n <= 2^31-1. |
| Parsers.ParseIndexExamples | src/main/java/thrift/logic/parser/ParserUtil.java:34-40 | " 1 " is the first index; "0", "-1", "+1", "1.5" and "" are refused. |
| Parsers.ParseIndexOverflow | src/main/java/thrift/logic/parser/ParserUtil.java:36-39 | A number past 2^31-1 is refused. |
| Parsers.ParseDescription | src/main/java/thrift/logic/parser/ParserUtil.java:46-50 | Never fails; keeps the trimmed text. |
| Parsers.ParseRemark | src/main/java/thrift/logic/parser/ParserUtil.java:108-112 | Never fails; keeps the trimmed text. |
| Parsers.TextParsersIdempotent | src/main/java/thrift/logic/parser/ParserUtil.java:46-112 | Parsing an already-parsed description or remark changes nothing. |
| Parsers.ParseDate | src/main/java/thrift/logic/parser/ParserUtil.java:57-72 | Succeeds exactly when the trimmed text is a valid MM/yyyy period. It yields a month in 1..12. |
| Parsers.ParseValue | src/main/java/thrift/logic/parser/ParserUtil.java:80-87 | Succeeds exactly when the trimmed text is a valid amount. It yields an SGD value of that amount. |
| Parsers.ParseTag | src/main/java/thrift/logic/parser/ParserUtil.java:120-127 | Succeeds exactly when the trimmed name is valid. The tag carries the trimmed name. |
| Parsers.ParsersIgnorePadding | src/main/java/thrift/logic/parser/ParserUtil.java:34-127 | Leading and trailing whitespace never changes what a parser returns. |
| Parsers.ParseTags | src/main/java/thrift/logic/parser/ParserUtil.java:132-139 | Succeeds exactly when every name parses. The result is the set of parsed tags, duplicates collapsed. |
| Parsers.TagOrderIrrelevant | src/main/java/thrift/logic/parser/TagCommandParser.java:32-45 | Reordering the tag values does not change the tags named. |
| Parsers.ParseTagCommand | src/main/java/thrift/logic/parser/TagCommandParser.java:26-58 | A missing or empty index, or an unparsable one, is a usage error. Otherwise an invalid non-empty tag is refused. With no non-empty tag it fails with NotTagged. Else it returns the index and the set of non-empty tags. |
| Parsers.TagOrderExample | src/test/java/thrift/logic/parser/TagCommandParserTest.java:21-31 | "t/Food t/Shopping" and "t/Shopping t/Food" parse to the same command. |
| Parsers.BlankAndMissingExamples | src/test/java/thrift/logic/parser/TagCommandParserTest.java:33-45 | A blank tag gives NotTagged, and a missing index gives the usage error. |
| Text.TrimIgnoresPadding | src/main/java/thrift/logic/parser/ParserUtil.java:35 | Trimming ignores whitespace padding on either side. |
| Text.TrimIdempotent | src/main/java/thrift/logic/parser/ParserUtil.java:35 | Trimming twice is trimming once. |
| Text.ToUpper | src/main/java/thrift/model/util/CurrencyUtil.java:47 | ASCII upper-casing: the length is kept and each character is mapped on its own. |
| Text.NatToStringRoundTrip | src/main/java/thrift/logic/parser/ParserUtil.java:39 | Reading back the decimal text of n gives n. |
| Indexes.FromOneBased | src/main/java/thrift/logic/parser/ParserUtil.java:39 | The index built from a one-based number reports that number. |

## Left out

- User preferences, GUI settings and file paths are not modelled; ModelManager's equals compares only the stores and the displayed lists.
- Logging, the JavaFX observable list, the string formatting of messages and of values (`DecimalFormat`, `%.2f`) and every `toString` are not modelled. Feedback is a datatype naming the message and its arguments.
- Floating point: amounts, rates and the balance are `real`. Double rounding and `Double.parseDouble` are not modelled; an amount is the exact decimal value of its text.
- CurrencyUtil.ConvertToDefault: requires the looked-up rate to be non-zero, because division by a zero rate in real arithmetic has no infinity or NaN to return.
- CurrencyUtil.Convert: requires the rate of the source currency to be non-zero, for the same reason.
- Text.ToUpper: maps only the ASCII letters a-z. Java's `toUpperCase` also maps other letters, and some change length ('ß' becomes "SS", 'ſ' becomes 'S'). The model therefore passes such codes through unconverted where Java may find a table key. Table keys are the upper-case ASCII codes SGD, MYR, USD and EUR, and no other characters are modelled.
- Java null checks (`requireNonNull`, `requireAllNonNull`) are not modelled, because Dafny values and references are never null.
- The clock: "today" (CloneCommand) and the current month (ModelManager) are parameters.
- `TransactionIsInMonthYearPredicate` is not part of this model. The current-month filter is taken to compare the transaction date's month and year with the current ones.
- `TransactionList` is not part of this model. Its operations are modelled as sequence operations: first-occurrence lookup, insert, replace and remove.
- `Thrift.setBudget`, `getBudgetList`, `removeTransactionByIndex`, `setTransactionWithIndex` and `getLastTransaction`: ModelManager calls them, but Thrift.java does not define them. The model gives them the behaviour their names suggest. Budgets live in a map on the model, keyed by month, where a new budget for a month replaces the old one.
- `PastUndoableCommands` is not part of this model. The stacks follow the test stub at src/test/java/thrift/logic/commands/AddExpenseCommandTest.java:354-401: tracking pushes without clearing the redo stack, and popping an empty stack gives nothing instead of an exception.
- `AddExpenseCommand.Undo`, `AddExpenseCommand.Redo`: AddExpenseCommand.java has no undo or redo. They follow the behaviour the test expects: drop the last transaction, and add the expense again.
- `StringUtil.isNonZeroUnsignedInteger` is not part of this model. It is taken to accept exactly the non-empty ASCII digit strings whose value is between 1 and 2^31-1, the range of `Integer.parseInt`. Non-ASCII digits, which `Integer.parseInt` also reads, are not modelled.
- `Tag.isValidTagName` is not part of this model; it is a parameter of the tag parsers.
- The argument tokenizer (`ArgumentTokenizer`, `ArgumentMultimap`) is not modelled. TagCommandParser receives the index value (absent when the prefix is missing) and the list of tag values.
- `Parsers.ParseTagCommand`: returns the index and tag set TagCommand is built from, rather than the TagCommand object.
- `Parsers.ParseDate`: returns the month and year. The `Calendar` object and its day and time fields are not modelled.
- `ParserUtil.parseBudgetValue`: `BudgetValue` is not part of this model.
- Expense and remark: Expense.java has no remark, but CloneCommand.java:87 passes one. The clone of an expense therefore carries none.
- `Commands.Tagged`: TagCommand.java:118 calls a four-argument Income constructor that Income.java does not have. The tagged income keeps its remark.
- TagCommand keeps its existedTags text across executions, as the source does. The model appends to the field each time.
- The Occurrence variant of clone (k clones at successive dates) belongs to a later version than CloneCommand.java and is not modelled.
- Tag sets are given to TagCommand as a duplicate-free sequence in their iteration order; the Java `HashSet` order is unspecified.
- An Expense's and an Income's tag set is a value, so the copy in the constructor and the unmodifiable view of `getTags` hold by construction.

## Findings

| source | as written | input that shows it | evidently intended | confidence | as-written member | corrected member |
|---|---|---|---|---|---|---|
| src/main/java/thrift/logic/commands/TagCommand.java:96-109 | Once one supplied tag has been ignored, ", " is written before every later supplied tag, including the new ones that are not listed | old tags {a, c}, supplied a, b, c in that order: written "a, , c"; old tags {a}, supplied a, b: written "a, " | the ignored names separated by ", ": "a, c" and "a" | not executed | Commands.ExistedTagsAsWritten (shown by Commands.ExistedTagsSeparatorFinding) | Commands.Join (proved by Commands.JoinSeparators; used by Commands.TagCommand.CreateTaggedTransaction) |
