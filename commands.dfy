/**
 * The commands that change the model: add_expense, clone, tag and clear, together with
 * the undo/redo behaviour of the undoable ones.
 */
module Commands {
  import opened Wrappers
  import opened Indexes
  import opened Sequences
  import Values
  import opened Transactions
  import opened ThriftStore
  import opened Models

  /** An expense, as the AddExpenseCommand constructor's parameter type demands. */
  type ExpenseTransaction = t: Transaction | t.Expense?
    witness Expense(Description(""), Values.Value(0.0, ""), TransactionDate(0, 0, 0), {})

  /** A tag set, listed in its iteration order: no tag occurs twice. */
  type TagSet = s: seq<Tag> | Distinct(s) witness []

  /** The two ways a command is refused. */
  datatype CommandError = InvalidTransactionDisplayedIndex | NoNewTags

  /** The feedback shown to the user; the message texts themselves are not modelled. */
  datatype CommandResult =
    | ExpenseAdded(expense: Transaction)
    | TransactionCloned(clone: Transaction)
    | TransactionTagged(updated: Transaction, original: Transaction, existedTags: string)
    | Cleared

  /** The commands the history can undo and redo. */
  datatype Undoable = AddExpenseUndoable(add: AddExpenseCommand) | CloneUndoable(clone: CloneCommand)

  type Model = ModelManager<Undoable>

  // ---------------------------------------------------------------- add_expense

  class AddExpenseCommand {
    const toAdd: ExpenseTransaction

    constructor(expense: ExpenseTransaction)
      ensures toAdd == expense
    {
      toAdd := expense;
    }

    /** execute: add exactly toAdd, with no duplicate check; it never fails. */
    method Execute(model: Model) returns (result: CommandResult)
      modifies model, model.thrift
      ensures model.thrift.transactions == old(model.thrift.transactions) + [toAdd]
      ensures model.filter == ShowAll
      ensures result == ExpenseAdded(toAdd)
      ensures model.LedgerAndHistoryUnchanged()
    {
      model.AddExpense(toAdd);
      result := ExpenseAdded(toAdd);
    }

    /** undo: drop the last transaction of the store. */
    method Undo(model: Model)
      modifies model, model.thrift
      ensures old(model.thrift.transactions) != [] ==>
                model.thrift.transactions == old(model.thrift.transactions)[..|old(model.thrift.transactions)| - 1]
      ensures old(model.thrift.transactions) == [] ==> model.thrift.transactions == []
      ensures old(model.thrift.transactions) != [] ==> model.filter == ShowAll
      ensures old(model.thrift.transactions) == [] ==> model.filter == old(model.filter)
      ensures model.LedgerAndHistoryUnchanged()
    {
      var ok := model.DeleteLastTransaction();
    }

    /** redo: add toAdd again. */
    method Redo(model: Model)
      modifies model, model.thrift
      ensures model.thrift.transactions == old(model.thrift.transactions) + [toAdd]
      ensures model.filter == ShowAll
      ensures model.LedgerAndHistoryUnchanged()
    {
      model.AddExpense(toAdd);
    }

    /** equals: the wrapped expenses are equal. */
    function Equals(other: AddExpenseCommand): (r: bool)
      ensures r <==> toAdd == other.toAdd
    {
      ExpenseEquals(toAdd, other.toAdd)
    }
  }

  // ---------------------------------------------------------------- clone

  /** The clone of a transaction: same kind, description, value, remark and tags, dated today. */
  function CreateClonedTransaction(t: Transaction, today: TransactionDate): (c: Transaction)
    ensures c.Expense? <==> t.Expense?
    ensures c.description == t.description && c.value == t.value && c.tags == t.tags
    ensures c.Income? ==> c.remark == t.remark
    ensures c.date == today
    ensures c.(date := t.date) == t
  {
    match t
    case Expense(d, v, _, tags) => Expense(d, v, today, tags)
    case Income(d, v, r, _, tags) => Income(d, v, r, today, tags)
  }

  class CloneCommand {
    const targetIndex: Index
    var clonedTransaction: Option<Transaction>

    constructor(targetIndex: Index)
      ensures this.targetIndex == targetIndex && clonedTransaction.None?
    {
      this.targetIndex := targetIndex;
      clonedTransaction := None;
    }

    /**
     * execute: clone the displayed transaction at targetIndex, dated today, and append the
     * clone to the store. The bound is the displayed list, not the whole store.
     */
    method Execute(model: Model, today: TransactionDate) returns (result: Result<CommandResult, CommandError>)
      modifies this, model, model.thrift
      ensures targetIndex.zeroBased >= |old(model.FilteredList())| ==>
                result == Failure(InvalidTransactionDisplayedIndex) &&
                model.thrift.transactions == old(model.thrift.transactions) &&
                model.filter == old(model.filter) && clonedTransaction == old(clonedTransaction)
      ensures targetIndex.zeroBased < |old(model.FilteredList())| ==>
                var c := CreateClonedTransaction(old(model.FilteredList())[targetIndex.zeroBased], today);
                clonedTransaction == Some(c) && result == Success(TransactionCloned(c)) &&
                model.thrift.transactions == old(model.thrift.transactions) + [c] && model.filter == ShowAll
      ensures model.LedgerAndHistoryUnchanged()
    {
      var lastShownList := model.FilteredList();
      if targetIndex.zeroBased >= |lastShownList| {
        return Failure(InvalidTransactionDisplayedIndex);
      }
      var c := CreateClonedTransaction(lastShownList[targetIndex.zeroBased], today);
      clonedTransaction := Some(c);
      if c.Expense? {
        model.AddExpense(c);
      } else {
        model.AddIncome(c);
      }
      result := Success(TransactionCloned(c));
    }

    /** undo: drop the last transaction of the store. */
    method Undo(model: Model)
      modifies model, model.thrift
      ensures old(model.thrift.transactions) != [] ==>
                model.thrift.transactions == old(model.thrift.transactions)[..|old(model.thrift.transactions)| - 1]
      ensures old(model.thrift.transactions) == [] ==> model.thrift.transactions == []
      ensures old(model.thrift.transactions) != [] ==> model.filter == ShowAll
      ensures old(model.thrift.transactions) == [] ==> model.filter == old(model.filter)
      ensures model.LedgerAndHistoryUnchanged()
    {
      var ok := model.DeleteLastTransaction();
    }

    /** redo: append the same clone again; there is nothing to redo before an execute. */
    method Redo(model: Model) returns (ok: bool)
      modifies model, model.thrift
      ensures ok <==> clonedTransaction.Some?
      ensures ok ==> model.thrift.transactions == old(model.thrift.transactions) + [clonedTransaction.value]
      ensures !ok ==> model.thrift.transactions == old(model.thrift.transactions)
      ensures ok ==> model.filter == ShowAll
      ensures !ok ==> model.filter == old(model.filter)
      ensures model.LedgerAndHistoryUnchanged()
    {
      ok := clonedTransaction.Some?;
      if ok {
        var c := clonedTransaction.value;
        if c.Expense? {
          model.AddExpense(c);
        } else {
          model.AddIncome(c);
        }
      }
    }

    /** equals: only the target index is compared. */
    function Equals(other: CloneCommand): (r: bool)
      ensures r <==> targetIndex.zeroBased == other.targetIndex.zeroBased
    {
      targetIndex == other.targetIndex
    }
  }

  /** Undo of a history entry. */
  method UndoCommand(u: Undoable, model: Model)
    modifies model, model.thrift
    ensures old(model.thrift.transactions) != [] ==>
              model.thrift.transactions == old(model.thrift.transactions)[..|old(model.thrift.transactions)| - 1]
    ensures old(model.thrift.transactions) == [] ==> model.thrift.transactions == []
    ensures old(model.thrift.transactions) != [] ==> model.filter == ShowAll
    ensures old(model.thrift.transactions) == [] ==> model.filter == old(model.filter)
    ensures model.LedgerAndHistoryUnchanged()
  {
    match u
    case AddExpenseUndoable(add) => add.Undo(model);
    case CloneUndoable(clone) => clone.Undo(model);
  }

  /** Redo of a history entry. */
  method RedoCommand(u: Undoable, model: Model) returns (ok: bool)
    modifies model, model.thrift
    ensures u.AddExpenseUndoable? ==> ok && model.thrift.transactions == old(model.thrift.transactions) + [u.add.toAdd]
    ensures u.CloneUndoable? ==>
              (ok <==> u.clone.clonedTransaction.Some?) &&
              (ok ==> model.thrift.transactions == old(model.thrift.transactions) + [u.clone.clonedTransaction.value]) &&
              (!ok ==> model.thrift.transactions == old(model.thrift.transactions))
    ensures ok ==> model.filter == ShowAll
    ensures !ok ==> model.filter == old(model.filter)
    ensures model.LedgerAndHistoryUnchanged()
  {
    match u
    case AddExpenseUndoable(add) =>
      add.Redo(model);
      ok := true;
    case CloneUndoable(clone) =>
      ok := clone.Redo(model);
  }

  // ---------------------------------------------------------------- tag

  function TagsOf(s: seq<Tag>): set<Tag> {
    set i | 0 <= i < |s| :: s[i]
  }

  /** The names of the supplied tags the transaction already carries, in supplied order. */
  function IgnoredNames(s: seq<Tag>, tags: set<Tag>): seq<string> {
    if s == [] then []
    else
      var last := s[|s| - 1];
      IgnoredNames(s[..|s| - 1], tags) + (if last in tags then [last.tagName] else [])
  }

  /** The names joined with ", " between consecutive names. */
  function Join(names: seq<string>): string {
    if names == [] then ""
    else if |names| == 1 then names[0]
    else Join(names[..|names| - 1]) + ", " + names[|names| - 1]
  }

  /** Adding one more name adds a separator only when there was a name before. */
  lemma JoinSnoc(names: seq<string>, name: string)
    ensures Join(names + [name]) == if names == [] then name else Join(names) + ", " + name
  {
    assert (names + [name])[..|names|] == names;
  }

  /** The tagged transaction: same kind, description, value, date and remark; tags united with the supplied ones. */
  function Tagged(t: Transaction, s: seq<Tag>): (r: Transaction)
    ensures r.Expense? <==> t.Expense?
    ensures r.description == t.description && r.value == t.value && r.date == t.date
    ensures r.Income? ==> r.remark == t.remark
    ensures r.tags == t.tags + TagsOf(s)
    ensures forall x :: x in r.tags <==> x in t.tags || x in s
  {
    t.(tags := t.tags + TagsOf(s))
  }

  /** Nothing new is supplied exactly when every supplied tag is ignored. */
  lemma {:induction false} IgnoredAllIff(s: seq<Tag>, tags: set<Tag>)
    ensures |IgnoredNames(s, tags)| <= |s|
    ensures |IgnoredNames(s, tags)| == |s| <==> TagsOf(s) <= tags
  {
    if s != [] {
      var init := s[..|s| - 1];
      IgnoredAllIff(init, tags);
      assert TagsOf(s) == TagsOf(init) + {s[|s| - 1]};
    }
  }

  /** For a tag set, the number of ignored tags is the size of its intersection with the old tags. */
  lemma {:induction false} IgnoredCountIsIntersection(s: TagSet, tags: set<Tag>)
    ensures |IgnoredNames(s, tags)| == |TagsOf(s) * tags|
  {
    if s != [] {
      var init: TagSet := s[..|s| - 1];
      var last := s[|s| - 1];
      IgnoredCountIsIntersection(init, tags);
      assert TagsOf(s) == TagsOf(init) + {last};
      assert last !in TagsOf(init);
      if last in tags {
        assert TagsOf(s) * tags == TagsOf(init) * tags + {last};
      } else {
        assert TagsOf(s) * tags == TagsOf(init) * tags;
      }
    }
  }

  /** One step of the tagging loop: the prefix grows by a tag it did not yet hold. */
  lemma TagStep(s: TagSet, i: nat, tags: set<Tag>)
    requires i < |s|
    ensures TagsOf(s[..i + 1]) == TagsOf(s[..i]) + {s[i]}
    ensures s[i] !in TagsOf(s[..i])
    ensures IgnoredNames(s[..i + 1], tags) ==
            IgnoredNames(s[..i], tags) + (if s[i] in tags then [s[i].tagName] else [])
  {
    assert s[..i + 1][..i] == s[..i];
    assert s[..i + 1][i] == s[i];
  }

  /** Writing one more ignored name: a separator first unless the listing is still empty. */
  lemma ListingStep(prefix: string, before: seq<string>, name: string)
    ensures prefix + Join(before + [name]) ==
            (if before != [] then prefix + Join(before) + ", " else prefix + Join(before)) + name
  {
    JoinSnoc(before, name);
  }

  class TagCommand {
    const index: Index
    const tagSet: TagSet
    var existedTags: string

    constructor(index: Index, tagSet: TagSet)
      ensures this.index == index && this.tagSet == tagSet && existedTags == ""
    {
      this.index := index;
      this.tagSet := tagSet;
      existedTags := "";
    }

    /**
     * createTaggedTransaction: unite the supplied tags with the transaction's, writing the names
     * already present to existedTags; refused when no supplied tag is new.
     */
    method CreateTaggedTransaction(target: Transaction) returns (r: Result<Transaction, CommandError>)
      modifies this
      ensures existedTags == old(existedTags) + Join(IgnoredNames(tagSet, target.tags))
      ensures r.Failure? <==> TagsOf(tagSet) <= target.tags
      ensures r.Failure? ==> r.error == NoNewTags
      ensures r.Success? ==> r.value == Tagged(target, tagSet)
    {
      var updatedTags := target.tags;
      var noOfTagsIgnored := 0;
      var isNotEmpty := false;
      var listed := existedTags;
      for i := 0 to |tagSet|
        invariant updatedTags == target.tags + TagsOf(tagSet[..i])
        invariant noOfTagsIgnored == |IgnoredNames(tagSet[..i], target.tags)|
        invariant isNotEmpty <==> noOfTagsIgnored > 0
        invariant listed == old(existedTags) + Join(IgnoredNames(tagSet[..i], target.tags))
      {
        var newTag := tagSet[i];
        TagStep(tagSet, i, target.tags);
        ghost var before := IgnoredNames(tagSet[..i], target.tags);
        if newTag in updatedTags {
          assert newTag in target.tags;
          ListingStep(old(existedTags), before, newTag.tagName);
          if isNotEmpty {
            listed := listed + ", ";
          }
          listed := listed + newTag.tagName;
          assert listed == old(existedTags) + Join(IgnoredNames(tagSet[..i + 1], target.tags));
          noOfTagsIgnored := noOfTagsIgnored + 1;
          isNotEmpty := true;
        } else {
          assert newTag !in target.tags;
          assert IgnoredNames(tagSet[..i + 1], target.tags) == before;
          updatedTags := updatedTags + {newTag};
        }
      }
      existedTags := listed;
      assert tagSet[..|tagSet|] == tagSet;
      IgnoredAllIff(tagSet, target.tags);
      if |tagSet| == noOfTagsIgnored {
        return Failure(NoNewTags);
      }
      r := Success(target.(tags := updatedTags));
    }

    /**
     * execute: tag the displayed transaction at index and put the result in place of the first
     * equal store element; the store is untouched when the index is out of range or nothing is new.
     */
    method Execute(model: Model) returns (result: Result<CommandResult, CommandError>)
      modifies this, model, model.thrift
      ensures index.zeroBased >= |old(model.FilteredList())| ==>
                result == Failure(InvalidTransactionDisplayedIndex) &&
                model.thrift.transactions == old(model.thrift.transactions) &&
                model.filter == old(model.filter) && existedTags == old(existedTags)
      ensures index.zeroBased < |old(model.FilteredList())| ==>
                var target := old(model.FilteredList())[index.zeroBased];
                existedTags == old(existedTags) + Join(IgnoredNames(tagSet, target.tags)) &&
                (TagsOf(tagSet) <= target.tags ==>
                   result == Failure(NoNewTags) &&
                   model.thrift.transactions == old(model.thrift.transactions) && model.filter == old(model.filter)) &&
                (!(TagsOf(tagSet) <= target.tags) ==>
                   target in old(model.thrift.transactions) &&
                   result == Success(TransactionTagged(Tagged(target, tagSet), target, existedTags)) &&
                   model.thrift.transactions ==
                     old(model.thrift.transactions)[IndexOf(old(model.thrift.transactions), target).value := Tagged(target, tagSet)] &&
                   model.filter == ShowAll)
      ensures model.LedgerAndHistoryUnchanged()
    {
      var lastShownList := model.FilteredList();
      if index.zeroBased >= |lastShownList| {
        return Failure(InvalidTransactionDisplayedIndex);
      }
      var transactionToTag := lastShownList[index.zeroBased];
      assert transactionToTag in model.thrift.transactions;
      var updated := CreateTaggedTransaction(transactionToTag);
      if updated.Failure? {
        return Failure(updated.error);
      }
      var ok := model.SetTransaction(transactionToTag, updated.value);
      model.UpdateFilteredTransactionList(ShowAll);
      result := Success(TransactionTagged(updated.value, transactionToTag, existedTags));
    }
  }

  /**
   * The existedTags text as TagCommand's loop writes it: once one supplied tag has been ignored,
   * ", " is written before every later supplied tag, whether that tag is ignored or new.
   */
  function ExistedTagsAsWritten(s: seq<Tag>, tags: set<Tag>): string {
    if s == [] then ""
    else
      var init := s[..|s| - 1];
      var last := s[|s| - 1];
      ExistedTagsAsWritten(init, tags) + (if IgnoredNames(init, tags) != [] then ", " else "")
        + (if last in tags then last.tagName else "")
  }

  function CountChar(s: string, c: char): nat {
    if s == [] then 0 else CountChar(s[..|s| - 1], c) + (if s[|s| - 1] == c then 1 else 0)
  }

  lemma {:induction false} CountCharAppend(a: string, b: string, c: char)
    ensures CountChar(a + b, c) == CountChar(a, c) + CountChar(b, c)
  {
    if b != [] {
      assert (a + b)[..|a + b| - 1] == a + b[..|b| - 1];
      CountCharAppend(a, b[..|b| - 1], c);
    } else {
      assert a + b == a;
    }
  }

  /** The corrected text lists the ignored names with exactly one separator between neighbours. */
  lemma {:induction false} JoinSeparators(names: seq<string>)
    requires names != []
    requires forall i :: 0 <= i < |names| ==> ',' !in names[i]
    ensures CountChar(Join(names), ',') == |names| - 1
  {
    if |names| == 1 {
      CommaFree(names[0]);
    } else {
      var init := names[..|names| - 1];
      var last := names[|names| - 1];
      JoinSeparators(init);
      CountCharAppend(Join(init), ", ", ',');
      CountCharAppend(Join(init) + ", ", last, ',');
      CommaFree(last);
      assert CountChar(", ", ',') == 1 by {
        assert ", "[..1] == ",";
        assert ","[..0] == "";
      }
    }
  }

  lemma {:induction false} CommaFree(s: string)
    requires ',' !in s
    ensures CountChar(s, ',') == 0
  {
    if s != [] {
      assert forall x :: x in s[..|s| - 1] ==> x in s;
      CommaFree(s[..|s| - 1]);
    }
  }

  /** Old tags {a, c}, supplied a, b, c: the loop writes "a, , c" for the ignored names a and c. */
  lemma SeparatorFindingThreeTags()
    ensures ExistedTagsAsWritten([Tag("a"), Tag("b"), Tag("c")], {Tag("a"), Tag("c")}) == "a, , c"
    ensures IgnoredNames([Tag("a"), Tag("b"), Tag("c")], {Tag("a"), Tag("c")}) == ["a", "c"]
    ensures Join(["a", "c"]) == "a, c"
  {
    var a, b, c := Tag("a"), Tag("b"), Tag("c");
    assert [a, b, c][..2] == [a, b];
    assert [a, b][..1] == [a];
    assert [a][..0] == [];
    assert IgnoredNames([a], {a, c}) == ["a"];
    assert IgnoredNames([a, b], {a, c}) == ["a"];
    assert ExistedTagsAsWritten([a], {a, c}) == "a";
    assert ExistedTagsAsWritten([a, b], {a, c}) == "a, ";
    assert ["a", "c"][..1] == ["a"];
  }

  /** Old tags {a}, supplied a, b: the loop writes "a, " for the single ignored name a. */
  lemma SeparatorFindingTwoTags()
    ensures ExistedTagsAsWritten([Tag("a"), Tag("b")], {Tag("a")}) == "a, "
    ensures IgnoredNames([Tag("a"), Tag("b")], {Tag("a")}) == ["a"]
  {
    var a, b := Tag("a"), Tag("b");
    assert [a, b][..1] == [a];
    assert [a][..0] == [];
    assert IgnoredNames([a], {a}) == ["a"];
    assert ExistedTagsAsWritten([a], {a}) == "a";
  }

  /** "a, , c" holds two separators for two names, one more than a joined listing has. */
  lemma CommaCountExample()
    ensures CountChar("a, , c", ',') == 2
  {
    assert "a, , c"[..5] == "a, , ";
    assert "a, , "[..4] == "a, ,";
    assert "a, ,"[..3] == "a, ";
    assert "a, "[..2] == "a,";
    assert "a,"[..1] == "a";
    assert "a"[..0] == "";
  }

  /** The listing as written differs from the joined ignored names. */
  lemma ExistedTagsSeparatorFinding()
    ensures ExistedTagsAsWritten([Tag("a"), Tag("b"), Tag("c")], {Tag("a"), Tag("c")}) == "a, , c"
    ensures |IgnoredNames([Tag("a"), Tag("b"), Tag("c")], {Tag("a"), Tag("c")})| == 2
    ensures CountChar("a, , c", ',') == 2
    ensures Join(IgnoredNames([Tag("a"), Tag("b"), Tag("c")], {Tag("a"), Tag("c")})) == "a, c"
    ensures ExistedTagsAsWritten([Tag("a"), Tag("b")], {Tag("a")}) == "a, "
    ensures Join(IgnoredNames([Tag("a"), Tag("b")], {Tag("a")})) == "a"
  {
    SeparatorFindingThreeTags();
    SeparatorFindingTwoTags();
    CommaCountExample();
  }

  // ---------------------------------------------------------------- clear

  class ClearCommand {
    constructor() {}

    /** execute: replace the store by an empty one, keeping the filter; it never fails. */
    method Execute(model: Model) returns (result: CommandResult)
      modifies model.thrift
      ensures model.thrift.transactions == [] && model.FilteredList() == []
      ensures model.filter == old(model.filter)
      ensures model.LedgerAndHistoryUnchanged()
      ensures result == Cleared
    {
      var empty := new Thrift();
      model.SetThrift(empty);
      EmptyStoreDisplaysNothing(model.filter);
      result := Cleared;
    }
  }

  // ---------------------------------------------------------------- scenarios

  /** Track, undo, redo of an add_expense: store sizes 1, 0, 1, and the history hands back that command each time. */
  method AddExpenseTrackUndoRedo(e: ExpenseTransaction, now: Budgets.MonthYear)
    returns (command: AddExpenseCommand, sizes: seq<nat>, undone: Option<Undoable>, redone: Option<Undoable>, canUndoAfterUndo: bool, canUndoAfterRedo: bool)
    ensures sizes == [1, 0, 1]
    ensures undone == Some(AddExpenseUndoable(command)) && redone == undone
    ensures !canUndoAfterUndo && canUndoAfterRedo
  {
    var source := new Thrift();
    var model := new ModelManager<Undoable>(source, [], [], now);
    command := new AddExpenseCommand(e);
    var added := command.Execute(model);
    model.KeepTrackCommands(AddExpenseUndoable(command));
    var afterExecute := |model.thrift.transactions|;
    undone := model.GetPreviousUndoableCommand();
    UndoCommand(undone.value, model);
    var afterUndo := |model.thrift.transactions|;
    canUndoAfterUndo := model.HasUndoableCommand();
    redone := model.GetUndoneCommand();
    var ok := RedoCommand(redone.value, model);
    var afterRedo := |model.thrift.transactions|;
    canUndoAfterRedo := model.HasUndoableCommand();
    sizes := [afterExecute, afterUndo, afterRedo];
  }

  /**
   * Clone, undo, redo on an unfiltered model: the clone of the chosen transaction is appended,
   * undo restores the store before execute and redo the store after it.
   */
  method CloneExecuteUndoRedo(initial: seq<Transaction>, target: Index, today: TransactionDate, now: Budgets.MonthYear)
    returns (afterExecute: seq<Transaction>, afterUndo: seq<Transaction>, afterRedo: seq<Transaction>)
    requires target.zeroBased < |initial|
    ensures afterExecute == initial + [CreateClonedTransaction(initial[target.zeroBased], today)]
    ensures afterUndo == initial
    ensures afterRedo == afterExecute
  {
    var source := new Thrift();
    source.SetTransactions(initial);
    var model := new ModelManager<Undoable>(source, [], [], now);
    var command := new CloneCommand(target);
    var result := command.Execute(model, today);
    afterExecute := model.thrift.transactions;
    command.Undo(model);
    assert afterExecute[..|afterExecute| - 1] == initial;
    afterUndo := model.thrift.transactions;
    var ok := command.Redo(model);
    afterRedo := model.thrift.transactions;
  }

  /** An index inside the store but outside the displayed list is refused, and the store is unchanged. */
  method CloneOutsideFilter(a: Transaction, b: Transaction, today: TransactionDate, now: Budgets.MonthYear)
    returns (result: Result<CommandResult, CommandError>, store: seq<Transaction>)
    requires a != b
    ensures result == Failure(InvalidTransactionDisplayedIndex)
    ensures store == [a, b]
  {
    var source := new Thrift();
    source.SetTransactions([a, b]);
    var model := new ModelManager<Undoable>(source, [], [], now);
    var onlyA := Matching(t => t == a);
    model.UpdateFilteredTransactionList(onlyA);
    assert ShowsFn(onlyA)(a) && !ShowsFn(onlyA)(b);
    assert [a, b][1..] == [b] && [b][1..] == [];
    assert Filter([b], ShowsFn(onlyA)) == [];
    assert model.FilteredList() == [a];
    var command := new CloneCommand(Index(1));
    result := command.Execute(model, today);
    store := model.thrift.transactions;
  }

  /** Clearing twice leaves the same empty store and empty displayed list as clearing once. */
  method ClearTwice(initial: seq<Transaction>, now: Budgets.MonthYear)
    returns (once: seq<Transaction>, twice: seq<Transaction>, shownOnce: seq<Transaction>, shownTwice: seq<Transaction>)
    ensures once == [] && twice == once && shownOnce == [] && shownTwice == shownOnce
  {
    var source := new Thrift();
    source.SetTransactions(initial);
    var model := new ModelManager<Undoable>(source, [], [], now);
    var command := new ClearCommand();
    var r1 := command.Execute(model);
    once, shownOnce := model.thrift.transactions, model.FilteredList();
    var r2 := command.Execute(model);
    twice, shownTwice := model.thrift.transactions, model.FilteredList();
  }

  /** Tagging the first displayed transaction with two new tags adds both and keeps everything else. */
  method TagFirstTransaction(t: Transaction, rest: seq<Transaction>, food: Tag, shopping: Tag, now: Budgets.MonthYear)
    returns (result: Result<CommandResult, CommandError>, first: Transaction)
    requires food != shopping && food !in t.tags && shopping !in t.tags
    ensures result.Success?
    ensures first.tags == t.tags + {food, shopping}
    ensures first.description == t.description && first.value == t.value && first.date == t.date
  {
    var source := new Thrift();
    source.SetTransactions([t] + rest);
    var model := new ModelManager<Undoable>(source, [], [], now);
    var tags: TagSet := [food, shopping];
    var command := new TagCommand(Index(0), tags);
    assert tags[0] == food && tags[1] == shopping;
    assert forall x :: x in TagsOf(tags) <==> x == food || x == shopping;
    result := command.Execute(model);
    assert model.thrift.transactions[0] == Tagged(t, tags);
    first := model.FilteredList()[0];
  }
}
