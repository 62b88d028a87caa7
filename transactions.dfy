/**
 * Expense and Income records, folded into one Transaction datatype. Sets are values in Dafny,
 * so the tag set a constructor copies and the unmodifiable view getTags returns are the field itself.
 */
module Transactions {
  import Values

  datatype Tag = Tag(tagName: string)
  datatype Description = Description(value: string)
  datatype Remark = Remark(value: string)

  /** A calendar day; the calendar arithmetic behind it is not modelled. */
  datatype TransactionDate = TransactionDate(day: int, month: int, year: int)

  /** An Expense has no remark; an Income has one. */
  datatype Transaction =
    | Expense(description: Description, value: Values.Value, date: TransactionDate, tags: set<Tag>)
    | Income(description: Description, value: Values.Value, remark: Remark, date: TransactionDate, tags: set<Tag>)

  /**
   * isSameTransaction: the weaker identity used to spot duplicates. Only description and value
   * matter; date, remark, tags and even the kind (expense or income) are ignored.
   */
  function IsSameTransaction(t: Transaction, other: Transaction): (r: bool)
    ensures r <==> other.description == t.description && other.value == t.value
  {
    other.description == t.description && Values.Equals(other.value, t.value)
  }

  /** Expense.equals: another Expense with equal description, date, value and tags. */
  function ExpenseEquals(e: Transaction, other: Transaction): (r: bool)
    requires e.Expense?
    ensures r <==> e == other
  {
    other.Expense? && other.description == e.description && other.date == e.date
    && Values.Equals(other.value, e.value) && other.tags == e.tags
  }

  /** Income.equals: another Income with equal description, date, value, remark and tags. */
  function IncomeEquals(i: Transaction, other: Transaction): (r: bool)
    requires i.Income?
    ensures r <==> i == other
  {
    other.Income? && other.description == i.description && other.date == i.date
    && Values.Equals(other.value, i.value) && other.remark == i.remark && other.tags == i.tags
  }

  /** The equals of the transaction's own class. */
  function TransactionEquals(t: Transaction, other: Transaction): bool {
    if t.Expense? then ExpenseEquals(t, other) else IncomeEquals(t, other)
  }

  /** Equal transactions are the same transaction. */
  lemma EqualsImpliesSame(t: Transaction, other: Transaction)
    requires TransactionEquals(t, other)
    ensures IsSameTransaction(t, other)
  {
  }

  /** isSameTransaction is blind to the kind: an income can be "the same" as an expense. */
  lemma SameAcrossKinds(d: Description, v: Values.Value, r: Remark, d1: TransactionDate, d2: TransactionDate,
                        tags1: set<Tag>, tags2: set<Tag>)
    ensures IsSameTransaction(Expense(d, v, d1, tags1), Income(d, v, r, d2, tags2))
    ensures !TransactionEquals(Expense(d, v, d1, tags1), Income(d, v, r, d2, tags2))
  {
  }

  /**
   * What hashCode depends on: the fields fed to Objects.hash, where the value contributes its
   * own hash, which is that of its amount. An income's remark is not among them.
   */
  function HashFields(t: Transaction): (Description, TransactionDate, real, set<Tag>) {
    (t.description, t.date, t.value.amount, t.tags)
  }

  /**
   * Equal transactions hash equally; incomes that differ only in their remark also collide, and
   * so do transactions whose values differ only in their currency.
   */
  lemma HashRespectsEquals(t: Transaction, other: Transaction)
    requires TransactionEquals(t, other) || (t.Income? && other.Income? && other == t.(remark := other.remark))
             || other == t.(value := t.value.(currency := other.value.currency))
    ensures HashFields(t) == HashFields(other)
  {
  }

  /**
   * The transient isJustUpdated highlight of an Expense, the only field the source changes after
   * construction. The record it belongs to stays as it was.
   */
  class ExpenseRecord {
    const expense: Transaction
    var isJustUpdated: bool

    constructor(expense: Transaction)
      requires expense.Expense?
      ensures this.expense == expense && !isJustUpdated
    {
      this.expense := expense;
      isJustUpdated := false;
    }

    method SetIsJustUpdated()
      modifies this
      ensures isJustUpdated
    {
      isJustUpdated := true;
    }

    method SetNotJustUpdated()
      modifies this
      ensures !isJustUpdated
    {
      isJustUpdated := false;
    }

    /** Expense.equals ignores the flag. */
    predicate EqualsRecord(other: ExpenseRecord)
      requires expense.Expense?
    {
      ExpenseEquals(expense, other.expense)
    }
  }

  /** Highlighting one of two records of the same expense neither changes it nor makes them unequal. */
  method FlagIgnoredByEquals(e: Transaction) returns (highlighted: bool, equal: bool, cleared: bool)
    requires e.Expense?
    ensures highlighted && equal && !cleared
  {
    var first := new ExpenseRecord(e);
    var second := new ExpenseRecord(e);
    first.SetIsJustUpdated();
    highlighted := first.isJustUpdated;
    equal := first.EqualsRecord(second);
    first.SetNotJustUpdated();
    cleared := first.isJustUpdated;
  }
}
