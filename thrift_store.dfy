/** Thrift: the ordered transaction list that every mutation of the application goes through. */
module ThriftStore {
  import opened Wrappers
  import opened Indexes
  import opened Sequences
  import opened Transactions

  class Thrift {
    var transactions: seq<Transaction>

    /** A new Thrift holds no transactions. */
    constructor()
      ensures transactions == []
    {
      transactions := [];
    }

    /** new Thrift(toBeCopied): a copy of the other store's list. */
    constructor Copy(toBeCopied: Thrift)
      ensures transactions == toBeCopied.transactions
    {
      transactions := toBeCopied.transactions;
    }

    method SetTransactions(ts: seq<Transaction>)
      modifies this
      ensures transactions == ts
    {
      transactions := ts;
    }

    /** resetData: take over the other store's list, after which the two stores are equal. */
    method ResetData(newData: Thrift)
      modifies this
      ensures transactions == old(newData.transactions)
      ensures Equals(newData)
    {
      SetTransactions(newData.transactions);
    }

    /** addTransaction(t): append at the end. */
    method AddTransaction(t: Transaction)
      modifies this
      ensures transactions == old(transactions) + [t]
    {
      transactions := transactions + [t];
    }

    /** addTransaction(t, index): insert before position index; a position past the end is refused. */
    method AddTransactionAt(t: Transaction, index: Index) returns (ok: bool)
      modifies this
      ensures ok <==> index.zeroBased <= |old(transactions)|
      ensures ok ==> transactions == InsertAt(old(transactions), index.zeroBased, t)
      ensures !ok ==> transactions == old(transactions)
    {
      ok := index.zeroBased <= |transactions|;
      if ok {
        transactions := InsertAt(transactions, index.zeroBased, t);
      }
    }

    /** setTransaction(target, updated): replace the first element equal to target; target must be present. */
    method SetTransaction(target: Transaction, updated: Transaction) returns (ok: bool)
      modifies this
      ensures ok <==> target in old(transactions)
      ensures ok ==> transactions == old(transactions)[IndexOf(old(transactions), target).value := updated]
      ensures ok ==> var i := IndexOf(old(transactions), target).value;
                     |transactions| == |old(transactions)| && transactions[i] == updated &&
                     forall j :: 0 <= j < |transactions| && j != i ==> transactions[j] == old(transactions)[j]
      ensures !ok ==> transactions == old(transactions)
    {
      var i := IndexOf(transactions, target);
      ok := i.Some?;
      if ok {
        transactions := transactions[i.value := updated];
      }
    }

    /** Replacement at a store position (called by ModelManager.setTransactionWithIndex). */
    method SetTransactionWithIndex(index: Index, updated: Transaction) returns (ok: bool)
      modifies this
      ensures ok <==> index.zeroBased < |old(transactions)|
      ensures ok ==> transactions == old(transactions)[index.zeroBased := updated]
      ensures !ok ==> transactions == old(transactions)
    {
      ok := index.zeroBased < |transactions|;
      if ok {
        transactions := transactions[index.zeroBased := updated];
      }
    }

    /** hasTransaction: some element equals t, exactly when t has a position in the store. */
    function HasTransaction(t: Transaction): (r: bool)
      reads this
      ensures r <==> GetTransactionIndex(t).Some?
      ensures r <==> exists i :: 0 <= i < |transactions| && transactions[i] == t
    {
      t in transactions
    }

    /** removeTransaction(key): drop the first element equal to key; key must be present. */
    method RemoveTransaction(key: Transaction) returns (ok: bool)
      modifies this
      ensures ok <==> key in old(transactions)
      ensures ok ==> transactions == RemoveAt(old(transactions), IndexOf(old(transactions), key).value)
      ensures !ok ==> transactions == old(transactions)
    {
      var i := IndexOf(transactions, key);
      ok := i.Some?;
      if ok {
        transactions := RemoveAt(transactions, i.value);
      }
    }

    /** Removal at a store position (called by ModelManager.deleteTransaction(Index)). */
    method RemoveTransactionByIndex(index: Index) returns (ok: bool)
      modifies this
      ensures ok <==> index.zeroBased < |old(transactions)|
      ensures ok ==> transactions == RemoveAt(old(transactions), index.zeroBased)
      ensures !ok ==> transactions == old(transactions)
    {
      ok := index.zeroBased < |transactions|;
      if ok {
        transactions := RemoveAt(transactions, index.zeroBased);
      }
    }

    /** removeLastTransaction: drop exactly the final element; an empty store is refused. */
    method RemoveLastTransaction() returns (ok: bool)
      modifies this
      ensures ok <==> |old(transactions)| > 0
      ensures ok ==> transactions == old(transactions)[..|old(transactions)| - 1]
      ensures !ok ==> transactions == old(transactions)
    {
      ok := |transactions| > 0;
      if ok {
        transactions := transactions[..|transactions| - 1];
      }
    }

    /** getTransactionIndex: the position of the first element equal to t, if any. */
    function GetTransactionIndex(t: Transaction): (r: Option<Index>)
      reads this
      ensures r.Some? <==> t in transactions
      ensures r.Some? ==> r.value.zeroBased < |transactions| && transactions[r.value.zeroBased] == t
      ensures r.Some? ==> forall j :: 0 <= j < r.value.zeroBased ==> transactions[j] != t
    {
      var i := IndexOf(transactions, t);
      if i.None? then None
      else
        assert forall j :: 0 <= j < i.value ==> transactions[j] == transactions[..i.value][j];
        Some(Index(i.value))
    }

    /** The final transaction, if any (called by ModelManager.getLastTransactionFromThrift). */
    function GetLastTransaction(): (r: Option<Transaction>)
      reads this
      ensures r.Some? <==> |transactions| > 0
      ensures r.Some? ==> transactions == transactions[..|transactions| - 1] + [r.value]
    {
      if transactions == [] then None else Some(transactions[|transactions| - 1])
    }

    /** equals: the two stores hold equal lists, element by element in the same order. */
    function Equals(other: Thrift): (r: bool)
      reads this, other
      ensures r <==> |transactions| == |other.transactions| &&
                     forall i :: 0 <= i < |transactions| ==> transactions[i] == other.transactions[i]
    {
      transactions == other.transactions
    }
  }

  /** hasTransaction is false on a new store and true once the transaction was added. */
  method HasAfterAdd(t: Transaction) returns (before: bool, after: bool)
    ensures !before && after
  {
    var store := new Thrift();
    before := store.HasTransaction(t);
    store.AddTransaction(t);
    after := store.HasTransaction(t);
  }

  /** Adding a transaction and then removing the last one restores the list. */
  method AddThenRemoveLast(initial: seq<Transaction>, t: Transaction) returns (afterAdd: seq<Transaction>, restored: seq<Transaction>)
    ensures afterAdd == initial + [t] && restored == initial
  {
    var store := new Thrift();
    store.SetTransactions(initial);
    store.AddTransaction(t);
    afterAdd := store.transactions;
    var ok := store.RemoveLastTransaction();
    assert afterAdd[..|afterAdd| - 1] == initial;
    restored := store.transactions;
  }

  /** Inserting at a position and removing there again restores the list. */
  method InsertThenRemoveAt(initial: seq<Transaction>, t: Transaction, index: Index) returns (restored: seq<Transaction>)
    requires index.zeroBased <= |initial|
    ensures restored == initial
  {
    var store := new Thrift();
    store.SetTransactions(initial);
    var added := store.AddTransactionAt(t, index);
    var removed := store.RemoveTransactionByIndex(index);
    RemoveUndoesInsert(initial, index.zeroBased, t);
    restored := store.transactions;
  }
}
