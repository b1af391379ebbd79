/**
 The tree of edit transactions: each names an earlier one as its parent, or none. A history position
 counts transactions, and 0 is the state before any of them.
*/
module History {
  import opened Wrappers
  import opened Sequences
  import opened Schema

  /** Ids are unique and every parent is an earlier transaction. */
  ghost predicate WellFounded(transactions: seq<Transaction>) {
    && Distinct(TransactionIds(transactions))
    && forall k :: 0 <= k < |transactions| && transactions[k].parentTransactionId.Some? ==>
         transactions[k].parentTransactionId.value in TransactionIds(transactions)[..k]
  }

  /** The position of the parent of the transaction at a position, 0 for a root. */
  ghost function ParentPosition(transactions: seq<Transaction>, position: nat): (parent: nat)
    requires WellFounded(transactions) && 0 < position <= |transactions|
    ensures parent < position
  {
    var parentId := transactions[position - 1].parentTransactionId;
    if parentId == None then 0
    else
      ParentIsEarlier(transactions, position);
      Find(TransactionIds(transactions), parentId.value) + 1
  }

  lemma ParentIsEarlier(transactions: seq<Transaction>, position: nat)
    requires WellFounded(transactions) && 0 < position <= |transactions|
    requires transactions[position - 1].parentTransactionId.Some?
    ensures 0 <= Find(TransactionIds(transactions), transactions[position - 1].parentTransactionId.value) < position - 1
  {
    var ids, parentId := TransactionIds(transactions), transactions[position - 1].parentTransactionId.value;
    var k :| 0 <= k < position - 1 && ids[..position - 1][k] == parentId;
    FindIsFirst(ids, parentId, k);
  }

  /** The operations from the root down to a history position. */
  ghost function ChainOperations(transactions: seq<Transaction>, position: nat): seq<Operation>
    requires WellFounded(transactions) && position <= |transactions|
  {
    if position == 0 then []
    else ChainOperations(transactions, ParentPosition(transactions, position)) + transactions[position - 1].operations
  }

  /** The transactions from the root down to a history position. */
  ghost function ChainTransactions(transactions: seq<Transaction>, position: nat): seq<Transaction>
    requires WellFounded(transactions) && position <= |transactions|
  {
    if position == 0 then []
    else ChainTransactions(transactions, ParentPosition(transactions, position)) + [transactions[position - 1]]
  }

  function OperationsOf(transactions: seq<Transaction>): seq<Operation> {
    if transactions == [] then [] else transactions[0].operations + OperationsOf(transactions[1..])
  }

  /**
   From a root, each transaction the parent of the next,
   down to the given one, and all of them saved ones.
  */
  ghost predicate ParentChain(chain: seq<Transaction>, last: Transaction, transactions: seq<Transaction>) {
    && chain != [] && chain[|chain| - 1] == last
    && chain[0].parentTransactionId == None
    && (forall i :: 0 < i < |chain| ==> chain[i].parentTransactionId == Some(chain[i - 1].id))
    && (forall transaction :: transaction in chain ==> transaction in transactions)
  }

  /** What the ids say about the parent: it is the saved transaction of that id. */
  lemma ParentIsNamed(transactions: seq<Transaction>, position: nat)
    requires WellFounded(transactions) && 0 < position <= |transactions|
    ensures var parent, named := ParentPosition(transactions, position), transactions[position - 1].parentTransactionId;
            if named == None then parent == 0 else parent > 0 && transactions[parent - 1].id == named.value
  {
    if transactions[position - 1].parentTransactionId.Some? {
      ParentIsEarlier(transactions, position);
      var parent := ParentPosition(transactions, position);
      assert TransactionIds(transactions)[parent - 1] == transactions[parent - 1].id;
    }
  }

  lemma {:induction false} ChainFollowsParents(transactions: seq<Transaction>, position: nat)
    requires WellFounded(transactions) && 0 < position <= |transactions|
    ensures ParentChain(ChainTransactions(transactions, position), transactions[position - 1], transactions)
    decreases position
  {
    var parent := ParentPosition(transactions, position);
    ParentIsNamed(transactions, position);
    if parent > 0 {
      ChainFollowsParents(transactions, parent);
    }
  }

  /** There is only one chain of parents down to a transaction. */
  lemma {:induction false} OneChainOfParents(transactions: seq<Transaction>, position: nat, chain: seq<Transaction>)
    requires WellFounded(transactions) && 0 < position <= |transactions|
    requires ParentChain(chain, transactions[position - 1], transactions)
    ensures chain == ChainTransactions(transactions, position)
    decreases position
  {
    var init, parent := chain[..|chain| - 1], ParentPosition(transactions, position);
    ParentIsNamed(transactions, position);
    assert chain == init + [transactions[position - 1]];
    if init != [] {
      assert init[|init| - 1] == chain[|chain| - 2];
      assert transactions[position - 1].parentTransactionId == Some(init[|init| - 1].id);
      SameIdSamePlace(transactions, parent - 1, init[|init| - 1]);
      OneChainOfParents(transactions, parent, init);
    }
  }

  lemma SameIdSamePlace(transactions: seq<Transaction>, k: nat, transaction: Transaction)
    requires Distinct(TransactionIds(transactions)) && k < |transactions| && transaction in transactions
    requires transaction.id == transactions[k].id
    ensures transaction == transactions[k]
  {
    var l :| 0 <= l < |transactions| && transactions[l] == transaction;
    assert TransactionIds(transactions)[l] == TransactionIds(transactions)[k];
  }

  lemma {:induction false} OperationsOfConcat(a: seq<Transaction>, b: seq<Transaction>)
    ensures OperationsOf(a + b) == OperationsOf(a) + OperationsOf(b)
  {
    if a == [] {
      assert a + b == b;
    } else {
      OperationsOfConcat(a[1..], b);
      assert (a + b)[1..] == a[1..] + b;
      Associate(a[0].operations, OperationsOf(a[1..]), OperationsOf(b));
    }
  }

  lemma {:induction false} ChainOperationsAreOfTheChain(transactions: seq<Transaction>, position: nat)
    requires WellFounded(transactions) && position <= |transactions|
    ensures ChainOperations(transactions, position) == OperationsOf(ChainTransactions(transactions, position))
    decreases position
  {
    if position > 0 {
      var parent, last := ParentPosition(transactions, position), transactions[position - 1];
      ChainOperationsAreOfTheChain(transactions, parent);
      OperationsOfConcat(ChainTransactions(transactions, parent), [last]);
      assert OperationsOf([last]) == last.operations + [] == last.operations;
    }
  }

  lemma WalkUp(transactions: seq<Transaction>, position: nat, chain: seq<Transaction>)
    requires WellFounded(transactions) && 0 < position <= |transactions|
    ensures ChainOperations(transactions, position) + OperationsOf(chain)
            == ChainOperations(transactions, ParentPosition(transactions, position))
              + OperationsOf([transactions[position - 1]] + chain)
    ensures ChainTransactions(transactions, position) + chain
            == ChainTransactions(transactions, ParentPosition(transactions, position))
              + ([transactions[position - 1]] + chain)
  {
    Associate(ChainTransactions(transactions, ParentPosition(transactions, position)), [transactions[position - 1]],
              chain);
    var above, own := ChainOperations(transactions, ParentPosition(transactions, position)),
      transactions[position - 1].operations;
    assert ([transactions[position - 1]] + chain)[1..] == chain;
    assert above + own + OperationsOf(chain) == above + (own + OperationsOf(chain));
  }

  /**
   Walks the parent pointers from a history position up to the root, as every reader of the history does.
   A position past the end selects nothing.
  */
  method WalkChain(transactions: seq<Transaction>, position: nat) returns (chain: seq<Transaction>)
    requires WellFounded(transactions)
    ensures chain == if position <= |transactions| then ChainTransactions(transactions, position) else []
    ensures OperationsOf(chain) == if position <= |transactions| then ChainOperations(transactions, position) else []
    ensures 0 < position <= |transactions| ==> ParentChain(chain, transactions[position - 1], transactions)
    ensures position == 0 || position > |transactions| ==> chain == []
  {
    if 0 < position <= |transactions| {
      ChainFollowsParents(transactions, position);
    }
    chain := [];
    if position > |transactions| {
      return;
    }
    var selected: nat := position;
    assert ChainTransactions(transactions, position) + chain == ChainTransactions(transactions, position);
    assert ChainOperations(transactions, position) + OperationsOf(chain) == ChainOperations(transactions, position);
    while selected > 0
      invariant selected <= |transactions|
      invariant ChainTransactions(transactions, position) == ChainTransactions(transactions, selected) + chain
      invariant ChainOperations(transactions, position) == ChainOperations(transactions, selected) + OperationsOf(chain)
    {
      WalkUp(transactions, selected, chain);
      chain := [transactions[selected - 1]] + chain;
      selected := StepUp(transactions, selected);
    }
  }

  method StepUp(transactions: seq<Transaction>, position: nat) returns (parent: nat)
    requires WellFounded(transactions) && 0 < position <= |transactions|
    ensures parent == ParentPosition(transactions, position)
  {
    var parentId := transactions[position - 1].parentTransactionId;
    if parentId == None {
      return 0;
    }
    ParentIsEarlier(transactions, position);
    parent := Find(TransactionIds(transactions), parentId.value) + 1;
  }

  method ValidateParents(transactions: seq<Transaction>) returns (ok: bool)
    requires Distinct(TransactionIds(transactions))
    ensures ok <==> WellFounded(transactions)
  {
    ok := true;
    var preceding: set<Id> := {};
    for k := 0 to |transactions|
      invariant preceding == Elements(TransactionIds(transactions)[..k])
      invariant ok <==> forall i :: 0 <= i < k && transactions[i].parentTransactionId.Some? ==>
                          transactions[i].parentTransactionId.value in TransactionIds(transactions)[..i]
    {
      var transaction := transactions[k];
      if transaction.parentTransactionId.Some? && transaction.parentTransactionId.value !in preceding {
        ok := false;
      }
      preceding := preceding + {transaction.id};
      assert TransactionIds(transactions)[..k + 1] == TransactionIds(transactions)[..k] + [transaction.id];
    }
  }
}
