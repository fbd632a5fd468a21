/**
 * `Account` of the home application: a balance and the list of its
 * transactions, updated in place by adding, deleting and editing
 * transactions.  Each operation moves the balance by exactly what it adds
 * to or takes from the list, so `balance - Σ amounts` never changes.
 */
module Accounts {
  import opened Wrappers
  import opened Transactions

  /* ------------------------------ lists of records ------------------------------ */

  function Sum(rs: seq<TransactionRecord>): int {
    if rs == [] then 0 else rs[0].amount + Sum(rs[1..])
  }

  /** The records whose id is not in `ids`, in their order. */
  function Kept(rs: seq<TransactionRecord>, ids: set<string>): (r: seq<TransactionRecord>)
    ensures forall x :: x in r <==> x in rs && x.id !in ids
  {
    if rs == [] then [] else (if rs[0].id in ids then [] else [rs[0]]) + Kept(rs[1..], ids)
  }

  /** The records whose id is in `ids`, in their order. */
  function Removed(rs: seq<TransactionRecord>, ids: set<string>): (r: seq<TransactionRecord>)
    ensures forall x :: x in r <==> x in rs && x.id in ids
  {
    if rs == [] then [] else (if rs[0].id in ids then [rs[0]] else []) + Removed(rs[1..], ids)
  }

  /** Position of the first record with `id`: `transactions.find(t => t.id === id)`. */
  function FindIndex(rs: seq<TransactionRecord>, id: string): (r: Option<nat>)
    ensures r.Some? ==> r.value < |rs| && rs[r.value].id == id
    ensures r.Some? ==> forall j :: 0 <= j < r.value ==> rs[j].id != id
    ensures r.None? ==> forall j :: 0 <= j < |rs| ==> rs[j].id != id
  {
    if rs == [] then None
    else if rs[0].id == id then Some(0)
    else match FindIndex(rs[1..], id)
      case None => None
      case Some(k) => Some(k + 1)
  }

  function SetOf(ids: seq<string>): set<string> {
    set x | x in ids
  }

  lemma {:induction false} SumAppend(rs: seq<TransactionRecord>, x: TransactionRecord)
    ensures Sum(rs + [x]) == Sum(rs) + x.amount
  {
    if rs != [] {
      assert (rs + [x])[1..] == rs[1..] + [x];
      SumAppend(rs[1..], x);
    }
  }

  /** Deleting splits the amounts: what is kept plus what is removed is the whole. */
  lemma {:induction false} SumPartition(rs: seq<TransactionRecord>, ids: set<string>)
    ensures Sum(Kept(rs, ids)) + Sum(Removed(rs, ids)) == Sum(rs)
  {
    if rs != [] {
      SumPartition(rs[1..], ids);
      var k, d := Kept(rs[1..], ids), Removed(rs[1..], ids);
      if rs[0].id in ids {
        assert Removed(rs, ids) == [rs[0]] + d;
        assert Kept(rs, ids) == k;
      } else {
        assert Kept(rs, ids) == [rs[0]] + k;
        assert Removed(rs, ids) == d;
      }
    }
  }

  /** Replacing one record changes the sum by the difference of the two amounts. */
  lemma {:induction false} SumUpdate(rs: seq<TransactionRecord>, i: nat, x: TransactionRecord)
    requires i < |rs|
    ensures Sum(rs[i := x]) == Sum(rs) - rs[i].amount + x.amount
  {
    if i > 0 {
      assert rs[i := x][1..] == rs[1..][i - 1 := x];
      SumUpdate(rs[1..], i - 1, x);
    }
  }

  lemma {:induction false} KeptNothing(rs: seq<TransactionRecord>)
    ensures Kept(rs, {}) == rs
  {
    if rs != [] {
      KeptNothing(rs[1..]);
      assert rs == [rs[0]] + rs[1..];
    }
  }

  /* ------------------------------ lists of objects ------------------------------ */

  /** What the listed transactions hold. */
  function RecordsOf(ts: seq<Transaction>): (rs: seq<TransactionRecord>)
    reads set t | t in ts
    ensures |rs| == |ts| && forall i :: 0 <= i < |ts| ==> rs[i] == ts[i].Record()
  {
    if ts == [] then [] else [ts[0].Record()] + RecordsOf(ts[1..])
  }

  /** No transaction object is listed twice. */
  predicate Distinct(ts: seq<Transaction>) {
    forall i, j :: 0 <= i < j < |ts| ==> ts[i] != ts[j]
  }

  lemma RecordsCons(t: Transaction, ts: seq<Transaction>)
    ensures RecordsOf([t] + ts) == [t.Record()] + RecordsOf(ts)
  {
    assert ([t] + ts)[1..] == ts;
  }

  lemma DistinctCons(t: Transaction, ts: seq<Transaction>)
    ensures Distinct([t] + ts) <==> t !in ts && Distinct(ts)
  {
    var r := [t] + ts;
    if t !in ts && Distinct(ts) {
      forall i, j | 0 <= i < j < |r|
        ensures r[i] != r[j]
      {
        assert r[j] == ts[j - 1];
        if i > 0 {
          assert r[i] == ts[i - 1];
        }
      }
    }
    if Distinct(r) {
      forall i, j | 0 <= i < j < |ts|
        ensures ts[i] != ts[j]
      {
        assert ts[i] == r[i + 1] && ts[j] == r[j + 1];
      }
      forall k | 0 <= k < |ts|
        ensures ts[k] != t
      {
        assert ts[k] == r[k + 1] && t == r[0];
      }
    }
  }

  lemma DistinctSnoc(ts: seq<Transaction>, t: Transaction)
    requires t !in ts && Distinct(ts)
    ensures Distinct(ts + [t])
  {
  }

  lemma KeptCons(a: TransactionRecord, rs: seq<TransactionRecord>, ids: set<string>)
    ensures Kept([a] + rs, ids) == (if a.id in ids then [] else [a]) + Kept(rs, ids)
  {
    assert ([a] + rs)[1..] == rs;
  }

  /** `transactions.filter(t => !idsSet.has(t.id))`. */
  function KeptObjects(ts: seq<Transaction>, ids: set<string>): (r: seq<Transaction>)
    reads set t | t in ts
    ensures RecordsOf(r) == Kept(RecordsOf(ts), ids)
    ensures forall t :: t in r ==> t in ts
    ensures Distinct(ts) ==> Distinct(r)
  {
    if ts == [] then []
    else
      var t, rest := ts[0], KeptObjects(ts[1..], ids);
      assert ts == [t] + ts[1..];
      RecordsCons(t, ts[1..]);
      KeptCons(t.Record(), RecordsOf(ts[1..]), ids);
      DistinctCons(t, ts[1..]);
      if t.id in ids then rest
      else
        RecordsCons(t, rest);
        DistinctCons(t, rest);
        [t] + rest
  }

  class Account {
    var balance: int
    var transactions: seq<Transaction>

    /** Every listed transaction is a different object. */
    ghost predicate Valid()
      reads this
    {
      Distinct(transactions)
    }

    function Records(): seq<TransactionRecord>
      reads this, set t | t in transactions
    {
      RecordsOf(transactions)
    }

    /** `new Account(initialBalance, initialTransactions)`; the defaults are `0` and `[]`. */
    constructor(initialBalance: int, initialTransactions: seq<Transaction>)
      ensures balance == initialBalance && transactions == initialTransactions
    {
      balance := initialBalance;
      transactions := initialTransactions;
    }

    /**
     * `addTransaction`: a new transaction, with a generated id, goes at the
     * end, and the balance moves by its amount.
     */
    method AddTransaction(kind: TransactionType, amount: int, date: int, description: Option<string>, freshId: string)
      requires Valid()
      modifies this
      ensures Valid()
      ensures Records() == old(Records()) + [TransactionRecord(freshId, kind, amount, date, description)]
      ensures balance == old(balance) + amount
      ensures balance - Sum(Records()) == old(balance - Sum(Records()))
      ensures |transactions| > 0 && fresh(transactions[|transactions| - 1])
      ensures transactions[..|transactions| - 1] == old(transactions)
    {
      ghost var before := Records();
      var t := new Transaction(kind, amount, date, description, None, freshId);
      assert RecordsOf(transactions) == before;
      DistinctSnoc(transactions, t);
      transactions := transactions + [t];
      balance := balance + amount;
      assert Records() == before + [t.Record()];
      assert transactions[..|transactions| - 1] == old(transactions);
      SumAppend(before, t.Record());
    }

    /**
     * `deleteTransactions`: with no list or an empty one nothing changes;
     * otherwise the listed ids leave the list, the rest keep their order,
     * and the balance drops by the removed amounts.
     */
    method DeleteTransactions(idsToDelete: Option<seq<string>>)
      requires Valid()
      modifies this
      ensures Valid()
      ensures idsToDelete.None? || idsToDelete.value == [] ==>
        transactions == old(transactions) && balance == old(balance)
      ensures idsToDelete.Some? && idsToDelete.value != [] ==>
        Records() == Kept(old(Records()), SetOf(idsToDelete.value))
        && balance == old(balance) - Sum(Removed(old(Records()), SetOf(idsToDelete.value)))
      ensures balance - Sum(Records()) == old(balance - Sum(Records()))
    {
      if idsToDelete.None? || |idsToDelete.value| == 0 {
        return;
      }
      var idsSet := SetOf(idsToDelete.value);
      var amountToRevert := Sum(Removed(Records(), idsSet));
      transactions := KeptObjects(transactions, idsSet);
      balance := balance - amountToRevert;
      SumPartition(old(Records()), idsSet);
    }

    /**
     * `updateTransaction`: the first transaction with the id takes the new
     * kind, amount and date (id and description stay), and the balance
     * moves by the change in amount; an unknown id changes nothing.
     */
    method UpdateTransaction(id: string, newKind: TransactionType, newAmount: int, newDate: int)
      requires Valid()
      modifies this, set t | t in transactions
      ensures Valid() && transactions == old(transactions)
      ensures var i := FindIndex(old(Records()), id);
        (i.None? ==> Records() == old(Records()) && balance == old(balance))
        && (i.Some? ==>
              Records() == old(Records())[i.value := old(Records())[i.value].(kind := newKind, amount := newAmount, date := newDate)]
              && balance == old(balance) - old(Records())[i.value].amount + newAmount)
      ensures balance - Sum(Records()) == old(balance - Sum(Records()))
    {
      var found := FindIndex(Records(), id);
      if found.None? {
        return;
      }
      var i := found.value;
      var t := transactions[i];
      var oldAmount := t.amount;
      t.kind := newKind;
      t.amount := newAmount;
      t.date := newDate;
      balance := balance - oldAmount + newAmount;
      ghost var before := old(Records());
      ghost var updated := before[i := before[i].(kind := newKind, amount := newAmount, date := newDate)];
      forall j | 0 <= j < |transactions|
        ensures Records()[j] == updated[j]
      {
        if j != i {
          assert transactions[j] != t;
        }
      }
      SumUpdate(before, i, updated[i]);
    }
  }

  /* ---------------------------------- properties ---------------------------------- */

  /** Deleting with ids no transaction has keeps every record. */
  lemma DeleteUnknownIdsKeepsAll(rs: seq<TransactionRecord>, ids: set<string>)
    requires forall x :: x in rs ==> x.id !in ids
    ensures Kept(rs, ids) == rs && Sum(Removed(rs, ids)) == 0
  {
    KeptAllWhenNoneListed(rs, ids);
  }

  lemma {:induction false} KeptAllWhenNoneListed(rs: seq<TransactionRecord>, ids: set<string>)
    requires forall x :: x in rs ==> x.id !in ids
    ensures Kept(rs, ids) == rs && Removed(rs, ids) == []
  {
    if rs != [] {
      KeptAllWhenNoneListed(rs[1..], ids);
      assert rs == [rs[0]] + rs[1..];
    }
  }

  /** Updating leaves every record but the first match as it was, and the match keeps its id and description. */
  lemma UpdateTouchesOnlyFirstMatch(rs: seq<TransactionRecord>, id: string, k: TransactionType, a: int, d: int, j: nat)
    requires FindIndex(rs, id).Some? && j < |rs|
    ensures var i := FindIndex(rs, id).value;
      var after := rs[i := rs[i].(kind := k, amount := a, date := d)];
      (j != i ==> after[j] == rs[j])
      && after[i].id == id && after[i].description == rs[i].description
  {
  }
}
