/** The records of the inventory ledger (`InventoryEntry`, `InventoryState`, ...). */
module Types {

  /**
   * One ledger line. `balance` is derived: the running total up to and
   * including this line. Quantities are exact reals, not IEEE doubles.
   */
  datatype Entry = Entry(
    id: string,
    no: int,
    date: string,
    notes: string,
    quantityIn: real,
    quantityOut: real,
    balance: real,
    sign: string)

  /** The whole ledger document, as kept in memory and persisted. */
  datatype State = State(
    businessLine: string,
    department: string,
    entries: seq<Entry>,
    startingBalance: real)

  /** The search box and the inclusive date range; empty means "no constraint". */
  datatype FilterState = FilterState(searchTerm: string, startDate: string, endDate: string)

  /** The figures shown above the table for the filtered rows. */
  datatype SummaryStats = SummaryStats(
    totalIn: real,
    totalOut: real,
    currentBalance: real,
    entryCount: nat)

  /** What one line contributes to the running balance. */
  function Net(e: Entry): (r: real) {
    e.quantityIn - e.quantityOut
  }

  /** `e'` is `e` with, at most, a different balance. */
  predicate SameButBalance(e: Entry, e': Entry) {
    e' == e.(balance := e'.balance)
  }

  /** `e'` is `e` moved to another position: at most `no` and `balance` differ. */
  predicate SameButPosition(e: Entry, e': Entry) {
    e' == e.(no := e'.no, balance := e'.balance)
  }

  /** The set of ids occurring in `es`. */
  function Ids(es: seq<Entry>): (r: set<string>) {
    set i | 0 <= i < |es| :: es[i].id
  }

  lemma IdsConcat(a: seq<Entry>, b: seq<Entry>)
    ensures Ids(a + b) == Ids(a) + Ids(b)
  {
    forall x | x in Ids(a + b)
      ensures x in Ids(a) + Ids(b)
    {
      var i :| 0 <= i < |a + b| && (a + b)[i].id == x;
      if i >= |a| {
        assert b[i - |a|].id == x;
      }
    }
    forall x | x in Ids(a)
      ensures x in Ids(a + b)
    {
      var i :| 0 <= i < |a| && a[i].id == x;
      assert (a + b)[i].id == x;
    }
    forall x | x in Ids(b)
      ensures x in Ids(a + b)
    {
      var j :| 0 <= j < |b| && b[j].id == x;
      assert (a + b)[|a| + j].id == x;
    }
  }

  /** Sequences with the same ids position by position have the same id set. */
  lemma IdsPointwise(a: seq<Entry>, b: seq<Entry>)
    requires |a| == |b|
    requires forall i :: 0 <= i < |a| ==> a[i].id == b[i].id
    ensures Ids(a) == Ids(b)
  {
    forall x | x in Ids(b)
      ensures x in Ids(a)
    {
      var i :| 0 <= i < |b| && b[i].id == x;
      assert a[i].id == x;
    }
  }

  lemma InIds(es: seq<Entry>, e: Entry)
    requires e in es
    ensures e.id in Ids(es)
  {
    var i :| 0 <= i < |es| && es[i] == e;
  }
}
