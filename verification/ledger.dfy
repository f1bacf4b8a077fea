/**
 * The state transitions behind the `useInventory` hook: each `setState`
 * callback as a pure function from the previous state to the next one.
 * Fresh ids and today's date come in as parameters.
 */
module Ledger {
  import opened Wrappers
  import opened Types
  import opened Calculations
  import Seqs

  /** `initialState`: the default labels, no lines and a zero starting balance. */
  const InitialState := State("BAR & RESTAURANT", "Premium Service", [], 0.0)

  /** Dense numbering: line i (0-based) shows number i + 1. */
  predicate Dense(es: seq<Entry>) {
    forall i :: 0 <= i < |es| ==> es[i].no == i + 1
  }

  /** No id occurs twice. */
  predicate DistinctIds(es: seq<Entry>) {
    forall i, j :: 0 <= i < j < |es| ==> es[i].id != es[j].id
  }

  /** The two invariants every mutation is meant to keep. */
  predicate Valid(s: State) {
    Dense(s.entries) && Consistent(s.entries, s.startingBalance)
  }

  /** Number the lines 1..N in their current order. */
  function Renumber(es: seq<Entry>): (r: seq<Entry>)
    ensures |r| == |es| && Dense(r)
    ensures forall i :: 0 <= i < |es| ==> r[i] == es[i].(no := r[i].no)
  {
    seq(|es|, i requires 0 <= i < |es| => es[i].(no := i + 1))
  }

  /** Renumbering an already densely numbered ledger changes nothing. */
  lemma RenumberDense(es: seq<Entry>)
    requires Dense(es)
    ensures Renumber(es) == es
  {
  }

  /** `updateBusinessInfo`: replaces both labels and nothing else. */
  function UpdateBusinessInfo(prev: State, businessLine: string, department: string): (r: State)
    ensures r.businessLine == businessLine && r.department == department
    ensures r.entries == prev.entries && r.startingBalance == prev.startingBalance
  {
    prev.(businessLine := businessLine, department := department)
  }

  /**
   * `addEntry`: appends a blank line numbered one past the current length,
   * dated today, then recalculates every balance.
   */
  function AddEntry(prev: State, freshId: string, today: string): (r: State)
    ensures |r.entries| == |prev.entries| + 1
    ensures forall i :: 0 <= i < |prev.entries| ==> SameButBalance(prev.entries[i], r.entries[i])
    ensures var e := r.entries[|prev.entries|];
            && e.id == freshId && e.no == |prev.entries| + 1 && e.date == today
            && e.notes == "" && e.sign == "" && e.quantityIn == 0.0 && e.quantityOut == 0.0
    ensures r.businessLine == prev.businessLine && r.department == prev.department
    ensures r.startingBalance == prev.startingBalance
    ensures Consistent(r.entries, r.startingBalance)
    ensures Dense(prev.entries) ==> Dense(r.entries)
  {
    var newEntry := Entry(freshId, |prev.entries| + 1, today, "", 0.0, 0.0, 0.0, "");
    prev.(entries := RecalculateAllBalances(prev.entries + [newEntry], prev.startingBalance))
  }

  /**
   * On a consistent ledger, adding a blank line leaves every existing line
   * untouched and the new line carries the previous closing balance.
   */
  lemma AddEntryKeepsExisting(prev: State, freshId: string, today: string)
    requires Consistent(prev.entries, prev.startingBalance)
    ensures var r := AddEntry(prev, freshId, today);
            && r.entries[..|prev.entries|] == prev.entries
            && r.entries[|prev.entries|].balance
               == (if |prev.entries| == 0 then prev.startingBalance
                   else prev.entries[|prev.entries| - 1].balance)
  {
    var n := |prev.entries|;
    var newEntry := Entry(freshId, n + 1, today, "", 0.0, 0.0, 0.0, "");
    var r := AddEntry(prev, freshId, today);
    RecalculateAppend(prev.entries, [newEntry], prev.startingBalance);
    RecalculateFixpoint(prev.entries, prev.startingBalance);
    assert r.entries[..n] == prev.entries;
    if n > 0 {
      assert r.entries[n - 1] == prev.entries[n - 1];
      assert r.entries[n].balance == r.entries[n - 1].balance + Net(r.entries[n]) by {
        ConsistentIffSteps(r.entries, prev.startingBalance);
      }
    }
  }

  /** A fresh id keeps ids distinct. */
  lemma AddEntryKeepsIdsDistinct(prev: State, freshId: string, today: string)
    requires DistinctIds(prev.entries) && freshId !in Ids(prev.entries)
    ensures DistinctIds(AddEntry(prev, freshId, today).entries)
  {
    var r := AddEntry(prev, freshId, today).entries;
    forall i, j | 0 <= i < j < |r|
      ensures r[i].id != r[j].id
    {
      if j == |prev.entries| {
        assert prev.entries[i].id in Ids(prev.entries);
      }
    }
  }

  /** The fields a line can be edited through (`keyof InventoryEntry`). */
  datatype Field = IdField | NoField | DateField | NotesField | InField | OutField | BalanceField | SignField

  /** An edit: the field together with its new value. */
  datatype Update =
    | SetId(id: string)
    | SetNo(no: int)
    | SetDate(date: string)
    | SetNotes(notes: string)
    | SetIn(quantityIn: real)
    | SetOut(quantityOut: real)
    | SetBalance(balance: real)
    | SetSign(sign: string)
  {
    function FieldOf(): Field {
      match this
      case SetId(_) => IdField
      case SetNo(_) => NoField
      case SetDate(_) => DateField
      case SetNotes(_) => NotesField
      case SetIn(_) => InField
      case SetOut(_) => OutField
      case SetBalance(_) => BalanceField
      case SetSign(_) => SignField
    }
  }

  /** `a` and `b` hold the same value in field `f`. */
  predicate Agrees(a: Entry, b: Entry, f: Field) {
    match f
    case IdField => a.id == b.id
    case NoField => a.no == b.no
    case DateField => a.date == b.date
    case NotesField => a.notes == b.notes
    case InField => a.quantityIn == b.quantityIn
    case OutField => a.quantityOut == b.quantityOut
    case BalanceField => a.balance == b.balance
    case SignField => a.sign == b.sign
  }

  /** `e` holds the value that `u` writes. */
  predicate Carries(e: Entry, u: Update) {
    match u
    case SetId(v) => e.id == v
    case SetNo(v) => e.no == v
    case SetDate(v) => e.date == v
    case SetNotes(v) => e.notes == v
    case SetIn(v) => e.quantityIn == v
    case SetOut(v) => e.quantityOut == v
    case SetBalance(v) => e.balance == v
    case SetSign(v) => e.sign == v
  }

  /** `{ ...entry, [field]: value }` */
  function Apply(e: Entry, u: Update): Entry {
    match u
    case SetId(v) => e.(id := v)
    case SetNo(v) => e.(no := v)
    case SetDate(v) => e.(date := v)
    case SetNotes(v) => e.(notes := v)
    case SetIn(v) => e.(quantityIn := v)
    case SetOut(v) => e.(quantityOut := v)
    case SetBalance(v) => e.(balance := v)
    case SetSign(v) => e.(sign := v)
  }

  /**
   * `updateEntry(id, field, value)`: every line whose id matches gets the new
   * value in that one field, then all balances are recalculated. The value
   * is stored as given (no clamping happens here), and a `balance` edit is
   * overwritten by the recalculation.
   */
  function UpdateEntry(prev: State, id: string, u: Update): (r: State)
    ensures |r.entries| == |prev.entries|
    ensures forall i :: 0 <= i < |prev.entries| && prev.entries[i].id == id && !u.SetBalance? ==>
              Carries(r.entries[i], u)
    ensures forall i, f :: 0 <= i < |prev.entries| && f != BalanceField
                           && (prev.entries[i].id != id || f != u.FieldOf()) ==>
              Agrees(r.entries[i], prev.entries[i], f)
    ensures r.businessLine == prev.businessLine && r.department == prev.department
    ensures r.startingBalance == prev.startingBalance
    ensures Consistent(r.entries, r.startingBalance)
  {
    var updated := seq(|prev.entries|, i requires 0 <= i < |prev.entries| =>
      if prev.entries[i].id == id then Apply(prev.entries[i], u) else prev.entries[i]);
    prev.(entries := RecalculateAllBalances(updated, prev.startingBalance))
  }

  /** An edit addressed to an id that is not there changes nothing in a valid ledger. */
  lemma UpdateUnknownIdIsNoOp(prev: State, id: string, u: Update)
    requires Consistent(prev.entries, prev.startingBalance)
    requires id !in Ids(prev.entries)
    ensures UpdateEntry(prev, id, u) == prev
  {
    var updated := seq(|prev.entries|, i requires 0 <= i < |prev.entries| =>
      if prev.entries[i].id == id then Apply(prev.entries[i], u) else prev.entries[i]);
    forall i | 0 <= i < |prev.entries|
      ensures updated[i] == prev.entries[i]
    {
      assert prev.entries[i].id in Ids(prev.entries);
    }
    assert updated == prev.entries;
    RecalculateFixpoint(prev.entries, prev.startingBalance);
  }

  /** Any edit other than of `no` keeps the numbering dense. */
  lemma UpdateKeepsDense(prev: State, id: string, u: Update)
    requires Dense(prev.entries) && !u.SetNo?
    ensures Dense(UpdateEntry(prev, id, u).entries)
  {
    var r := UpdateEntry(prev, id, u);
    forall i | 0 <= i < |r.entries|
      ensures r.entries[i].no == i + 1
    {
      assert Agrees(r.entries[i], prev.entries[i], NoField);
    }
  }

  /** The lines `filter((entry) => entry.id !== id)` keeps. */
  function Without(es: seq<Entry>, id: string): (r: seq<Entry>) {
    Seqs.Filter(es, (e: Entry) => e.id != id)
  }

  /**
   * `deleteEntry(id)`: drops every line with that id, keeps the others in
   * order, renumbers them 1..N and recalculates the balances.
   */
  function DeleteEntry(prev: State, id: string): (r: State)
    ensures |r.entries| == |Without(prev.entries, id)|
    ensures forall i :: 0 <= i < |r.entries| ==> SameButPosition(Without(prev.entries, id)[i], r.entries[i])
    ensures id !in Ids(r.entries)
    ensures r.businessLine == prev.businessLine && r.department == prev.department
    ensures r.startingBalance == prev.startingBalance
    ensures Valid(r)
  {
    var kept := Renumber(Without(prev.entries, id));
    var r := prev.(entries := RecalculateAllBalances(kept, prev.startingBalance));
    assert id !in Ids(r.entries) by {
      forall i | 0 <= i < |r.entries|
        ensures r.entries[i].id != id
      {
        assert Without(prev.entries, id)[i] in Without(prev.entries, id);
      }
    }
    r
  }

  /** Deleting an id that is not there changes nothing in a valid ledger. */
  lemma DeleteUnknownIdIsNoOp(prev: State, id: string)
    requires Valid(prev) && id !in Ids(prev.entries)
    ensures DeleteEntry(prev, id) == prev
  {
    forall i | 0 <= i < |prev.entries|
      ensures ((e: Entry) => e.id != id)(prev.entries[i])
    {
      assert prev.entries[i].id in Ids(prev.entries);
    }
    Seqs.FilterKeepsAll(prev.entries, (e: Entry) => e.id != id);
    RenumberDense(prev.entries);
    RecalculateFixpoint(prev.entries, prev.startingBalance);
  }

  /** Index of the first line with the given id (`Array.prototype.find`). */
  function FindById(es: seq<Entry>, id: string): (r: Option<nat>)
    ensures r.None? <==> id !in Ids(es)
    ensures r.Some? ==> r.value < |es| && es[r.value].id == id
                        && forall j :: 0 <= j < r.value ==> es[j].id != id
    decreases |es|
  {
    if |es| == 0 then None
    else if es[0].id == id then Some(0)
    else
      match FindById(es[1..], id)
      case None =>
        assert Ids(es) == {es[0].id} + Ids(es[1..]) by {
          forall x | x in Ids(es) ensures x in {es[0].id} + Ids(es[1..]) {
            var i :| 0 <= i < |es| && es[i].id == x;
            if i > 0 { assert es[1..][i - 1].id == x; }
          }
        }
        None
      case Some(k) =>
        assert es[k + 1] == es[1..][k];
        Some(k + 1)
  }

  /**
   * `duplicateEntry(id)`: if no line has the id, the state is returned as is;
   * otherwise a copy of the first such line is appended with a fresh id, the
   * next number and today's date, and balances are recalculated.
   */
  function DuplicateEntry(prev: State, id: string, freshId: string, today: string): (r: State)
    ensures id !in Ids(prev.entries) ==> r == prev
    ensures forall k :: 0 <= k < |prev.entries| && prev.entries[k].id == id
                        && (forall j :: 0 <= j < k ==> prev.entries[j].id != id) ==>
              && |r.entries| == |prev.entries| + 1
              && r.entries[|prev.entries|] == prev.entries[k].(
                   id := freshId, no := |prev.entries| + 1, date := today,
                   balance := r.entries[|prev.entries|].balance)
    ensures |r.entries| >= |prev.entries|
    ensures forall i :: 0 <= i < |prev.entries| ==> SameButBalance(prev.entries[i], r.entries[i])
    ensures r.businessLine == prev.businessLine && r.department == prev.department
    ensures r.startingBalance == prev.startingBalance
    ensures id in Ids(prev.entries) ==> Consistent(r.entries, r.startingBalance)
    ensures Dense(prev.entries) ==> Dense(r.entries)
  {
    match FindById(prev.entries, id)
    case None => prev
    case Some(k) =>
      var original := prev.entries[k];
      var duplicated := original.(id := freshId, no := |prev.entries| + 1, date := today);
      prev.(entries := RecalculateAllBalances(prev.entries + [duplicated], prev.startingBalance))
  }

  /** A fresh id keeps ids distinct after duplication. */
  lemma DuplicateKeepsIdsDistinct(prev: State, id: string, freshId: string, today: string)
    requires DistinctIds(prev.entries) && freshId !in Ids(prev.entries)
    ensures DistinctIds(DuplicateEntry(prev, id, freshId, today).entries)
  {
    var r := DuplicateEntry(prev, id, freshId, today).entries;
    forall i, j | 0 <= i < j < |r|
      ensures r[i].id != r[j].id
    {
      if j == |prev.entries| {
        assert prev.entries[i].id in Ids(prev.entries);
        var k := FindById(prev.entries, id).value;
      }
    }
  }

  /** `clearAllData`: back to the initial state, whatever came before. */
  function ClearAllData(prev: State): (r: State)
    ensures r.entries == [] && r.startingBalance == 0.0
    ensures r.businessLine == "BAR & RESTAURANT" && r.department == "Premium Service"
    ensures Valid(r)
  {
    InitialState
  }

  /**
   * `setStartingBalance(balance)`: replaces the starting balance and
   * recalculates every balance; labels and all other line fields stay.
   */
  function SetStartingBalance(prev: State, balance: real): (r: State)
    ensures r.startingBalance == balance
    ensures r.businessLine == prev.businessLine && r.department == prev.department
    ensures |r.entries| == |prev.entries|
    ensures forall i :: 0 <= i < |prev.entries| ==> SameButBalance(prev.entries[i], r.entries[i])
    ensures Consistent(r.entries, balance)
    ensures Dense(prev.entries) ==> Dense(r.entries)
  {
    prev.(startingBalance := balance, entries := RecalculateAllBalances(prev.entries, balance))
  }

  /** On a consistent ledger, every balance moves by exactly the change in starting balance. */
  lemma SetStartingBalanceShifts(prev: State, balance: real)
    requires Consistent(prev.entries, prev.startingBalance)
    ensures var r := SetStartingBalance(prev, balance);
            forall i :: 0 <= i < |prev.entries| ==>
              r.entries[i].balance == prev.entries[i].balance + (balance - prev.startingBalance)
  {
    RecalculateFixpoint(prev.entries, prev.startingBalance);
    RecalculateShift(prev.entries, prev.startingBalance, balance - prev.startingBalance);
  }

  /** Every mutation maps a valid state to a valid state. */
  lemma MutationsPreserveValid(prev: State, id: string, u: Update, freshId: string, today: string, balance: real,
                                businessLine: string, department: string)
    requires Valid(prev)
    ensures Valid(AddEntry(prev, freshId, today))
    ensures !u.SetNo? ==> Valid(UpdateEntry(prev, id, u))
    ensures Valid(DeleteEntry(prev, id))
    ensures Valid(DuplicateEntry(prev, id, freshId, today))
    ensures Valid(SetStartingBalance(prev, balance))
    ensures Valid(UpdateBusinessInfo(prev, businessLine, department))
    ensures Valid(ClearAllData(prev))
  {
    if !u.SetNo? {
      UpdateKeepsDense(prev, id, u);
    }
  }
}
