/**
 * Bringing external ledger data into memory. Two different rules exist:
 * `loadFromJson` merges (local lines and local labels win), while applying
 * the master file's contents at startup or on connect replaces the lines
 * with the file's and lets every truthy file value win.
 */
module Merge {
  import opened Wrappers
  import opened Types
  import opened Calculations
  import opened Ledger
  import Js
  import Seqs

  /** An imported line: `id`, `notes` and `sign` may be missing from the JSON. */
  datatype ImportedEntry = ImportedEntry(
    id: Option<string>,
    date: string,
    notes: Option<string>,
    quantityIn: real,
    quantityOut: real,
    sign: Option<string>)

  /**
   * An imported document. A missing label reads as "", a missing starting
   * balance as 0 and missing `entries` as [], which is how `||` treats them.
   */
  datatype Document = Document(
    businessLine: string,
    department: string,
    startingBalance: real,
    entries: seq<ImportedEntry>)

  /**
   * The per-line defaults of the import: a missing id gets the clock value
   * `nowId`, missing notes and sign become "". Number and balance are
   * placeholders that renumbering and recalculation overwrite.
   */
  function Sanitize(e: ImportedEntry, nowId: string): (r: Entry)
    ensures r.id == (if e.id.Some? then e.id.value else nowId)
    ensures r.notes == (if e.notes.Some? then e.notes.value else "")
    ensures r.sign == (if e.sign.Some? then e.sign.value else "")
    ensures r.date == e.date && r.quantityIn == e.quantityIn && r.quantityOut == e.quantityOut
  {
    Entry(e.id.GetOr(nowId), 0, e.date, e.notes.GetOr(""), e.quantityIn, e.quantityOut, 0.0, e.sign.GetOr(""))
  }

  function SanitizeAll(es: seq<ImportedEntry>, nowId: string): (r: seq<Entry>)
    ensures |r| == |es|
    ensures forall i :: 0 <= i < |es| ==> r[i] == Sanitize(es[i], nowId)
  {
    seq(|es|, i requires 0 <= i < |es| => Sanitize(es[i], nowId))
  }

  /** The sanitized incoming lines whose id is not already present locally, in incoming order. */
  function NewIncoming(local: seq<Entry>, data: Document, nowId: string): (r: seq<Entry>) {
    var existing := Ids(local);
    Seqs.Filter(SanitizeAll(data.entries, nowId), (e: Entry) => e.id !in existing)
  }

  /** A line is appended exactly when it is an incoming line whose id is not local. */
  lemma NewIncomingMembers(local: seq<Entry>, data: Document, nowId: string)
    ensures forall x :: x in NewIncoming(local, data, nowId) <==>
              x in SanitizeAll(data.entries, nowId) && x.id !in Ids(local)
  {
  }

  /**
   * `loadFromJson(data)`: labels and starting balance keep the local value
   * when it is truthy; the local lines stay, followed by the incoming lines
   * with unseen ids; all lines are renumbered and recalculated.
   */
  function LoadFromJson(prev: State, data: Document, nowId: string): (r: State)
    ensures r.businessLine == (if prev.businessLine != "" then prev.businessLine else data.businessLine)
    ensures r.department == (if prev.department != "" then prev.department else data.department)
    ensures r.startingBalance == (if prev.startingBalance != 0.0 then prev.startingBalance else data.startingBalance)
    ensures var added := NewIncoming(prev.entries, data, nowId);
            && |r.entries| == |prev.entries| + |added|
            && (forall i :: 0 <= i < |prev.entries| ==> SameButPosition(prev.entries[i], r.entries[i]))
            && (forall j :: |prev.entries| <= j < |r.entries| ==> SameButPosition(added[j - |prev.entries|], r.entries[j]))
    ensures Valid(r)
  {
    var businessLine := Js.StrOr(Js.StrOr(prev.businessLine, data.businessLine), "");
    var department := Js.StrOr(Js.StrOr(prev.department, data.department), "");
    var startingBalance := Js.NumOr(Js.NumOr(prev.startingBalance, data.startingBalance), 0.0);
    var entries := MergeEntries(prev.entries, NewIncoming(prev.entries, data, nowId), startingBalance);
    State(businessLine, department, entries, startingBalance)
  }

  /**
   * `recalculateAllBalances([...local, ...added].map(renumber), startingBalance)`:
   * both parts keep their lines and order; only numbers and balances change.
   */
  function MergeEntries(local: seq<Entry>, added: seq<Entry>, startingBalance: real): (r: seq<Entry>)
    ensures |r| == |local| + |added|
    ensures forall i :: 0 <= i < |local| ==> SameButPosition(local[i], r[i])
    ensures forall j :: |local| <= j < |r| ==> SameButPosition(added[j - |local|], r[j])
    ensures Dense(r) && Consistent(r, startingBalance)
  {
    var merged := Renumber(local + added);
    var r := RecalculateAllBalances(merged, startingBalance);
    assert Dense(r) by {
      forall i | 0 <= i < |r| ensures r[i].no == i + 1 {
        assert SameButBalance(merged[i], r[i]);
      }
    }
    forall i | 0 <= i < |local|
      ensures SameButPosition(local[i], r[i])
    {
      assert SameButBalance(merged[i], r[i]);
    }
    forall j | |local| <= j < |r|
      ensures SameButPosition(added[j - |local|], r[j])
    {
      assert (local + added)[j] == added[j - |local|];
      assert SameButBalance(merged[j], r[j]);
    }
    r
  }

  /** No local line is lost: every local id is still present after the merge. */
  lemma LoadFromJsonKeepsLocalIds(prev: State, data: Document, nowId: string)
    ensures Ids(prev.entries) <= Ids(LoadFromJson(prev, data, nowId).entries)
  {
    LoadFromJsonIds(prev, data, nowId);
  }

  /**
   * When the local state is valid and its starting balance is set (non-zero),
   * the local lines come through the merge completely unchanged.
   */
  lemma LoadFromJsonKeepsLocalPrefix(prev: State, data: Document, nowId: string)
    requires Valid(prev) && prev.startingBalance != 0.0
    ensures LoadFromJson(prev, data, nowId).entries[..|prev.entries|] == prev.entries
  {
    var r := LoadFromJson(prev, data, nowId);
    var n := |prev.entries|;
    var a := r.entries[..n];
    assert |a| == n;
    forall i | 0 <= i < n
      ensures SameButBalance(prev.entries[i], a[i])
    {
      assert SameButPosition(prev.entries[i], r.entries[i]);
    }
    assert Consistent(a, prev.startingBalance) by {
      forall i | 0 <= i < n
        ensures a[i].balance == prev.startingBalance + SumNet(a, i + 1)
      {
        SumNetSameNets(a, r.entries, i + 1);
      }
    }
    ConsistentDeterminesBalances(prev.entries, a, prev.startingBalance);
  }

  /** The ids after the merge are the local ids plus the incoming ids. */
  lemma LoadFromJsonIds(prev: State, data: Document, nowId: string)
    ensures Ids(LoadFromJson(prev, data, nowId).entries)
         == Ids(prev.entries) + Ids(SanitizeAll(data.entries, nowId))
  {
    var r := LoadFromJson(prev, data, nowId);
    var added := NewIncoming(prev.entries, data, nowId);
    var incoming := SanitizeAll(data.entries, nowId);
    forall i | 0 <= i < |r.entries|
      ensures r.entries[i].id == (prev.entries + added)[i].id
    {
      if i < |prev.entries| {
        assert SameButPosition(prev.entries[i], r.entries[i]);
      } else {
        assert SameButPosition(added[i - |prev.entries|], r.entries[i]);
      }
    }
    NewIncomingMembers(prev.entries, data, nowId);
    IdsPointwise(r.entries, prev.entries + added);
    IdsConcat(prev.entries, added);
    forall x | x in Ids(added)
      ensures x in Ids(incoming)
    {
      var j :| 0 <= j < |added| && added[j].id == x;
      assert added[j] in added;
      InIds(incoming, added[j]);
    }
    forall x | x in Ids(incoming) && x !in Ids(prev.entries)
      ensures x in Ids(added)
    {
      var k :| 0 <= k < |incoming| && incoming[k].id == x;
      assert incoming[k] in incoming;
      InIds(added, incoming[k]);
    }
  }

  /**
   * Importing the same document twice is the same as importing it once,
   * provided every incoming line carries an id. Each import reads the clock
   * afresh (`t1`, `t2`); the clock only matters for id-less lines.
   */
  lemma LoadFromJsonIdempotent(prev: State, data: Document, t1: string, t2: string)
    requires forall e <- data.entries :: e.id.Some?
    ensures var once := LoadFromJson(prev, data, t1);
            LoadFromJson(once, data, t2) == once
  {
    var once := LoadFromJson(prev, data, t1);
    var incoming := SanitizeAll(data.entries, t1);
    assert SanitizeAll(data.entries, t2) == incoming by {
      forall i | 0 <= i < |data.entries|
        ensures Sanitize(data.entries[i], t2) == Sanitize(data.entries[i], t1)
      {
        assert data.entries[i] in data.entries;
      }
    }
    var twice := LoadFromJson(once, data, t2);
    LoadFromJsonIds(prev, data, t1);
    var existing := Ids(once.entries);
    forall i | 0 <= i < |incoming|
      ensures !((e: Entry) => e.id !in existing)(incoming[i])
    {
      assert incoming[i].id in Ids(incoming);
    }
    Seqs.FilterKeepsNone(incoming, (e: Entry) => e.id !in existing);
    assert NewIncoming(once.entries, data, t2) == [];
    assert |twice.entries| == |once.entries|;
    forall i | 0 <= i < |once.entries|
      ensures SameButBalance(once.entries[i], twice.entries[i])
    {
    }
    ConsistentDeterminesBalances(once.entries, twice.entries, once.startingBalance);
  }

  /**
   * Without an id, a line is stamped with the clock value of each import, so
   * a second import at a later instant appends it again.
   */
  lemma LoadFromJsonTwiceRestampsIdlessLine(prev: State, ie: ImportedEntry, t1: string, t2: string)
    requires prev.entries == [] && ie.id.None? && t1 != t2
    ensures var data := Document("", "", 0.0, [ie]);
            var once := LoadFromJson(prev, data, t1);
            var twice := LoadFromJson(once, data, t2);
            && |once.entries| == 1 && |twice.entries| == 2
            && twice.entries[0].id == t1 && twice.entries[1].id == t2
  {
    var data := Document("", "", 0.0, [ie]);
    var once := LoadFromJson(prev, data, t1);
    var first := SanitizeAll(data.entries, t1);
    Seqs.FilterKeepsAll(first, (e: Entry) => e.id !in Ids(prev.entries));
    assert |once.entries| == 1 && once.entries[0].id == t1;
    assert Ids(once.entries) == {t1} by {
      InIds(once.entries, once.entries[0]);
    }
    var second := SanitizeAll(data.entries, t2);
    assert second[0].id == t2;
    Seqs.FilterKeepsAll(second, (e: Entry) => e.id !in Ids(once.entries));
  }

  /**
   * The file's contents, applied after a successful read of the master file:
   * its lines replace the local ones (renumbered 1..N and recalculated), and
   * each label and the starting balance come from the file when truthy.
   */
  function ApplyFileData(prev: State, file: State): (r: State)
    ensures r.businessLine == (if file.businessLine != "" then file.businessLine else prev.businessLine)
    ensures r.department == (if file.department != "" then file.department else prev.department)
    ensures r.startingBalance == (if file.startingBalance != 0.0 then file.startingBalance else prev.startingBalance)
    ensures |r.entries| == |file.entries|
    ensures forall i :: 0 <= i < |file.entries| ==> SameButPosition(file.entries[i], r.entries[i])
    ensures Valid(r)
  {
    var startingBalance := Js.NumOr(Js.NumOr(file.startingBalance, prev.startingBalance), 0.0);
    var entries := MergeEntries(file.entries, [], startingBalance);
    State(
      Js.StrOr(Js.StrOr(file.businessLine, prev.businessLine), ""),
      Js.StrOr(Js.StrOr(file.department, prev.department), ""),
      entries,
      startingBalance)
  }

  /** Local-only lines do not survive: every resulting id comes from the file. */
  lemma ApplyFileDataDropsLocalOnly(prev: State, file: State)
    ensures Ids(ApplyFileData(prev, file).entries) == Ids(file.entries)
  {
    var r := ApplyFileData(prev, file);
    forall x | x in Ids(file.entries)
      ensures x in Ids(r.entries)
    {
      var i :| 0 <= i < |file.entries| && file.entries[i].id == x;
      assert r.entries[i].id == x;
    }
  }

  /** The local lines play no part: only the resolved starting balance matters. */
  lemma ApplyFileDataIgnoresLocalEntries(p1: State, p2: State, file: State)
    requires file.startingBalance != 0.0 || p1.startingBalance == p2.startingBalance
    ensures ApplyFileData(p1, file).entries == ApplyFileData(p2, file).entries
  {
  }

  /** A valid file applied to anything gives back the file itself. */
  lemma ApplyValidFile(prev: State, file: State)
    requires Valid(file) && file.businessLine != "" && file.department != ""
    requires file.startingBalance != 0.0
    ensures ApplyFileData(prev, file) == file
  {
    var r := ApplyFileData(prev, file);
    forall i | 0 <= i < |file.entries|
      ensures SameButBalance(file.entries[i], r.entries[i])
    {
      assert SameButPosition(file.entries[i], r.entries[i]);
    }
    ConsistentDeterminesBalances(file.entries, r.entries, file.startingBalance);
  }

  /** Applying the same file twice is the same as applying it once. */
  lemma ApplyFileDataIdempotent(prev: State, file: State)
    ensures var once := ApplyFileData(prev, file);
            ApplyFileData(once, file) == once
  {
    var once := ApplyFileData(prev, file);
    var twice := ApplyFileData(once, file);
    assert Renumber(file.entries) == Renumber(Renumber(file.entries));
    ConsistentDeterminesBalances(twice.entries, once.entries, once.startingBalance);
  }

  /**
   * A merge example: local [A], incoming [A', B] with A'
   * sharing A's id. The result is [A, B] with balances 5 and 7.
   */
  lemma MergeExample()
    ensures var a := Entry("1", 1, "2024-01-01", "a", 5.0, 0.0, 5.0, "");
            var a' := ImportedEntry(Some("1"), "2024-01-01", Some("a"), 999.0, 0.0, Some(""));
            var b := ImportedEntry(Some("2"), "2024-01-02", Some("b"), 3.0, 1.0, Some(""));
            var prev := State("Bar", "Floor", [a], 0.0);
            var r := LoadFromJson(prev, Document("", "", 0.0, [a', b]), "now");
            && |r.entries| == 2
            && r.entries[0] == a
            && r.entries[1].id == "2" && r.entries[1].quantityIn == 3.0
            && r.entries[1].balance == 7.0
  {
    var a := Entry("1", 1, "2024-01-01", "a", 5.0, 0.0, 5.0, "");
    var a' := ImportedEntry(Some("1"), "2024-01-01", Some("a"), 999.0, 0.0, Some(""));
    var b := ImportedEntry(Some("2"), "2024-01-02", Some("b"), 3.0, 1.0, Some(""));
    var prev := State("Bar", "Floor", [a], 0.0);
    var data := Document("", "", 0.0, [a', b]);
    assert prev.entries[0].id == "1";
    assert "1" in Ids(prev.entries) && "2" !in Ids(prev.entries);
    var incoming := SanitizeAll(data.entries, "now");
    var added := NewIncoming(prev.entries, data, "now");
    assert incoming[0].id == "1" && incoming[1].id == "2";
    assert added == [incoming[1]] by {
      var p := (e: Entry) => e.id !in Ids(prev.entries);
      assert incoming[1..][1..] == [];
      assert Seqs.Filter(incoming, p) == Seqs.Filter(incoming[1..], p);
    }
    var r := LoadFromJson(prev, data, "now");
    assert r.entries[0].balance == 0.0 + SumNet(r.entries, 1);
    assert r.entries[1].balance == 0.0 + SumNet(r.entries, 2);
  }
}
