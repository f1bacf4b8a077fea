/**
 * The persistence side of the hook as an event-driven state machine: the
 * in-memory state, its write-through copy in the local cache, the optional
 * master-file handle, the single debounced write that may be pending, and
 * the log of writes that reached the file. Timers, promises and permission
 * prompts become events carrying their outcome.
 */
module Sync {
  import opened Wrappers
  import opened Types
  import Ledger
  import Merge

  datatype Controller = Controller(
    state: State,
    cache: State,
    handle: bool,
    pending: Option<State>,
    writes: seq<State>)

  datatype Event =
      /** A mutation committed a new state (any `setState` of the hook). */
    | Commit(next: State)
      /** Mount: the local cache held `stored`, if anything. */
    | Restore(stored: Option<State>)
      /** Mount: a stored handle was found and permitted (`granted`), and the file read gave `read`. */
    | Reattach(granted: bool, read: Option<State>)
      /**
       * `connectMasterJson`: a handle was acquired or not, and the file read
       * gave `read`. When nothing usable was read, the code writes the current
       * state at once; `written` is false when that write throws, whose error
       * the code swallows.
       */
    | Connect(acquired: bool, read: Option<State>, written: bool)
      /**
       * The debounce timer fires and its callback runs to completion before
       * the next event. `granted` is false when permission is denied or when
       * the write throws, whose error the callback swallows.
       */
    | Fire(granted: bool)
      /**
       * `manualSave`: a handle was acquired (when none was held), and `saved`
       * is true when permission was granted and the write succeeded; a write
       * error is swallowed.
       */
    | ManualSave(acquired: bool, saved: bool)

  /** Before anything happens: the initial state, already saved to the cache. */
  const Init := Controller(Ledger.InitialState, Ledger.InitialState, false, None, [])

  /**
   * The controller's invariant: the cache holds the current state, nothing is
   * pending without a handle, and a pending write carries the current state.
   */
  predicate Inv(c: Controller) {
    && c.cache == c.state
    && (!c.handle ==> c.pending.None?)
    && (c.pending.Some? ==> c.pending.value == c.state)
  }

  /**
   * A new state: the cache effect saves it, and, when a handle is held, the
   * debounce effect cancels any pending write and schedules one of it.
   */
  function Changed(c: Controller, next: State): (r: Controller)
    ensures r.state == next && r.cache == next && r.handle == c.handle && r.writes == c.writes
    ensures c.handle ==> r.pending == Some(next)
    ensures !c.handle ==> r.pending == c.pending
  {
    c.(state := next, cache := next, pending := if c.handle then Some(next) else c.pending)
  }

  /** `setFileHandle(handle)`: the debounce effect re-runs and schedules the current state. */
  function Attach(c: Controller): (r: Controller)
    ensures r.handle && r.pending == Some(c.state)
    ensures r.state == c.state && r.cache == c.cache && r.writes == c.writes
  {
    c.(handle := true, pending := Some(c.state))
  }

  /** Record one whole-document write of the current state. */
  function Write(c: Controller): (r: Controller)
    ensures r.writes == c.writes + [c.state]
    ensures r.state == c.state && r.cache == c.cache && r.handle == c.handle && r.pending == c.pending
  {
    c.(writes := c.writes + [c.state])
  }

  function Step(c: Controller, ev: Event): (r: Controller)
    ensures Inv(c) ==> Inv(r)
    ensures Inv(c) ==> r.writes == c.writes || r.writes == c.writes + [r.state]
    ensures c.handle ==> r.handle
  {
    match ev
    case Commit(next) => Changed(c, next)
    case Restore(stored) =>
      if stored.Some? then Changed(c, stored.value) else c
    case Reattach(granted, read) =>
      if !granted then c
      else
        var attached := Attach(c);
        if read.Some? then Changed(attached, Merge.ApplyFileData(attached.state, read.value))
        else attached
    case Connect(acquired, read, written) =>
      if !acquired then c
      else
        var attached := Attach(c);
        if read.Some? then Changed(attached, Merge.ApplyFileData(attached.state, read.value))
        else if written then Write(attached)
        else attached
    case Fire(granted) =>
      if c.pending.None? then c
      else
        var fired := c.(pending := None);
        if granted then fired.(writes := fired.writes + [c.pending.value]) else fired
    case ManualSave(acquired, saved) =>
      var held := if c.handle || !acquired then c else Attach(c);
      if held.handle && saved then Write(held) else held
  }

  /** The controller after a sequence of events. */
  function Run(c: Controller, evs: seq<Event>): (r: Controller)
    ensures Inv(c) ==> Inv(r)
    ensures c.writes <= r.writes
    decreases |evs|
  {
    if |evs| == 0 then c else Run(Step(c, evs[0]), evs[1..])
  }

  lemma InitInv()
    ensures Inv(Init) && Init.writes == []
  {
  }

  /** Without a handle a change schedules nothing. */
  lemma ChangeWithoutHandleSchedulesNothing(c: Controller, next: State)
    requires Inv(c) && !c.handle
    ensures var r := Step(c, Commit(next));
            r.pending == None && r.writes == c.writes && r.cache == next
  {
  }

  /** A fire whose permission check fails writes nothing and leaves nothing pending. */
  lemma DeniedFireWritesNothing(c: Controller)
    ensures var r := Step(c, Fire(false));
            r.writes == c.writes && r.pending == None && r.state == c.state
  {
  }

  predicate AllCommits(evs: seq<Event>) {
    forall i :: 0 <= i < |evs| ==> evs[i].Commit?
  }

  /**
   * A burst of changes while a handle is held leaves exactly one write
   * pending, carrying the last state, and writes nothing yet.
   */
  lemma {:induction false} BurstCoalesces(c: Controller, evs: seq<Event>)
    requires c.handle && |evs| > 0 && AllCommits(evs)
    ensures var last := evs[|evs| - 1].next;
            Run(c, evs) == c.(state := last, cache := last, pending := Some(last))
    decreases |evs|
  {
    if |evs| > 1 {
      BurstCoalesces(Step(c, evs[0]), evs[1..]);
    }
  }

  /** The burst followed by the timer firing with permission gives one write: the last state. */
  lemma BurstThenFireWritesLatestOnce(c: Controller, evs: seq<Event>)
    requires c.handle && |evs| > 0 && AllCommits(evs)
    ensures Run(c, evs + [Fire(true)]).writes == c.writes + [evs[|evs| - 1].next]
  {
    RunConcat(c, evs, [Fire(true)]);
    BurstCoalesces(c, evs);
  }

  lemma {:induction false} RunConcat(c: Controller, a: seq<Event>, b: seq<Event>)
    ensures Run(c, a + b) == Run(Run(c, a), b)
    decreases |a|
  {
    if |a| == 0 {
      assert a + b == b;
    } else {
      assert (a + b)[0] == a[0];
      assert (a + b)[1..] == a[1..] + b;
      RunConcat(Step(c, a[0]), a[1..], b);
    }
  }

  /** The three-changes example: one write, holding the third state. */
  lemma ThreeChangesOneWrite(c: Controller, s1: State, s2: State, s3: State)
    requires c.handle
    ensures Run(c, [Commit(s1), Commit(s2), Commit(s3), Fire(true)]).writes == c.writes + [s3]
  {
    var evs := [Commit(s1), Commit(s2), Commit(s3)];
    assert evs + [Fire(true)] == [Commit(s1), Commit(s2), Commit(s3), Fire(true)];
    BurstThenFireWritesLatestOnce(c, evs);
  }

  /** An event that can attach a handle. */
  predicate Attaches(ev: Event) {
    || (ev.Reattach? && ev.granted)
    || (ev.Connect? && ev.acquired)
    || (ev.ManualSave? && ev.acquired)
  }

  /** While no handle is ever attached, the master file is never written. */
  lemma {:induction false} UnattachedNeverWrites(c: Controller, evs: seq<Event>)
    requires Inv(c) && !c.handle
    requires forall i :: 0 <= i < |evs| ==> !Attaches(evs[i])
    ensures Run(c, evs).writes == c.writes && !Run(c, evs).handle
    decreases |evs|
  {
    if |evs| > 0 {
      UnattachedNeverWrites(Step(c, evs[0]), evs[1..]);
    }
  }

  /**
   * After clearing, whatever was pending is superseded: the next timer can
   * only write the cleared state.
   */
  lemma ClearSupersedesPending(c: Controller, granted: bool)
    requires Inv(c)
    ensures var cleared := Step(c, Commit(Ledger.ClearAllData(c.state)));
            && (cleared.pending.None? || cleared.pending == Some(Ledger.InitialState))
            && var r := Step(cleared, Fire(granted));
               r.writes == c.writes || r.writes == c.writes + [Ledger.InitialState]
  {
  }

  /** Reattaching at mount with file data replaces the lines by the file's and schedules a write of the result. */
  lemma ReattachAppliesFile(c: Controller, file: State)
    ensures var r := Step(c, Reattach(true, Some(file)));
            && r.handle
            && r.state == Merge.ApplyFileData(c.state, file)
            && r.pending == Some(r.state)
            && Ids(r.state.entries) == Ids(file.entries)
  {
    Merge.ApplyFileDataDropsLocalOnly(c.state, file);
  }

  /**
   * Connecting to an empty or unreadable file initialises it with the current
   * state at once. If that write fails, nothing is written, but the attached
   * handle leaves a write of the current state pending.
   */
  lemma ConnectInitialisesEmptyFile(c: Controller, written: bool)
    ensures var r := Step(c, Connect(true, None, written));
            && r.handle && r.state == c.state
            && r.writes == c.writes + (if written then [c.state] else [])
            && r.pending == Some(c.state)
  {
  }

  /**
   * On connect any truthy JSON value is applied, not only an object. A value
   * with no ledger fields (a bare number, say) reads like an empty document,
   * so the local lines are dropped while labels and starting balance stay.
   */
  lemma ConnectWithFieldlessValueDropsLines(c: Controller, written: bool)
    ensures var r := Step(c, Connect(true, Some(State("", "", [], 0.0)), written));
            && r.state.entries == []
            && r.state.businessLine == c.state.businessLine
            && r.state.department == c.state.department
            && r.state.startingBalance == c.state.startingBalance
  {
  }
}
