# Inventory ledger engine — a Dafny model

This project models the ledger engine of the inventory app: the balance
arithmetic of `src/utils/calculations.ts` and the state transitions behind
the `useInventory` React hook (`src/hooks/useInventory.ts`). Every
`setState((prev) => ...)` body becomes a pure function from the previous
`State` to the next one, with fresh ids and today's date passed in as
parameters. The debounced write-through to the master file and the
write-through to the local cache become a small event-driven state machine
whose events carry the outcome of the timer, the permission prompt and the
file read.

Modules (one per file):

- `Wrappers` (`wrappers.dfy`): `Option`, used for absent JSON fields, failed reads and lookups.
- `Seqs` (`seqs.dfy`): order-preserving `Filter` and its lemmas.
- `Js` (`js.dfy`): the JavaScript semantics the hook relies on: `||` on strings and numbers, ASCII `toLowerCase`, `includes`, and string `<=`.
- `Types` (`types.dfy`): `Entry`, `State`, `FilterState`, `SummaryStats` (`src/types/index.ts`).
- `Calculations` (`calculations.dfy`): `calculateBalance`, `recalculateAllBalances`, and the running-balance invariant `Consistent`.
- `Ledger` (`ledger.dfy`): `initialState` and the add, update, delete, duplicate, clear, set-starting-balance and update-labels transitions.
- `Merge` (`merge.dfy`): the `loadFromJson` merge and the master-file apply step.
- `View` (`view.dfy`): `filteredEntries` and `summaryStats`.
- `Sync` (`sync.dfy`): the local-cache effect, the debounce effect, reattach at mount, connect and manual save.

Quantities and balances are exact `real`s. `Valid(s)` is the pair of
invariants the mutations keep: dense numbering (`entries[i].no == i + 1`)
and the running balance (`entries[i].balance == startingBalance + Σ_{k<=i}(in_k - out_k)`).

## Behaviour worth noting

- Quantities are not clamped. `updateEntry` stores a quantity as given (`src/hooks/useInventory.ts:138-140`). The clamp `Math.max(0, parseFloat(v) || 0)` is in the table components. `Ledger.UpdateEntry` therefore does not clamp.
- Applying the master file replaces the local lines. It does not merge them. At mount and on connect (`src/hooks/useInventory.ts:60-72` and `261-273`), the file's lines take the place of the local ones. A file label or starting balance wins whenever it is truthy. `Merge.ApplyFileData` models this, and `Merge.ApplyFileDataDropsLocalOnly` states the consequence. Only `loadFromJson` merges.
- Ids are not guaranteed distinct. They come from `Date.now()`, and `loadFromJson` appends incoming lines whose ids duplicate each other. Each import also reads the clock again, so a line without an id is appended again by a later import of the same document (`Merge.LoadFromJsonTwiceRestampsIdlessLine`). The model proves id distinctness only for add and duplicate, and only when the new id is fresh.
- Reading the master file is checked differently at mount and on connect. At mount (`src/hooks/useInventory.ts:59`) only an object is applied. On connect (`src/hooks/useInventory.ts:260`) any truthy JSON value is applied. A value with no ledger fields, such as a bare number, reads as a document with no lines, so it drops every local line. `Sync.ConnectWithFieldlessValueDropsLines` states this. In the model, a document's missing label reads as "", a missing starting balance as 0 and missing lines as [], which is how `||` treats them.
- Clearing reschedules a write of the cleared state. Clearing commits `initialState`, and the debounce effect then schedules a write of it. `Sync.ClearSupersedesPending` states what holds: the stale pending write is superseded.

## Model

| member | source | states |
|---|---|---|
| Calculations.CalculateBalance | src/utils/calculations.ts:3-19 | for an index in range, the result is the starting balance plus the net movement of lines 0..index; the index-0 shortcut gives the same value; a negative index runs the loop zero times and gives the starting balance; an index past the end is excluded because the code would read a missing line |
| Calculations.RecalculateAllBalances | src/utils/calculations.ts:21-29 | same length and order; every field except `balance` is unchanged; the result satisfies the running-balance invariant for the given starting balance (empty in, empty out) |
| Calculations.ConsistentIffSteps | src/utils/calculations.ts:13-17 | the prefix-sum invariant holds exactly when the first balance is start + in_0 - out_0 and each later balance is the previous one plus in_i - out_i |
| Calculations.RecalculateFixpoint | src/utils/calculations.ts:25-28 | recalculation returns its input unchanged exactly when the input already satisfies the invariant |
| Calculations.RecalculateIdempotent | src/utils/calculations.ts:25-28 | recalculating twice equals recalculating once, because input balances are never read |
| Calculations.RecalculateShift | src/utils/calculations.ts:13-17 | raising the starting balance by d raises every resulting balance by exactly d |
| Calculations.RecalculatePrefixIndependent | src/utils/calculations.ts:14-17 | two ledgers whose first j lines have the same movements get the same first j balances |
| Calculations.EditQuantitiesKeepsEarlierBalances | src/utils/calculations.ts:14-17 | changing in/out of line j leaves the balances of all earlier lines unchanged |
| Calculations.RecalculateAppend | src/utils/calculations.ts:14-17 | appending lines never changes the recalculated lines already there |
| Calculations.SumNetSameNets | src/utils/calculations.ts:15-16 | the prefix sum reads only `in - out` of each line |
| Ledger.Renumber | src/hooks/useInventory.ts:156-158 | renumbering keeps every line's other fields and order and yields numbers 1..N |
| Ledger.UpdateBusinessInfo | src/hooks/useInventory.ts:107-112 | both labels are replaced; lines and starting balance are untouched |
| Ledger.AddEntry | src/hooks/useInventory.ts:114-133 | exactly one blank line is appended with the fresh id, number len+1 and today's date; earlier lines keep every field but balance; labels and starting balance unchanged; invariant established; dense numbering preserved |
| Ledger.AddEntryKeepsExisting | src/hooks/useInventory.ts:126-131 | on a consistent ledger, the existing lines come back identical and the new line carries the previous closing balance (or the starting balance) |
| Ledger.AddEntryKeepsIdsDistinct | src/hooks/useInventory.ts:115-117 | with a fresh id, pairwise distinct ids stay distinct |
| Ledger.UpdateEntry | src/hooks/useInventory.ts:135-152 | lines with the id carry the new value in the named field; every other field of those lines, and every field of other lines, is unchanged apart from `balance`; no clamping; labels and starting balance unchanged; invariant established |
| Ledger.UpdateUnknownIdIsNoOp | src/hooks/useInventory.ts:138-148 | on a consistent ledger, an edit for an id that is not present returns the state unchanged |
| Ledger.UpdateKeepsDense | src/hooks/useInventory.ts:138-140 | any edit other than of `no` keeps the numbering dense |
| Ledger.DeleteEntry | src/hooks/useInventory.ts:154-165 | the result is the lines without the id, in order, renumbered 1..N and recalculated; no line with the id remains; labels and starting balance unchanged |
| Ledger.DeleteUnknownIdIsNoOp | src/hooks/useInventory.ts:156-162 | on a valid ledger, deleting an id that is not present changes nothing |
| Ledger.FindById | src/hooks/useInventory.ts:169 | returns the first index holding the id, or nothing exactly when the id is absent |
| Ledger.DuplicateEntry | src/hooks/useInventory.ts:167-185 | an unknown id returns the previous state itself; otherwise one line is appended that copies the first matching line except for the fresh id, number len+1, today's date and the recalculated balance; earlier lines keep every field but balance |
| Ledger.DuplicateKeepsIdsDistinct | src/hooks/useInventory.ts:172-177 | with a fresh id, pairwise distinct ids stay distinct |
| Ledger.ClearAllData | src/hooks/useInventory.ts:187-189 | the result is the initial state ('BAR & RESTAURANT', 'Premium Service', no lines, 0) whatever came before, and it is valid |
| Ledger.SetStartingBalance | src/hooks/useInventory.ts:191-197 | only the starting balance and the balances change; labels and every other line field stay; invariant holds for the new starting balance |
| Ledger.SetStartingBalanceShifts | src/hooks/useInventory.ts:191-197 | on a consistent ledger, every balance moves by exactly new minus old starting balance |
| Ledger.MutationsPreserveValid | src/hooks/useInventory.ts:107-197 | from a valid state, add, delete, duplicate, set-starting-balance, label update, clear and every non-`no` edit give a valid state |
| Merge.NewIncomingMembers | src/hooks/useInventory.ts:206-215 | a line is appended exactly when it is a sanitized incoming line whose id is not present locally |
| Merge.Sanitize | src/hooks/useInventory.ts:207-212 | an imported line keeps its id, notes and sign when present; a missing id becomes the call's clock value, and missing notes or sign become the empty string; date and quantities are copied |
| Merge.LoadFromJson | src/hooks/useInventory.ts:199-234 | labels and starting balance keep the local value when non-empty or non-zero, else take the incoming one; the local lines form an unchanged prefix apart from number and balance; the appended lines are exactly the new incoming ones in order; the result is valid |
| Merge.MergeEntries | src/hooks/useInventory.ts:216-230 | both parts keep their lines and order, renumbered densely and recalculated |
| Merge.LoadFromJsonKeepsLocalIds | src/hooks/useInventory.ts:206-221 | no local id is lost by the merge |
| Merge.LoadFromJsonKeepsLocalPrefix | src/hooks/useInventory.ts:216-230 | with a valid local state and a non-zero local starting balance, the local lines come through completely unchanged |
| Merge.LoadFromJsonIds | src/hooks/useInventory.ts:206-221 | the ids after the merge are exactly the local ids plus the incoming ids |
| Merge.LoadFromJsonIdempotent | src/hooks/useInventory.ts:199-234 | when every incoming line carries an id, importing the same document a second time, at any later clock value, gives back the state of the first import |
| Merge.LoadFromJsonTwiceRestampsIdlessLine | src/hooks/useInventory.ts:205-218 | a line without an id is stamped with each import's clock value, so importing it again at another instant appends it a second time |
| Merge.MergeExample | src/hooks/useInventory.ts:213-230 | local [A] merged with [A', B] (A' sharing A's id) gives [A, B] with balances 5 and 7 |
| Merge.ApplyFileData | src/hooks/useInventory.ts:60-72 | the lines are the file's lines renumbered 1..N and recalculated; each label and the starting balance come from the file when truthy, else stay local; the result is valid |
| Merge.ApplyFileDataDropsLocalOnly | src/hooks/useInventory.ts:65-70 | the ids after the apply are exactly the file's ids, so local-only lines are dropped |
| Merge.ApplyFileDataIgnoresLocalEntries | src/hooks/useInventory.ts:261-273 | the resulting lines do not depend on the local lines, only on the resolved starting balance |
| Merge.ApplyValidFile | src/hooks/useInventory.ts:261-273 | a valid file with truthy labels and starting balance is adopted exactly |
| Merge.ApplyFileDataIdempotent | src/hooks/useInventory.ts:60-72 | applying the same file twice equals applying it once |
| View.FilteredEntries | src/hooks/useInventory.ts:284-294 | a line is kept exactly when notes or sign contains the lower-cased term and the date lies in the inclusive range (empty bound unbounded) |
| View.FilteredEntriesKeepOrder | src/hooks/useInventory.ts:284 | filtering distributes over concatenation, so the result is an order-preserving subsequence |
| View.EmptyFilterKeepsAll | src/hooks/useInventory.ts:285-291 | with no term and no bounds every line is kept |
| View.EmptySearchMatchesDateRange | src/hooks/useInventory.ts:289-291 | with an empty term a line matches exactly when its date is inside the range |
| View.SumInOutIsSumNet | src/hooks/useInventory.ts:298-299 | total in minus total out equals the net movement that balances are built from |
| View.Summary | src/hooks/useInventory.ts:297-305 | count and totals are over the filtered lines; the current balance is the stored balance of the last matching line, or the starting balance when nothing matches |
| View.UnfilteredSummaryBalances | src/hooks/useInventory.ts:297-305 | unfiltered, on a consistent ledger, the current balance is start + total in - total out |
| Js.IncludesIffOccurs | src/hooks/useInventory.ts:286-287 | `includes` holds exactly when the term occurs at some position |
| Js.IncludesEmpty | src/hooks/useInventory.ts:286-287 | the empty term is found in every string |
| Js.LexLeFirstDifference | src/hooks/useInventory.ts:290-291 | string `<=` is decided by the first differing character |
| Js.LexLeTotal | src/hooks/useInventory.ts:290-291 | any two dates are comparable |
| Js.LexLeAntisymmetric | src/hooks/useInventory.ts:290-291 | dates that compare both ways are equal |
| Js.LexLeTransitive | src/hooks/useInventory.ts:290-291 | the date comparison is transitive |
| Js.LexLeReflexive | src/hooks/useInventory.ts:290-291 | a date is inside a range that starts and ends at it |
| Js.PrefixIsLexLe | src/hooks/useInventory.ts:290-291 | a prefix compares less than or equal, unlike strict prefix order on sequences |
| Seqs.Filter | src/hooks/useInventory.ts:156-157 | the result holds exactly the elements satisfying the predicate and is no longer than the input |
| Seqs.FilterConcat | src/hooks/useInventory.ts:213-215 | filtering distributes over concatenation |
| Seqs.FilterLast | src/hooks/useInventory.ts:300-303 | the last element kept is the last element of the input that satisfies the predicate |
| Sync.Changed | src/hooks/useInventory.ts:84-105 | a new state is saved to the cache; with a handle it replaces any pending write; without one nothing is scheduled |
| Sync.Attach | src/hooks/useInventory.ts:57 | setting the file handle (here, and likewise at lines 242 and 258) re-runs the debounce effect (lines 90-105), so a write of the current state becomes pending and nothing else changes |
| Sync.Step | src/hooks/useInventory.ts:90-105 | every event keeps the invariant (cache equals state, nothing pending without a handle, a pending write carries the current state) and appends at most one write, which is the current state; a handle once held stays held |
| Sync.Run | src/hooks/useInventory.ts:90-105 | over any event sequence the invariant is kept and the write log only grows |
| Sync.ChangeWithoutHandleSchedulesNothing | src/hooks/useInventory.ts:91 | with no handle a change schedules nothing and writes nothing, but is cached |
| Sync.DeniedFireWritesNothing | src/hooks/useInventory.ts:95-97 | a timer whose permission check fails writes nothing |
| Sync.BurstCoalesces | src/hooks/useInventory.ts:92-93 | after any burst of changes with a handle, exactly one write is pending and it carries the latest state; nothing is written yet |
| Sync.BurstThenFireWritesLatestOnce | src/hooks/useInventory.ts:92-97 | a burst followed by a permitted fire writes once, the latest state |
| Sync.ThreeChangesOneWrite | src/hooks/useInventory.ts:92-97 | three changes then the timer give exactly one write, holding the third state |
| Sync.UnattachedNeverWrites | src/hooks/useInventory.ts:91 | while no event attaches a handle, the master file is never written |
| Sync.ClearSupersedesPending | src/hooks/useInventory.ts:187-189 | after clearing, the next timer can only write the cleared state |
| Sync.ReattachAppliesFile | src/hooks/useInventory.ts:53-74 | reattaching at mount with file data attaches the handle, replaces the lines by the file's and schedules a write of the result |
| Sync.ConnectInitialisesEmptyFile | src/hooks/useInventory.ts:254-282 | connecting to a file with no usable data writes the current state at once; when that write throws and the error is swallowed, nothing is written, and the newly attached handle leaves a write of the current state pending |
| Sync.ConnectWithFieldlessValueDropsLines | src/hooks/useInventory.ts:259-273 | on connect a truthy value without ledger fields reads as an empty document: the local lines are dropped, labels and starting balance stay |
| Sync.RunConcat | src/hooks/useInventory.ts:90-105 | running two event sequences one after the other equals running their concatenation |

## Left out

- Browser I/O: IndexedDB handle storage, the file pickers, the permission query and request, and the file read and write (`src/utils/fileAccess.ts`). These become event parameters. A read is an `Option<State>`. At mount (`src/hooks/useInventory.ts:59`), `None` covers a missing file, unparseable JSON and a non-object value. On connect (`src/hooks/useInventory.ts:260`), `None` covers a missing file, unparseable JSON and a falsy JSON value (`null`, `0`, `false`, `""`); a truthy non-object is a `Some`. A permission answer is a `bool`. A direct write that throws is an outcome flag: `written` for connect and `saved` for manual save (`src/hooks/useInventory.ts:245-249` and `276-281`).
- The `localStorage` wrapper (`src/utils/storage.ts`). It becomes the `cache` field of the controller.
- The presentation components and `App.tsx`. This includes the input clamp `Math.max(0, parseFloat(v) || 0)`, which the hook does not apply.
- Clock and dates. `Date.now()` ids and today's date are parameters. Within one `loadFromJson` call, every line that lacks an id gets the same clock value `nowId`. That matches the code only when the call's `Date.now()` reads fall in the same millisecond. Separate calls take separate clock values.
- IEEE doubles, `toFixed` and NaN. Quantities are exact reals. NaN, which `||` treats as falsy, is not modelled.
- Imported documents with lines that lack `date`, `in` or `out`. The code would copy `undefined` and produce NaN balances. `no` and `balance` of imported lines are not modelled, because they are always overwritten.
- Merge.ApplyFileData: the master file is typed as a `State`, so every file line has an `id`, `notes` and `sign`. At mount and on connect (`src/hooks/useInventory.ts:66-69` and `267-270`) the code spreads file lines without defaults. A line without `notes` or `sign` keeps `undefined`, and `toLowerCase` in the filter (`src/hooks/useInventory.ts:286`) then throws on every render. The model does not cover such files.
- `updateEntry` values of the wrong type. The code's `value: any` could put a string into `in`. The model types each field's value.
- The stale closure in `addEntry` (`state.entries.length` at `src/hooks/useInventory.ts:117`). In a sequential model it equals the previous state's length.
- React's change detection. React skips an effect when the state object is identical. The model re-runs the effects on every committed state, so a duplicate of an unknown id, which returns the same object, still reschedules the same state in the model.
- The unmount cleanup of the debounce effect, the 1500 ms delay, promise interleavings between `manualSave`, `connectMasterJson` and the mount-time reattach, and the tour event (`src/hooks/useInventory.ts:39-44`).
- Sync.Step: a timer firing is one atomic event. In the code the callback awaits `verifyPermission` and then `writeToHandle` (`src/hooks/useInventory.ts:93-97`). The `clearTimeout` of a later change (line 103) cannot stop a callback that is already running. So a write can carry a state older than the current one and can finish after a newer write. The model does not cover these in-flight writes. `Fire(false)` stands for a denied permission and also for a `writeToHandle` that throws, whose error the code swallows (lines 98-100). The direct writes of connect and manual save are modelled with their failure flags, so the write log holds only writes that succeeded.
- Sync.Inv: `cache == state` assumes every `saveToStorage` succeeds. The wrapper swallows a storage failure (`src/utils/storage.ts:7-9`), and then the cache keeps an older state.
- Js.Lower: it lower-cases only ASCII letters, where `toLowerCase` covers all of Unicode.
- Js.LexLe: it orders characters by Unicode scalar value, where JavaScript compares UTF-16 code units. The two orders differ only outside the Basic Multilingual Plane.
