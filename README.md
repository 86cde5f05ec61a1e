# SyncPromise settlement engine in Dafny

SyncPromise is a small promise library. A promise starts pending and is settled once, fulfilled with a value or rejected with a reason. Observers attached with `then` or `catch` run synchronously, at settlement time or at once when the promise is already settled. Promises settled while their setup function is still running are "synchronously resolved".

The library ships three builds of the same engine:
- `index.js`;
- `dist/sync-promise-global.js`, the global build;
- `dist/sync-promise-amd.js`, the amd build.

This project models that engine once and runs it under each build's policy.

## Structure

- `base.dfy` (module `Base`) defines the values, the promise cell and the three policies.
  - A promise cell holds `s`, `v`, the two observer lists `c[0]` and `c[1]`, and a `cleared` marker standing for `c = null`.
  - It also holds the flag `a` (`sync`), the flag `h` (`handled`), and whether the setup function has returned (the negation of `syncResolved`).
  - `Policy` lists the points where the builds differ: the sync ban, fatal or reported unhandled rejections, the setup try/catch, the errback, the optional callback, `all`'s at-least-one-promise rule, `addReject`, `race`, the static functions and the `h` flag.
  - `IndexJs`, `GlobalJs` and `AmdJs` fix those points per build.
  - The module also defines the relations the engine promises to keep: `Stable` for settle-once, and `Subseq` for in-order firing, with `Embedding` as its independent meaning.
- `engine.dfy` (module `Engine`) defines the class `Engine`.
  - Its state is a heap `cells` of promise cells indexed by id, plus `aggs`, the closure state of each `all` call (the array and the counter `l`) and each `race` call (`resolved`).
  - It also holds `reports`, the amd build's scheduled unhandled-rejection checks, and a ghost `log` of settlements and observer calls.
  - Every JavaScript function of the core is a method that changes this state, with `modifies this`.
  - Closures are a closed datatype: `Fn` covers a host callback, a promise's `resolve` or `reject`, an `all` slot and a `race` winner. `Reaction` covers the `settle` closure of `then`/`catch`, or a plain function.
  - Exceptions are the `Outcome` variant `Raise`. The library's own `Error` objects are values `Error(kind)`.
- `scenarios.dfy` (module `Scenarios`) holds host programs run against one build each, with the observable outcome proved. They pin down per-build behaviour that the general contracts state conditionally.

Every operation except the amd build's delayed check (`RunCheck`) preserves `Evolved`:
- the heap only grows;
- a cleared cell never changes its state, value or `a` again;
- a settled cell never becomes pending;
- `h` and the setup flag are never reset;
- aggregators keep their kind, cell and array length;
- the log and the report queue only grow at the end.

`RunCheck` is the one operation that takes an entry off the front of the report queue. It leaves the heap, the aggregators and the log exactly as they were.

This is settle-once as an invariant over every operation and every re-entrant call.

## Model

| member | source | states |
|---|---|---|
| Base.AfterTransist | index.js:17-26 | `transist` on an uncleared cell sets `s` and `v`. It leaves `c` uncleared exactly when the fatal policy throws on a rejection with an empty rejection list. `h` and the setup flag are kept. |
| Base.StableTrans | index.js:27-29 | The settle-once relation composes: two stable steps make a stable step. |
| Base.Embedding | index.js:24 | A `Subseq` of the log gives strictly increasing positions at which each element occurs. "Fired in order" therefore means that each observer's call appears after the previous observer's call. |
| Base.EmbeddedIsSubseq | index.js:24 | Conversely, elements found at strictly increasing positions form a `Subseq`, so `Subseq` is exactly "occurs in order". |
| Base.FiredStep | index.js:24 | One `forEach` step keeps the calls fired so far in registration order within the log. |
| Base.TraceFires | index.js:24 | The exact observer-loop trace contains every entry's fired event in order (`Subseq(FiredAll(list, v), Trace(...))`). |
| Base.SyncRecordsSetup | index.js:15-18 | Under the ban, `a` after `transist` is set exactly when the setup function has not yet returned; without the ban it is left as it was. |
| Base.LandedStays | index.js:27-29 | A settlement that has landed on a cleared cell survives every later stable evolution. |
| Base.RelayOne | index.js:24 | Relaying one settlement settles exactly that promise and logs the call then its settlement. |
| Base.RelayTwo | index.js:24 | Relaying two settlements of different promises settles both in order, with the exact log and reports. |
| Base.FirstPlain | dist/sync-promise-global.js:128-138 | The index where `race`'s `some` loop meets its first non-promise entry: every entry before it is a promise, and the entry at it is not (or it is the length). |
| Engine.Engine.NewCell | index.js:11-16 | `new SyncPromise` allocates a pending cell with empty lists and all flags false. Nothing else changes. |
| Engine.Engine.SetupReturned | index.js:46 | `syncResolved = false`: only the setup flag of that cell changes. |
| Engine.Engine.Transist | index.js:17-26 | The settlement is logged first. On a rejection nobody observes, index and global throw the reason with `s`/`v` set and `c` uncleared, and amd schedules one report. Otherwise the observers for the outcome fire in registration order and, unless one throws, `c` is cleared with the state final (`TransistDone`). When the log after the settlement holds no later settlement of the same promise, that promise keeps the state and value it was settled with. When every observer settles an unobserved promise of its own, the whole effect is given exactly (`Propagated`). The first observer's settlement is followed to where it comes to rest (`FirstLanding`): a `resolve`/`reject` closure, or a `settle` through its callback's result or exception, reaches a target promise; an unobserved target is where it lands, and an observed one passes the settlement on to its own first observer. That promise is settled as stated when `Transist` returns. A `then` on a `then` therefore fulfils its last promise. In the amd build a rejection relayed by a follower's `reject` lands on the follower's promise. |
| Engine.Engine.Notify | index.js:24-25 | Runs the observer list, then clears `c` unless an observer threw, with every entry fired in order on a normal return. An empty list only clears. Observers that each settle an unobserved promise of their own settle exactly those (`Relayed`). The first entry's landing stays. |
| Engine.Engine.RunObservers | index.js:24 | The `forEach` (`ObserversRan`). On a normal return the new log is `Trace(list, v, segs)` for some segments `segs`: the fired event of each entry, in order, each followed by a segment of events that the contract leaves open. On an exception it is such a trace of the first `j` entries followed by `Stopped(list[j-1], e)`, so the loop stopped at the entry that threw. An empty list changes nothing. Observers that each settle a promise of their own are `Relayed`. |
| Engine.Engine.Fire | index.js:24 | An observer call is logged before it runs. A `resolve`/`reject`/`settle` entry that reaches an unobserved promise settles exactly that promise. An entry's settlement lands where `EntryLands` follows it, through observed promises to an unobserved one, and that promise is settled as stated. |
| Engine.Engine.Apply | index.js:104-107 | The semantics of each closure. Host callbacks return what the host function returns. `resolve`/`reject` closures behave as `resolve`/`reject`. The `all` slot writes the value at its index, decrements `l`, and at zero `transist`s the aggregate with the array (unless already settled). The `race` winner does nothing once `resolved`; otherwise it resolves the aggregate and sets `resolved` after a normal return. A `resolve`/`reject` closure or an `all` or `race` callback lands its settlement where `Lands` follows it, passing it through the first observer of each observed promise, and leaves that promise settled as stated. |
| Engine.Engine.FillSlot | index.js:104-106 | The slot callback of `all`: the slot is written and `l` decremented; at zero the aggregate `transist`s to fulfilled with the array unless already settled; the closure that brings `l` to zero lands the aggregate. |
| Engine.Engine.WinRace | dist/sync-promise-global.js:129-134 | Nothing happens once `resolved`; otherwise the aggregate is resolved with the value first and `resolved` is set after a normal return; the first winner lands the aggregate. |
| Engine.Engine.RunSettle | index.js:57-63 | `settle` calls `cb` on the parent's current value. On an unobserved child, a plain result fulfills the child and a thrown value rejects it. In the global build with an errback, the exception goes to the errback and the child is untouched. Otherwise the result, or the exception passed to `reject`, lands where `EntryLands` follows it, also through an observed child. |
| Engine.Engine.TrySettle | index.js:58-59 | `resolve(cb(self.v))`: a throwing `cb` raises with nothing changed; a plain result settles an unobserved child alone, and on an observed child it lands where `Lands` follows the child's `resolve`. An engine closure as `cb` lands its own settlement. |
| Engine.Engine.Resolve | index.js:27-35 | A no-op once `c` is cleared. A plain value `transist`s to fulfilled, with `Propagated` and the chained `FirstLanding` as for `Transist`. A pending thenable `q` (not refused by the ban) is followed: `q` gets exactly the `then(resolve)` entries and the two fresh cells appear, nothing else changes (`Followed`). |
| Engine.Engine.Reject | index.js:36-44 | A no-op once `c` is cleared. A plain reason `transist`s to rejected, with `Propagated` and the chained `FirstLanding` as for `Transist`. A pending thenable is followed with `then(reject)` (`Followed`). |
| Engine.Engine.RelayedHop | index.js:17-26 | `transist` = mark + notify: a `Relayed` observer loop over the marked heap is a `Propagated` settlement of the original heap. |
| Engine.Engine.PropagatedOne | index.js:17-26 | A settlement whose only observer settles an unobserved promise: both end settled, with the exact heap, log and reports; under the fatal policy an unobserved child rejection throws and leaves both uncleared. |
| Engine.Engine.PropagatedTwo | index.js:17-26 | A settlement with two observers settling two different unobserved promises without throwing: both settle, in registration order, and the parent is cleared. |
| Engine.Engine.EvolvedTrans | index.js:27-29 | `Evolved` composes across successive operations. |
| Engine.Engine.Follow | index.js:30-31 | Resolving with a pending promise `q` does not settle. It wires `q.then(resolve)` and then `.catch(reject)`, or `then(null, reject)` in the global build. The contract gives exactly the entries appended to `q` and to the intermediate promise, and the two fresh cells. |
| Engine.Engine.Finish | dist/sync-promise-amd.js:49-53 | After the setup function: a normal return flips `syncResolved`. An exception propagates in index and global. In amd it is passed to `reject`, rejecting a still-unsettled promise and scheduling its report. |
| Engine.Engine.RunScript | index.js:45 | A setup function calling `resolve`/`reject` in sequence: only the first call settles. A first unobserved `reject` throws in index and global, ending the setup. |
| Engine.Engine.Construct | index.js:10-47 | `new SyncPromise(fn)` returns the new id. There is a result for each case: no call, a throw (amd rejects), a first `resolve`/`reject` (fulfilled or rejected, with `a` true under the ban), and a throw after a settlement. |
| Engine.Engine.ThenSetup | index.js:56-72 | Fulfilled parent: `settle` runs at once. Rejected parent: `reject` (or the errback) gets the reason, and amd sets `h`. Pending parent: exactly one entry is appended to each list. |
| Engine.Engine.Then | index.js:51-73 | On a synchronously resolved promise under the ban, it raises the usage error and creates nothing. Pending: the new promise is returned pending, and the parent gets exactly `settle` and `reject` appended. Fulfilled: the child is fulfilled with `cb(v)` or rejected with what `cb` throws. Rejected: the child is rejected with the reason. The errback variants leave the child pending. |
| Engine.Engine.CatchSetup | index.js:80-96 | The mirror of `ThenSetup`. A fulfilled parent's value passes through. A rejected parent runs `cb` (amd sets `h`). Pending: `resolve` and `settle` are appended. |
| Engine.Engine.Catch | index.js:75-97 | The mirror of `Then`: the same ban. Pending appends exactly one entry per list. A fulfilled parent fulfills the child with `v`. A rejected parent runs `cb`, whose result fulfills and whose exception rejects the child. |
| Engine.Engine.All | index.js:99-113 | Creates the aggregator with `l` = length. An empty input creates a promise that stays pending and unobserved. Only plain entries: index and amd fulfill at once with the unchanged array, and the global build raises "at least one promise". All promise entries pending: each entry `q` gets exactly the observers of `q.then(slot i)` (`WireEntries`), `l` is left at the number of promise entries, and the aggregate stays pending. |
| Engine.Engine.AllSetup | dist/sync-promise-global.js:104-122 | The `forEach` of `all` over the entries (`AllSetUp`). All-plain input gives the exact counter and settlement, or the global build's usage error. With promise entries, all pending, it gives the exact wiring and the counter `Proms(items)`, with the log and reports unchanged. |
| Engine.Engine.AllEntry | dist/sync-promise-global.js:108-119 | One entry of `all` (`EntryDone`): a promise is followed with its slot callback; a plain entry decrements `l`, and at zero resolves with the array or, in the global build with no promise seen, raises the usage error. |
| Engine.Engine.WireEntries | dist/sync-promise-global.js:108-114 | Following the promise entries adds two cells per promise entry (`Proms`) and changes no existing cell's state or `a`. |
| Engine.Engine.Race | dist/sync-promise-global.js:124-141 | A plain entry raises "Must use promises", so a normal return means every entry was a promise. An empty input stays pending. `resolved` starts false. With the promise entries before the first plain entry pending, each of them gets exactly the observers of `q.then(winner)` and then the usage error is raised, with nothing else changed. All entries pending promises: each gets exactly those observers and the aggregate stays pending. |
| Engine.Engine.RaceSetup | dist/sync-promise-global.js:127-139 | The `some` loop of `race` (`RaceSetUp`): it stops at the first plain entry with the usage error, having followed exactly the pending promise entries before it (`WireEntries(items[..FirstPlain(items)], ..., true)`) and changed nothing else; over pending promises only it leaves exactly `WireEntries(items, ..., true)`. |
| Engine.Engine.RaceEntry | dist/sync-promise-global.js:128-138 | One entry of `race`: a pending promise is followed with the winner callback (`Followed`); a plain entry raises "Must use promises" and changes nothing. |
| Engine.Engine.StaticResolve | dist/sync-promise-amd.js:56-58 | A thenable is returned as it is, with nothing changed. Otherwise a new promise fulfilled with the value is returned. |
| Engine.Engine.StaticReject | dist/sync-promise-amd.js:60-62 | A thenable is returned as it is, not rejected. Otherwise a new promise rejected with the value is returned. |
| Engine.Engine.RunCheck | dist/sync-promise-amd.js:21-26 | The scheduled check reports the value exactly when `h` is still false. It only consumes the report. |
| Engine.Engine.LeafFulfils | index.js:17-26 | A promise with no fulfilment observers, resolved with a plain value, is fulfilled and cleared. Its logged settlement is the only other change. |
| Engine.Engine.RelayFulfils | index.js:24 | A promise whose one fulfilment observer is the `resolve` of an unobserved promise: resolving it fulfils and clears both with the value. The log gains exactly the two settlements and the call between them, and nothing else changes. |
| Engine.Engine.SlotFills | index.js:104-106 | The slot callback of `all` stores the value at its index and decrements `l`, and changes nothing else. When `l` reaches zero, the unobserved aggregate is fulfilled with the array and cleared. |
| Engine.Engine.AllEntryFulfils | index.js:102-107 | Fulfilling a pending `all` entry wired by `entry.then(slot).catch(reject)`, for any slot and any counter. The entry, the `then` promise and the `catch` promise are fulfilled and cleared, the slot is filled and `l` decremented. The aggregate is fulfilled with the array exactly when `l` reaches zero. Every other cell and aggregator is unchanged, and the log is given event by event. |
| Engine.Engine.TwoHops | index.js:57-70 | A `then` on a `then`, both made while the first parent is pending: resolving that parent with a plain value runs both callbacks in turn. All three promises end settled with their values and cleared; the heap and log are exact. |
| Engine.Engine.ThenOnFulfilled | index.js:64-65 | `then(resolve)` on a promise already fulfilled outside its setup runs `settle` at once. The target takes the parent's value, and the new promise is fulfilled with `undefined` while its own setup is still running, so it is synchronously resolved. Its id is returned. |
| Engine.Engine.FollowFulfilledThrows | index.js:30-31 | `resolve` with an already fulfilled promise, in the builds with the ban: the follower settles with that promise's value. Then `.catch(reject)` (index.js) or `then(null, reject)` (global build) on the synchronously resolved promise of `then(resolve)` raises the usage error. Heap and log are exact. |
| Engine.Engine.LeafRejectThrows | index.js:21-23 | A promise with no rejection observers, rejected under the fatal policy: `s` and `v` are set, `c` is not cleared, and the reason is thrown. |
| Engine.Engine.CaughtRejectThrows | index.js:30-31 | A rejection of a promise wired by `.then(..).catch(reject)` to an unobserved target, under the fatal policy. The promise, the `then` promise, the target and the `catch` promise are marked rejected in that order, and none is cleared. The reason is thrown out of the first `reject`, and the log records where each observer loop stopped. |
| Engine.Engine.ErrbackRejectThrows | dist/sync-promise-global.js:5-7 | The same for the global build's `.then(..).then(null, reject)` wiring: the promise, the `then` promise and the target are marked rejected and not cleared, and the reason is thrown. |
| Scenarios.IndexThenOnSyncResolved | index.js:53-55 | `then` on a promise resolved inside its setup raises the usage error. |
| Scenarios.IndexSettleOnce | index.js:27-29 | Later `resolve`/`reject` calls leave the first settlement; `a` is false for a later settlement. |
| Scenarios.IndexChainAfterFulfilled | index.js:64-65 | `then` on a fulfilled promise runs `cb` at once. The derived promise is synchronously resolved, so a second `then` on it is refused. |
| Scenarios.IndexCallbackThrowEscapes | index.js:57-62 | A throwing callback rejects the derived promise. With nobody observing it, the reason escapes `then`. |
| Scenarios.IndexUnobservedRejectionNotFinal | index.js:21-25 | An unobserved rejection throws with `s`/`v` set and `c` not cleared, and a later `resolve` still re-settles the promise. |
| Scenarios.IndexAllPlain | index.js:108-110 | `all` over plain values fulfills with the unchanged array. |
| Scenarios.IndexPendingThenPropagates | index.js:69-70 | A `then` on a pending parent is settled by the parent's later `resolve` through `cb`. That derived promise is not synchronously resolved and accepts a further `then`. |
| Scenarios.IndexPendingThenRejectionEscapes | index.js:21-24 | A rejection passed to an unobserved derived promise throws out of both, leaving both uncleared. |
| Scenarios.IndexTwoPendingThens | index.js:69-70 | Two `then`s on a pending parent are both settled by its later `resolve`. |
| Scenarios.IndexResolveFollowsThenable | index.js:30-31 | `resolve` with a pending promise adopts that promise's later fulfilment. |
| Scenarios.IndexThenChainPropagates | index.js:69-70 | A `then` on a `then`, both made while the first parent is pending: its later `resolve` fulfils the last promise with the second callback's result on the first one's. |
| Scenarios.IndexAllPendingFills | index.js:102-107 | `all` over a pending promise stays pending, then fulfils with the array when that promise is fulfilled. |
| Scenarios.ChainRuns | index.js:18-20 | In the `then`-on-`then` chain, the first promise ends with exactly the state and value it was resolved with, and is cleared, once the rest of the chain has run. |
| Scenarios.IndexResolveWithFulfilledThrows | index.js:30-31 | `resolve` with an already fulfilled promise fulfils the follower with its value, then throws the `catch` usage error. |
| Scenarios.IndexAllEntryRejectThrows | index.js:105-107 | A rejection of a pending `all` entry rejects the unobserved aggregate without clearing it, and the reason is thrown out of the entry's `reject`. |
| Scenarios.IndexFollowRejectThrows | index.js:30-31 | A later rejection of a followed promise rejects the unobserved follower without clearing it, and the reason is thrown. |
| Scenarios.GlobalResolveWithFulfilledThrows | dist/sync-promise-global.js:35 | `resolve` with an already fulfilled promise fulfils the follower, then throws the `then` usage error from `addReject`. |
| Scenarios.GlobalAllEntryRejectThrows | dist/sync-promise-global.js:111-114 | A rejection of a pending `all` entry reaches the aggregate through the errback of `then(null, reject)`, rejects it without clearing it, and is thrown. |
| Scenarios.GlobalCatchOnSyncResolved | dist/sync-promise-global.js:82-84 | `catch` on a synchronously resolved promise raises the usage error. |
| Scenarios.GlobalThenPassThrough | dist/sync-promise-global.js:64 | `then()` without a callback fulfills the child with the parent's value. |
| Scenarios.GlobalErrbackTakesRejection | dist/sync-promise-global.js:61-71 | A rejected parent's reason goes to the errback, and the child stays pending. |
| Scenarios.GlobalErrbackTakesThrow | dist/sync-promise-global.js:61-67 | An exception of `cb` goes to the errback, and the child stays pending. |
| Scenarios.GlobalAllNeedsPromise | dist/sync-promise-global.js:116-118 | `all` over plain values raises the usage error. |
| Scenarios.GlobalRaceNeedsPromises | dist/sync-promise-global.js:136-138 | A plain entry in `race` raises the usage error. |
| Scenarios.GlobalRacePlainAfterPromise | dist/sync-promise-global.js:128-138 | A plain entry after a pending promise raises the usage error, and that promise has already been followed (one observer). |
| Scenarios.GlobalRaceWinnerFulfils | dist/sync-promise-global.js:127-135 | `race` over a pending promise fulfils with its value when it is fulfilled. |
| Scenarios.AmdSetupThrowRejects | dist/sync-promise-amd.js:49-53 | A throwing setup rejects the promise, and the later check reports the reason. |
| Scenarios.AmdThenOnSyncResolved | dist/sync-promise-amd.js:76-77 | With no ban, `then` on a promise resolved in its setup runs `cb` at once. |
| Scenarios.AmdHandledSilencesReport | dist/sync-promise-amd.js:98-100 | `catch` on a rejected promise sets `h`, so the scheduled check reports nothing. |
| Scenarios.AmdStaticsKeepThenable | dist/sync-promise-amd.js:56-62 | Both statics return a promise argument as it is, and `reject` leaves it pending. |
| Scenarios.AmdPendingCatchRecovers | dist/sync-promise-amd.js:104-105 | A pending `catch` recovers a later rejection, and no report is scheduled. |
| Scenarios.AmdPendingThenRejectionReported | dist/sync-promise-amd.js:20-27 | A rejection passed to an unobserved derived promise schedules the report for that promise, and the report fires. |
| Scenarios.AmdAllEntryRejects | dist/sync-promise-amd.js:113-118 | A rejection of a pending `all` entry reaches the aggregate through `entry.then(slot).catch(reject)` and rejects it with the entry's reason. |
| Scenarios.AmdAllFillsInAnyOrder | dist/sync-promise-amd.js:113-118 | Two pending entries fulfilled in reverse order. After the first, the aggregate is still pending and the other entry still has its observer. After the second, the array is `[5, 6]` in input order and the aggregate is fulfilled with it. |
| Scenarios.FirstSlotWaits | dist/sync-promise-amd.js:115-117 | The first fulfilment fills slot 1 and leaves `l` at 1. The other entry, its wiring and the aggregate's promise are unchanged. |
| Scenarios.LastSlotFills | dist/sync-promise-amd.js:115-117 | The second fulfilment fills slot 0, brings `l` to zero and fulfils the aggregate with the array. |
| Scenarios.AmdResolveFollowsRejection | dist/sync-promise-amd.js:31-39 | A promise resolved with a pending promise is rejected with that promise's later rejection, through `val.then(resolve).catch(reject)`. |

## Notes on behaviour

The model follows the code in these points:
- Only the amd build catches an exception thrown by the setup function. In `index.js` and the global build it propagates out of the constructor, possibly after a settlement.
- In `index.js` and the global build an unhandled rejection throws synchronously, out of `reject` or `transist`. It throws before `c` is cleared, so settle-once holds only after clearing: `IndexUnobservedRejectionNotFinal` shows a rejected promise being fulfilled later.
- Callback exceptions do escape in those builds: a thrown value rejects the derived promise, and if nothing observes that promise its own unhandled rejection throws on.
- `a` is set on every settlement from whether the setup has returned. A derived promise settled inside `then`'s own setup (a parent already settled) is therefore synchronously resolved, and `then` on it is refused in `index.js` and the global build.
- The amd build sets `h` only in the already-rejected branches of `then` and `catch`. Attaching to a pending promise does not set it.
- In `index.js` and the global build, resolving a promise with an already fulfilled promise settles it with that value and then throws the usage error. `val.then(resolve)` returns a promise resolved inside its own setup function. The `.catch(reject)` of index.js, or the `then(null, reject)` of the global build, on that promise is refused (`IndexResolveWithFulfilledThrows`, `GlobalResolveWithFulfilledThrows`). By the same mechanism, `all` over an already fulfilled entry throws after filling that slot; `All` states that case only as `Evolved`.
- `race` does not consult `resolved` on the rejection path: a later rejection is stopped only by the aggregate's own settle-once check.

## Left out

- The module wrappers (the IIFE exporting to `this || self`, and `define`) are packaging only.
- `setTimeout` and `console.log` in the amd build are host scheduling and I/O. Scheduling is the `reports` queue, and the delayed check is `RunCheck`, which returns the value it would log.
- Foreign thenables such as jQuery Deferred are not modelled. Only promise ids of the engine are thenables (`IsPromise`). A promise reference is always to an existing promise: `All` and `Race` require every entry to be an allocated id (`Known`), and `IsPromise` counts an id outside the heap as a plain value only to stay total. Other host objects, functions and arrays outside `all` are plain values.
- Host callbacks are pure functions of their argument (`user`). A callback cannot create promises or call the engine re-entrantly. Only the engine's own closures re-enter.
- The engine's closures re-enter each other without bound in JavaScript, for example a promise resolved with itself. Each method has a `fuel` call-depth budget, and running out raises `Error(StackOverflow)`, the host's stack overflow error. The exact contracts hold only when enough fuel is given.
- Wall-clock timing ("first to settle" in `race` and `all`) is the order in which host code calls `resolve`/`reject` on the entries.
- Engine.Engine.All: with promise entries the contract gives the wiring when every promise entry is pending and followable. `all` over an already-settled entry, or one refused by the ban, is stated only as `Evolved` and the per-entry `EntryDone`. The later settlement of the entries is not part of `All`'s contract, which covers the one call. Lemmas over the engine's step semantics state it instead. A fulfilled entry fills its slot, decrements `l`, and changes nothing else, whatever `l` was (`AllEntryFulfils`). A rejected entry rejects the aggregate (`CaughtRejectThrows`, `ErrbackRejectThrows`, and `Lands` in the amd build). `AllEntryFulfils` covers the `.catch(reject)` wiring of index.js and the amd build. The fulfilment of an entry in the global build, wired by `then(null, reject)`, is stated only as `Evolved` and the landing of its slot.
- Engine.Engine.Race: the same holds for already-settled entries. The winner and rejection paths are stated per closure call (`WinRace`, `Apply`), not over a settlement order. Later rejections rely on settle-once.
- Engine.Engine.Race: requires the global build's configuration (`race` and `addReject`), the only build that defines `race`.
- Engine.Engine.Apply: when a `race` winner's `resolve` throws, nothing is stated beyond `Evolved`.
- Engine.Engine.Follow: following an already-settled thenable is stated only as `Evolved` in the contract. Under the ban, the exact run with an already fulfilled thenable (settle, then throw) is `FollowFulfilledThrows`. A later rejection of a followed thenable is `CaughtRejectThrows` in index.js, `ErrbackRejectThrows` in the global build and `Lands` in the amd build. An already rejected thenable, and an already fulfilled one in the amd build, are stated only as `Evolved`.
- Engine.Engine.RunObservers: the exact effect is stated for observers that each settle an unobserved promise of their own (`Relayed`) and for where the first observer's settlement lands (`EntryLands`), followed through the first observer of each observed promise on the way. The promises it passes through, and the settlements started by the second and later observers of a list, are stated only as `Evolved` and the log trace.
- Engine.Engine.Transist: a rejection lands only where it clears its promise. In `index.js` and the global build a rejection reaching an unobserved promise throws instead, so a rejection chain (an `all` entry rejecting, a followed thenable rejecting) is stated to land in the amd build only. In the other builds `Transist`'s contract states it only as `Evolved`. The exact run through the wiring of `all` and of a followed thenable is given by the lemmas `CaughtRejectThrows` and `ErrbackRejectThrows`: every promise on the way is marked rejected and not cleared, and the reason is thrown out of the first `reject`.
- Engine.Engine.PropagatedTwo: covers two observers that do not throw. A throwing observer is covered in general by `Relayed`.
- `all` keeps its array inside the aggregator (`Arr(k)`). An array the host shares between several `all` calls, or mutates from outside, is not modelled.
- `catch(undefined)` and `then` given a non-function other than `undefined` are not modelled. `catch` always takes a function value. A missing `then` callback is `None`: it calls `undefined` (`NotAFunction`) in `index.js` and the amd build, and passes the value through in the global build.
- `test/main.js` exercises a commonjs build that is not part of this model.
