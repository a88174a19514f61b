# react-progressive-callback, modelled in Dafny

`useProgressiveCallback` wraps a callback so that a React component can watch
its calls. The hook returns a state and an enhanced callback that passes
values and errors back unchanged. The state is `undefined` until a write
lands. A call that returns a promise writes `'pending'`, then `'fulfilled'`
or `'rejected'` when the promise settles. When the scheduled callback throws at once,
the call writes `'rejected'` directly, even from `undefined`; a throw from
`schedule` itself writes nothing. In the mount-guarded variant, writes
attempted before the mount effect are dropped. A call made then can still
write its terminal state when its promise settles after the mount, so the
state can go from `undefined` to `'fulfilled'` without showing `'pending'`. In
src/useProgressiveCallback.ts the state lives in a mount-guarded cell
(`useMountedState`, duplicated as `useMountSafeState`) whose setter writes
only between the component's mount effect and its teardown; index.ts is the
same hook over a plain `useState`. The second argument of the hook is
either a dependency list or scheduler options, told apart by
`isDependencyList` (`Array.isArray`).

The project has four modules:

- `Optional` (optional.dfy): `Option`, standing for a value or `undefined`.
- `Dependencies` (dependencies.dfy): the array test, the routing of the
  second and third arguments, and the `deps ?? []` default. The inline
  `isDependencyList` of index.ts:4-6 is the same test as
  src/isDependencyList.ts:3-5 and is defined once.
- `MountGuard` (mount_guard.dfy): the state cell. The value-level `Cell`
  with `AfterMount`, `AfterUnmount` and `AfterWrite` specifies the class
  `StateCell`, whose fields (`value`, the lifecycle `phase`, and `guarded`)
  the methods `Mount`, `Unmount` and `Set` update in place. The two
  identical hooks are two constructors of that one class, and a plain
  `useState` is a third constructor with `guarded` false.
- `Progressive` (progressive.dfy): the invoker. The scheduled callback's
  behaviour is a parameter, `Outcome`: `ScheduleThrow(e)` when `schedule`
  itself throws (outside the `try`), `SyncThrow(e)`, or `Returned`. The
  later settlement of the returned promise is an explicit `Settlement`
  event (`Resolve(call, v)` or `Reject(call, e)`) that names the call by
  its number. The value-level `Invoker` (the cell, the pending calls, the
  call count, and the trace of every attempted `setCallbackState`) gives
  `InvokeStep`, `SettleStep`, `Step` and `Run`. It specifies the class
  `ProgressiveCallback`, whose `Invoke` and `Settle` methods perform the
  writes through a `StateCell`. Overlapping calls are interleaved events on
  one cell.

Four points of the hook's behaviour may surprise a reader; the model
follows the code:

- Every call that returns writes `'pending'` first (src/useProgressiveCallback.ts:40).
  A terminal state is written only when the promise settles. There is no
  path that writes `'fulfilled'` at once.
- The mount flag starts false (src/useMountedState.ts:5). It is raised by
  the mount effect, not at initialisation, so a guarded write made before
  the effect has run is dropped.
- The mount effect sets the flag unconditionally (src/useMountedState.ts:8),
  so `Mount` may re-arm a cell. That teardown is permanent rests on React
  running an empty-dependency effect once. The permanence lemmas state it
  as the hypothesis that no mount event follows the teardown.
- A guarded call made before the mount effect has run (for instance from a
  child component's effect, which runs first) loses its `'pending'` write.
  The terminal write of its handler lands if the promise settles after the
  mount, so `'pending'` is never visible (`EarlyCallSkipsPending`).

## Model

| member | source | states |
|---|---|---|
| `Dependencies.Route` | src/useProgressiveCallback.ts:28-32 | A dependency list in second position becomes `deps` (overriding the third argument) and leaves no scheduler options. Anything else keeps the third argument as `deps`, and options are present exactly when an options object was passed. |
| `Dependencies.IsDependencyList` | src/isDependencyList.ts:3-5 | The second argument is a dependency list exactly when it is neither an options object nor `undefined`, that is, when it is an array. The inline copy at index.ts:4-6 is the same test. |
| `Dependencies.IsDependencyListClassifies` | src/isDependencyList.ts:3-5 | The array test is true for every array, the empty one included, and false for an options object and for `undefined`. |
| `Dependencies.RouteRecoversOverloads` | index.ts:11-34 | For a call written against either TypeScript overload, the routing gives back exactly the options and deps that overload was given. |
| `Dependencies.MemoDepsDefaults` | src/useProgressiveCallback.ts:56 | The callback is memoised on the routed dependency list, and on `[]` when no list was supplied at all. |
| `MountGuard.StateCell.UseMountedState` | src/useMountedState.ts:3-5 | The cell starts with the given initial value, guarded, with the flag down. |
| `MountGuard.StateCell.UseMountSafeState` | src/useMountSafeState.ts:3-5 | The duplicate hook builds the same cell: initial value, guarded, flag down. |
| `MountGuard.StateCell.UseState` | index.ts:27 | A plain `useState` cell: initial value, no guard. |
| `MountGuard.StateCell.Mount` | src/useMountedState.ts:7-8 | The mount effect raises the flag and keeps the value. |
| `MountGuard.StateCell.Unmount` | src/useMountSafeState.ts:10-12 | The cleanup lowers the flag and keeps the value. |
| `MountGuard.StateCell.Set` | src/useMountedState.ts:15-18 | The setter stores exactly the given value when the flag is up (always, without the guard). Otherwise it leaves the value as it was. It never changes the flag. |
| `MountGuard.WriteBeforeMountIsDropped` | src/useMountedState.ts:5-17 | A guarded write before the mount effect has run leaves the cell unchanged. |
| `MountGuard.WriteWhileMountedLands` | src/useMountSafeState.ts:8-17 | While mounted, a write replaces the value with the given value and keeps the cell mounted. |
| `MountGuard.SetterNeverFails` | src/useMountSafeState.ts:15-18 | The setter either writes the given value or does nothing. It never touches the flag, and it changes the value only when the cell is writable. |
| `MountGuard.UnmountIsIdempotent` | src/useMountedState.ts:10-12 | Tearing down twice is the same as once, keeps the value, and leaves a guarded cell unwritable. |
| `MountGuard.TeardownFreezesValue` | src/useMountSafeState.ts:10-17 | After teardown of a guarded cell, any sequence of writes and repeated teardowns (with no new mount) leaves the cell exactly as it was. |
| `Progressive.ScheduleThrowWritesNothing` | src/useProgressiveCallback.ts:36-37 | When `schedule` itself throws, before the `try`, the error reaches the caller unchanged. Nothing is written, no call number is used and nothing is left pending. |
| `Progressive.SyncThrowRethrows` | src/useProgressiveCallback.ts:51-53 | When the scheduled callback throws, the only write is `Rejected`, no promise is left pending, the same error is rethrown, and the cell holds `Rejected` if writable and is unchanged otherwise. |
| `Progressive.ResolvePassesValueThrough` | src/useProgressiveCallback.ts:42-45 | Whenever a pending call's promise resolves with `v`, whatever ran in between, the one write is `Fulfilled` for that call, the call stops being pending, and the caller's promise resolves with `v` itself. The write lands exactly when the cell is writable. |
| `Progressive.RejectPassesErrorThrough` | src/useProgressiveCallback.ts:46-49 | Whenever a pending call's promise rejects with `e`, whatever ran in between, the one write is `Rejected` for that call, the call stops being pending, and the caller's promise fails with `e` itself. The write lands exactly when the cell is writable. |
| `Progressive.EarlyCallSkipsPending` | src/useProgressiveCallback.ts:40-43 | A guarded call made before the mount effect, whose promise resolves after the mount: the state stays `undefined` through the call and the mount, then becomes `Fulfilled`. Both `Pending` and `Fulfilled` were attempted. |
| `Progressive.ResolvedCallWrites` | src/useProgressiveCallback.ts:38-45 | A call whose promise resolves with `v` writes exactly `Pending` then `Fulfilled`. The caller gets a promise that resolves with `v` itself. |
| `Progressive.RejectedCallWrites` | src/useProgressiveCallback.ts:46-49 | A call whose promise rejects with `e` writes exactly `Pending` then `Rejected`. The caller gets a promise that fails with `e` itself. |
| `Progressive.StraySettlementIsIgnored` | src/useProgressiveCallback.ts:42-49 | A settlement for a call that is not pending runs no handler and changes nothing, because a promise settles once. |
| `Progressive.EveryCallFollowsProtocol` | src/useProgressiveCallback.ts:34-57 | In every run, guarded or not, the writes of each call that reached the `try` are `[Rejected]`, or `[Pending]` while its promise is outstanding, or `[Pending, Fulfilled]` or `[Pending, Rejected]` after it settles. `Uninitialized` is never written, and calls not yet made wrote nothing. |
| `Progressive.TeardownIsFinal` | src/useProgressiveCallback.ts:25-49 | Once a guarded hook is torn down, late settlements, new calls and repeated teardowns leave the state as it was at teardown. |
| `Progressive.LastWriterWins` | src/useProgressiveCallback.ts:40-52 | While writes land, overlapping calls race on the one cell. The cell holds the state of the last write, or its old value when nothing was written. |
| `Progressive.UnguardedCallLands` | index.ts:42-56 | With the plain `useState`, each path of a call leaves the cell holding the state it just wrote, whatever the lifecycle. |
| `Progressive.UnguardedKeepsLastWrite` | index.ts:27 | With the plain `useState` no write is dropped. From the start, the state is the last state written, or `undefined` if nothing was written. |
| `Progressive.ProgressiveCallback.UseProgressiveCallback` | src/useProgressiveCallback.ts:20-32 | The hook starts with a fresh guarded cell holding `undefined`, no calls and no writes. Its memoisation list and scheduler options are those of the routing. |
| `Progressive.ProgressiveCallback.UseProgressiveCallbackUnguarded` | index.ts:22-34 | The index.ts hook is the same, over a plain `useState` cell. |
| `Progressive.ProgressiveCallback.Invoke` | src/useProgressiveCallback.ts:35-54 | The enhanced callback performs exactly the writes and returns exactly the result of `InvokeStep`, and it keeps the call protocol. |
| `Progressive.ProgressiveCallback.Settle` | src/useProgressiveCallback.ts:42-49 | A settlement performs exactly the write and yields exactly the settled value or error of `SettleStep`, and it keeps the call protocol. |

The enhanced callback of index.ts:36-59 is the same code as
src/useProgressiveCallback.ts:34-57. `Invoke` and `Settle` model both
variants, and the cell's `guarded` field tells them apart.

## Left out

- React's rendering and its `useCallback` memoisation with dependency
  equality: the hook records the list it would memoise on (`deps`) and nothing more.
- The `schedule` function of skdl, which may queue, batch or delay calls. It is not part of this model:
  its effect on a call is the `Outcome` parameter, including `ScheduleThrow`
  for a throw from `schedule` itself. The options routed to it
  are recorded (`scheduleOptions`) but not interpreted.
- The call's arguments and the wrapped callback itself: only what the
  scheduled callback did (threw, or returned a promise) is modelled.
- Promise and event-loop semantics: settlement is an explicit event. The
  extra turn between the `then` and the `catch` handler, and all timing, are
  not modelled.
- A non-promise return value: the code calls `.then` on whatever the
  scheduled callback returns. The model assumes that this is a promise,
  since it is `schedule` that decides.
- React StrictMode's development-only second run of effects: `Mount`
  raises the flag as the code does. The permanence lemmas assume that no
  mount follows teardown.
- How React's own `setState` behaves after unmount: the plain `useState`
  of index.ts is modelled as the code uses it, so every write takes effect.
- StateCell: the cell is modelled for non-function values only. React's
  `useState` calls a function-valued initial state as a lazy initialiser, and
  `setState` calls a function-valued argument as an updater of the previous
  value. The constructors' `value == initialState` and `Set`'s `value == x`
  do not describe those cases. The hook itself stores only its four states.
- TypeScript overload signatures and generics: they appear only through
  `OptionsOverload` and `DepsOverload`, the run-time shapes of the two
  overloads.
