/**
  The progressive invoker of `useProgressiveCallback`: the enhanced callback
  calls the scheduled callback, writes `'pending'` when it returns a promise,
  `'fulfilled'` or `'rejected'` when that promise settles, `'rejected'` when
  the call throws at once, and passes values and errors through unchanged.

  The promise machinery is replaced by explicit events: a call's outcome is
  known when it returns, and its promise settles by a later `Settlement`
  naming the call. Overlapping calls are interleaved events on one cell.
 */
module Progressive {
  import opened Optional
  import opened Dependencies
  import opened MountGuard

  /** `ProgressiveCallbackState`; `Uninitialized` stands for `undefined`. */
  datatype CallbackState = Uninitialized | Pending | Fulfilled | Rejected

  /** What happened when the enhanced callback was called: `schedule` itself
      threw (before the `try`), the scheduled callback threw at once, or it
      returned a promise, which settles later. */
  datatype Outcome<E> = ScheduleThrow(error: E) | SyncThrow(error: E) | Returned

  /** The settlement of the promise returned to call number `call`. */
  datatype Settlement<V, E> = Resolve(call: nat, value: V) | Reject(call: nat, error: E)

  /** What the enhanced callback gives its caller at once: it rethrows the
      error, or it returns the promise chained for call number `call`. */
  datatype CallResult<E> = Threw(error: E) | Promised(call: nat)

  /** What the promise returned to the caller settles to. */
  datatype Settled<V, E> = Resolved(value: V) | Failed(error: E)

  /** One `setCallbackState` call, made on behalf of call number `call`. */
  datatype Write = Write(call: nat, state: CallbackState)

  /** Value-level view of the hook: the state cell, the calls whose promise
      has not settled yet, the number of calls so far, and every write
      attempted, whether it landed or was dropped. */
  datatype Invoker = Invoker(cell: Cell<CallbackState>, pending: set<nat>, calls: nat, writes: seq<Write>)

  function Start(guarded: bool): Invoker
  {
    Invoker(Initial(guarded, Uninitialized), {}, 0, [])
  }

  /** `setCallbackState(state)` on behalf of call number `call`. */
  function Emit(s: Invoker, call: nat, state: CallbackState): Invoker
  {
    s.(cell := AfterWrite(s.cell, state), writes := s.writes + [Write(call, state)])
  }

  /** A call of the enhanced callback, given what the scheduled callback did.
      Only calls that reach the `try` get a number. */
  function InvokeStep<E>(s: Invoker, outcome: Outcome<E>): (Invoker, CallResult<E>)
  {
    var call := s.calls;
    match outcome
    case ScheduleThrow(e) =>
      (s, Threw(e))
    case SyncThrow(e) =>
      (Emit(s.(calls := call + 1), call, Rejected), Threw(e))
    case Returned =>
      (Emit(s.(calls := call + 1, pending := s.pending + {call}), call, Pending), Promised(call))
  }

  /** The `then`/`catch` handlers of a call's promise. A promise settles once:
      a settlement for a call that is not pending runs no handler. */
  function SettleStep<V, E>(s: Invoker, settlement: Settlement<V, E>): (Invoker, Option<Settled<V, E>>)
  {
    if settlement.call !in s.pending then (s, None)
    else
      var s' := s.(pending := s.pending - {settlement.call});
      match settlement
      case Resolve(call, v) => (Emit(s', call, Fulfilled), Some(Resolved(v)))
      case Reject(call, e) => (Emit(s', call, Rejected), Some(Failed(e)))
  }

  /** Everything that can happen to the hook: the mount effect, its cleanup,
      a call of the enhanced callback, a settlement. */
  datatype Event<V, E> =
    | MountEvent
    | UnmountEvent
    | CallEvent(outcome: Outcome<E>)
    | SettleEvent(settlement: Settlement<V, E>)

  function Step<V, E>(s: Invoker, ev: Event<V, E>): Invoker
  {
    match ev
    case MountEvent => s.(cell := AfterMount(s.cell))
    case UnmountEvent => s.(cell := AfterUnmount(s.cell))
    case CallEvent(o) => InvokeStep(s, o).0
    case SettleEvent(st) => SettleStep(s, st).0
  }

  function Run<V, E>(s: Invoker, evs: seq<Event<V, E>>): Invoker
    decreases |evs|
  {
    if evs == [] then s else Run(Step(s, evs[0]), evs[1..])
  }

  predicate NoRemount<V, E>(evs: seq<Event<V, E>>)
  {
    forall i :: 0 <= i < |evs| ==> !evs[i].MountEvent?
  }

  predicate NoTeardown<V, E>(evs: seq<Event<V, E>>)
  {
    forall i :: 0 <= i < |evs| ==> !evs[i].UnmountEvent?
  }

  /** The states written on behalf of one call, in order. */
  function WritesOf(ws: seq<Write>, call: nat): seq<CallbackState>
    decreases |ws|
  {
    if ws == [] then []
    else
      var last := ws[|ws| - 1];
      WritesOf(ws[..|ws| - 1], call) + (if last.call == call then [last.state] else [])
  }

  /** The writes one call may have made: a synchronous throw writes
      `Rejected` alone; a returned promise writes `Pending` and, once it
      settles, one terminal state. */
  predicate CallShape(w: seq<CallbackState>, open: bool)
  {
    if open then w == [Pending]
    else w == [Rejected] || w == [Pending, Fulfilled] || w == [Pending, Rejected]
  }

  /** Every call made so far follows the write protocol; pending calls are
      exactly those that wrote `Pending` and nothing after it. */
  ghost predicate Protocol(s: Invoker)
  {
    && (forall call :: call in s.pending ==> call < s.calls)
    && (forall call: nat :: call < s.calls ==> CallShape(WritesOf(s.writes, call), call in s.pending))
    && (forall call: nat :: call >= s.calls ==> WritesOf(s.writes, call) == [])
  }

  /** A throw from `schedule` itself, outside the `try`: the error reaches
      the caller unchanged and nothing is written or left pending. */
  lemma ScheduleThrowWritesNothing<E>(s: Invoker, e: E)
    ensures InvokeStep(s, ScheduleThrow(e)) == (s, Threw(e))
  {
  }

  /** A synchronous throw: the only write is `Rejected`, no promise is left
      pending, and the very same error is rethrown. */
  lemma SyncThrowRethrows<E>(s: Invoker, e: E)
    ensures var (s', r) := InvokeStep(s, SyncThrow(e));
            && r == Threw(e)
            && s'.writes == s.writes + [Write(s.calls, Rejected)]
            && s'.pending == s.pending
            && s'.cell.phase == s.cell.phase
            && (Writable(s.cell) ==> s'.cell.value == Rejected)
            && (!Writable(s.cell) ==> s'.cell == s.cell)
  {
  }

  /** When a pending call's promise resolves with `v`, whatever happened in
      between: the one write is `Fulfilled` for that call, the call is no
      longer pending, and the caller's promise resolves with `v` itself. */
  lemma ResolvePassesValueThrough<V, E>(s: Invoker, call: nat, v: V)
    requires call in s.pending
    ensures var (s', r) := SettleStep(s, Settlement<V, E>.Resolve(call, v));
            && r == Some(Resolved(v))
            && s'.writes == s.writes + [Write(call, Fulfilled)]
            && s'.pending == s.pending - {call}
            && s'.calls == s.calls
            && s'.cell.phase == s.cell.phase
            && (Writable(s.cell) ==> s'.cell.value == Fulfilled)
            && (!Writable(s.cell) ==> s'.cell == s.cell)
  {
  }

  /** When a pending call's promise rejects with `e`, whatever happened in
      between: the one write is `Rejected` for that call, the call is no
      longer pending, and the caller's promise fails with `e` itself. */
  lemma RejectPassesErrorThrough<V, E>(s: Invoker, call: nat, e: E)
    requires call in s.pending
    ensures var (s', r) := SettleStep(s, Settlement<V, E>.Reject(call, e));
            && r == Some(Failed(e))
            && s'.writes == s.writes + [Write(call, Rejected)]
            && s'.pending == s.pending - {call}
            && s'.calls == s.calls
            && s'.cell.phase == s.cell.phase
            && (Writable(s.cell) ==> s'.cell.value == Rejected)
            && (!Writable(s.cell) ==> s'.cell == s.cell)
  {
  }

  /** A guarded call made before the mount effect has run loses its
      `Pending` write, but when its promise settles after the mount the
      terminal write lands: the state goes from `undefined` straight to
      `Fulfilled`, and `Pending` is never visible. */
  lemma EarlyCallSkipsPending<V, E>(v: V)
    ensures var evs := [CallEvent(Returned), MountEvent, SettleEvent(Settlement<V, E>.Resolve(0, v))];
            && Run(Start(true), evs[..1]).cell.value == Uninitialized
            && Run(Start(true), evs[..2]).cell.value == Uninitialized
            && Run(Start(true), evs).cell.value == Fulfilled
            && Run(Start(true), evs).writes == [Write(0, Pending), Write(0, Fulfilled)]
  {
    var evs := [CallEvent(Returned), MountEvent, SettleEvent(Settlement<V, E>.Resolve(0, v))];
    var s0 := Start(true);
    var s1 := Step(s0, evs[0]);
    var s2 := Step(s1, evs[1]);
    var s3 := Step(s2, evs[2]);
    // Before the mount effect the `Pending` write is dropped.
    assert s1.cell.value == Uninitialized && s1.pending == {0};
    assert s2.cell.phase == Mounted && s2.cell.value == Uninitialized;
    assert s3.cell.value == Fulfilled;
    assert Run(s0, evs[..1]) == s1 by {
      assert evs[..1][0] == evs[0] && evs[..1][1..] == [];
    }
    assert Run(s0, evs[..2]) == s2 by {
      assert evs[..2][0] == evs[0] && evs[..2][1..] == [evs[1]];
      assert Run(s1, [evs[1]]) == Run(s2, evs[..0]);
    }
    assert Run(s0, evs) == s3 by {
      assert evs[1..] == [evs[1], evs[2]] && evs[1..][1..] == [evs[2]];
      assert Run(s1, evs[1..]) == Run(s2, [evs[2]]);
      assert Run(s2, [evs[2]]) == Run(s3, evs[..0]);
    }
  }

  /** A call that returns a promise which then resolves with `v` (the
      sequential case of `ResolvePassesValueThrough`): the writes
      are exactly `Pending` then `Fulfilled`, and the caller's promise
      resolves with `v` itself. */
  lemma ResolvedCallWrites<V, E>(s: Invoker, v: V)
    ensures var (s1, r1) := InvokeStep<E>(s, Returned);
            var (s2, r2) := SettleStep(s1, Settlement<V, E>.Resolve(s.calls, v));
            && r1 == Promised(s.calls)
            && s1.writes == s.writes + [Write(s.calls, Pending)]
            && r2 == Some(Resolved(v))
            && s2.writes == s.writes + [Write(s.calls, Pending), Write(s.calls, Fulfilled)]
            && s2.pending == s.pending - {s.calls}
            && (Writable(s.cell) ==> s1.cell.value == Pending && s2.cell.value == Fulfilled)
  {
    ResolvePassesValueThrough<V, E>(InvokeStep<E>(s, Returned).0, s.calls, v);
  }

  /** A call that returns a promise which then rejects with `e` (the
      sequential case of `RejectPassesErrorThrough`): the writes
      are exactly `Pending` then `Rejected`, and the caller's promise fails
      with `e` itself. */
  lemma RejectedCallWrites<V, E>(s: Invoker, e: E)
    ensures var (s1, r1) := InvokeStep<E>(s, Returned);
            var (s2, r2) := SettleStep(s1, Settlement<V, E>.Reject(s.calls, e));
            && r1 == Promised(s.calls)
            && s1.writes == s.writes + [Write(s.calls, Pending)]
            && r2 == Some(Failed(e))
            && s2.writes == s.writes + [Write(s.calls, Pending), Write(s.calls, Rejected)]
            && s2.pending == s.pending - {s.calls}
            && (Writable(s.cell) ==> s1.cell.value == Pending && s2.cell.value == Rejected)
  {
    RejectPassesErrorThrough<V, E>(InvokeStep<E>(s, Returned).0, s.calls, e);
  }

  /** A settlement for a call that is not pending (already settled, or never
      made) changes nothing and yields nothing. */
  lemma StraySettlementIsIgnored<V, E>(s: Invoker, settlement: Settlement<V, E>)
    requires settlement.call !in s.pending
    ensures SettleStep(s, settlement) == (s, None)
  {
  }

  /** The plain `useState` of index.ts drops nothing: after each of the three
      paths of a call the cell holds the state just written, whatever the
      lifecycle. */
  lemma UnguardedCallLands<V, E>(s: Invoker, e: E, v: V, settlement: Settlement<V, E>)
    requires !s.cell.guarded
    ensures InvokeStep(s, SyncThrow(e)).0.cell.value == Rejected
    ensures InvokeStep<E>(s, Returned).0.cell.value == Pending
    ensures settlement.call in s.pending ==>
              SettleStep(s, settlement).0.cell.value == (if settlement.Resolve? then Fulfilled else Rejected)
  {
  }

  /** One event keeps the call protocol. */
  lemma StepKeepsProtocol<V, E>(s: Invoker, ev: Event<V, E>)
    requires Protocol(s)
    ensures Protocol(Step(s, ev))
  {
  }

  lemma {:induction false} RunKeepsProtocol<V, E>(s: Invoker, evs: seq<Event<V, E>>)
    requires Protocol(s)
    ensures Protocol(Run(s, evs))
    decreases |evs|
  {
    if evs != [] {
      StepKeepsProtocol(s, evs[0]);
      RunKeepsProtocol(Step(s, evs[0]), evs[1..]);
    }
  }

  /** In every run of the hook, guarded or not, each call's writes follow the
      protocol: `[Rejected]` after a synchronous throw; `[Pending]` while its
      promise is outstanding; `[Pending, Fulfilled]` or `[Pending, Rejected]`
      once it settled. `Pending` always comes first, a terminal state is
      written at most once, and `Uninitialized` is never written. */
  lemma EveryCallFollowsProtocol<V, E>(guarded: bool, evs: seq<Event<V, E>>)
    ensures Protocol(Run(Start(guarded), evs))
  {
    RunKeepsProtocol(Start(guarded), evs);
  }

  /** The trace of writes only grows: a run appends to it and never rewrites
      an earlier write. */
  lemma {:induction false} WritesAreAppendOnly<V, E>(s: Invoker, evs: seq<Event<V, E>>)
    ensures |s.writes| <= |Run(s, evs).writes|
    ensures Run(s, evs).writes[..|s.writes|] == s.writes
    decreases |evs|
  {
    if evs != [] {
      var s1 := Step(s, evs[0]);
      assert |s.writes| <= |s1.writes| && s1.writes[..|s.writes|] == s.writes;
      WritesAreAppendOnly(s1, evs[1..]);
      var w' := Run(s, evs).writes;
      assert w'[..|s.writes|] == w'[..|s1.writes|][..|s.writes|];
    }
  }

  /** Once a guarded hook is torn down, nothing that follows (late
      settlements, new calls, repeated teardown) changes the cell: the state
      stays as it was at teardown. */
  lemma {:induction false} TeardownIsFinal<V, E>(s: Invoker, evs: seq<Event<V, E>>)
    requires s.cell.guarded && s.cell.phase == Unmounted
    requires NoRemount(evs)
    ensures Run(s, evs).cell == s.cell
    decreases |evs|
  {
    if evs != [] {
      assert !evs[0].MountEvent?;
      assert Step(s, evs[0]).cell == s.cell;
      assert NoRemount(evs[1..]) by {
        forall i | 0 <= i < |evs[1..]| ensures !evs[1..][i].MountEvent? {
          assert evs[1..][i] == evs[i + 1];
        }
      }
      TeardownIsFinal(Step(s, evs[0]), evs[1..]);
    }
  }

  /** While every write lands (a mounted guarded cell that is not torn down,
      or a plain cell), overlapping calls race on the one cell and the last
      write wins: the cell holds the state of the last write, or its old
      value when nothing was written. */
  lemma {:induction false} LastWriterWins<V, E>(s: Invoker, evs: seq<Event<V, E>>)
    requires Writable(s.cell)
    requires s.cell.guarded ==> NoTeardown(evs)
    ensures var s' := Run(s, evs);
            && |s.writes| <= |s'.writes|
            && s'.cell.value == if |s'.writes| == |s.writes| then s.cell.value
                                else s'.writes[|s'.writes| - 1].state
    decreases |evs|
  {
    if evs != [] {
      var s1 := Step(s, evs[0]);
      assert Writable(s1.cell);
      assert s1.writes == s.writes ==> s1.cell.value == s.cell.value;
      assert s1.writes != s.writes ==>
               |s1.writes| == |s.writes| + 1 && s1.cell.value == s1.writes[|s1.writes| - 1].state;
      assert s.cell.guarded ==> NoTeardown(evs[1..]) by {
        if s.cell.guarded {
          forall i | 0 <= i < |evs[1..]| ensures !evs[1..][i].UnmountEvent? {
            assert evs[1..][i] == evs[i + 1];
          }
        }
      }
      LastWriterWins(s1, evs[1..]);
      WritesAreAppendOnly(s1, evs[1..]);
      var w' := Run(s1, evs[1..]).writes;
      if |w'| == |s1.writes| && s1.writes != s.writes {
        assert w'[|w'| - 1] == w'[..|s1.writes|][|s1.writes| - 1];
      }
    }
  }

  /** With the plain `useState` of index.ts no write is ever dropped: from
      the start, the cell always holds the last state written, or
      `Uninitialized` when there was none. */
  lemma UnguardedKeepsLastWrite<V, E>(evs: seq<Event<V, E>>)
    ensures var s := Run(Start(false), evs);
            s.cell.value == if s.writes == [] then Uninitialized else s.writes[|s.writes| - 1].state
  {
    LastWriterWins(Start(false), evs);
  }

  /** One enhanced callback with its state cell, its routed arguments, and
      the calls whose promise is still outstanding. */
  class ProgressiveCallback<D, O> {
    const cell: StateCell<CallbackState>
    /** `deps ?? []`, what `useCallback` memoises the enhanced callback on. */
    const deps: seq<D>
    /** The options handed to `schedule` on every call. */
    const scheduleOptions: Option<O>
    var pending: set<nat>
    var calls: nat
    ghost var writes: seq<Write>

    ghost function Model(): Invoker
      reads this, cell
    {
      Invoker(cell.Model(), pending, calls, writes)
    }

    ghost predicate Valid()
      reads this, cell
    {
      Protocol(Model())
    }

    /** `useProgressiveCallback(callback, options?, deps?)` of
        src/useProgressiveCallback.ts: a mount-guarded cell starting at
        `undefined`, and the second argument routed by the array test. */
    constructor UseProgressiveCallback(options: Arg<D, O>, depsArg: Option<seq<D>>)
      ensures fresh(cell) && Valid()
      ensures Model() == Start(true)
      ensures cell.value == Uninitialized && cell.guarded
      ensures deps == MemoDeps(Route(options, depsArg))
      ensures scheduleOptions == Route(options, depsArg).scheduleOptions
    {
      var routed := Route(options, depsArg);
      cell := new StateCell.UseMountedState(Uninitialized);
      deps := MemoDeps(routed);
      scheduleOptions := routed.scheduleOptions;
      pending := {};
      calls := 0;
      writes := [];
    }

    /** `useProgressiveCallback` of index.ts: the same, over a plain
        `useState` cell. */
    constructor UseProgressiveCallbackUnguarded(options: Arg<D, O>, depsArg: Option<seq<D>>)
      ensures fresh(cell) && Valid()
      ensures Model() == Start(false)
      ensures cell.value == Uninitialized && !cell.guarded
      ensures deps == MemoDeps(Route(options, depsArg))
      ensures scheduleOptions == Route(options, depsArg).scheduleOptions
    {
      var routed := Route(options, depsArg);
      cell := new StateCell.UseState(Uninitialized);
      deps := MemoDeps(routed);
      scheduleOptions := routed.scheduleOptions;
      pending := {};
      calls := 0;
      writes := [];
    }

    /** The enhanced callback, given what the scheduled callback did. */
    method Invoke<E>(outcome: Outcome<E>) returns (r: CallResult<E>)
      requires Valid()
      modifies this, cell
      ensures Valid()
      ensures (Model(), r) == InvokeStep(old(Model()), outcome)
    {
      // A call event carries no settlement value; any value type will do.
      StepKeepsProtocol<E, E>(Model(), CallEvent(outcome));
      if outcome.ScheduleThrow? {
        return Threw(outcome.error);
      }
      var call := calls;
      calls := calls + 1;
      match outcome
      case SyncThrow(e) =>
        cell.Set(Rejected);
        writes := writes + [Write(call, Rejected)];
        r := Threw(e);
      case Returned =>
        pending := pending + {call};
        cell.Set(Pending);
        writes := writes + [Write(call, Pending)];
        r := Promised(call);
    }

    /** The settlement of a call's promise: the `then` handler on
        resolution, the `catch` handler on rejection. */
    method Settle<V, E>(settlement: Settlement<V, E>) returns (r: Option<Settled<V, E>>)
      requires Valid()
      modifies this, cell
      ensures Valid()
      ensures (Model(), r) == SettleStep(old(Model()), settlement)
    {
      StepKeepsProtocol(Model(), SettleEvent(settlement));
      if settlement.call !in pending {
        return None;
      }
      pending := pending - {settlement.call};
      match settlement
      case Resolve(call, v) =>
        cell.Set(Fulfilled);
        writes := writes + [Write(call, Fulfilled)];
        r := Some(Resolved(v));
      case Reject(call, e) =>
        cell.Set(Rejected);
        writes := writes + [Write(call, Rejected)];
        r := Some(Failed(e));
    }
  }
}
