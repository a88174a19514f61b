/**
  The mount-guarded state cell of `useMountedState` and its duplicate
  `useMountSafeState`: a value plus a `mounted` flag that the component's
  mount effect raises and its teardown clears; the setter writes only while
  the flag is raised. The plain `useState` of index.ts is the same cell
  without the guard.
 */
module MountGuard {

  /** Where the owning component is in its life. The source's flag
      `mounted.current` is true exactly in `Mounted`. */
  datatype Phase = NotYetMounted | Mounted | Unmounted

  /** Value-level view of a cell: the stored value, the phase, and whether
      writes are mount-guarded (false for a plain `useState`). */
  datatype Cell<S> = Cell(value: S, phase: Phase, guarded: bool)

  /** A write through the setter takes effect. */
  predicate Writable<S>(c: Cell<S>)
  {
    !c.guarded || c.phase == Mounted
  }

  function Initial<S>(guarded: bool, initialState: S): Cell<S>
  {
    Cell(initialState, NotYetMounted, guarded)
  }

  /** The mount effect: `mounted.current = true`. */
  function AfterMount<S>(c: Cell<S>): Cell<S>
  {
    c.(phase := Mounted)
  }

  /** The effect's cleanup: `mounted.current = false`. */
  function AfterUnmount<S>(c: Cell<S>): Cell<S>
  {
    c.(phase := Unmounted)
  }

  /** The setter: write when the flag is raised (always, without the guard). */
  function AfterWrite<S>(c: Cell<S>, x: S): Cell<S>
  {
    if Writable(c) then c.(value := x) else c
  }

  /** What can happen to a cell: the mount effect, its cleanup, a setter call. */
  datatype CellEvent<S> = DoMount | DoUnmount | DoSet(x: S)

  function RunCell<S>(c: Cell<S>, evs: seq<CellEvent<S>>): Cell<S>
    decreases |evs|
  {
    if evs == [] then c
    else
      var c' := match evs[0] {
        case DoMount => AfterMount(c)
        case DoUnmount => AfterUnmount(c)
        case DoSet(x) => AfterWrite(c, x)
      };
      RunCell(c', evs[1..])
  }

  /** React runs a mount effect with an empty dependency list once; after
      teardown it never runs again. */
  predicate NoRemountCell<S>(evs: seq<CellEvent<S>>)
  {
    forall i :: 0 <= i < |evs| ==> !evs[i].DoMount?
  }

  /** A guarded write before the mount effect has run is dropped. */
  lemma WriteBeforeMountIsDropped<S>(c: Cell<S>, x: S)
    requires c.guarded && c.phase == NotYetMounted
    ensures AfterWrite(c, x) == c
  {
  }

  /** While mounted, a write replaces the value with exactly the given value
      and leaves the lifecycle as it was. */
  lemma WriteWhileMountedLands<S>(c: Cell<S>, x: S)
    requires c.phase == Mounted
    ensures AfterWrite(c, x).value == x
    ensures AfterWrite(c, x).phase == Mounted && AfterWrite(c, x).guarded == c.guarded
  {
  }

  /** The setter never fails: it either writes the given value or does
      nothing, and it never touches the flag. A change of value means the
      cell was writable. */
  lemma SetterNeverFails<S>(c: Cell<S>, x: S)
    ensures AfterWrite(c, x) == c || AfterWrite(c, x) == c.(value := x)
    ensures AfterWrite(c, x).phase == c.phase && AfterWrite(c, x).guarded == c.guarded
    ensures AfterWrite(c, x).value != c.value ==> Writable(c)
  {
  }

  /** Teardown is idempotent, keeps the value, and disarms a guarded cell. */
  lemma UnmountIsIdempotent<S>(c: Cell<S>)
    ensures AfterUnmount(AfterUnmount(c)) == AfterUnmount(c)
    ensures AfterUnmount(c).value == c.value
    ensures c.guarded ==> !Writable(AfterUnmount(c))
  {
  }

  /** After teardown of a guarded cell, no sequence of writes and repeated
      teardowns changes it again: the value is frozen. */
  lemma {:induction false} TeardownFreezesValue<S>(c: Cell<S>, evs: seq<CellEvent<S>>)
    requires c.guarded && c.phase == Unmounted
    requires NoRemountCell(evs)
    ensures RunCell(c, evs) == c
    decreases |evs|
  {
    if evs != [] {
      assert !evs[0].DoMount?;
      assert NoRemountCell(evs[1..]) by {
        forall i | 0 <= i < |evs[1..]| ensures !evs[1..][i].DoMount? {
          assert evs[1..][i] == evs[i + 1];
        }
      }
      TeardownFreezesValue(c, evs[1..]);
    }
  }

  /** A cell whose fields the hook updates in place: `useState` holds `value`,
      the ref `mounted` is `phase == Mounted`, and `guarded` tells the
      mount-guarded cells from a plain `useState`. */
  class StateCell<S> {
    var value: S
    var phase: Phase
    const guarded: bool

    ghost function Model(): Cell<S>
      reads this
    {
      Cell(value, phase, guarded)
    }

    /** `useMountedState(initialState)`. */
    constructor UseMountedState(initialState: S)
      ensures value == initialState && phase == NotYetMounted && guarded
      ensures Model() == Initial(true, initialState)
    {
      value := initialState;
      phase := NotYetMounted;
      guarded := true;
    }

    /** `useMountSafeState(initialState)`, the same cell as `useMountedState`. */
    constructor UseMountSafeState(initialState: S)
      ensures value == initialState && phase == NotYetMounted && guarded
      ensures Model() == Initial(true, initialState)
    {
      value := initialState;
      phase := NotYetMounted;
      guarded := true;
    }

    /** A plain `useState(initialState)`: no guard. */
    constructor UseState(initialState: S)
      ensures value == initialState && phase == NotYetMounted && !guarded
      ensures Model() == Initial(false, initialState)
    {
      value := initialState;
      phase := NotYetMounted;
      guarded := false;
    }

    /** The mount effect raises the flag. */
    method Mount()
      modifies this
      ensures Model() == AfterMount(old(Model()))
      ensures value == old(value) && phase == Mounted
    {
      phase := Mounted;
    }

    /** The cleanup clears the flag; the value is kept. */
    method Unmount()
      modifies this
      ensures Model() == AfterUnmount(old(Model()))
      ensures value == old(value) && phase == Unmounted
    {
      phase := Unmounted;
    }

    /** The setter: writes `x` while the flag is raised (always, when the
        cell is not guarded), and is otherwise a silent no-op. */
    method Set(x: S)
      modifies this
      ensures Model() == AfterWrite(old(Model()), x)
      ensures phase == old(phase)
      ensures old(Writable(Model())) ==> value == x
      ensures !old(Writable(Model())) ==> value == old(value)
    {
      if !guarded || phase == Mounted {
        value := x;
      }
    }
  }
}
