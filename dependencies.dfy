/**
  Routing of the overloaded second argument of `useProgressiveCallback`.
  The hook is declared with two overloads, `(callback, options?, deps?)` and
  `(callback, deps?)`; at run time it tells them apart by testing whether the
  second argument is an array.
 */
module Dependencies {
  import opened Optional

  /** The run-time value in second position: an array (a dependency list),
      a scheduler options object, or `undefined`. */
  datatype Arg<D, O> = DepList(items: seq<D>) | Options(options: O) | Absent

  /** `isDependencyList`: `Array.isArray` on the second argument. */
  predicate IsDependencyList<D, O>(a: Arg<D, O>)
    ensures IsDependencyList(a) <==> !a.Options? && !a.Absent?
  {
    a.DepList?
  }

  /** Where the arguments end up: the dependency list handed to the
      memoisation (`deps`) and the options handed to the scheduler. */
  datatype Routing<D, O> = Routing(deps: Option<seq<D>>, scheduleOptions: Option<O>)

  /** The branch that either turns the second argument into `deps` or keeps it
      as the scheduler options. */
  function Route<D, O>(second: Arg<D, O>, third: Option<seq<D>>): (r: Routing<D, O>)
    ensures IsDependencyList(second) ==> r.deps == Some(second.items) && r.scheduleOptions == None
    ensures !IsDependencyList(second) ==> r.deps == third
    ensures r.scheduleOptions.Some? <==> second.Options?
    ensures second.Options? ==> r.scheduleOptions == Some(second.options)
  {
    if IsDependencyList(second) then
      Routing(Some(second.items), None)
    else
      Routing(third, if second.Options? then Some(second.options) else None)
  }

  /** `deps ?? []`: the list the enhanced callback is memoised on. */
  function MemoDeps<D, O>(r: Routing<D, O>): seq<D>
  {
    match r.deps
    case Some(d) => d
    case None => []
  }

  /** How a call written against the first overload, `(callback, options?, deps?)`,
      arrives at run time. */
  function OptionsOverload<D, O>(options: Option<O>, deps: Option<seq<D>>): (Arg<D, O>, Option<seq<D>>)
  {
    (match options { case Some(o) => Options(o) case None => Absent }, deps)
  }

  /** How a call written against the second overload, `(callback, deps?)`,
      arrives at run time. */
  function DepsOverload<D, O>(deps: Option<seq<D>>): (Arg<D, O>, Option<seq<D>>)
  {
    (match deps { case Some(d) => DepList(d) case None => Absent }, None)
  }

  /** The array test classifies every shape of second argument: every array,
      the empty one included, is a dependency list; an options object and
      `undefined` are not. */
  lemma IsDependencyListClassifies<D, O>(items: seq<D>, o: O)
    ensures IsDependencyList(Arg<D, O>.DepList(items))
    ensures IsDependencyList(Arg<D, O>.DepList([]))
    ensures !IsDependencyList(Arg<D, O>.Options(o))
    ensures !IsDependencyList(Arg<D, O>.Absent)
  {
  }

  /** The routing recovers, from the untyped arguments, exactly what each
      overload was given: options and deps for the first, deps and no options
      for the second. */
  lemma RouteRecoversOverloads<D, O>(options: Option<O>, deps: Option<seq<D>>)
    ensures var (second, third) := OptionsOverload(options, deps);
            Route(second, third) == Routing(deps, options)
    ensures var (second, third) := DepsOverload<D, O>(deps);
            Route(second, third) == Routing(deps, None)
  {
  }

  /** The memoisation list: a dependency list in second position wins over any
      third argument; without any list, the callback is memoised on `[]`. */
  lemma MemoDepsDefaults<D, O>(second: Arg<D, O>, third: Option<seq<D>>)
    ensures IsDependencyList(second) ==> MemoDeps(Route(second, third)) == second.items
    ensures !IsDependencyList(second) && third.Some? ==> MemoDeps(Route(second, third)) == third.value
    ensures !IsDependencyList(second) && third.None? ==> MemoDeps(Route(second, third)) == []
  {
  }
}
