/** The registration lifecycle of a Spark instance, as pure functions over its
    state. The class `SparkCore.Spark` is proved to follow these functions step
    by step; the lemmas here state what follows for whole sequences of calls. */
module Lifecycle {
  import opened Wrappers
  import opened Routing

  /** The exceptions the lifecycle operations can end in. */
  datatype Failure =
    | IllegalState(message: string)
    | IllegalArgument(message: string)
    | NullPointer

  /** The end of an operation that returns nothing. */
  datatype Outcome = Pass | Fail(failure: Failure)

  /** The end of an operation that yields a new state. */
  datatype Result<T> = Ok(value: T) | Err(failure: Failure)

  /** The message of the exception thrown once route mapping has begun
      (`throwBeforeRouteMappingException`). */
  const BeforeRouteMappingMessage: string := "This must be done before route mapping has begun"

  /** The message of the exception thrown for a missing keystore. */
  const MissingKeystoreMessage: string := "Must provide a keystore file to run secured"

  /** What the lifecycle operations read and write: the `initialized` flag, the
      contents of the current registry (`None` while `routeMatcher` is null),
      and how many servers have been created so far. */
  datatype SparkState<H> = SparkState(initialized: bool, registry: Option<seq<RouteEntry<H>>>, serversCreated: nat)

  /** Once initialized, a registry exists. */
  ghost predicate Valid<H>(s: SparkState<H>)
  {
    s.initialized ==> s.registry.Some?
  }

  /** A freshly constructed Spark: not initialized, no registry, no server. */
  function Initial<H>(): (s: SparkState<H>)
    ensures Valid(s) && !s.initialized && s.registry.None? && s.serversCreated == 0
  {
    SparkState(false, None, 0)
  }

  /** The entries the next registration builds on: the current registry if
      initialized, and nothing otherwise, since initializing replaces it. */
  function Live<H>(s: SparkState<H>): seq<RouteEntry<H>>
    requires Valid(s)
  {
    if s.initialized then s.registry.value else []
  }

  /** `setSecure`: rejected once route mapping has begun, whatever its arguments;
      otherwise it needs a keystore file. It never changes the state. */
  function SetSecure<H>(s: SparkState<H>, keystoreFile: Option<string>, keystorePassword: Option<string>,
                        truststoreFile: Option<string>, truststorePassword: Option<string>): (o: Outcome)
    ensures s.initialized ==> o == Fail(IllegalState(BeforeRouteMappingMessage))
    ensures !s.initialized && keystoreFile.None? ==> o == Fail(IllegalArgument(MissingKeystoreMessage))
    ensures o == Pass <==> !s.initialized && keystoreFile.Some?
  {
    if s.initialized then Fail(IllegalState(BeforeRouteMappingMessage))
    else if keystoreFile.None? then Fail(IllegalArgument(MissingKeystoreMessage))
    else Pass
  }

  /** `init`: the first call creates an empty registry and a server; later calls
      change nothing. */
  function Init<H>(s: SparkState<H>): (t: SparkState<H>)
    requires Valid(s)
    ensures Valid(t) && t.initialized
    ensures s.initialized ==> t == s
    ensures !s.initialized ==> t.registry == Some([]) && t.serversCreated == s.serversCreated + 1
  {
    if s.initialized then s
    else SparkState(true, Some([]), s.serversCreated + 1)
  }

  /** `runFromServlet`: like `init`, except that no server is created, since the
      servlet container serves the requests. */
  function RunFromServlet<H>(s: SparkState<H>): (t: SparkState<H>)
    requires Valid(s)
    ensures Valid(t) && t.initialized && t.serversCreated == s.serversCreated
    ensures s.initialized ==> t == s
    ensures !s.initialized ==> t.registry == Some([])
  {
    if s.initialized then s
    else SparkState(true, Some([]), s.serversCreated)
  }

  /** The common part of `addRoute` and `addFilter`: initialize, then append one
      entry keyed by method and path after all live entries. */
  function Register<H>(s: SparkState<H>, verb: string, path: string, acceptType: string, target: Target<H>): (t: SparkState<H>)
    requires Valid(s)
    ensures Valid(t) && t.initialized
    ensures t.registry.value == Live(s) + [RouteEntry(Key(verb, path), acceptType, target)]
    ensures t.serversCreated == s.serversCreated + (if s.initialized then 0 else 1)
  {
    var u := Init(s);
    u.(registry := Some(u.registry.value + [RouteEntry(Key(verb, path), acceptType, target)]))
  }

  /** `addRoute(verb, route)`. */
  function AddRoute<H>(s: SparkState<H>, verb: string, route: Route<H>): (t: SparkState<H>)
    requires Valid(s)
    ensures Valid(t) && t.initialized
    ensures t.registry == Some(Live(s) + [RouteEntry(Key(verb, route.path), route.acceptType, RouteTarget(route))])
    ensures t.serversCreated == s.serversCreated + (if s.initialized then 0 else 1)
  {
    Register(s, verb, route.path, route.acceptType, RouteTarget(route))
  }

  /** `addFilter(verb, filter)`. */
  function AddFilter<H>(s: SparkState<H>, verb: string, filter: Filter<H>): (t: SparkState<H>)
    requires Valid(s)
    ensures Valid(t) && t.initialized
    ensures t.registry == Some(Live(s) + [RouteEntry(Key(verb, filter.path), filter.acceptType, FilterTarget(filter))])
    ensures t.serversCreated == s.serversCreated + (if s.initialized then 0 else 1)
  {
    Register(s, verb, filter.path, filter.acceptType, FilterTarget(filter))
  }

  /** `clearRoutes`: empties the current registry and nothing else; with no
      registry yet, the dereference of the null `routeMatcher` fails. */
  function ClearRoutes<H>(s: SparkState<H>): (r: Result<SparkState<H>>)
    requires Valid(s)
    ensures r.Err? <==> s.registry.None?
    ensures r.Err? ==> r.failure == NullPointer
    ensures r.Ok? ==> Valid(r.value) && r.value.registry == Some([])
    ensures r.Ok? ==> r.value.initialized == s.initialized && r.value.serversCreated == s.serversCreated
  {
    if s.registry.None? then Err(NullPointer)
    else Ok(s.(registry := Some([])))
  }

  /** `stop`: clears the flag whether or not stopping the server succeeds; the
      registry reference is kept. */
  function Stop<H>(s: SparkState<H>): (t: SparkState<H>)
    ensures !t.initialized && Valid(t)
    ensures t.registry == s.registry && t.serversCreated == s.serversCreated
  {
    s.(initialized := false)
  }

  /** One call on the registration surface of Spark. */
  datatype Call<H> =
    | MapRoute(verb: string, route: Route<H>)
    | MapBefore(filter: Filter<H>)
    | MapAfter(filter: Filter<H>)
    | StartFromServlet
    | ClearAll
    | Shutdown
  {
    /** The calls that register an entry. */
    predicate IsMapping()
    {
      MapRoute? || MapBefore? || MapAfter?
    }
  }

  /** The entry a mapping call registers. `before` and `after` register filters
      under the method names of the two pseudo-methods. */
  function EntryOf<H>(c: Call<H>): RouteEntry<H>
    requires c.IsMapping()
  {
    match c
    case MapRoute(verb, route) => RouteEntry(Key(verb, route.path), route.acceptType, RouteTarget(route))
    case MapBefore(f) => RouteEntry(Key(Name(Before), f.path), f.acceptType, FilterTarget(f))
    case MapAfter(f) => RouteEntry(Key(Name(After), f.path), f.acceptType, FilterTarget(f))
  }

  /** The state after one call. */
  function Step<H>(s: SparkState<H>, c: Call<H>): (r: Result<SparkState<H>>)
    requires Valid(s)
    ensures r.Ok? ==> Valid(r.value)
  {
    match c
    case MapRoute(verb, route) => Ok(AddRoute(s, verb, route))
    case MapBefore(f) => Ok(AddFilter(s, Name(Before), f))
    case MapAfter(f) => Ok(AddFilter(s, Name(After), f))
    case StartFromServlet => Ok(RunFromServlet(s))
    case ClearAll => ClearRoutes(s)
    case Shutdown => Ok(Stop(s))
  }

  /** The state after a sequence of calls made in order, or the first failure. */
  function Run<H>(s: SparkState<H>, calls: seq<Call<H>>): (r: Result<SparkState<H>>)
    requires Valid(s)
    ensures r.Ok? ==> Valid(r.value)
    decreases |calls|
  {
    if calls == [] then Ok(s)
    else
      match Run(s, calls[..|calls| - 1])
      case Err(f) => Err(f)
      case Ok(t) => Step(t, calls[|calls| - 1])
  }

  /** The entries registered by a sequence of mapping calls, in call order. */
  function EntriesOf<H>(calls: seq<Call<H>>): (es: seq<RouteEntry<H>>)
    requires forall i :: 0 <= i < |calls| ==> calls[i].IsMapping()
    ensures |es| == |calls|
    ensures forall i :: 0 <= i < |calls| ==> es[i] == EntryOf(calls[i])
  {
    if calls == [] then []
    else EntriesOf(calls[..|calls| - 1]) + [EntryOf(calls[|calls| - 1])]
  }

  /** `init` is idempotent. */
  lemma InitIdempotent<H>(s: SparkState<H>)
    requires Valid(s)
    ensures Init(Init(s)) == Init(s)
  {
  }

  /** `before` and `after` register exactly what `addRoute` would under the
      method names "before" and "after", except that the target is the filter. */
  lemma FiltersRegisterLikeRoutes<H>(s: SparkState<H>, f: Filter<H>)
    requires Valid(s)
    ensures Step(s, MapBefore(f)).Ok? && Step(s, MapAfter(f)).Ok?
    ensures var r := AddRoute(s, "before", Route(f.path, f.acceptType, f.handle));
            var t := Step(s, MapBefore(f)).value;
            t.initialized == r.initialized && t.serversCreated == r.serversCreated &&
            t.registry.value[..|t.registry.value| - 1] == r.registry.value[..|r.registry.value| - 1] &&
            |t.registry.value| == |r.registry.value| &&
            t.registry.value[|t.registry.value| - 1].key == Key("before", f.path)
    ensures var r := AddRoute(s, "after", Route(f.path, f.acceptType, f.handle));
            var t := Step(s, MapAfter(f)).value;
            t.initialized == r.initialized && t.serversCreated == r.serversCreated &&
            t.registry.value[..|t.registry.value| - 1] == r.registry.value[..|r.registry.value| - 1] &&
            |t.registry.value| == |r.registry.value| &&
            t.registry.value[|t.registry.value| - 1].key == Key("after", f.path)
  {
  }

  /** One mapping call appends its entry after the live ones. */
  lemma StepMapping<H>(s: SparkState<H>, c: Call<H>)
    requires Valid(s) && c.IsMapping()
    ensures Step(s, c).Ok? && Step(s, c).value.initialized
    ensures Step(s, c).value.registry == Some(Live(s) + [EntryOf(c)])
    ensures Step(s, c).value.serversCreated == s.serversCreated + (if s.initialized then 0 else 1)
  {
  }

  /** A run of mapping calls succeeds, leaves Spark initialized, and appends the
      entries in call order after the live ones: registration order is kept. At
      most one server is created, and only if Spark was not initialized. */
  lemma {:induction false} MappingsAppendInOrder<H>(s: SparkState<H>, calls: seq<Call<H>>)
    requires Valid(s) && |calls| > 0
    requires forall i :: 0 <= i < |calls| ==> calls[i].IsMapping()
    ensures Run(s, calls).Ok?
    ensures Run(s, calls).value.initialized
    ensures Run(s, calls).value.registry == Some(Live(s) + EntriesOf(calls))
    ensures Run(s, calls).value.serversCreated == s.serversCreated + (if s.initialized then 0 else 1)
  {
    var front, last := calls[..|calls| - 1], calls[|calls| - 1];
    if front == [] {
      assert Run(s, calls) == Step(s, last);
      StepMapping(s, last);
      assert EntriesOf(calls) == [EntryOf(last)];
    } else {
      MappingsAppendInOrder(s, front);
      var t := Run(s, front).value;
      assert Run(s, calls) == Step(t, last);
      StepMapping(t, last);
      AppendLast(calls);
      assert Live(s) + EntriesOf(calls) == (Live(s) + EntriesOf(front)) + [EntryOf(last)];
    }
  }

  /** The entries of a run of mappings grow by the last call's entry. */
  lemma AppendLast<H>(calls: seq<Call<H>>)
    requires |calls| > 0
    requires forall i :: 0 <= i < |calls| ==> calls[i].IsMapping()
    ensures EntriesOf(calls) == EntriesOf(calls[..|calls| - 1]) + [EntryOf(calls[|calls| - 1])]
  {
  }

  /** The state after mapping calls that follow a `stop`: a fresh registry holding
      only the new entries, and one more server. */
  lemma StopThenMapStartsFresh<H>(s: SparkState<H>, calls: seq<Call<H>>)
    requires Valid(s) && |calls| > 0
    requires forall i :: 0 <= i < |calls| ==> calls[i].IsMapping()
    ensures Run(Stop(s), calls).Ok?
    ensures Run(Stop(s), calls).value.registry == Some(EntriesOf(calls))
    ensures Run(Stop(s), calls).value.serversCreated == s.serversCreated + 1
  {
    MappingsAppendInOrder(Stop(s), calls);
  }

  /** After `runFromServlet` on an uninitialized Spark, mappings reuse the registry
      it created and no server is ever created. */
  lemma ServletThenMapCreatesNoServer<H>(s: SparkState<H>, calls: seq<Call<H>>)
    requires Valid(s) && !s.initialized && |calls| > 0
    requires forall i :: 0 <= i < |calls| ==> calls[i].IsMapping()
    ensures Run(RunFromServlet(s), calls).Ok?
    ensures Run(RunFromServlet(s), calls).value.registry == Some(EntriesOf(calls))
    ensures Run(RunFromServlet(s), calls).value.serversCreated == s.serversCreated
  {
    MappingsAppendInOrder(RunFromServlet(s), calls);
  }

  /** Once route mapping has begun (a mapping or `runFromServlet` with no `stop`
      after it), Spark stays initialized. */
  lemma {:induction false} InitializedUntilStopped<H>(s: SparkState<H>, calls: seq<Call<H>>, i: nat)
    requires Valid(s) && i < |calls|
    requires calls[i].IsMapping() || calls[i].StartFromServlet?
    requires forall j :: i < j < |calls| ==> !calls[j].Shutdown?
    requires Run(s, calls).Ok?
    ensures Run(s, calls).value.initialized
  {
    var front := calls[..|calls| - 1];
    if i < |calls| - 1 {
      assert forall j :: i < j < |front| ==> front[j] == calls[j];
      InitializedUntilStopped(s, front, i);
    }
  }

  /** `setSecure` is rejected with an illegal-state failure, whatever its
      arguments, once route mapping has begun and Spark has not been stopped. */
  lemma SetSecureRejectedAfterMapping<H>(s: SparkState<H>, calls: seq<Call<H>>, i: nat,
                                         keystoreFile: Option<string>, keystorePassword: Option<string>,
                                         truststoreFile: Option<string>, truststorePassword: Option<string>)
    requires Valid(s) && i < |calls|
    requires calls[i].IsMapping() || calls[i].StartFromServlet?
    requires forall j :: i < j < |calls| ==> !calls[j].Shutdown?
    requires Run(s, calls).Ok?
    ensures SetSecure(Run(s, calls).value, keystoreFile, keystorePassword, truststoreFile, truststorePassword)
            == Fail(IllegalState(BeforeRouteMappingMessage))
  {
    InitializedUntilStopped(s, calls, i);
  }

  /** After `clearRoutes` succeeds, the registry stays empty until something is
      registered: `stop`, `clearRoutes` and `runFromServlet` add nothing. */
  lemma {:induction false} ClearedStaysEmpty<H>(s: SparkState<H>, calls: seq<Call<H>>)
    requires Valid(s) && s.registry.Some?
    requires forall i :: 0 <= i < |calls| ==> !calls[i].IsMapping()
    ensures Run(s, [ClearAll] + calls).Ok?
    ensures Run(s, [ClearAll] + calls).value.registry == Some([])
  {
    if calls != [] {
      var front := calls[..|calls| - 1];
      assert ([ClearAll] + calls)[..|calls|] == [ClearAll] + front;
      ClearedStaysEmpty(s, front);
    }
  }
}
