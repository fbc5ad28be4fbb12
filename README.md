# Spark route registration lifecycle and the SparkJive script sequencer

This project models two small stateful layers of the Spark web framework that
sit on top of its route registry, and proves what they promise.

* **`Spark`** keeps an `initialized` flag, the current route registry
  (`routeMatcher`) and a server. The first registration (`addRoute`, `before`,
  `after`) initializes it: it creates a fresh empty registry and a server.
  `runFromServlet` initializes it without a server. `stop` clears the flag, so
  the next registration starts over with a fresh registry. `setSecure` is
  refused once route mapping has begun. Every registration appends one entry
  to the registry. The entry's key is the method name, a space, and the path in
  single quotes (`get '/hello'`); it also holds the accept type and the route
  or filter.
* **`SparkJive`** is a scripted mock server. It walks an ordered script of
  endpoints and keeps exactly one of them registered at a time. Invoking the
  active endpoint clears the registry and registers the next script entry, or
  marks the script complete when none is left. The endpoint then replies with
  the entry's fixed response, or with the result of the entry's handler.

Layout:

* `wrappers.dfy`, module `Wrappers`: `Option`, standing for a Java reference
  that may be null and for Guava's `Optional`.
* `routing.dfy`, module `Routing`: HTTP methods and their enum names, the
  registry key, routes, filters and entries. It also holds the class
  `RouteMatcher`, the registry kept abstract as an ordered sequence of entries
  with append and clear.
* `lifecycle.dfy`, module `Lifecycle`: the lifecycle as pure functions over a
  `SparkState` (flag, registry contents, number of servers created). A `Call`
  sequence with `Run` applies calls in order. The lemmas cover whole call
  sequences: registration order is kept, `stop` starts a fresh registry,
  `setSecure` is refused after mapping, and a cleared registry stays empty.
* `spark.dfy`, module `SparkCore`: the class `Spark`. Its fields are updated in
  place, and each method is proved to follow the matching `Lifecycle` function.
* `jive.dfy`, module `Jive`: script entries, the shared script iterator
  (`ScriptCursor`) and the class `SparkJive`. The predicate `After(cursor, k)`
  describes the state after `k` invocations. `SetScript` establishes it for
  `k = 0` when it starts from an empty registry, or, for a non-empty script,
  from any registry of a stopped Spark (registering then replaces it); and
  `Handle` moves it from `k` to `k + 1`. A `ScriptEntry` is a subset type:
  exactly one of response and handler is present, as the two Java
  constructors guarantee.

The Jetty server is reduced to a count of created servers (`serversCreated`).
So "creates a server" means one more call to `SparkServerFactory.create`, even
when that call returns null because the server failed to start. User route,
filter and handler callbacks are opaque values. A handler is an opaque function
from the request/response pair (`Exchange`) to a reply.

Two behaviours of the code worth noting:

* `stop` does not null `routeMatcher` (`Spark.java:129-138`). A `clearRoutes`
  after `stop` therefore still empties the old registry instead of failing.
* Registration does not deduplicate entries (`Spark.java:140-150`): the same
  key can be registered twice, and both entries are kept in order.

## Model

| member | source | states |
|---|---|---|
| Routing.Name | src/main/java/spark/SparkJive.java:40 | an enum name is a non-empty lower-case word (`HttpMethod.before.name()` is "before") |
| Routing.NameInjective | src/main/java/spark/SparkJive.java:40 | distinct methods have distinct names |
| Routing.Key | src/main/java/spark/Spark.java:142-143 | the key is the method, then `" '"`, then the path, then `'`, with every part recoverable by position |
| Routing.KeyInjective | src/main/java/spark/Spark.java:142-143 | a key built from an HTTP method name determines both the method and the path |
| Routing.RouteMatcher.constructor | src/main/java/spark/Spark.java:154 | a new registry is empty |
| Routing.RouteMatcher.ParseValidateAddRoute | src/main/java/spark/Spark.java:142-143 | appends exactly one entry (key, accept type, target) after the earlier ones, which stay in order |
| Routing.RouteMatcher.ClearRoutes | src/main/java/spark/Spark.java:125 | the registry becomes empty |
| Lifecycle.SetSecure | src/main/java/spark/Spark.java:84-96 | fails with IllegalState whenever initialized, whatever the arguments; otherwise fails with IllegalArgument exactly when the keystore file is null; succeeds in all other cases |
| Lifecycle.Initial | src/main/java/spark/Spark.java:57-66 | a new instance is not initialized, has no registry (null `routeMatcher`) and no server |
| Lifecycle.Init | src/main/java/spark/Spark.java:152-158 | when initialized, the state is unchanged; otherwise: initialized, an empty registry, one more server |
| Lifecycle.InitIdempotent | src/main/java/spark/Spark.java:152-158 | init twice is init once |
| Lifecycle.RunFromServlet | src/main/java/spark/Spark.java:116-121 | like init, but the number of servers never changes |
| Lifecycle.Register | src/main/java/spark/Spark.java:140-150 | afterwards initialized; the registry is the live entries (all of them when initialized, none otherwise) plus the one keyed entry; one more server only when not initialized before |
| Lifecycle.AddRoute | src/main/java/spark/Spark.java:140-144 | afterwards initialized; the registry is the live entries plus `(verb '<path>', route's accept type, route)`; one more server only when not initialized before |
| Lifecycle.AddFilter | src/main/java/spark/Spark.java:146-150 | afterwards initialized; the registry is the live entries plus `(verb '<path>', filter's accept type, filter)`; one more server only when not initialized before |
| Lifecycle.ClearRoutes | src/main/java/spark/Spark.java:124-126 | fails with a null dereference exactly when there is no registry; otherwise empties it and leaves the flag and servers unchanged |
| Lifecycle.Stop | src/main/java/spark/Spark.java:129-138 | always leaves Spark uninitialized; registry and servers unchanged |
| Lifecycle.EntriesOf | src/main/java/spark/Spark.java:103-150 | the entries of a run of mapping calls, one per call, the i-th being the entry the i-th call registers (`before`/`after` under the keys `before '<path>'`/`after '<path>'`) |
| Lifecycle.FiltersRegisterLikeRoutes | src/main/java/spark/Spark.java:103-114 | `before(f)` and `after(f)` change flag, servers and earlier entries exactly as `addRoute("before"/"after", …)` would, and their new entry carries the key `before '<path>'` / `after '<path>'` |
| Lifecycle.StepMapping | src/main/java/spark/Spark.java:140-150 | one mapping call appends its entry after the live entries |
| Lifecycle.MappingsAppendInOrder | src/main/java/spark/Spark.java:140-150 | any non-empty run of mappings succeeds, leaves Spark initialized, and appends the entries in call order after the live ones, creating at most one server |
| Lifecycle.StopThenMapStartsFresh | src/main/java/spark/Spark.java:129-158 | after `stop`, mappings land in a fresh registry holding only them, and one server is created |
| Lifecycle.ServletThenMapCreatesNoServer | src/main/java/spark/Spark.java:116-158 | after `runFromServlet`, mappings reuse its registry and no server is ever created |
| Lifecycle.InitializedUntilStopped | src/main/java/spark/Spark.java:116-158 | after a mapping or `runFromServlet` with no later `stop`, Spark is initialized |
| Lifecycle.SetSecureRejectedAfterMapping | src/main/java/spark/Spark.java:84-163 | once mapping has begun and no `stop` followed, `setSecure` fails with IllegalState("This must be done before route mapping has begun") for all arguments |
| Lifecycle.ClearedStaysEmpty | src/main/java/spark/Spark.java:124-138 | after `clearRoutes`, the registry stays empty through any calls that register nothing |
| SparkCore.Spark.constructor | src/main/java/spark/Spark.java:57-66 | not initialized, no registry, no server, the given port |
| SparkCore.Spark.SetSecure | src/main/java/spark/Spark.java:84-96 | the outcome of `Lifecycle.SetSecure`, and the state is not modified |
| SparkCore.Spark.Init | src/main/java/spark/Spark.java:152-158 | follows `Lifecycle.Init`; the registry object is kept when initialized and is a fresh object otherwise |
| SparkCore.Spark.RunFromServlet | src/main/java/spark/Spark.java:116-121 | follows `Lifecycle.RunFromServlet`; fresh registry object only when not initialized |
| SparkCore.Spark.Register | src/main/java/spark/Spark.java:140-150 | follows `Lifecycle.Register` on the registry object that `init` leaves |
| SparkCore.Spark.AddRoute | src/main/java/spark/Spark.java:140-144 | the registry becomes the earlier entries (none if not initialized before) plus `(method '<path>', accept type, route)`; same registry object when already initialized |
| SparkCore.Spark.AddFilter | src/main/java/spark/Spark.java:146-150 | follows `Lifecycle.AddFilter` |
| SparkCore.Spark.Before | src/main/java/spark/Spark.java:103-105 | appends `(before '<path>', accept type, filter)` and follows the `before` call of `Lifecycle.Step`; the registry object is kept when Spark was initialized and is a fresh one otherwise |
| SparkCore.Spark.After | src/main/java/spark/Spark.java:112-114 | appends `(after '<path>', accept type, filter)` and follows the `after` call of `Lifecycle.Step`; the registry object is kept when Spark was initialized and is a fresh one otherwise |
| SparkCore.Spark.ClearRoutes | src/main/java/spark/Spark.java:124-126 | with a registry: empties it in place, flag and servers untouched; without: a null-dereference failure and no change |
| SparkCore.Spark.Stop | src/main/java/spark/Spark.java:129-138 | not initialized afterwards; registry reference and servers unchanged |
| Jive.ResponseEntry | src/main/java/spark/SparkJive.java:79-84 | the entry carries the method, path and response, and no handler |
| Jive.HandlerEntry | src/main/java/spark/SparkJive.java:86-91 | the entry carries the method, path and handler, and no response |
| Jive.Reply | src/main/java/spark/SparkJive.java:45-49 | the handler's result on the exchange when a handler is present; otherwise the fixed response, which is then present |
| Jive.ReplyOfEntry | src/main/java/spark/SparkJive.java:45-49 | a response entry replies with its string; a handler entry replies with the handler's result on the same request |
| Jive.ScriptCursor.constructor | src/main/java/spark/SparkJive.java:33 | a new iterator over the script, positioned before its first entry |
| Jive.ScriptCursor.HasNext | src/main/java/spark/SparkJive.java:37 | true exactly when script entries remain |
| Jive.ScriptCursor.Next | src/main/java/spark/SparkJive.java:39 | yields the next entry and advances by one |
| Jive.SparkJive.constructor | src/main/java/spark/SparkJive.java:23-25 | a fresh, uninitialized Spark on the given port, with nothing registered |
| Jive.SparkJive.AnyPort | src/main/java/spark/SparkJive.java:19-21 | as the constructor, on port 0 |
| Jive.SparkJive.Close | src/main/java/spark/SparkJive.java:57-59 | Spark is stopped (uninitialized) |
| Jive.SparkJive.IsScriptComplete | src/main/java/spark/SparkJive.java:69-71 | returns the `scriptComplete` flag and changes nothing |
| Jive.SparkJive.SetScript | src/main/java/spark/SparkJive.java:32-34 | empty script: complete, state unchanged; otherwise not complete and the whole new state is `addRoute` of the first entry's endpoint under its method and path; starting from an empty registry, or from an empty live registry with a non-empty script, this is the state after 0 invocations; Spark's registry object is kept unless Spark was stopped and the script is non-empty, in which case it is a fresh one |
| Jive.SparkJive.AddScriptEndpoint | src/main/java/spark/SparkJive.java:36-55 | complete exactly when the iterator was exhausted; otherwise registers the next entry's endpoint (sharing the iterator) and advances by one; Spark's registry object is kept unless Spark was stopped and an entry remained, in which case it is a fresh one |
| Jive.SparkJive.Handle | src/main/java/spark/SparkJive.java:41-50 | replies as the invoked entry says; the iterator advances by one unless exhausted; the whole new Spark state is `clearRoutes` followed by `addRoute` of the next entry's endpoint (so flag and server count follow `init`), or `clearRoutes` alone and the script complete; the registry holds exactly the next entry's endpoint or nothing; the state after k invocations becomes the state after k + 1; the registry cleared and refilled is the same object as before (the one the running server serves) unless Spark was stopped and an entry remained, in which case it is a fresh one |

## Left out

* The Jetty server: its creation, start, stop and join, and `getPort`'s connector lookup (`Spark.java:165-174`). These are foreign I/O. Only the number of `SparkServerFactory.create` calls is kept, and a failure while stopping the server has no effect on the modelled state.
* `SparkJive.getURI`: URI plumbing over the server's port.
* `synchronized`: every operation is modelled as sequential.
* What `RouteMatcher.parseValidateAddRoute` does with the key (parsing, validation, matching) and request dispatch in `MatcherFilter`. These classes are not part of this model, so registration always succeeds and appends.
* The bodies of user routes, filters and handlers: they are opaque values; a handler is an opaque function of the request/response pair.
* `Route(path)`'s default accept type is taken as `*/*`, Spark's `Route` default. The `Route` class is not part of this model.
* Null arguments other than `setSecure`'s keystore file (a null script, path or response string): strings and sequences are never null here.
* Jive.ScriptCursor.Next: requires an entry to remain, which `addScriptEndpoint` checks first; `NoSuchElementException` is not modelled.
* Jive.SparkJive.Handle: requires a registry to exist, which is always so once an endpoint has been registered. The re-entrant call inside a live request dispatch is modelled as a plain method call.
* Jive.SparkJive.SetScript: returns the script iterator (void in the source) so that contracts can name the script's state.
