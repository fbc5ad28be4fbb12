/** SparkJive: a scripted mock server. It walks an ordered script of endpoints
    and keeps exactly one of them registered at a time: invoking the active
    endpoint clears the registry and registers the next one, until the script
    runs out. */
module Jive {
  import opened Wrappers
  import opened Routing
  import opened Lifecycle
  import opened SparkCore

  /** The request and response objects a route is invoked with, by identity;
      their contents are not modelled. */
  datatype Exchange = Exchange(request: nat, response: nat)

  /** What an endpoint replies: a fixed string, or whatever object a
      user handler returns (by identity). */
  datatype Body = Text(text: string) | Returned(value: nat)

  /** A user-supplied handler: an opaque function of the exchange. */
  datatype Handler = Handler(handle: Exchange -> Body)

  /** The fields of a script entry: a method and path to register, and a fixed
      response and a handler, each possibly absent. */
  datatype EntryFields = EntryFields(verb: HttpMethod, path: string, response: Option<string>, handler: Option<Handler>)
  {
    /** Exactly one of `response` and `handler` is present. */
    predicate Valid()
    {
      response.Some? != handler.Some?
    }
  }

  /** One step of a script. Its fields are private and set only by the two
      constructors below, so exactly one of response and handler is present. */
  type ScriptEntry = e: EntryFields | e.Valid() witness EntryFields(Get, "", Some(""), None)

  /** The entry constructor that takes a fixed response. */
  function ResponseEntry(verb: HttpMethod, path: string, response: string): (e: ScriptEntry)
    ensures e.handler.None?
    ensures e.verb == verb && e.path == path && e.response == Some(response)
  {
    EntryFields(verb, path, Some(response), None)
  }

  /** The entry constructor that takes a handler. */
  function HandlerEntry(verb: HttpMethod, path: string, handler: Handler): (e: ScriptEntry)
    ensures e.response.None?
    ensures e.verb == verb && e.path == path && e.handler == Some(handler)
  {
    EntryFields(verb, path, None, Some(handler))
  }

  /** The reply of an endpoint: the handler's result if there is a handler, the
      fixed response otherwise. */
  function Reply(e: ScriptEntry, x: Exchange): (b: Body)
    ensures e.handler.Some? ==> b == e.handler.value.handle(x)
    ensures e.handler.None? ==> e.response.Some? && b == Text(e.response.value)
  {
    if e.handler.Some? then e.handler.value.handle(x) else Text(e.response.value)
  }

  /** An entry built with a fixed response replies with it; one built with a
      handler replies with the handler's result on the same exchange. */
  lemma ReplyOfEntry(verb: HttpMethod, path: string, response: string, handler: Handler, x: Exchange)
    ensures Reply(ResponseEntry(verb, path, response), x) == Text(response)
    ensures Reply(HandlerEntry(verb, path, handler), x) == handler.handle(x)
  {
  }

  /** The script iterator, shared by every endpoint registered from one script. */
  class ScriptCursor {
    const script: seq<ScriptEntry>
    /** How many entries have been taken. */
    var position: nat

    ghost predicate Valid()
      reads this
    {
      position <= |script|
    }

    constructor (script: seq<ScriptEntry>)
      ensures Valid() && this.script == script && position == 0
    {
      this.script := script;
      position := 0;
    }

    /** `hasNext`. */
    method HasNext() returns (b: bool)
      requires Valid()
      ensures b <==> position < |script|
    {
      b := position < |script|;
    }

    /** `next`, called only after `hasNext` said yes. */
    method Next() returns (e: ScriptEntry)
      requires Valid() && position < |script|
      modifies this
      ensures Valid() && position == old(position) + 1
      ensures e == script[old(position)]
    {
      e := script[position];
      position := position + 1;
    }
  }

  /** The callback of a scripted endpoint: the shared iterator and the entry it
      was registered for. */
  datatype Endpoint = Endpoint(cursor: ScriptCursor, entry: ScriptEntry)

  /** The route registered for a script entry (`new Route(entry.path)`, so with
      the default accept type). */
  function EndpointRoute(cursor: ScriptCursor, e: ScriptEntry): (r: Route<Endpoint>)
    ensures r.path == e.path && r.acceptType == DefaultAcceptType
    ensures r.handle == Endpoint(cursor, e)
  {
    Route(e.path, DefaultAcceptType, Endpoint(cursor, e))
  }

  /** The registry entry that the endpoint for `e` becomes. */
  function EndpointEntry(cursor: ScriptCursor, e: ScriptEntry): RouteEntry<Endpoint>
  {
    RouteEntry(Key(Name(e.verb), e.path), DefaultAcceptType, RouteTarget(EndpointRoute(cursor, e)))
  }

  class SparkJive {
    const spark: Spark<Endpoint>
    var scriptComplete: bool

    ghost predicate Valid()
      reads this, spark
    {
      spark.Valid()
    }

    /** The state after `k` invocations of the endpoints of `cursor`'s script:
        while entries remain, the only registered route is entry `k` and the
        script is not complete; after the last one, nothing is registered and
        the script is complete. */
    ghost predicate After(cursor: ScriptCursor, k: nat)
      reads this, spark, spark.routeMatcher, cursor
    {
      k <= |cursor.script| &&
      if k < |cursor.script| then
        cursor.position == k + 1 && !scriptComplete &&
        spark.Routes() == [EndpointEntry(cursor, cursor.script[k])]
      else
        cursor.position == k && scriptComplete && spark.Routes() == []
    }

    /** A new mock server on the given port, with nothing registered. */
    constructor (port: int)
      ensures Valid() && fresh(spark) && spark.port == port
      ensures spark.State() == Initial() && !scriptComplete
    {
      spark := new Spark(port);
      scriptComplete := false;
    }

    /** The no-argument constructor: port 0, so that any free port is taken. */
    constructor AnyPort()
      ensures Valid() && fresh(spark) && spark.port == 0
      ensures spark.State() == Initial() && !scriptComplete
    {
      spark := new Spark(0);
      scriptComplete := false;
    }

    /** `close`: stops the underlying Spark instance, so that the next script
        starts from a fresh registry. */
    method Close()
      requires Valid()
      modifies spark
      ensures Valid() && !spark.initialized
      ensures spark.State() == Lifecycle.Stop(old(spark.State()))
    {
      spark.Stop();
    }

    /** `isScriptComplete`. */
    method IsScriptComplete() returns (b: bool)
      ensures b == scriptComplete
    {
      b := scriptComplete;
    }

    /** `setScript`: starts walking `script`, registering its first entry (or,
        for an empty script, marking it complete). The iterator is returned so
        that callers can name the script's state. */
    method SetScript(script: seq<ScriptEntry>) returns (cursor: ScriptCursor)
      requires Valid()
      modifies this, spark, spark.routeMatcher
      ensures Valid() && fresh(cursor) && cursor.script == script
      ensures script == [] ==> scriptComplete && cursor.position == 0 && spark.State() == old(spark.State())
      ensures script != [] ==> !scriptComplete && cursor.position == 1 &&
                               spark.State() == Lifecycle.AddRoute(old(spark.State()), Name(script[0].verb),
                                                                   EndpointRoute(cursor, script[0]))
      ensures old(spark.Routes()) == [] ==> After(cursor, 0)
      ensures script != [] && Live(old(spark.State())) == [] ==> After(cursor, 0)
      ensures old(spark.initialized) || script == [] ==> spark.routeMatcher == old(spark.routeMatcher)
      ensures !old(spark.initialized) && script != [] ==> fresh(spark.routeMatcher)
    {
      cursor := new ScriptCursor(script);
      AddScriptEndpoint(cursor);
    }

    /** `addScriptEndpoint`: registers the next entry of the script, if any,
        with an endpoint that shares the iterator; otherwise marks the script
        complete. */
    method AddScriptEndpoint(cursor: ScriptCursor)
      requires Valid() && cursor.Valid()
      modifies this, spark, spark.routeMatcher, cursor
      ensures Valid() && cursor.Valid()
      ensures scriptComplete <==> old(cursor.position) == |cursor.script|
      ensures old(cursor.position) == |cursor.script| ==>
                cursor.position == old(cursor.position) && spark.State() == old(spark.State())
      ensures old(cursor.position) < |cursor.script| ==>
                cursor.position == old(cursor.position) + 1 &&
                spark.State() == Lifecycle.AddRoute(old(spark.State()), Name(cursor.script[old(cursor.position)].verb),
                                                    EndpointRoute(cursor, cursor.script[old(cursor.position)]))
      ensures old(spark.initialized) || old(cursor.position) == |cursor.script| ==>
                spark.routeMatcher == old(spark.routeMatcher)
      ensures !old(spark.initialized) && old(cursor.position) < |cursor.script| ==> fresh(spark.routeMatcher)
      ensures old(cursor.position) < |cursor.script| ==>
                spark.Routes() == (if old(spark.initialized) then old(spark.Routes()) else [])
                                  + [EndpointEntry(cursor, cursor.script[old(cursor.position)])]
    {
      var more := cursor.HasNext();
      if more {
        scriptComplete := false;
        var entry := cursor.Next();
        spark.AddRoute(Name(entry.verb), EndpointRoute(cursor, entry));
      } else {
        scriptComplete := true;
      }
    }

    /** The body of a scripted endpoint's `handle`: clear the registry, register
        the next script entry (or mark the script complete), then reply for the
        entry this endpoint was registered for. */
    method Handle(endpoint: Endpoint, x: Exchange) returns (body: Body)
      requires Valid() && endpoint.cursor.Valid()
      requires spark.routeMatcher != null
      modifies this, spark, spark.routeMatcher, endpoint.cursor
      ensures Valid() && endpoint.cursor.Valid()
      ensures body == Reply(endpoint.entry, x)
      ensures old(spark.initialized) || old(endpoint.cursor.position) == |endpoint.cursor.script| ==>
                spark.routeMatcher == old(spark.routeMatcher)
      ensures !old(spark.initialized) && old(endpoint.cursor.position) < |endpoint.cursor.script| ==>
                fresh(spark.routeMatcher)
      ensures endpoint.cursor.position == old(endpoint.cursor.position)
                                          + (if old(endpoint.cursor.position) < |endpoint.cursor.script| then 1 else 0)
      ensures var cleared := Lifecycle.ClearRoutes(old(spark.State())).value;
              spark.State() == if old(endpoint.cursor.position) < |endpoint.cursor.script|
                               then Lifecycle.AddRoute(cleared, Name(endpoint.cursor.script[old(endpoint.cursor.position)].verb),
                                                       EndpointRoute(endpoint.cursor, endpoint.cursor.script[old(endpoint.cursor.position)]))
                               else cleared
      ensures scriptComplete <==> old(endpoint.cursor.position) == |endpoint.cursor.script|
      ensures spark.Routes() == if old(endpoint.cursor.position) < |endpoint.cursor.script|
                                then [EndpointEntry(endpoint.cursor, endpoint.cursor.script[old(endpoint.cursor.position)])]
                                else []
      ensures (1 <= old(endpoint.cursor.position) && old(After(endpoint.cursor, endpoint.cursor.position - 1)))
              ==> After(endpoint.cursor, old(endpoint.cursor.position))
    {
      var cleared := spark.ClearRoutes();
      AddScriptEndpoint(endpoint.cursor);
      if endpoint.entry.handler.Some? {
        body := endpoint.entry.handler.value.handle(x);
      } else {
        body := Text(endpoint.entry.response.value);
      }
    }
  }
}
