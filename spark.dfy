/** The Spark facade: its `initialized` flag, the current route registry and the
    servers it has created, updated in place by the registration methods. Each
    method is proved to follow the matching function of `Lifecycle`. */
module SparkCore {
  import opened Wrappers
  import opened Routing
  import opened Lifecycle

  class Spark<H> {
    var initialized: bool
    /** The current registry; null until the first initialization. */
    var routeMatcher: RouteMatcher?<H>
    /** How many times a server has been created for this instance. The Jetty
        server itself is not modelled. */
    var serversCreated: nat
    const port: int

    /** Once initialized, a registry exists. */
    ghost predicate Valid()
      reads this
    {
      initialized ==> routeMatcher != null
    }

    /** The entries of the current registry (none while there is no registry). */
    ghost function Routes(): seq<RouteEntry<H>>
      reads this, routeMatcher
    {
      if routeMatcher == null then [] else routeMatcher.routes
    }

    /** The abstract lifecycle state of this instance. */
    ghost function State(): (s: SparkState<H>)
      reads this, routeMatcher
      ensures Valid() ==> Lifecycle.Valid(s)
    {
      SparkState(initialized, if routeMatcher == null then None else Some(routeMatcher.routes), serversCreated)
    }

    /** A new instance for the given port: nothing mapped, no server. */
    constructor (port: int)
      ensures Valid() && this.port == port
      ensures State() == Initial()
    {
      this.port := port;
      initialized := false;
      routeMatcher := null;
      serversCreated := 0;
    }

    /** `setSecure`: fails once route mapping has begun, or without a keystore
        file, and changes nothing either way. */
    method SetSecure(keystoreFile: Option<string>, keystorePassword: Option<string>,
                     truststoreFile: Option<string>, truststorePassword: Option<string>) returns (o: Outcome)
      ensures o == Lifecycle.SetSecure(State(), keystoreFile, keystorePassword, truststoreFile, truststorePassword)
      ensures initialized ==> o == Fail(IllegalState(BeforeRouteMappingMessage))
      ensures !initialized && keystoreFile.None? ==> o == Fail(IllegalArgument(MissingKeystoreMessage))
      ensures o == Pass <==> !initialized && keystoreFile.Some?
    {
      if initialized {
        return Fail(IllegalState(BeforeRouteMappingMessage));
      }
      if keystoreFile.None? {
        return Fail(IllegalArgument(MissingKeystoreMessage));
      }
      o := Pass;
    }

    /** `init`: creates a fresh registry and a server the first time; otherwise
        keeps the registry object and creates nothing. */
    method Init()
      requires Valid()
      modifies this
      ensures Valid() && initialized && routeMatcher != null
      ensures State() == Lifecycle.Init(old(State()))
      ensures old(initialized) ==> routeMatcher == old(routeMatcher)
      ensures !old(initialized) ==> fresh(routeMatcher)
    {
      if !initialized {
        routeMatcher := new RouteMatcher();
        serversCreated := serversCreated + 1;
        initialized := true;
      }
    }

    /** `runFromServlet`: like `init`, without creating a server. */
    method RunFromServlet()
      requires Valid()
      modifies this
      ensures Valid() && initialized && routeMatcher != null
      ensures State() == Lifecycle.RunFromServlet(old(State()))
      ensures old(initialized) ==> routeMatcher == old(routeMatcher)
      ensures !old(initialized) ==> fresh(routeMatcher)
    {
      if !initialized {
        routeMatcher := new RouteMatcher();
        initialized := true;
      }
    }

    /** The common body of `addRoute` and `addFilter`: initialize, then register
        the entry keyed by method and path in the current registry. */
    method Register(verb: string, path: string, acceptType: string, target: Target<H>)
      requires Valid()
      modifies this, routeMatcher
      ensures Valid() && routeMatcher != null
      ensures State() == Lifecycle.Register(old(State()), verb, path, acceptType, target)
      ensures old(initialized) ==> routeMatcher == old(routeMatcher)
      ensures !old(initialized) ==> fresh(routeMatcher)
    {
      Init();
      routeMatcher.ParseValidateAddRoute(Key(verb, path), acceptType, target);
    }

    /** `addRoute(verb, route)`. */
    method AddRoute(verb: string, route: Route<H>)
      requires Valid()
      modifies this, routeMatcher
      ensures Valid() && routeMatcher != null
      ensures State() == Lifecycle.AddRoute(old(State()), verb, route)
      ensures Routes() == (if old(initialized) then old(Routes()) else [])
                          + [RouteEntry(Key(verb, route.path), route.acceptType, RouteTarget(route))]
      ensures old(initialized) ==> routeMatcher == old(routeMatcher)
      ensures !old(initialized) ==> fresh(routeMatcher)
    {
      Register(verb, route.path, route.acceptType, RouteTarget(route));
    }

    /** `addFilter(verb, filter)`. */
    method AddFilter(verb: string, filter: Filter<H>)
      requires Valid()
      modifies this, routeMatcher
      ensures Valid() && routeMatcher != null
      ensures State() == Lifecycle.AddFilter(old(State()), verb, filter)
      ensures old(initialized) ==> routeMatcher == old(routeMatcher)
      ensures !old(initialized) ==> fresh(routeMatcher)
    {
      Register(verb, filter.path, filter.acceptType, FilterTarget(filter));
    }

    /** `before(filter)`: a filter registered under the method name "before". */
    method Before(filter: Filter<H>)
      requires Valid()
      modifies this, routeMatcher
      ensures Valid() && routeMatcher != null
      ensures Ok(State()) == Step(old(State()), MapBefore(filter))
      ensures old(initialized) ==> routeMatcher == old(routeMatcher)
      ensures !old(initialized) ==> fresh(routeMatcher)
      ensures Routes() == (if old(initialized) then old(Routes()) else [])
                          + [RouteEntry(Key("before", filter.path), filter.acceptType, FilterTarget(filter))]
    {
      AddFilter(Name(HttpMethod.Before), filter);
    }

    /** `after(filter)`: a filter registered under the method name "after". */
    method After(filter: Filter<H>)
      requires Valid()
      modifies this, routeMatcher
      ensures Valid() && routeMatcher != null
      ensures Ok(State()) == Step(old(State()), MapAfter(filter))
      ensures old(initialized) ==> routeMatcher == old(routeMatcher)
      ensures !old(initialized) ==> fresh(routeMatcher)
      ensures Routes() == (if old(initialized) then old(Routes()) else [])
                          + [RouteEntry(Key("after", filter.path), filter.acceptType, FilterTarget(filter))]
    {
      AddFilter(Name(HttpMethod.After), filter);
    }

    /** `clearRoutes`: empties the current registry in place; with no registry
        the null dereference fails and nothing changes. */
    method ClearRoutes() returns (o: Outcome)
      requires Valid()
      modifies routeMatcher
      ensures Valid()
      ensures o == Pass <==> old(routeMatcher) != null
      ensures o.Fail? ==> o.failure == NullPointer && State() == old(State())
      ensures o == Pass ==> Ok(State()) == Lifecycle.ClearRoutes(old(State())) && Routes() == []
    {
      if routeMatcher == null {
        return Fail(NullPointer);
      }
      routeMatcher.ClearRoutes();
      o := Pass;
    }

    /** `stop`: whether or not the server stops cleanly, Spark is no longer
        initialized; the old registry object is kept until the next `init`. */
    method Stop()
      requires Valid()
      modifies this
      ensures Valid() && !initialized
      ensures State() == Lifecycle.Stop(old(State()))
      ensures routeMatcher == old(routeMatcher)
    {
      initialized := false;
    }
  }
}
