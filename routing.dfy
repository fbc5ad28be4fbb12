/** What Spark registers: HTTP methods, the registry key built from a method and a
    path, routes, filters, and the route registry itself.

    The registry (Spark's `RouteMatcher`) is kept abstract: an ordered sequence of
    entries that registration appends to and that can be cleared. How it parses
    the key and matches requests is not part of this model. */
module Routing {

  /** The HTTP methods a route is mapped to, plus the two pseudo-methods under
      which before- and after-filters are registered. */
  datatype HttpMethod = Get | Post | Put | Delete | Head | Trace | Connect | Options | Before | After

  /** The name of the enum constant, as `HttpMethod.name()` gives it: the
      constants are spelt in lower case. */
  function Name(m: HttpMethod): (name: string)
    ensures |name| > 0
    ensures forall i :: 0 <= i < |name| ==> 'a' <= name[i] <= 'z'
  {
    match m
    case Get => "get"
    case Post => "post"
    case Put => "put"
    case Delete => "delete"
    case Head => "head"
    case Trace => "trace"
    case Connect => "connect"
    case Options => "options"
    case Before => "before"
    case After => "after"
  }

  /** Distinct methods have distinct names. */
  lemma NameInjective(m1: HttpMethod, m2: HttpMethod)
    ensures Name(m1) == Name(m2) ==> m1 == m2
  {
  }

  /** The registry key of a mapping: the method name, a space, and the path in
      single quotes, e.g. `get '/hello'`. */
  function Key(verb: string, path: string): (key: string)
    ensures |key| == |verb| + |path| + 3
    ensures forall i :: 0 <= i < |verb| ==> key[i] == verb[i]
    ensures key[|verb|] == ' ' && key[|verb| + 1] == '\''
    ensures key[|verb| + 2 .. |key| - 1] == path
    ensures key[|key| - 1] == '\''
  {
    verb + " '" + path + "'"
  }

  /** A key built from an HTTP method name determines both the method and the
      path: the registry can recover them from the key it is handed. */
  lemma KeyInjective(m1: HttpMethod, p1: string, m2: HttpMethod, p2: string)
    requires Key(Name(m1), p1) == Key(Name(m2), p2)
    ensures m1 == m2 && p1 == p2
  {
    var n1, n2 := Name(m1), Name(m2);
    var k := Key(n1, p1);
    // The first space of the key ends the method name, so both names have the same length.
    assert k[|n1|] == ' ' && k[|n2|] == ' ';
    assert |n1| == |n2|;
    assert n1 == n2 by {
      forall i | 0 <= i < |n1| ensures n1[i] == n2[i] {
        assert k[i] == n1[i] && k[i] == n2[i];
      }
    }
    NameInjective(m1, m2);
  }

  /** The accept type of a route built from a path alone (Spark's `Route(path)`). */
  const DefaultAcceptType: string := "*/*"

  /** A route: a path pattern, an accept type, and the user's callback `handle`,
      an opaque value of type `H`. */
  datatype Route<H> = Route(path: string, acceptType: string, handle: H)

  /** A before- or after-filter: a path pattern, an accept type and an opaque callback. */
  datatype Filter<H> = Filter(path: string, acceptType: string, handle: H)

  /** What a registry entry points to: a route or a filter. */
  datatype Target<H> = RouteTarget(route: Route<H>) | FilterTarget(filter: Filter<H>)

  /** One registration, as handed to `parseValidateAddRoute`. */
  datatype RouteEntry<H> = RouteEntry(key: string, acceptType: string, target: Target<H>)

  /** The route registry, updated in place and shared between Spark and its server.
      Its contents are the entries in registration order. */
  class RouteMatcher<H> {
    var routes: seq<RouteEntry<H>>

    /** A new registry is empty. */
    constructor ()
      ensures routes == []
    {
      routes := [];
    }

    /** Registers one entry after all earlier ones. */
    method ParseValidateAddRoute(key: string, acceptType: string, target: Target<H>)
      modifies this
      ensures routes == old(routes) + [RouteEntry(key, acceptType, target)]
    {
      routes := routes + [RouteEntry(key, acceptType, target)];
    }

    /** Removes every entry. */
    method ClearRoutes()
      modifies this
      ensures routes == []
    {
      routes := [];
    }
  }
}
