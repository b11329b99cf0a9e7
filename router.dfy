/**
  Path routing: the ordered route table of the load balancer and the
  first-match prefix search over it (`detect_service`).
*/
module Router {
  import opened Common

  /** One entry of the route table: a service and the path prefixes it owns. */
  datatype Route = Route(service: string, prefixes: seq<string>)

  /** The static route table, in registration order. */
  const ServiceRoutes: seq<Route> := [
    Route("member", ["/members"]),
    Route("contribution", ["/contributions"]),
    Route("loan", ["/loans"]),
    Route("notification", ["/notifications"]),
    Route("savings", ["/savings", "/investments", "/dividends", "/portfolio"]),
    Route("report", ["/reports"])
  ]

  /** Python's `path.startswith(prefix)`. */
  predicate StartsWith(path: string, prefix: string) {
    prefix <= path
  }

  /** The route owns the path: one of its prefixes starts it. */
  ghost predicate Owns(route: Route, path: string) {
    exists p | p in route.prefixes :: StartsWith(path, p)
  }

  /** The inner loop of `detect_service`: does some prefix in `prefixes` start `path`? */
  function AnyPrefix(prefixes: seq<string>, path: string): (b: bool)
    ensures b <==> exists p | p in prefixes :: StartsWith(path, p)
  {
    if prefixes == [] then false
    else StartsWith(path, prefixes[0]) || AnyPrefix(prefixes[1..], path)
  }

  /**
    `detect_service`: the first service, in table order, with a prefix that
    starts the path; `None` when no route matches.
  */
  function DetectService(routes: seq<Route>, path: string): (r: Option<string>)
    ensures r.Some? ==> exists i | 0 <= i < |routes| :: routes[i].service == r.value
  {
    if routes == [] then None
    else if AnyPrefix(routes[0].prefixes, path) then Some(routes[0].service)
    else
      var r := DetectService(routes[1..], path);
      assert r.Some? ==> routes[1..][0].service == r.value || exists i | 1 <= i < |routes[1..]| :: routes[1..][i].service == r.value;
      r
  }

  /**
    The route `DetectService` picks owns the path and no earlier route does;
    it finds nothing exactly when no route owns the path.
  */
  lemma {:induction false} DetectServiceFirstMatch(routes: seq<Route>, path: string)
    ensures var r := DetectService(routes, path);
      r.Some? ==>
        exists i | 0 <= i < |routes| ::
          routes[i].service == r.value && Owns(routes[i], path) &&
          forall j | 0 <= j < i :: !Owns(routes[j], path)
    ensures DetectService(routes, path).None? <==> forall i | 0 <= i < |routes| :: !Owns(routes[i], path)
  {
    if routes != [] && !AnyPrefix(routes[0].prefixes, path) {
      DetectServiceFirstMatch(routes[1..], path);
      assert forall i | 1 <= i < |routes| :: routes[i] == routes[1..][i - 1];
      var r := DetectService(routes, path);
      if r.Some? {
        var i :| 0 <= i < |routes[1..]| && routes[1..][i].service == r.value && Owns(routes[1..][i], path) &&
          forall j | 0 <= j < i :: !Owns(routes[1..][j], path);
        assert routes[i + 1].service == r.value && Owns(routes[i + 1], path);
      }
    }
  }

  /** `list(SERVICE_ROUTES.keys())`: the service names in table order. */
  function ServiceNames(routes: seq<Route>): (names: seq<string>)
    ensures |names| == |routes|
    ensures forall i | 0 <= i < |routes| :: names[i] == routes[i].service
  {
    seq(|routes|, i requires 0 <= i < |routes| => routes[i].service)
  }

  /** `/members` and `/membership` both go to `member`: the match is a plain prefix. */
  lemma MemberRouting()
    ensures DetectService(ServiceRoutes, "/members") == Some("member")
    ensures DetectService(ServiceRoutes, "/membership") == Some("member")
  {
  }

  /** A prefix whose second character differs from the path's does not start it. */
  lemma DiffersAtOne(path: string, route: Route)
    requires |path| > 1
    requires forall k | 0 <= k < |route.prefixes| :: |route.prefixes[k]| > 1 && route.prefixes[k][1] != path[1]
    ensures !Owns(route, path)
  {
  }

  /** Paths under `/contributions` go to `contribution`. */
  lemma ContributionRouting(path: string)
    requires StartsWith(path, "/contributions")
    ensures DetectService(ServiceRoutes, path) == Some("contribution")
  {
    var routes := ServiceRoutes;
    DiffersAtOne(path, routes[0]);
    assert Owns(routes[1], path);
    DetectServiceFirstMatch(routes, path);
  }

  /** The four prefixes of `savings` all route to it, and nothing earlier claims them. */
  lemma SavingsRouting(path: string)
    requires path in ["/savings", "/investments", "/dividends", "/portfolio"]
    ensures DetectService(ServiceRoutes, path) == Some("savings")
  {
    var routes := ServiceRoutes;
    forall j | 0 <= j < 4 ensures !Owns(routes[j], path) {
      DiffersAtOne(path, routes[j]);
    }
    assert StartsWith(path, path);
    assert Owns(routes[4], path);
    DetectServiceFirstMatch(routes, path);
  }

  /** No route of the static table owns a path whose second character starts none of its prefixes. */
  lemma NoRouteOwns(path: string)
    requires |path| > 1
    requires path[1] != 'm' && path[1] != 'c' && path[1] != 'l' && path[1] != 'n' && path[1] != 's'
    requires path[1] != 'i' && path[1] != 'd' && path[1] != 'p' && path[1] != 'r'
    ensures forall i | 0 <= i < |ServiceRoutes| :: !Owns(ServiceRoutes[i], path)
  {
    var routes := ServiceRoutes;
    DiffersAtOne(path, routes[0]);
    DiffersAtOne(path, routes[1]);
    DiffersAtOne(path, routes[2]);
    DiffersAtOne(path, routes[3]);
    DiffersAtOne(path, routes[4]);
    DiffersAtOne(path, routes[5]);
  }

  /** An unregistered path such as `/unknown-xyz` is not routed. */
  lemma UnknownRouting()
    ensures DetectService(ServiceRoutes, "/unknown-xyz") == None
  {
    NoRouteOwns("/unknown-xyz");
    DetectServiceFirstMatch(ServiceRoutes, "/unknown-xyz");
  }
}
