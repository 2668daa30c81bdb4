/** The router factory: which flows a host's application serves, and at which paths. */
module Router {
  import opened Wrappers
  import opened Auth

  /** The five flows. */
  datatype Endpoint = RegisterEndpoint | LoginEndpoint | LogoutEndpoint | RefreshEndpoint | CheckEndpoint

  /** A POST route: its path and the flow that answers it. */
  datatype Route = Route(path: string, endpoint: Endpoint)

  /** The path each flow is served at. */
  function PathOf(e: Endpoint): (path: string)
    ensures |path| > 1 && path[0] == '/'
  {
    match e
    case RegisterEndpoint => "/register"
    case LoginEndpoint => "/login"
    case LogoutEndpoint => "/logout"
    case RefreshEndpoint => "/refresh"
    case CheckEndpoint => "/check"
  }

  /** The configured state of a flow's route. */
  function StateOf(routes: Routes, e: Endpoint): RouteState {
    match e
    case RegisterEndpoint => routes.register
    case LoginEndpoint => routes.login
    case LogoutEndpoint => routes.logout
    case RefreshEndpoint => routes.refresh
    case CheckEndpoint => routes.check
  }

  /** The route of one flow, unless that route is removed. */
  function Served(routes: Routes, e: Endpoint): (r: seq<Route>)
    ensures r == [] || r == [Route(PathOf(e), e)]
    ensures r != [] <==> StateOf(routes, e) != Removed
  {
    if StateOf(routes, e) != Removed then [Route(PathOf(e), e)] else []
  }

  /** Every route in `r` is served at its flow's own path, and no route of a removed flow is there. */
  predicate ServesOwnPaths(routes: Routes, r: seq<Route>) {
    forall i :: 0 <= i < |r| ==> r[i].path == PathOf(r[i].endpoint) && StateOf(routes, r[i].endpoint) != Removed
  }

  /** Appending the route of one more flow keeps every route at its own path. */
  lemma ServesOwnPathsAppend(routes: Routes, r: seq<Route>, e: Endpoint)
    requires ServesOwnPaths(routes, r)
    ensures ServesOwnPaths(routes, r + Served(routes, e))
  {
  }

  /** The routes the router serves: each flow whose route is not removed, in the order register, login, logout, refresh, check. */
  function MountedRoutes(routes: Routes): (r: seq<Route>)
    ensures |r| <= 5
    ensures ServesOwnPaths(routes, r)
  {
    var a := Served(routes, RegisterEndpoint);
    ServesOwnPathsAppend(routes, [], RegisterEndpoint);
    assert [] + a == a;
    var b := a + Served(routes, LoginEndpoint);
    ServesOwnPathsAppend(routes, a, LoginEndpoint);
    var c := b + Served(routes, LogoutEndpoint);
    ServesOwnPathsAppend(routes, b, LogoutEndpoint);
    var d := c + Served(routes, RefreshEndpoint);
    ServesOwnPathsAppend(routes, c, RefreshEndpoint);
    ServesOwnPathsAppend(routes, d, CheckEndpoint);
    d + Served(routes, CheckEndpoint)
  }

  /** Every flow whose route is not removed is served. */
  lemma MountedExactly(routes: Routes, e: Endpoint)
    ensures (exists i :: 0 <= i < |MountedRoutes(routes)| && MountedRoutes(routes)[i].endpoint == e) <==> StateOf(routes, e) != Removed
  {
    var a, b, c, d, f := Served(routes, RegisterEndpoint), Served(routes, LoginEndpoint), Served(routes, LogoutEndpoint),
      Served(routes, RefreshEndpoint), Served(routes, CheckEndpoint);
    var r := MountedRoutes(routes);
    if StateOf(routes, e) != Removed {
      var i := match e
        case RegisterEndpoint => 0
        case LoginEndpoint => |a|
        case LogoutEndpoint => |a| + |b|
        case RefreshEndpoint => |a| + |b| + |c|
        case CheckEndpoint => |a| + |b| + |c| + |d|;
      assert r[i].endpoint == e;
    }
  }

  /** Distinct flows are served at distinct paths. */
  lemma PathsDistinct(e: Endpoint, f: Endpoint)
    requires e != f
    ensures PathOf(e) != PathOf(f)
  {
    match e
    case RegisterEndpoint => assert PathOf(e)[1] == 'r' && PathOf(e)[2] == 'e' && PathOf(e)[3] == 'g';
    case LoginEndpoint => assert PathOf(e)[3] == 'g' && PathOf(e)[4] == 'i';
    case LogoutEndpoint => assert PathOf(e)[3] == 'g' && PathOf(e)[4] == 'o';
    case RefreshEndpoint => assert PathOf(e)[3] == 'f';
    case CheckEndpoint => assert PathOf(e)[1] == 'c';
  }

  /** The router: the routes it serves, in the order they were added. */
  class AuthRouter {
    var routes: seq<Route>

    constructor()
      ensures routes == []
    {
      routes := [];
    }

    /** Adds a POST route after the ones already there. */
    method Post(path: string, endpoint: Endpoint)
      modifies this
      ensures routes == old(routes) + [Route(path, endpoint)]
    {
      routes := routes + [Route(path, endpoint)];
    }
  }

  /** Builds the router: one POST route per flow whose route is not removed. */
  method CreateAuthRouter(config: Config) returns (router: AuthRouter)
    ensures fresh(router)
    ensures router.routes == MountedRoutes(config.routes)
  {
    router := new AuthRouter();
    ghost var r := config.routes;
    if config.routes.register != Removed {
      router.Post("/register", RegisterEndpoint);
    }
    assert router.routes == Served(r, RegisterEndpoint);
    if config.routes.login != Removed {
      router.Post("/login", LoginEndpoint);
    }
    assert router.routes == Served(r, RegisterEndpoint) + Served(r, LoginEndpoint);
    if config.routes.logout != Removed {
      router.Post("/logout", LogoutEndpoint);
    }
    assert router.routes == Served(r, RegisterEndpoint) + Served(r, LoginEndpoint) + Served(r, LogoutEndpoint);
    if config.routes.refresh != Removed {
      router.Post("/refresh", RefreshEndpoint);
    }
    assert router.routes == Served(r, RegisterEndpoint) + Served(r, LoginEndpoint) + Served(r, LogoutEndpoint)
      + Served(r, RefreshEndpoint);
    if config.routes.check != Removed {
      router.Post("/check", CheckEndpoint);
    }
  }

  /** Which flow answers a POST to `path`: the first route with that path, if any. */
  function Dispatch(routes: seq<Route>, path: string): (e: Option<Endpoint>)
    ensures e.Some? ==> exists i :: 0 <= i < |routes| && routes[i] == Route(path, e.value)
    ensures e.None? <==> forall i :: 0 <= i < |routes| ==> routes[i].path != path
  {
    if routes == [] then None
    else if routes[0].path == path then Some(routes[0].endpoint)
    else
      var e := Dispatch(routes[1..], path);
      if e.Some? then
        var i :| 0 <= i < |routes[1..]| && routes[1..][i] == Route(path, e.value);
        assert routes[i + 1] == Route(path, e.value);
        e
      else e
  }

  /**
   * A flow's path reaches that flow exactly when its route is not removed; a disabled route is still
   * served (and answers its own 403), only a removed one is left out.
   */
  lemma {:induction false} DispatchReachesMountedFlows(routes: Routes, e: Endpoint)
    ensures var served := MountedRoutes(routes);
      && (StateOf(routes, e) != Removed ==> Dispatch(served, PathOf(e)) == Some(e))
      && (StateOf(routes, e) == Removed ==> Dispatch(served, PathOf(e)).None?)
  {
    var served := MountedRoutes(routes);
    MountedExactly(routes, e);
    forall i | 0 <= i < |served| && served[i].endpoint != e
      ensures served[i].path != PathOf(e)
    {
      PathsDistinct(served[i].endpoint, e);
    }
    if StateOf(routes, e) != Removed {
      var d := Dispatch(served, PathOf(e));
      assert d.Some?;
      var i :| 0 <= i < |served| && served[i] == Route(PathOf(e), d.value);
    }
  }

  /** With no route options every flow is served, in the source's order. */
  lemma DefaultRoutesServeAll()
    ensures MountedRoutes(ResolveRoutes(None)) ==
      [Route("/register", RegisterEndpoint), Route("/login", LoginEndpoint), Route("/logout", LogoutEndpoint),
       Route("/refresh", RefreshEndpoint), Route("/check", CheckEndpoint)]
  {
  }
}
