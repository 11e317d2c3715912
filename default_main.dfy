/**
 * The request-admission and start-up rules of crates/sdk/src/default_main.rs: the auth
 * check on the service token, the route table with its layers, and the eager server
 * state built before serving.
 */
module DefaultMain {
  import opened Wrappers
  import opened Json
  import Http
  import ConnectorErrors
  import ConfigErrors

  // ---------------------------------------------------------------------------------
  // `auth_handler` (default_main.rs:338-376)

  /**
   * The `Authorization` value a request must carry: `Bearer <secret>` when a secret is
   * configured and that text is a valid header value (`HeaderValue::from_str`, the
   * parameter `validHeader`); none otherwise.
   */
  function ExpectedAuthHeader(secret: Option<string>, validHeader: string -> bool): (r: Option<string>)
    ensures r.Some? <==> secret.Some? && validHeader("Bearer " + secret.value)
    ensures r.Some? ==> r.value == "Bearer " + secret.value
  {
    match secret
    case None => None
    case Some(s) => if validHeader("Bearer " + s) then Some("Bearer " + s) else None
  }

  /** The rejection: 401 with message `Internal error` and the cause in the details. */
  const Rejection: ConnectorErrors.ErrorReply :=
    ConnectorErrors.ErrorReply(
      Http.Unauthorized,
      ConnectorErrors.ErrorResponse(
        "Internal error",
        Object([("cause", String("Bearer token does not match."))])))

  /**
   * The check run on every request behind the layer: the request's `Authorization` header
   * (absent or present) must equal the expected one exactly.
   */
  function Authorize(expected: Option<string>, header: Option<string>): (r: Result<(), ConnectorErrors.ErrorReply>)
    ensures r.Ok? <==> header == expected
    ensures r.Err? ==> r.error == Rejection
  {
    if header == expected then Ok(()) else Err(Rejection)
  }

  /** With a usable secret, exactly the requests whose header is `Bearer <secret>` pass. */
  lemma SecretAdmitsExactlyItsBearer(secret: string, validHeader: string -> bool, header: Option<string>)
    requires validHeader("Bearer " + secret)
    ensures Authorize(ExpectedAuthHeader(Some(secret), validHeader), header).Ok?
      <==> header == Some("Bearer " + secret)
  {
  }

  /**
   * With no secret, or one that is not a valid header value, only requests WITHOUT an
   * `Authorization` header pass; any header at all is rejected.
   */
  lemma NoUsableSecretAdmitsOnlyMissingHeader(secret: Option<string>, validHeader: string -> bool, header: Option<string>)
    requires secret.None? || !validHeader("Bearer " + secret.value)
    ensures Authorize(ExpectedAuthHeader(secret, validHeader), header).Ok? <==> header.None?
  {
  }

  /** The comparison is exact: a different scheme case or extra whitespace is rejected. */
  lemma NoWhitespaceOrCaseTolerance(secret: string, validHeader: string -> bool)
    requires validHeader("Bearer " + secret)
    ensures Authorize(ExpectedAuthHeader(Some(secret), validHeader), Some("bearer " + secret)) == Err(Rejection)
    ensures Authorize(ExpectedAuthHeader(Some(secret), validHeader), Some("Bearer  " + secret)) == Err(Rejection)
    ensures Authorize(ExpectedAuthHeader(Some(secret), validHeader), Some("Bearer " + secret + " ")) == Err(Rejection)
  {
    assert ("bearer " + secret)[0] != ("Bearer " + secret)[0];
    assert |"Bearer  " + secret| != |"Bearer " + secret|;
    assert |"Bearer " + secret + " "| != |"Bearer " + secret|;
  }

  // ---------------------------------------------------------------------------------
  // `create_router` (default_main.rs:298-336)

  /** The methods a request can carry: `GET`, `HEAD`, `POST`, and any other. */
  datatype HttpMethod = Get | Head | Post | Other

  /**
   * Whether a route registered for `routed` answers `requested`: axum's `get` also serves
   * `HEAD`, and `post` serves `POST` only.
   */
  predicate Serves(routed: HttpMethod, requested: HttpMethod) {
    routed == requested || (routed == Get && requested == Head)
  }

  /** A route: a path and a method, and the layers its handler sits under. */
  datatype Route = Route(path: string, verb: HttpMethod, authenticated: bool, bodyLimit: Option<nat>)

  /**
   * An `axum::Router`: its routes, and the layers around its fallback, which answers every
   * request for a path no route has. In axum 0.6 `Router::layer` wraps the fallback too.
   */
  datatype Router = Router(routes: seq<Route>, fallbackAuthenticated: bool, fallbackBodyLimit: Option<nat>)

  /** The layers a request passes through before it is routed or answered. */
  datatype Layers = Layers(authenticated: bool, bodyLimit: Option<nat>)

  /** The first route for a path, whatever its method. */
  function LookupPath(routes: seq<Route>, path: string): (r: Option<Route>)
    ensures r.Some? ==> r.value in routes && r.value.path == path
    ensures r.None? ==> forall i :: 0 <= i < |routes| ==> routes[i].path != path
  {
    if routes == [] then None
    else if routes[0].path == path then Some(routes[0])
    else LookupPath(routes[1..], path)
  }

  /** The first route for a path that serves a method, if any. */
  function Lookup(routes: seq<Route>, path: string, verb: HttpMethod): (r: Option<Route>)
    ensures r.Some? ==> r.value in routes && r.value.path == path && Serves(r.value.verb, verb)
    ensures r.None? ==> forall i :: 0 <= i < |routes| ==> routes[i].path != path || !Serves(routes[i].verb, verb)
  {
    if routes == [] then None
    else if routes[0].path == path && Serves(routes[0].verb, verb) then Some(routes[0])
    else Lookup(routes[1..], path, verb)
  }

  /** The layers of the endpoint a path is routed to, or those of the fallback. */
  function LayersFor(router: Router, path: string): Layers {
    match LookupPath(router.routes, path)
    case Some(route) => Layers(route.authenticated, route.bodyLimit)
    case None => Layers(router.fallbackAuthenticated, router.fallbackBodyLimit)
  }

  /** An empty `axum::Router::new()`: no routes, and a bare fallback. */
  const NewRouter: Router := Router([], false, None)

  /** Appending a route changes no earlier lookup. */
  lemma {:induction false} LookupPathAppend(routes: seq<Route>, route: Route, path: string)
    ensures LookupPath(routes + [route], path) ==
      if LookupPath(routes, path).Some? then LookupPath(routes, path)
      else if route.path == path then Some(route) else None
    decreases |routes|
  {
    if routes != [] {
      assert (routes + [route])[1..] == routes[1..] + [route];
      LookupPathAppend(routes[1..], route, path);
    }
  }

  /** Appending a route changes no earlier lookup. */
  lemma {:induction false} LookupAppend(routes: seq<Route>, route: Route, path: string, verb: HttpMethod)
    ensures Lookup(routes + [route], path, verb) ==
      if Lookup(routes, path, verb).Some? then Lookup(routes, path, verb)
      else if route.path == path && Serves(route.verb, verb) then Some(route) else None
    decreases |routes|
  {
    if routes != [] {
      assert (routes + [route])[1..] == routes[1..] + [route];
      LookupAppend(routes[1..], route, path, verb);
    }
  }

  /** No route for a path means no route for that path and any method. */
  lemma LookupNeedsThePath(routes: seq<Route>, path: string, verb: HttpMethod)
    requires LookupPath(routes, path).None?
    ensures Lookup(routes, path, verb).None?
  {
  }

  /**
   * `.route(path, handler)`: a lookup finds the routes added before first, and the new one
   * only when none of them matches; a route added after the layers sits under none of
   * them, and the fallback keeps its layers. Only a path not routed before is modelled, as
   * in `create_router`: axum 0.6 merges a repeated path's method router into the first one
   * (and panics on an overlapping method), which this model does not do.
   */
  function AddRoute(router: Router, path: string, verb: HttpMethod): (r: Router)
    ensures forall p :: LookupPath(r.routes, p) ==
              (if LookupPath(router.routes, p).Some? then LookupPath(router.routes, p)
               else if p == path then Some(Route(path, verb, false, None)) else None)
    ensures forall p, v :: Lookup(r.routes, p, v) ==
              (if Lookup(router.routes, p, v).Some? then Lookup(router.routes, p, v)
               else if p == path && Serves(verb, v) then Some(Route(path, verb, false, None)) else None)
    ensures r.fallbackAuthenticated == router.fallbackAuthenticated && r.fallbackBodyLimit == router.fallbackBodyLimit
  {
    var route := Route(path, verb, false, None);
    LookupAppendAll(router.routes, route);
    Router(router.routes + [route], router.fallbackAuthenticated, router.fallbackBodyLimit)
  }

  lemma LookupAppendAll(routes: seq<Route>, route: Route)
    ensures forall p :: LookupPath(routes + [route], p) ==
              (if LookupPath(routes, p).Some? then LookupPath(routes, p)
               else if route.path == p then Some(route) else None)
    ensures forall p, v :: Lookup(routes + [route], p, v) ==
              (if Lookup(routes, p, v).Some? then Lookup(routes, p, v)
               else if route.path == p && Serves(route.verb, v) then Some(route) else None)
  {
    forall p {
      LookupPathAppend(routes, route, p);
    }
    forall p, v {
      LookupAppend(routes, route, p, v);
    }
  }

  /**
   * A route for a new path is found for exactly the methods it serves, and a request for
   * the path passes no layer.
   */
  lemma NewPathIsUnlayered(router: Router, path: string, verb: HttpMethod)
    requires LookupPath(router.routes, path).None?
    ensures forall v :: Lookup(AddRoute(router, path, verb).routes, path, v) ==
              if Serves(verb, v) then Some(Route(path, verb, false, None)) else None
    ensures LayersFor(AddRoute(router, path, verb), path) == Layers(false, None)
  {
    forall v {
      LookupNeedsThePath(router.routes, path, v);
    }
  }

  /** Adding a route keeps the layers of every other path and every route found before. */
  lemma AddRouteKeepsTheRest(router: Router, path: string, verb: HttpMethod)
    ensures forall p :: p != path ==> LayersFor(AddRoute(router, path, verb), p) == LayersFor(router, p)
    ensures forall p, v :: Lookup(router.routes, p, v).Some? ==>
              Lookup(AddRoute(router, path, verb).routes, p, v) == Lookup(router.routes, p, v)
  {
  }

  /** Every route wrapped by `wrap`, which keeps paths and methods. */
  function Wrap(routes: seq<Route>, wrap: Route -> Route): seq<Route> {
    seq(|routes|, i requires 0 <= i < |routes| => wrap(routes[i]))
  }

  /** Wrapping the routes wraps what each lookup finds. */
  lemma {:induction false} LookupWrap(routes: seq<Route>, wrap: Route -> Route, path: string, verb: HttpMethod)
    requires forall route :: wrap(route).path == route.path && wrap(route).verb == route.verb
    ensures LookupPath(Wrap(routes, wrap), path) ==
      (if LookupPath(routes, path).Some? then Some(wrap(LookupPath(routes, path).value)) else None)
    ensures Lookup(Wrap(routes, wrap), path, verb) ==
      (if Lookup(routes, path, verb).Some? then Some(wrap(Lookup(routes, path, verb).value)) else None)
    decreases |routes|
  {
    if routes != [] {
      assert Wrap(routes, wrap)[1..] == Wrap(routes[1..], wrap);
      LookupWrap(routes[1..], wrap, path, verb);
    }
  }

  lemma LookupWrapAll(routes: seq<Route>, wrap: Route -> Route)
    requires forall route :: wrap(route).path == route.path && wrap(route).verb == route.verb
    ensures forall p :: LookupPath(Wrap(routes, wrap), p) ==
              (if LookupPath(routes, p).Some? then Some(wrap(LookupPath(routes, p).value)) else None)
    ensures forall p, v :: Lookup(Wrap(routes, wrap), p, v) ==
              (if Lookup(routes, p, v).Some? then Some(wrap(Lookup(routes, p, v).value)) else None)
  {
    forall p, v {
      LookupWrap(routes, wrap, p, v);
    }
    forall p {
      LookupWrap(routes, wrap, p, Get);
    }
  }

  /**
   * `.layer(RequestBodyLimitLayer::new(limit))`: every request, routed or not, now passes
   * the limit; the auth layers and the routed paths and methods stay as they were.
   */
  function LimitBodies(router: Router, limit: nat): (r: Router)
    ensures forall p :: LayersFor(r, p) == Layers(LayersFor(router, p).authenticated, Some(limit))
    ensures forall p :: LookupPath(r.routes, p).Some? <==> LookupPath(router.routes, p).Some?
    ensures forall p, v :: Lookup(r.routes, p, v).Some? <==> Lookup(router.routes, p, v).Some?
  {
    var wrap := (route: Route) => route.(bodyLimit := Some(limit));
    LookupWrapAll(router.routes, wrap);
    Router(Wrap(router.routes, wrap), router.fallbackAuthenticated, Some(limit))
  }

  /**
   * `.layer(ValidateRequestHeaderLayer::custom(..))`: every request, routed or not, now
   * passes the auth check; the body limits and the routed paths and methods stay as they were.
   */
  function RequireAuth(router: Router): (r: Router)
    ensures forall p :: LayersFor(r, p) == Layers(true, LayersFor(router, p).bodyLimit)
    ensures forall p :: LookupPath(r.routes, p).Some? <==> LookupPath(router.routes, p).Some?
    ensures forall p, v :: Lookup(r.routes, p, v).Some? <==> Lookup(router.routes, p, v).Some?
  {
    var wrap := (route: Route) => route.(authenticated := true);
    LookupWrapAll(router.routes, wrap);
    Router(Wrap(router.routes, wrap), true, router.fallbackBodyLimit)
  }

  /** 100 MiB */
  const BodyLimit: nat := 100 * 1024 * 1024

  /** The endpoints behind the layers, with their methods. */
  const ApiRoutes: seq<(string, HttpMethod)> := [
    ("/capabilities", Get), ("/metrics", Get), ("/schema", Get), ("/query", Post),
    ("/query/explain", Post), ("/mutation", Post), ("/mutation/explain", Post)]

  /** `.route(..)` once for each path and method, in order. */
  function AddRoutes(router: Router, rs: seq<(string, HttpMethod)>): Router
    decreases |rs|
  {
    if rs == [] then router else AddRoutes(AddRoute(router, rs[0].0, rs[0].1), rs[1..])
  }

  /** Routes found before are still found, unchanged. */
  lemma {:induction false} AddRoutesKeeps(router: Router, rs: seq<(string, HttpMethod)>, p: string, v: HttpMethod)
    requires Lookup(router.routes, p, v).Some?
    ensures Lookup(AddRoutes(router, rs).routes, p, v) == Lookup(router.routes, p, v)
    decreases |rs|
  {
    if rs != [] {
      AddRoutesKeeps(AddRoute(router, rs[0].0, rs[0].1), rs[1..], p, v);
    }
  }

  /**
   * Adding routes for distinct new paths makes each of them found for its method, and
   * leaves every other new path unrouted.
   */
  lemma {:induction false} AddRoutesFinds(router: Router, rs: seq<(string, HttpMethod)>, p: string)
    requires forall i :: 0 <= i < |rs| ==> LookupPath(router.routes, rs[i].0).None?
    requires forall i, j :: 0 <= i < j < |rs| ==> rs[i].0 != rs[j].0
    ensures forall i, v :: 0 <= i < |rs| && Serves(rs[i].1, v) ==> Lookup(AddRoutes(router, rs).routes, rs[i].0, v).Some?
    ensures LookupPath(router.routes, p).None? && (forall i :: 0 <= i < |rs| ==> rs[i].0 != p) ==>
              LookupPath(AddRoutes(router, rs).routes, p).None?
    decreases |rs|
  {
    if rs != [] {
      var r1 := AddRoute(router, rs[0].0, rs[0].1);
      assert forall i :: 0 <= i < |rs[1..]| ==> rs[1..][i] == rs[i + 1];
      AddRoutesFinds(r1, rs[1..], p);
      forall i, v | 0 <= i < |rs| && Serves(rs[i].1, v)
        ensures Lookup(AddRoutes(router, rs).routes, rs[i].0, v).Some?
      {
        if i > 0 {
          assert rs[i] == rs[1..][i - 1];
        } else {
          LookupNeedsThePath(router.routes, rs[0].0, v);
          AddRoutesKeeps(r1, rs[1..], rs[0].0, v);
        }
      }
    }
  }

  /** The first seven calls of `create_router`: the API routes, before any layer. */
  function ApiRouter(): Router {
    AddRoutes(NewRouter, ApiRoutes)
  }

  /** The API routes answer their paths and the methods they serve, and none of them is `/health`. */
  lemma ApiRoutesAreRouted()
    ensures LookupPath(ApiRouter().routes, "/health").None?
    ensures forall i, v :: 0 <= i < |ApiRoutes| && Serves(ApiRoutes[i].1, v) ==>
              Lookup(ApiRouter().routes, ApiRoutes[i].0, v).Some?
  {
    assert forall i :: 0 <= i < |ApiRoutes| ==> ApiRoutes[i].0 != "/health";
    assert forall i, j :: 0 <= i < j < |ApiRoutes| ==> ApiRoutes[i].0 != ApiRoutes[j].0;
    AddRoutesFinds(NewRouter, ApiRoutes, "/health");
  }

  /** The API routes inside the body limit and the auth check. */
  function LayeredApi(): Router {
    RequireAuth(LimitBodies(ApiRouter(), BodyLimit))
  }

  lemma LayeredApiFacts()
    ensures forall p :: LayersFor(LayeredApi(), p) == Layers(true, Some(BodyLimit))
    ensures LookupPath(LayeredApi().routes, "/health").None?
    ensures forall i, v :: 0 <= i < |ApiRoutes| && Serves(ApiRoutes[i].1, v) ==>
              Lookup(LayeredApi().routes, ApiRoutes[i].0, v).Some?
  {
    ApiRoutesAreRouted();
  }

  /**
   * The chain of `create_router`, in order: the seven API routes and the fallback sit behind
   * the auth check and the 100 MiB body limit, and `/health`, added last, behind neither.
   * `GET` routes answer `HEAD` too; `/health` answers those two methods and no other.
   */
  function CreateRouter(): (r: Router)
    ensures forall p :: LayersFor(r, p) ==
              (if p == "/health" then Layers(false, None) else Layers(true, Some(BodyLimit)))
    ensures forall i, v :: 0 <= i < |ApiRoutes| && Serves(ApiRoutes[i].1, v) ==>
              Lookup(r.routes, ApiRoutes[i].0, v).Some?
    ensures forall v :: Lookup(r.routes, "/health", v) ==
              if v == Get || v == Head then Some(Route("/health", Get, false, None)) else None
  {
    var layered := LayeredApi();
    LayeredApiFacts();
    NewPathIsUnlayered(layered, "/health", Get);
    AddRouteKeepsTheRest(layered, "/health", Get);
    AddRoute(layered, "/health", Get)
  }

  /** `Lookup` finds the first route that matches. */
  lemma {:induction false} LookupFinds(routes: seq<Route>, k: nat, path: string, verb: HttpMethod)
    requires k < |routes| && routes[k].path == path && Serves(routes[k].verb, verb)
    requires forall i :: 0 <= i < k ==> routes[i].path != path || !Serves(routes[i].verb, verb)
    ensures Lookup(routes, path, verb) == Some(routes[k])
    decreases k
  {
    if k > 0 {
      LookupFinds(routes[1..], k - 1, path, verb);
    }
  }

  /** What the layers and routing decide about a request before any handler runs. */
  datatype Admission =
    | Rejected(reply: ConnectorErrors.ErrorReply)
    | TooLarge
    | NotFound
    | MethodNotAllowed
    | Dispatch(route: Route)

  /**
   * The auth layer is added after the body limit, so it is the outer one; both wrap the
   * routes and the fallback that were there when they were added. A request is rejected
   * before its size is looked at, and measured before it is routed; the body size is the
   * declared `Content-Length`.
   */
  function Admit(router: Router, expected: Option<string>, path: string, verb: HttpMethod,
                 header: Option<string>, bodyLength: nat): (a: Admission)
    ensures a.Rejected? <==> LayersFor(router, path).authenticated && header != expected
    ensures a.Rejected? ==> a.reply == Rejection
    ensures a.TooLarge? <==>
      && !a.Rejected?
      && LayersFor(router, path).bodyLimit.Some? && bodyLength > LayersFor(router, path).bodyLimit.value
    ensures a.NotFound? ==> LookupPath(router.routes, path).None?
    ensures a.MethodNotAllowed? ==> LookupPath(router.routes, path).Some? && Lookup(router.routes, path, verb).None?
    ensures a.Dispatch? ==> Lookup(router.routes, path, verb) == Some(a.route)
    ensures !a.Rejected? && !a.TooLarge? && Lookup(router.routes, path, verb).Some? ==> a.Dispatch?
  {
    var layers := LayersFor(router, path);
    if layers.authenticated && Authorize(expected, header).Err? then Rejected(Rejection)
    else if layers.bodyLimit.Some? && bodyLength > layers.bodyLimit.value then TooLarge
    else if LookupPath(router.routes, path).None? then NotFound
    else match Lookup(router.routes, path, verb)
      case None => MethodNotAllowed
      case Some(route) => Dispatch(route)
  }

  /**
   * Without the expected header only `/health` is reachable: any other request, to an API
   * route, with the wrong method or to an unknown path, is rejected with 401 whatever its
   * size.
   */
  lemma OnlyHealthWithoutTheToken(expected: Option<string>, path: string, verb: HttpMethod,
                                  header: Option<string>, bodyLength: nat)
    requires header != expected && path != "/health"
    ensures Admit(CreateRouter(), expected, path, verb, header, bodyLength) == Rejected(Rejection)
  {
  }

  /**
   * Health checks, `GET` or `HEAD`, pass with any header or none; any other method on
   * `/health` gets 405 unchecked.
   */
  lemma HealthIsNeverAuthenticated(expected: Option<string>, verb: HttpMethod, header: Option<string>, bodyLength: nat)
    ensures Admit(CreateRouter(), expected, "/health", verb, header, bodyLength) ==
      if verb == Get || verb == Head then Dispatch(Route("/health", Get, false, None)) else MethodNotAllowed
  {
  }

  /** With the token, a request for an unknown path is measured against the limit before it gets 404. */
  lemma UnknownPathsAreLayered(expected: Option<string>, path: string, verb: HttpMethod, bodyLength: nat)
    requires LookupPath(CreateRouter().routes, path).None?
    ensures Admit(CreateRouter(), expected, path, verb, expected, bodyLength) ==
      if bodyLength > BodyLimit then TooLarge else NotFound
  {
  }
  // ---------------------------------------------------------------------------------
  // `init_server_state` (default_main.rs:287-296) and `ServerState` (default_main.rs:139-168)

  /** A `prometheus::Registry`, known by the metrics registered in it. */
  datatype Metrics = Metrics(registered: seq<string>)

  /** `ServerState` of default_main.rs, handed to every handler: configuration, connector state and metrics. */
  datatype EagerServerState<C, S> = EagerServerState(configuration: C, state: S, metrics: Metrics)

  /** Which step of start-up failed; the conversion into the SDK's own error is not modelled. */
  datatype StartupError = ParseFailed(parse: ConfigErrors.ParseError) | InitFailed(init: ConnectorErrors.InitializationError)

  /**
   * Parses the configuration, then initialises the connector state at once with the parsed
   * configuration and a fresh registry, which `try_init_state` may register metrics in.
   */
  function InitServerState<C, S>(
    parse: string -> Result<C, ConfigErrors.ParseError>,
    tryInitState: (C, Metrics) -> Result<(S, Metrics), ConnectorErrors.InitializationError>,
    configDirectory: string): (r: Result<EagerServerState<C, S>, StartupError>)
    ensures parse(configDirectory).Err? ==> r == Err(ParseFailed(parse(configDirectory).error))
    ensures parse(configDirectory).Ok? ==>
      var init := tryInitState(parse(configDirectory).value, Metrics([]));
      && (init.Err? ==> r == Err(InitFailed(init.error)))
      && (init.Ok? ==> r == Ok(EagerServerState(parse(configDirectory).value, init.value.0, init.value.1)))
  {
    match parse(configDirectory)
    case Err(e) => Err(ParseFailed(e))
    case Ok(configuration) =>
      match tryInitState(configuration, Metrics([]))
      case Err(e) => Err(InitFailed(e))
      case Ok((state, metrics)) => Ok(EagerServerState(configuration, state, metrics))
  }

  /** A parse failure decides the outcome: `try_init_state` is never consulted. */
  lemma ParseFailureSkipsInit<C, S>(
    parse: string -> Result<C, ConfigErrors.ParseError>,
    init1: (C, Metrics) -> Result<(S, Metrics), ConnectorErrors.InitializationError>,
    init2: (C, Metrics) -> Result<(S, Metrics), ConnectorErrors.InitializationError>,
    configDirectory: string)
    requires parse(configDirectory).Err?
    ensures InitServerState(parse, init1, configDirectory) == InitServerState(parse, init2, configDirectory)
  {
  }

  /** The server starts exactly when both steps succeed, and then holds what they produced. */
  lemma StartsIffBothSucceed<C, S>(
    parse: string -> Result<C, ConfigErrors.ParseError>,
    tryInitState: (C, Metrics) -> Result<(S, Metrics), ConnectorErrors.InitializationError>,
    configDirectory: string)
    ensures InitServerState(parse, tryInitState, configDirectory).Ok? <==>
      parse(configDirectory).Ok? && tryInitState(parse(configDirectory).value, Metrics([])).Ok?
  {
  }
}
