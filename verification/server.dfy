/** The application as a whole: `/healthz`, registered before the API-key
    gate, then the gate, then the routes. */
module Server {
  import opened Wrappers
  import opened Js
  import opened Vendor
  import opened Routes

  datatype Route = Healthz | Devices | State | Control(kind: ControlKind)

  /** An inbound request: its route, the parsed query and the parsed JSON body. */
  datatype Request = Request(route: Route, query: Json, body: Json)

  /** The process environment the server reads at start-up. */
  datatype Config = Config(apiKey: Option<string>)

  /** Everything outside the model a handler consults: network, parser, number
      coercion, request-ID clock. */
  datatype Env = Env(up: Upstream, coerce: Coercion, stamp: Stamps)

  /** `!KEY` is false: the key variable is set and non-empty. */
  predicate KeyPresent(cfg: Config) {
    cfg.apiKey.Some? && cfg.apiKey.value != ""
  }

  const HealthBody: Json := JObj([Member("ok", JBool(true))])

  const MissingKeyMessage := "Missing GOVEE_API_KEY env var on server"

  /** The route handlers proper, reached only past the gate. */
  function Dispatch(req: Request, key: string, env: Env): (o: Outcome)
    ensures |o.calls| <= 2
    ensures |o.calls| == 2 ==> req.route.State?
    ensures forall i :: 0 <= i < |o.calls| ==> o.calls[i].key == key
  {
    match req.route
    case Healthz => Outcome(Response(200, HealthBody), [])
    case Devices => HandleDevices(key, env.up)
    case State => HandleState(req.query, key, env.up, env.stamp)
    case Control(kind) => HandleControl(kind, req.body, key, env.up, env.coerce, env.stamp)
  }

  /** Serves one request. */
  function Serve(cfg: Config, req: Request, env: Env): (o: Outcome)
    ensures req.route.Healthz? ==> o == Outcome(Response(200, HealthBody), [])
    ensures !req.route.Healthz? && !KeyPresent(cfg) ==>
              o == Outcome(Response(500, ErrorBody(MissingKeyMessage)), [])
    ensures |o.calls| <= 2
    ensures |o.calls| == 2 ==> req.route.State?
    ensures forall i :: 0 <= i < |o.calls| ==> KeyPresent(cfg) && o.calls[i].key == cfg.apiKey.value
  {
    if req.route.Healthz? then Outcome(Response(200, HealthBody), [])
    else if !KeyPresent(cfg) then Outcome(Response(500, ErrorBody(MissingKeyMessage)), [])
    else Dispatch(req, cfg.apiKey.value, env)
  }

  /** `/healthz` answers the same whatever the configuration and environment. */
  lemma HealthzIgnoresConfig(c1: Config, c2: Config, req: Request, e1: Env, e2: Env)
    requires req.route.Healthz?
    ensures Serve(c1, req, e1) == Serve(c2, req, e2)
  {
  }

  /** With the key present the gate is transparent: each route behaves as its handler. */
  lemma GatePassesThrough(cfg: Config, req: Request, env: Env)
    requires KeyPresent(cfg)
    ensures Serve(cfg, req, env) == Dispatch(req, cfg.apiKey.value, env)
  {
  }

  /** A request makes upstream calls only when the key is present and the route
      is not `/healthz`; whether it does is decided before any call. */
  lemma CallsNeedKey(cfg: Config, req: Request, env: Env)
    requires |Serve(cfg, req, env).calls| > 0
    ensures KeyPresent(cfg) && !req.route.Healthz?
  {
  }
}
