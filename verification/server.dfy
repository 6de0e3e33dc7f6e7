/**
 * The HTTP front: boot-time configuration checks, the path/method dispatch, the SSF
 * discovery document and the lazily loaded published key set.
 */
module Server {
  import opened Wrappers
  import opened JsValues
  import Http
  import LookoutIntake
  import LookoutPoll

  const UserRiskChange := "https://schemas.okta.com/secevent/okta/event-type/user-risk-change"

  function NonEmpty(v: Option<string>): bool { v.Some? && v.value != "" }

  /** The configuration the process runs with once its modules have loaded. */
  datatype Config = Config(issuer: string, oktaOrg: string, polling: bool)

  datatype BootError = MissingIssuer | MissingOktaOrg

  /**
   * Module loading: the intake module is evaluated first and throws on a missing
   * `SSF_ISSUER`, then on a missing `OKTA_ORG`; the server's own issuer check comes later
   * and can no longer fail. Once listening, polling starts only with a credential set.
   */
  function Boot(issuerEnv: Option<string>, oktaOrgEnv: Option<string>, appKeyEnv: Option<string>)
    : (r: Result<Config, BootError>)
    ensures r == Err(MissingIssuer) <==> !NonEmpty(issuerEnv)
    ensures r == Err(MissingOktaOrg) <==> NonEmpty(issuerEnv) && !NonEmpty(oktaOrgEnv)
    ensures r.Ok? ==>
      && r.value.issuer == issuerEnv.value && r.value.issuer != ""
      && r.value.oktaOrg == oktaOrgEnv.value && r.value.oktaOrg != ""
      && r.value.polling == LookoutPoll.PollingStarted(appKeyEnv)
  {
    if !NonEmpty(issuerEnv) then Err(MissingIssuer)
    else if !NonEmpty(oktaOrgEnv) then Err(MissingOktaOrg)
    else Ok(Config(issuerEnv.value, oktaOrgEnv.value, LookoutPoll.PollingStarted(appKeyEnv)))
  }

  datatype Route = Health | Discovery | KeySet | Intake | NotFound

  /** `req.verb || "GET"` */
  function EffectiveMethod(verb: Option<string>): (m: string)
    ensures m != ""
    ensures NonEmpty(verb) ==> m == verb.value
    ensures !NonEmpty(verb) ==> m == "GET"
  {
    if NonEmpty(verb) then verb.value else "GET"
  }

  /** The `if` chain of the request callback. */
  function Dispatch(path: string, verb: Option<string>): (r: Route)
    ensures var m := EffectiveMethod(verb);
      && (r == Health <==> (path == "/" || path == "/status") && (m == "GET" || m == "HEAD"))
      && (r == Discovery <==> path == "/.well-known/ssf-configuration" && m == "GET")
      && (r == KeySet <==> path == "/jwks.json" && m == "GET")
      && (r == Intake <==> path == "/intake/lookout" && m == "POST")
  {
    var m := EffectiveMethod(verb);
    if path == "/" && (m == "GET" || m == "HEAD") then Health
    else if path == "/status" && (m == "GET" || m == "HEAD") then Health
    else if path == "/.well-known/ssf-configuration" && m == "GET" then Discovery
    else if path == "/jwks.json" && m == "GET" then KeySet
    else if path == "/intake/lookout" && m == "POST" then Intake
    else NotFound
  }

  /** The SSF discovery document; `eventsSupported` is the key set of `events_supported`. */
  datatype DiscoveryDocument = DiscoveryDocument(
    issuer: string,
    jwksUri: string,
    deliveryMethodsSupported: seq<string>,
    eventsSupported: set<string>)

  function WellKnown(issuer: string): (d: DiscoveryDocument)
    ensures d.issuer == issuer && d.jwksUri == issuer + "/jwks.json"
    ensures d.deliveryMethodsSupported == ["push"]
    ensures d.eventsSupported == {LookoutIntake.DeviceRiskChange, UserRiskChange}
    ensures |d.eventsSupported| == 2
  {
    DiscoveryDocument(issuer, issuer + "/jwks.json", ["push"], {LookoutIntake.DeviceRiskChange, UserRiskChange})
  }

  /** The module-level `jwksCache`. */
  class JwksStore {
    var cache: Option<Json>

    constructor ()
      ensures cache == None
    {
      cache := None;
    }

    /**
     * `getJwks()`: reads and parses the key-set file (`load`, `Threw` where reading or
     * parsing throws) while the cache is falsy, then serves the cached value.
     */
    method GetJwks(load: Eval<Json>) returns (r: Eval<Json>, read: bool)
      modifies this
      ensures read <==> !Truthy(old(cache))
      ensures !read ==> r == Done(old(cache).value) && cache == old(cache)
      ensures read && load.Threw? ==> r == Threw && cache == old(cache)
      ensures read && load.Done? ==> r == load && cache == Some(load.value)
      ensures r.Done? ==> cache == Some(r.value)
      // A truthy key set, once loaded, is never read again.
      ensures r.Done? && Truthy(Some(r.value)) ==> Truthy(cache)
    {
      read := !Truthy(cache);
      if read {
        if load.Threw? {
          return Threw, read;
        }
        cache := Some(load.value);
      }
      r := Done(cache.value);
    }
  }

  datatype ResponseBody =
    | Text(text: string)
    | DiscoveryJson(doc: DiscoveryDocument)
    | JwksJson(jwks: Json)
    | IntakeJson(reply: LookoutIntake.IntakeReply)

  datatype HttpResponse = HttpResponse(status: int, contentType: string, body: ResponseBody)

  /** A request as the callback sees it: path name, method, and the body its stream yields. */
  datatype HttpRequest = HttpRequest(path: string, verb: Option<string>, body: Option<string>)

  /** What the handlers draw from outside the process for one request. */
  datatype World = World(
    nowMs: int,
    jti: string,
    parse: string -> Option<Json>,
    parseDate: string -> Option<int>,
    jwksFile: Eval<Json>,
    keyFile: LookoutIntake.KeyLoad,
    delivery: Http.Reply)

  const Ok200Text := HttpResponse(200, "text/plain", Text("ok"))
  const NotFound404 := HttpResponse(404, "text/plain", Text("Not found"))
  const Failed500 := HttpResponse(500, "text/plain", Text("Internal server error"))

  /** The `http.createServer` callback. `sent` is the SET delivery the intake route attempted. */
  method Serve(
    jwks: JwksStore, keys: LookoutIntake.SigningKeyCache, cfg: Config, req: HttpRequest, world: World)
    returns (resp: HttpResponse, sent: Option<LookoutIntake.DeliveryRequest>)
    requires keys.Valid()
    modifies jwks, keys
    ensures keys.Valid()
    ensures Dispatch(req.path, req.verb) == Health ==> resp == Ok200Text
    ensures Dispatch(req.path, req.verb) == Discovery ==>
      resp == HttpResponse(200, "application/json", DiscoveryJson(WellKnown(cfg.issuer)))
    // The key set: the cached one when truthy, otherwise the file's, which is then cached.
    ensures Dispatch(req.path, req.verb) == KeySet ==>
      if Truthy(old(jwks.cache)) then
        resp == HttpResponse(200, "application/json", JwksJson(old(jwks.cache).value)) && jwks.cache == old(jwks.cache)
      else if world.jwksFile.Threw? then
        resp == Failed500 && jwks.cache == old(jwks.cache)
      else
        resp == HttpResponse(200, "application/json", JwksJson(world.jwksFile.value))
        && jwks.cache == Some(world.jwksFile.value)
    ensures Dispatch(req.path, req.verb) == Intake ==>
      var o := LookoutIntake.IntakeOutcome(
        req.body, world.parse, LookoutIntake.IntakeConfig(cfg.issuer, cfg.oktaOrg), world.nowMs, world.jti,
        world.parseDate, if old(keys.pending).Some? then old(keys.pending).value else world.keyFile, world.delivery);
      resp == HttpResponse(o.0.Status(), "application/json", IntakeJson(o.0)) && sent == o.1
    ensures Dispatch(req.path, req.verb) == Intake ==>
      keys.pending ==
        if old(keys.pending).None?
           && LookoutIntake.SetBuilt(req.body, world.parse, LookoutIntake.IntakeConfig(cfg.issuer, cfg.oktaOrg),
                                     world.nowMs, world.jti, world.parseDate)
        then Some(world.keyFile)
        else old(keys.pending)
    ensures Dispatch(req.path, req.verb) == NotFound ==> resp == NotFound404
    ensures Dispatch(req.path, req.verb) != Intake ==> sent == None && keys.pending == old(keys.pending)
    ensures Dispatch(req.path, req.verb) != KeySet ==> jwks.cache == old(jwks.cache)
  {
    sent := None;
    match Dispatch(req.path, req.verb) {
      case Health =>
        resp := Ok200Text;
      case Discovery =>
        resp := HttpResponse(200, "application/json", DiscoveryJson(WellKnown(cfg.issuer)));
      case KeySet =>
        var document, _ := jwks.GetJwks(world.jwksFile);
        resp := if document.Threw? then Failed500 else HttpResponse(200, "application/json", JwksJson(document.value));
      case Intake =>
        var reply;
        reply, sent := LookoutIntake.HandleIntake(
          keys, LookoutIntake.IntakeConfig(cfg.issuer, cfg.oktaOrg), req.body, world.parse, world.parseDate,
          world.nowMs, world.jti, world.keyFile, world.delivery);
        resp := HttpResponse(reply.Status(), "application/json", IntakeJson(reply));
      case NotFound =>
        resp := NotFound404;
    }
  }
}
