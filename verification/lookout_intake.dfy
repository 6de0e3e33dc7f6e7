/**
 * The intake endpoint: validate a risk notice, turn it into a device-risk-change Security
 * Event Token payload with its JOSE header, and decide the HTTP answer from the delivery
 * to the identity provider. The private signing key is loaded once, lazily.
 */
module LookoutIntake {
  import opened Wrappers
  import opened JsValues
  import opened RiskLevels
  import Http

  const Alg := "RS256"
  const Kid := "lookout-ssf-key-1"
  const SetTyp := "secevent+jwt"
  const SetContentType := "application/secevent+jwt"
  const DeviceRiskChange := "https://schemas.okta.com/secevent/okta/event-type/device-risk-change"
  const DefaultReason := "Lookout updated device/user risk"
  const SecurityEventsPath := "/security/api/v1/security-events"

  /** The level for a lower-cased risk string. */
  function LevelOfName(v: string): RiskLevel
  {
    if v == "critical" || v == "severe" || v == "high" then High
    else if v == "medium" || v == "moderate" then Medium
    else Low
  }

  /**
   * `normalizeRiskLevel(raw)`: `String(raw || "").toLowerCase()` matched against the
   * known words. The string conversion of an object can throw; nothing else can.
   */
  function NormalizeRiskLevel(raw: Option<Json>): (r: Eval<RiskLevel>)
    ensures !Truthy(raw) ==> r == Done(Low)
    ensures r.Threw? <==> Truthy(raw) && ToJsString(raw.value).Threw?
  {
    var v := if Truthy(raw) then ToJsString(raw.value) else Done("");
    match v
    case Threw => Threw
    case Done(s) => Done(LevelOfName(ToLower(s)))
  }

  lemma KeywordsAreLower()
    ensures IsLower("critical") && IsLower("severe") && IsLower("high")
    ensures IsLower("medium") && IsLower("moderate")
  {
  }

  /**
   * Matching ignores case: critical, severe and high give high; medium and moderate
   * give medium; every other string gives low.
   */
  lemma NormalizeRiskLevelCases(raw: Option<Json>, s: string)
    requires Truthy(raw) && ToJsString(raw.value) == Done(s)
    ensures NormalizeRiskLevel(raw) == Done(High) <==>
      EqualsIgnoringCase(s, "critical") || EqualsIgnoringCase(s, "severe") || EqualsIgnoringCase(s, "high")
    ensures NormalizeRiskLevel(raw) == Done(Medium) <==>
      EqualsIgnoringCase(s, "medium") || EqualsIgnoringCase(s, "moderate")
    ensures NormalizeRiskLevel(raw) == Done(Low) <==>
      !EqualsIgnoringCase(s, "critical") && !EqualsIgnoringCase(s, "severe") && !EqualsIgnoringCase(s, "high")
      && !EqualsIgnoringCase(s, "medium") && !EqualsIgnoringCase(s, "moderate")
  {
    KeywordsAreLower();
    LowerMatchesIgnoringCase(s, "critical");
    LowerMatchesIgnoringCase(s, "severe");
    LowerMatchesIgnoringCase(s, "high");
    LowerMatchesIgnoringCase(s, "medium");
    LowerMatchesIgnoringCase(s, "moderate");
  }

  /** Every level's own name normalizes back to that level. */
  lemma NormalizeRiskLevelFixesNames(l: RiskLevel)
    ensures NormalizeRiskLevel(Some(JStr(l.Name()))) == Done(l)
  {
    var n := l.Name();
    assert ToLower(n) == n;
  }

  /** Normalizing the name of a normalized level changes nothing. */
  lemma NormalizeRiskLevelIdempotent(raw: Option<Json>)
    requires NormalizeRiskLevel(raw).Done?
    ensures NormalizeRiskLevel(Some(JStr(NormalizeRiskLevel(raw).value.Name()))) == NormalizeRiskLevel(raw)
  {
    NormalizeRiskLevelFixesNames(NormalizeRiskLevel(raw).value);
  }

  /**
   * `new Date(v).getTime()`. `parseDate` is the date-string parser (`None` where it gives
   * NaN); objects and arrays are converted to a string first, which may throw.
   */
  function DateTimeValue(v: Json, parseDate: string -> Option<int>): (r: Eval<Num>)
    ensures r.Threw? <==> (v.JObj? || v.JArr?) && ToJsString(v).Threw?
    ensures v.JNull? ==> r == Done(Finite(0))
    ensures v.JNum? ==> r == Done(TimeClip(v.n))
    ensures r.Done? && r.value.Finite? ==> -MaxTimeValue <= r.value.v <= MaxTimeValue
  {
    match v
    case JNull => Done(Finite(0))
    case JBool(b) => Done(Finite(if b then 1 else 0))
    case JNum(n) => Done(TimeClip(n))
    case JStr(s) => Done(if parseDate(s).Some? then TimeClip(parseDate(s).value) else NaN)
    case _ =>
      match ToJsString(v)
      case Threw => Threw
      case Done(s) => Done(if parseDate(s).Some? then TimeClip(parseDate(s).value) else NaN)
  }

  /** A NumericDate in seconds, or NaN. */
  datatype EventTime = Seconds(s: int) | NotANumber

  /** `Math.floor(t / 1000)`. */
  function FloorSeconds(t: Num): (r: EventTime)
    ensures t.NaN? <==> r.NotANumber?
    ensures t.Finite? ==> r.s * 1000 <= t.v < r.s * 1000 + 1000
  {
    if t.NaN? then NotANumber else Seconds(t.v / 1000)
  }

  /** The event time: the supplied `event_timestamp` when truthy, otherwise the clock. */
  function EventTimestamp(supplied: Option<Json>, nowMs: int, parseDate: string -> Option<int>): (r: Eval<EventTime>)
    ensures !Truthy(supplied) ==> r == Done(FloorSeconds(Finite(nowMs)))
    ensures Truthy(supplied) && supplied.value.JNum? ==> r == Done(FloorSeconds(TimeClip(supplied.value.n)))
    // A date string goes through the date parser and the Date range.
    ensures Truthy(supplied) && supplied.value.JStr? ==>
      var parsed := parseDate(supplied.value.s);
      r == Done(FloorSeconds(if parsed.Some? then TimeClip(parsed.value) else NaN))
    ensures r.Threw? <==>
      Truthy(supplied) && (supplied.value.JObj? || supplied.value.JArr?) && ToJsString(supplied.value).Threw?
  {
    if !Truthy(supplied) then Done(FloorSeconds(Finite(nowMs)))
    else
      match DateTimeValue(supplied.value, parseDate)
      case Threw => Threw
      case Done(t) => Done(FloorSeconds(t))
  }

  datatype UserSubject = UserSubject(format: string, email: Json)

  /** The body of the device-risk-change event. */
  datatype RiskChangeEvent = RiskChangeEvent(
    eventTimestamp: EventTime,
    currentLevel: RiskLevel,
    previousLevel: RiskLevel,
    initiatingEntity: string,
    reasonAdmin: Json,          // reason_admin.en
    subject: UserSubject)       // subject.user

  /** The SET claims; `jti` is the caller-supplied random identifier. */
  datatype SetPayload = SetPayload(
    iss: string,
    aud: string,
    iat: int,
    jti: string,
    events: map<string, RiskChangeEvent>)

  datatype JoseHeader = JoseHeader(alg: string, typ: string, kid: string)

  /** The protected header every SET is signed under. */
  function SetHeader(): (h: JoseHeader)
    ensures h.alg == "RS256" && h.typ == "secevent+jwt" && h.kid == "lookout-ssf-key-1"
  {
    JoseHeader(Alg, SetTyp, Kid)
  }

  /** The boot-time configuration: `SSF_ISSUER` and `OKTA_ORG`. */
  datatype IntakeConfig = IntakeConfig(issuer: string, oktaOrg: string)

  /** The answer the endpoint writes. */
  datatype IntakeReply =
    | Accepted                              // 202 {status: "accepted"}
    | InvalidJson                           // 400 {error: "invalid_json"}
    | MissingFields                         // 400 {error: "missing_fields"}
    | InternalError(message: Option<string>) // 500 {error: "internal_error"}; None: a message the model leaves opaque
  {
    function Status(): int
    {
      match this
      case Accepted => 202
      case InvalidJson => 400
      case MissingFields => 400
      case InternalError(_) => 500
    }

    function Code(): string
    {
      match this
      case Accepted => "accepted"
      case InvalidJson => "invalid_json"
      case MissingFields => "missing_fields"
      case InternalError(_) => "internal_error"
    }
  }

  function Email(body: Json): Option<Json> { Prop(Prop(Some(body), "user"), "email") }
  function RiskField(body: Json, key: string): Option<Json> { Prop(Prop(Some(body), "risk"), key) }

  /**
   * Validation and payload construction of `handleLookoutIntake` for a parsed body:
   * `missing_fields` unless `user.email` and `risk.current_level` are truthy, then the
   * normalized levels, the defaults, and the single device-risk-change event.
   */
  function BuildSet(
    body: Json, cfg: IntakeConfig, nowMs: int, jti: string, parseDate: string -> Option<int>)
    : (r: Result<SetPayload, IntakeReply>)
    ensures r == Err(MissingFields) <==> !Truthy(Email(body)) || !Truthy(RiskField(body, "current_level"))
    ensures r.Err? ==> r.error == MissingFields || r.error == InternalError(None)
    ensures Truthy(Email(body)) && Truthy(RiskField(body, "current_level"))
      && NormalizeRiskLevel(RiskField(body, "current_level")).Done?
      && NormalizeRiskLevel(Or(RiskField(body, "previous_level"), Some(JStr("low")))).Done?
      && EventTimestamp(Prop(Some(body), "event_timestamp"), nowMs, parseDate).Done?
      ==> r.Ok?
    ensures r.Ok? ==>
      var p := r.value;
      && p.iss == cfg.issuer && p.aud == cfg.oktaOrg && p.iat == nowMs / 1000 && p.jti == jti
      && p.events.Keys == {DeviceRiskChange}
      && var e := p.events[DeviceRiskChange];
      && Done(e.currentLevel) == NormalizeRiskLevel(RiskField(body, "current_level"))
      && Done(e.previousLevel) == NormalizeRiskLevel(Or(RiskField(body, "previous_level"), Some(JStr("low"))))
      && (!Truthy(RiskField(body, "previous_level")) ==> e.previousLevel == Low)
      && e.initiatingEntity == "system"
      && e.reasonAdmin == Or(RiskField(body, "reason"), Some(JStr(DefaultReason))).value
      && (!Truthy(RiskField(body, "reason")) ==> e.reasonAdmin == JStr(DefaultReason))
      && e.subject == UserSubject("email", Email(body).value)
      && Done(e.eventTimestamp) == EventTimestamp(Prop(Some(body), "event_timestamp"), nowMs, parseDate)
  {
    var email := Email(body);
    var current := RiskField(body, "current_level");
    var previous := RiskField(body, "previous_level");
    var reason := Or(RiskField(body, "reason"), Some(JStr(DefaultReason)));
    if !Truthy(email) || !Truthy(current) then Err(MissingFields)
    else
      var currentLevel := NormalizeRiskLevel(current);
      var previousLevel := NormalizeRiskLevel(Or(previous, Some(JStr("low"))));
      var eventTs := EventTimestamp(Prop(Some(body), "event_timestamp"), nowMs, parseDate);
      if currentLevel.Threw? || previousLevel.Threw? || eventTs.Threw? then Err(InternalError(None))
      else
        NormalizeRiskLevelFixesNames(Low);
        var event := RiskChangeEvent(eventTs.value, currentLevel.value, previousLevel.value, "system",
                                     reason.value, UserSubject("email", email.value));
        Ok(SetPayload(cfg.issuer, cfg.oktaOrg, nowMs / 1000, jti, map[DeviceRiskChange := event]))
  }

  /** The outcome of `sendSetToOkta` once the SET is signed: 202 only on a 2xx answer. */
  function DeliveryVerdict(reply: Http.Reply): (r: IntakeReply)
    ensures r == Accepted <==> reply.Ok()
    ensures r != Accepted ==> r.InternalError? && r.Status() == 500
    ensures reply.NetworkError? ==> r == InternalError(None)
    ensures reply.Response? && !reply.Ok() ==>
      r.message == Some("Okta SSF " + IntToDecimal(reply.status) + ": "
                        + (if reply.text.Some? then reply.text.value else ""))
  {
    match reply
    case NetworkError => InternalError(None)
    case Response(status, text, _) =>
      var body := if text.Some? then text.value else "";   // resp.text().catch(() => "")
      if reply.Ok() then Accepted
      else InternalError(Some("Okta SSF " + IntToDecimal(status) + ": " + body))
  }

  /** The POST to the identity provider: URL, content type, and the token's header and claims. */
  datatype DeliveryRequest = DeliveryRequest(url: string, contentType: string, header: JoseHeader, payload: SetPayload)

  /** What reading and importing `./private.pem` resolves to; a failure is cached like a success. */
  datatype KeyLoad = KeyReady(key: string) | KeyFailed

  /** The text `JSON.parse` is given: an empty body reads as "{}". */
  function BodyText(body: string): (t: string)
    ensures t != ""
    ensures body == "" ==> t == "{}"
    ensures body != "" ==> t == body
  {
    if body == "" then "{}" else body
  }

  /**
   * The whole handler as a function of its inputs: the body read from the request stream
   * (`None` where the stream fails), the JSON parser, the clock, the random identifier,
   * the key `getPrivateKey` resolves to and the delivery's answer. Also returns the
   * delivery attempted, if any.
   */
  function IntakeOutcome(
    body: Option<string>, parse: string -> Option<Json>, cfg: IntakeConfig, nowMs: int, jti: string,
    parseDate: string -> Option<int>, key: KeyLoad, delivery: Http.Reply)
    : (o: (IntakeReply, Option<DeliveryRequest>))
    ensures o.0.Status() == 202 || o.0.Status() == 400 || o.0.Status() == 500
    ensures o.0 == InvalidJson <==> body.Some? && parse(BodyText(body.value)).None?
    ensures o.0 == MissingFields <==>
      body.Some? && parse(BodyText(body.value)).Some?
      && BuildSet(parse(BodyText(body.value)).value, cfg, nowMs, jti, parseDate) == Err(MissingFields)
    ensures o.0.Status() == 400 ==> o.1 == None
    ensures o.1.Some? <==>
      body.Some? && parse(BodyText(body.value)).Some?
      && BuildSet(parse(BodyText(body.value)).value, cfg, nowMs, jti, parseDate).Ok? && key.KeyReady?
    ensures o.1.Some? ==>
      && o.1.value.url == cfg.oktaOrg + SecurityEventsPath
      && o.1.value.contentType == SetContentType
      && o.1.value.header == SetHeader()
      && Ok(o.1.value.payload) == BuildSet(parse(BodyText(body.value)).value, cfg, nowMs, jti, parseDate)
      && o.0 == DeliveryVerdict(delivery)
    ensures o.0 == Accepted <==> o.1.Some? && delivery.Ok()
  {
    if body.None? then (InternalError(None), None)
    else
      match parse(BodyText(body.value))
      case None => (InvalidJson, None)
      case Some(json) =>
        match BuildSet(json, cfg, nowMs, jti, parseDate)
        case Err(e) => (e, None)
        case Ok(payload) =>
          if key.KeyFailed? then (InternalError(None), None)
          else (DeliveryVerdict(delivery), Some(DeliveryRequest(cfg.oktaOrg + SecurityEventsPath, SetContentType, SetHeader(), payload)))
  }

  /** Whether the handler gets as far as a built SET payload, where it asks for the key. */
  predicate SetBuilt(
    body: Option<string>, parse: string -> Option<Json>, cfg: IntakeConfig, nowMs: int, jti: string,
    parseDate: string -> Option<int>)
  {
    body.Some? && parse(BodyText(body.value)).Some?
    && BuildSet(parse(BodyText(body.value)).value, cfg, nowMs, jti, parseDate).Ok?
  }

  /** With `JSON.parse("{}")` giving the empty object, an empty body is a `missing_fields` request. */
  lemma EmptyBodyMissesFields(
    parse: string -> Option<Json>, cfg: IntakeConfig, nowMs: int, jti: string,
    parseDate: string -> Option<int>, key: KeyLoad, delivery: Http.Reply)
    requires parse("{}") == Some(JObj(map[]))
    ensures IntakeOutcome(Some(""), parse, cfg, nowMs, jti, parseDate, key, delivery) == (MissingFields, None)
  {
  }

  /** The module-level `privateKeyPromise`. */
  class SigningKeyCache {
    var pending: Option<KeyLoad>
    /** How many times the key file has been read. */
    ghost var loads: nat

    ghost predicate Valid()
      reads this
    {
      loads <= 1 && (pending.None? <==> loads == 0)
    }

    constructor ()
      ensures Valid() && pending == None && loads == 0
    {
      pending := None;
      loads := 0;
    }

    /** `getPrivateKey()`: the first call loads (`load` is what that load gives); later calls reuse it. */
    method GetPrivateKey(load: KeyLoad) returns (k: KeyLoad)
      requires Valid()
      modifies this
      ensures Valid()
      ensures old(pending).Some? ==> pending == old(pending) && loads == old(loads)
      ensures old(pending).None? ==> pending == Some(load) && loads == 1
      ensures pending == Some(k)
    {
      if pending.None? {
        pending := Some(load);
        loads := loads + 1;
      }
      k := pending.value;
    }
  }

  /**
   * `handleLookoutIntake(req, res)`. The key is asked for only once the SET payload
   * has been built, so a rejected request never reads the key file.
   */
  method HandleIntake(
    keys: SigningKeyCache, cfg: IntakeConfig, body: Option<string>, parse: string -> Option<Json>,
    parseDate: string -> Option<int>, nowMs: int, jti: string, keyFile: KeyLoad, delivery: Http.Reply)
    returns (reply: IntakeReply, sent: Option<DeliveryRequest>)
    requires keys.Valid()
    modifies keys
    ensures keys.Valid()
    ensures (reply, sent) ==
      IntakeOutcome(body, parse, cfg, nowMs, jti, parseDate,
                    if old(keys.pending).Some? then old(keys.pending).value else keyFile, delivery)
    // The key load is started by the first request that builds a SET, and then kept.
    ensures keys.pending ==
      if old(keys.pending).None? && SetBuilt(body, parse, cfg, nowMs, jti, parseDate) then Some(keyFile)
      else old(keys.pending)
    ensures keys.loads == if keys.pending.Some? then 1 else 0
    ensures reply.Status() == 400 ==> keys.pending == old(keys.pending)
  {
    if body.None? {
      return InternalError(None), None;
    }
    var parsed := parse(BodyText(body.value));
    if parsed.None? {
      return InvalidJson, None;
    }
    var built := BuildSet(parsed.value, cfg, nowMs, jti, parseDate);
    if built.Err? {
      return built.error, None;
    }
    var key := keys.GetPrivateKey(keyFile);
    if key.KeyFailed? {
      return InternalError(None), None;
    }
    sent := Some(DeliveryRequest(cfg.oktaOrg + SecurityEventsPath, SetContentType, SetHeader(), built.value));
    reply := DeliveryVerdict(delivery);
  }
}
