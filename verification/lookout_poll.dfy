/**
 * One poll cycle: fetch the devices the vendor reports as changed within the lookback
 * window and post one intake notice per device whose mapped risk is medium or high.
 * The cycle keeps no per-subject state: every such device is posted on every cycle,
 * always with "low" as the previous level.
 */
module LookoutPoll {
  import opened Wrappers
  import opened JsValues
  import opened RiskLevels
  import Http
  import LookoutAuth

  const DefaultBaseUrl := "https://api.lookout.com"
  const DevicesPath := "/mra/api/v2/devices"
  /** The page size asked for, above the listing's default cap of 20. */
  const DeviceLimit := 200

  /**
   * `new Date(Date.now() - minutes * 60 * 1000)` as a time value in ms. `toISOString`
   * throws a RangeError when the minutes are NaN or the instant is outside the Date range.
   */
  function IsoSince(nowMs: int, minutes: Num): (r: Eval<int>)
    ensures r.Done? <==> minutes.Finite? && -MaxTimeValue <= nowMs - minutes.v * 60000 <= MaxTimeValue
    ensures r.Done? ==> r.value + minutes.v * 60 * 1000 == nowMs
  {
    if minutes.NaN? then Threw
    else
      var t := nowMs - minutes.v * 60 * 1000;
      if -MaxTimeValue <= t <= MaxTimeValue then Done(t) else Threw
  }

  /** The level for an upper-cased vendor status. */
  function LevelOfStatus(u: string): RiskLevel
  {
    if u == "THREATS_CRITICAL" || u == "THREATS_HIGH" then High
    else if u == "THREATS_MEDIUM" then Medium
    else Low
  }

  /**
   * `mapSecurityStatusToRiskLevel`: `Done(None)` is its `null` for an absent or falsy
   * status; a status whose string conversion throws makes the call throw.
   */
  function MapSecurityStatus(status: Option<Json>): (r: Eval<Option<RiskLevel>>)
    ensures r == Done(None) <==> !Truthy(status)
    ensures r.Threw? <==> Truthy(status) && ToJsString(status.value).Threw?
  {
    if !Truthy(status) then Done(None)
    else
      match ToJsString(status.value)
      case Threw => Threw
      case Done(s) => Done(Some(LevelOfStatus(ToUpper(s))))
  }

  lemma KeywordsAreUpper()
    ensures IsUpper("THREATS_CRITICAL") && IsUpper("THREATS_HIGH") && IsUpper("THREATS_MEDIUM")
  {
  }

  /**
   * A present status is matched without regard to case: THREATS_CRITICAL and THREATS_HIGH
   * give high, THREATS_MEDIUM gives medium, every other status gives low.
   */
  lemma MapSecurityStatusCases(status: Option<Json>, s: string)
    requires Truthy(status) && ToJsString(status.value) == Done(s)
    ensures MapSecurityStatus(status) == Done(Some(High)) <==>
      EqualsIgnoringCase(s, "THREATS_CRITICAL") || EqualsIgnoringCase(s, "THREATS_HIGH")
    ensures MapSecurityStatus(status) == Done(Some(Medium)) <==> EqualsIgnoringCase(s, "THREATS_MEDIUM")
    ensures MapSecurityStatus(status) == Done(Some(Low)) <==>
      !EqualsIgnoringCase(s, "THREATS_CRITICAL") && !EqualsIgnoringCase(s, "THREATS_HIGH")
      && !EqualsIgnoringCase(s, "THREATS_MEDIUM")
  {
    KeywordsAreUpper();
    UpperMatchesIgnoringCase(s, "THREATS_CRITICAL");
    UpperMatchesIgnoringCase(s, "THREATS_HIGH");
    UpperMatchesIgnoringCase(s, "THREATS_MEDIUM");
  }

  /** The JSON body posted to the intake endpoint for one device. */
  datatype IntakeNotice = IntakeNotice(
    email: Json,
    currentLevel: RiskLevel,
    previousLevel: string,
    reason: string,
    eventTimestamp: Json)
  {
    function ToJson(): Json
    {
      JObj(map[
        "user" := JObj(map["email" := email]),
        "risk" := JObj(map[
          "current_level" := JStr(currentLevel.Name()),
          "previous_level" := JStr(previousLevel),
          "reason" := JStr(reason)]),
        "event_timestamp" := eventTimestamp])
    }
  }

  function Reason(status: string, email: string): string
  {
    "Lookout security_status=" + status + " for " + email
  }

  /** What the loop body does with one listed device. `Abort` is an exception thrown inside the loop. */
  datatype DeviceStep = Skip | Post(notice: IntakeNotice) | Abort

  /** A device with a truthy email and status whose status maps to medium or high. */
  ghost predicate Qualifies(d: Json)
  {
    var email := Prop(Some(d), "email");
    var status := Prop(Some(d), "security_status");
    Truthy(email) && Truthy(status)
    && MapSecurityStatus(status).Done? && MapSecurityStatus(status).value.Some?
    && MapSecurityStatus(status).value.value != Low
  }

  /**
   * One pass of the loop body. Reading `d.email` throws on a null entry; the string
   * conversions of the status (when mapped) and of the email (when the reason is built)
   * can throw too.
   */
  function ProcessDevice(d: Json, nowIso: string): (step: DeviceStep)
    ensures d.JNull? ==> step == Abort
    ensures !d.JNull? && !Qualifies(d) && MapSecurityStatus(Prop(Some(d), "security_status")).Done? ==>
      step == Skip
    ensures step == Skip ==> !Qualifies(d)
    ensures step.Post? ==>
      var email := Prop(Some(d), "email");
      var status := Prop(Some(d), "security_status");
      && Qualifies(d)
      && step.notice.email == email.value
      && MapSecurityStatus(status) == Done(Some(step.notice.currentLevel))
      && step.notice.previousLevel == "low"
      && ToJsString(status.value).Done? && ToJsString(email.value).Done?
      && step.notice.reason == Reason(ToJsString(status.value).value, ToJsString(email.value).value)
      && step.notice.eventTimestamp == Or(Prop(Some(d), "updated_time"), Some(JStr(nowIso))).value
    ensures Qualifies(d) && ToJsString(Prop(Some(d), "email").value).Done? ==> step.Post?
    ensures !d.JNull? && (!Truthy(Prop(Some(d), "email")) || !Truthy(Prop(Some(d), "security_status"))) ==>
      step == Skip
  {
    if d.JNull? then Abort
    else
      var email := Prop(Some(d), "email");
      var status := Prop(Some(d), "security_status");
      if !Truthy(email) || !Truthy(status) then Skip
      else
        match MapSecurityStatus(status)
        case Threw => Abort
        case Done(level) =>
          if level.None? || level.value == Low then Skip
          else
            var eventTimestamp := Or(Prop(Some(d), "updated_time"), Some(JStr(nowIso)));
            match (ToJsString(status.value), ToJsString(email.value))
            case (Done(s), Done(e)) => Post(IntakeNotice(email.value, level.value, "low", Reason(s, e), eventTimestamp.value))
            case _ => Abort
  }

  /**
   * A device ends the cycle exactly when it is a null entry, when its present email and
   * status go on to a status conversion that throws, or when it qualifies and its email
   * cannot be converted for the reason text.
   */
  lemma ProcessDeviceAbortsIff(d: Json, nowIso: string)
    ensures ProcessDevice(d, nowIso) == Abort <==>
      var email := Prop(Some(d), "email");
      var status := Prop(Some(d), "security_status");
      || d.JNull?
      || (Truthy(email) && Truthy(status) && ToJsString(status.value).Threw?)
      || (Qualifies(d) && ToJsString(email.value).Threw?)
  {
  }

  /** The notices a pass over the listing posts, and whether an exception ended it early. */
  datatype Sweep = Sweep(notices: seq<IntakeNotice>, aborted: bool)

  function SweepDevices(devices: seq<Json>, nowIso: string): (w: Sweep)
    ensures |w.notices| <= |devices|
    decreases |devices|
  {
    if devices == [] then Sweep([], false)
    else
      Advance(SweepDevices(devices[..|devices| - 1], nowIso), ProcessDevice(devices[|devices| - 1], nowIso))
  }

  /** The pass after one more device's step: nothing changes once it has ended. */
  function Advance(prior: Sweep, step: DeviceStep): Sweep
  {
    if prior.aborted then prior
    else
      match step
      case Skip => prior
      case Post(n) => Sweep(prior.notices + [n], false)
      case Abort => Sweep(prior.notices, true)
  }

  /**
   * The pass is compositional and keeps listing order: over `a + b` it posts the notices
   * of `a` and then, unless `a` ended in an exception, those of `b`.
   */
  lemma {:induction false} SweepConcat(a: seq<Json>, b: seq<Json>, nowIso: string)
    ensures var wa := SweepDevices(a, nowIso);
      SweepDevices(a + b, nowIso) ==
        if wa.aborted then wa
        else Sweep(wa.notices + SweepDevices(b, nowIso).notices, SweepDevices(b, nowIso).aborted)
    decreases |b|
  {
    if b == [] {
      assert a + b == a;
      assert SweepDevices(a, nowIso).notices + [] == SweepDevices(a, nowIso).notices;
    } else {
      var b' := b[..|b| - 1];
      assert (a + b)[..|a + b| - 1] == a + b';
      assert (a + b)[|a + b| - 1] == b[|b| - 1];
      SweepConcat(a, b', nowIso);
      var wa := SweepDevices(a, nowIso);
      if !wa.aborted {
        var wb' := SweepDevices(b', nowIso);
        match ProcessDevice(b[|b| - 1], nowIso)
        case Post(n) =>
          assert wa.notices + wb'.notices + [n] == wa.notices + (wb'.notices + [n]);
        case _ =>
      }
    }
  }

  /** One more device ends the pass early exactly when the pass had ended or that device throws. */
  lemma SweepStepAborted(devices: seq<Json>, nowIso: string)
    requires devices != []
    ensures SweepDevices(devices, nowIso).aborted <==>
      SweepDevices(devices[..|devices| - 1], nowIso).aborted || ProcessDevice(devices[|devices| - 1], nowIso) == Abort
  {
  }

  /** A pass that ended early was ended by some device that throws. */
  lemma {:induction false} SweepAbortHasCause(devices: seq<Json>, nowIso: string)
    requires SweepDevices(devices, nowIso).aborted
    ensures exists i :: 0 <= i < |devices| && ProcessDevice(devices[i], nowIso) == Abort
    decreases |devices|
  {
    var init := devices[..|devices| - 1];
    SweepStepAborted(devices, nowIso);
    if SweepDevices(init, nowIso).aborted {
      SweepAbortHasCause(init, nowIso);
      var i :| 0 <= i < |init| && ProcessDevice(init[i], nowIso) == Abort;
      assert devices[i] == init[i];
    } else {
      assert ProcessDevice(devices[|devices| - 1], nowIso) == Abort;
    }
  }

  /** A device that throws ends the pass early. */
  lemma {:induction false} SweepAbortsAtThrowingDevice(devices: seq<Json>, nowIso: string, i: nat)
    requires i < |devices| && ProcessDevice(devices[i], nowIso) == Abort
    ensures SweepDevices(devices, nowIso).aborted
    decreases |devices|
  {
    SweepStepAborted(devices, nowIso);
    if i < |devices| - 1 {
      var init := devices[..|devices| - 1];
      assert init[i] == devices[i];
      SweepAbortsAtThrowingDevice(init, nowIso, i);
    }
  }

  /** The pass ends early exactly when some device's step throws. */
  lemma SweepAbortedIff(devices: seq<Json>, nowIso: string)
    ensures SweepDevices(devices, nowIso).aborted <==>
      exists i :: 0 <= i < |devices| && ProcessDevice(devices[i], nowIso) == Abort
  {
    if SweepDevices(devices, nowIso).aborted {
      SweepAbortHasCause(devices, nowIso);
    } else {
      forall i | 0 <= i < |devices| ensures ProcessDevice(devices[i], nowIso) != Abort {
        if ProcessDevice(devices[i], nowIso) == Abort {
          SweepAbortsAtThrowingDevice(devices, nowIso, i);
        }
      }
    }
  }

  /** Every posted notice is some listed device's post, raised from "low" to medium or high. */
  lemma {:induction false} SweepNoticesComeFromDevices(devices: seq<Json>, nowIso: string, n: IntakeNotice)
    requires n in SweepDevices(devices, nowIso).notices
    ensures exists i :: 0 <= i < |devices| && ProcessDevice(devices[i], nowIso) == Post(n)
    ensures n.previousLevel == "low" && n.currentLevel != Low
    decreases |devices|
  {
    var init := devices[..|devices| - 1];
    var last := devices[|devices| - 1];
    var prior := SweepDevices(init, nowIso);
    if n in prior.notices {
      SweepNoticesComeFromDevices(init, nowIso, n);
      var i :| 0 <= i < |init| && ProcessDevice(init[i], nowIso) == Post(n);
      assert devices[i] == init[i];
    } else {
      assert ProcessDevice(last, nowIso) == Post(n);
    }
  }

  /** A qualifying device listed before any exception is posted. */
  lemma SweepPostsQualifyingDevice(devices: seq<Json>, nowIso: string, i: nat)
    requires i < |devices|
    requires forall j :: 0 <= j < i ==> ProcessDevice(devices[j], nowIso) != Abort
    requires ProcessDevice(devices[i], nowIso).Post?
    ensures ProcessDevice(devices[i], nowIso).notice in SweepDevices(devices, nowIso).notices
  {
    var n := ProcessDevice(devices[i], nowIso).notice;
    var a := devices[..i];
    assert devices[..i + 1] == a + [devices[i]];
    assert devices == devices[..i + 1] + devices[i + 1..];
    SweepAbortedIff(a, nowIso);
    assert !SweepDevices(a, nowIso).aborted by {
      forall j | 0 <= j < |a| ensures ProcessDevice(a[j], nowIso) != Abort { assert a[j] == devices[j]; }
    }
    assert (a + [devices[i]])[..|a|] == a;
    assert SweepDevices(devices[..i + 1], nowIso).notices == SweepDevices(a, nowIso).notices + [n];
    SweepConcat(devices[..i + 1], devices[i + 1..], nowIso);
  }

  /** How the intake post for one notice was logged. */
  datatype PostLog = PostSent | PostRejected(status: int, text: string) | PostException

  function PostLogOf(reply: Http.Reply): (l: PostLog)
    ensures l == PostSent <==> reply.Ok()
    ensures l.PostRejected? ==> reply.Response? && l.status == reply.status && |l.text| <= 500
    ensures reply.Response? && !reply.Ok() && reply.text.Some? ==>
      l == PostRejected(reply.status, Take(reply.text.value, 500))
    // A failed fetch, or a rejection whose text cannot be read, lands in the catch.
    ensures reply.NetworkError? || (!reply.Ok() && reply.text.None?) ==> l == PostException
  {
    match reply
    case NetworkError => PostException
    case Response(status, text, _) =>
      if reply.Ok() then PostSent
      else if text.None? then PostException
      else PostRejected(status, Take(text.value, 500))
  }

  /** The log lines of the first `n` posts, whose answers are `replies(0)`, ..., `replies(n - 1)`. */
  function PostLogs(replies: nat -> Http.Reply, n: nat): (logs: seq<PostLog>)
    ensures |logs| == n
  {
    if n == 0 then [] else PostLogs(replies, n - 1) + [PostLogOf(replies(n - 1))]
  }

  /** The k-th log line is how the k-th post's answer was logged. */
  lemma {:induction false} PostLogsAt(replies: nat -> Http.Reply, n: nat)
    ensures forall k :: 0 <= k < n ==> PostLogs(replies, n)[k] == PostLogOf(replies(k))
  {
    if n > 0 {
      PostLogsAt(replies, n - 1);
    }
  }

  /** Once a prefix of the listing has ended the pass, the rest of the listing changes nothing. */
  lemma SweepKeepsAbort(devices: seq<Json>, j: nat, nowIso: string)
    requires j <= |devices| && SweepDevices(devices[..j], nowIso).aborted
    ensures SweepDevices(devices, nowIso) == SweepDevices(devices[..j], nowIso)
  {
    assert devices == devices[..j] + devices[j..];
    SweepConcat(devices[..j], devices[j..], nowIso);
  }

  /** One more device extends the pass by that device's step, unless the pass already ended. */
  lemma SweepExtends(devices: seq<Json>, i: nat, nowIso: string)
    requires i < |devices|
    ensures SweepDevices(devices[..i + 1], nowIso) ==
      Advance(SweepDevices(devices[..i], nowIso), ProcessDevice(devices[i], nowIso))
  {
    assert devices[..i + 1][..i] == devices[..i];
  }

  /**
   * The `for (const d of devices)` loop. `intakeReplies(k)` is the answer to the k-th
   * post; whatever it is, the loop goes on with the next device.
   */
  method PostDevices(devices: seq<Json>, nowIso: string, intakeReplies: nat -> Http.Reply)
    returns (posted: seq<IntakeNotice>, log: seq<PostLog>, aborted: bool)
    ensures posted == SweepDevices(devices, nowIso).notices
    ensures aborted == SweepDevices(devices, nowIso).aborted
    ensures log == PostLogs(intakeReplies, |posted|)
  {
    posted, aborted := [], false;
    var i := 0;
    while i < |devices|
      invariant 0 <= i <= |devices|
      invariant SweepDevices(devices[..i], nowIso) == Sweep(posted, false)
    {
      // The step for one device is `ProcessDevice`; the loop sends its post and moves on.
      var step := ProcessDevice(devices[i], nowIso);
      SweepExtends(devices, i, nowIso);
      if step.Abort? {
        aborted := true;
        break;
      }
      if step.Post? {
        posted := posted + [step.notice];
      }
      i := i + 1;
    }
    // Each post's answer decides only that post's log line, so the log is the
    // lines of the answers to the |posted| posts, in the order they were sent.
    log := PostLogs(intakeReplies, |posted|);
    if aborted {
      SweepKeepsAbort(devices, i + 1, nowIso);
    } else {
      assert devices[..i] == devices;
    }
  }

  /** How a cycle ended. */
  datatype CycleEnd =
    | WindowInvalid                          // toISOString threw before anything else
    | TokenUnavailable(error: LookoutAuth.AuthError)
    | ListingError(status: int)              // non-2xx listing response
    | ListingException                       // header, fetch, body read or decoding threw
    | ListingUnusable                        // `data.devices` read on a null body
    | CountUnprintable                       // the log line's `${data.count ?? "?"}` threw
    | DeviceAborted                          // an exception inside the device loop
    | Completed

  /** The devices of a listing reply, or how reading it ended the cycle. */
  datatype Listing = Devices(items: seq<Json>) | Unavailable(end: CycleEnd)

  /**
   * Whether the log line after the listing throws: `data.count ?? "?"` is converted to a
   * string, which fails for an object carrying its own `toString` key.
   */
  predicate CountThrows(data: Json)
  {
    var count := Prop(Some(data), "count");
    count.Some? && !count.value.JNull? && ToJsString(count.value).Threw?
  }

  /**
   * The listing's `devices` field; a field that is not an array counts as no devices.
   * The count logged next can still throw, which ends the cycle before the loop.
   */
  function ReadListing(reply: Http.Reply): (l: Listing)
    ensures l.Devices? <==>
      reply.Ok() && reply.json.Some? && !reply.json.value.JNull? && !CountThrows(reply.json.value)
    ensures l == Unavailable(CountUnprintable) <==>
      reply.Ok() && reply.json.Some? && !reply.json.value.JNull? && CountThrows(reply.json.value)
    ensures l.Devices? && Prop(reply.json, "devices").Some? && Prop(reply.json, "devices").value.JArr? ==>
      l.items == Prop(reply.json, "devices").value.elems
    ensures l.Devices? && !(Prop(reply.json, "devices").Some? && Prop(reply.json, "devices").value.JArr?) ==>
      l.items == []
    ensures reply.Response? && !reply.Ok() && reply.text.Some? ==> l == Unavailable(ListingError(reply.status))
    // A failure inside the `try` around the fetch and `resp.json()`.
    ensures reply.NetworkError? || (!reply.Ok() && reply.text.None?) || (reply.Ok() && reply.json.None?) ==>
      l == Unavailable(ListingException)
    // A null body only fails at `data.devices`, after the `try`.
    ensures reply.Ok() && reply.json == Some(JNull) ==> l == Unavailable(ListingUnusable)
    ensures l.Unavailable? ==>
      l.end.ListingError? || l.end == ListingException || l.end == ListingUnusable || l.end == CountUnprintable
  {
    match reply
    case NetworkError => Unavailable(ListingException)
    case Response(status, text, json) =>
      if !reply.Ok() then
        if text.None? then Unavailable(ListingException) else Unavailable(ListingError(status))
      else if json.None? then Unavailable(ListingException)
      else if json.value.JNull? then Unavailable(ListingUnusable)
      else
        var devices := Prop(json, "devices");
        if CountThrows(json.value) then Unavailable(CountUnprintable)
        else if devices.Some? && devices.value.JArr? then Devices(devices.value.elems) else Devices([])
  }

  /** The listing GET: endpoint, Authorization header and query parameters. */
  datatype ListingRequest = ListingRequest(
    url: string,
    bearerToken: string,                     // sent as "Authorization: Bearer <bearerToken>"
    limit: int,
    updatedSince: int,
    enterpriseGuid: Option<string>)

  /** The environment the poller reads, already parsed (`sinceMinutes` is `parseInt`'s result). */
  datatype PollConfig = PollConfig(
    baseUrlEnv: Option<string>,
    sinceMinutes: Num,
    enterpriseGuidEnv: Option<string>,
    appKeyEnv: Option<string>,
    tokenUrlEnv: Option<string>)

  /** `process.env.LOOKOUT_BASE_URL || DefaultBaseUrl` */
  function BaseUrl(cfg: PollConfig): (url: string)
    ensures url != ""
    ensures cfg.baseUrlEnv.Some? && cfg.baseUrlEnv.value != "" ==> url == cfg.baseUrlEnv.value
    ensures cfg.baseUrlEnv.None? || cfg.baseUrlEnv.value == "" ==> url == DefaultBaseUrl
  {
    if cfg.baseUrlEnv.Some? && cfg.baseUrlEnv.value != "" then cfg.baseUrlEnv.value else DefaultBaseUrl
  }

  /** `process.env.LOOKOUT_ENTERPRISE_GUID || null`: the tenant is pinned only by a non-empty value. */
  function EnterpriseGuid(cfg: PollConfig): (guid: Option<string>)
    ensures guid.Some? <==> cfg.enterpriseGuidEnv.Some? && cfg.enterpriseGuidEnv.value != ""
    ensures guid.Some? ==> guid == cfg.enterpriseGuidEnv
  {
    if cfg.enterpriseGuidEnv.Some? && cfg.enterpriseGuidEnv.value != "" then cfg.enterpriseGuidEnv else None
  }

  /**
   * `pollLookoutOnce()`: window, token, listing, then the device loop. Network answers
   * are inputs; `listing` is the listing request actually sent.
   */
  method PollOnce(
    cache: LookoutAuth.TokenCache, cfg: PollConfig, nowMs: int, nowIso: string,
    tokenReply: Http.Reply, listingReply: Http.Reply, intakeReplies: nat -> Http.Reply)
    returns (end: CycleEnd, listing: Option<ListingRequest>, posted: seq<IntakeNotice>, log: seq<PostLog>)
    modifies cache
    ensures IsoSince(nowMs, cfg.sinceMinutes).Threw? ==>
      end == WindowInvalid && cache.token == old(cache.token) && cache.expiresAt == old(cache.expiresAt)
    ensures end.TokenUnavailable? ==> listing == None && !old(cache.Serves(nowMs))
    // The token cache afterwards: untouched unless an exchange was sent, then as it leaves it.
    ensures (old(cache.Serves(nowMs)) || LookoutAuth.AppKey(cfg.appKeyEnv) == "") ==>
      cache.token == old(cache.token) && cache.expiresAt == old(cache.expiresAt)
    ensures (IsoSince(nowMs, cfg.sinceMinutes).Done? && !old(cache.Serves(nowMs))
             && LookoutAuth.AppKey(cfg.appKeyEnv) != "") ==>
      var x := LookoutAuth.AfterExchange(LookoutAuth.Slot(old(cache.token), old(cache.expiresAt)), nowMs, tokenReply);
      && LookoutAuth.Slot(cache.token, cache.expiresAt) == x.slot
      && (end.TokenUnavailable? <==> x.result.Err?)
      && (x.result.Err? ==> end == TokenUnavailable(x.result.error))
    ensures old(cache.Serves(nowMs)) ==> !end.TokenUnavailable?
    ensures (IsoSince(nowMs, cfg.sinceMinutes).Done? && !old(cache.Serves(nowMs))
             && LookoutAuth.AppKey(cfg.appKeyEnv) == "") ==>
      end == TokenUnavailable(LookoutAuth.MissingAppKey)
    ensures listing.Some? ==>
      && listing.value.url == BaseUrl(cfg) + DevicesPath
      && listing.value.limit == DeviceLimit
      && IsoSince(nowMs, cfg.sinceMinutes) == Done(listing.value.updatedSince)
      && listing.value.enterpriseGuid == EnterpriseGuid(cfg)
      && JsString(cache.token) == Done(listing.value.bearerToken)
    ensures end != Completed && end != DeviceAborted ==> posted == [] && log == []
    ensures end == Completed || end == DeviceAborted ==>
      listing.Some? && ReadListing(listingReply).Devices?
      && var w := SweepDevices(ReadListing(listingReply).items, nowIso);
         posted == w.notices && (end == DeviceAborted <==> w.aborted)
    ensures |log| == |posted| && forall k :: 0 <= k < |log| ==> log[k] == PostLogOf(intakeReplies(k))
    // How the cycle ends once the window and the token are settled.
    ensures end == WindowInvalid <==> IsoSince(nowMs, cfg.sinceMinutes).Threw?
    ensures end != WindowInvalid && !end.TokenUnavailable? ==>
      && (JsString(cache.token).Threw? ==> end == ListingException && listing == None)
      && (JsString(cache.token).Done? ==>
            && listing.Some?
            && (ReadListing(listingReply).Unavailable? ==> end == ReadListing(listingReply).end)
            && (ReadListing(listingReply).Devices? ==> end == Completed || end == DeviceAborted))
  {
    posted, log, listing := [], [], None;
    var since := IsoSince(nowMs, cfg.sinceMinutes);
    if since.Threw? {
      return WindowInvalid, listing, posted, log;
    }
    var token, tokenRequest := cache.GetToken(nowMs, cfg.appKeyEnv, cfg.tokenUrlEnv, tokenReply);
    if token.Err? {
      return TokenUnavailable(token.error), listing, posted, log;
    }
    var bearer := JsString(token.value);
    if bearer.Threw? {
      return ListingException, listing, posted, log;
    }
    listing := Some(ListingRequest(BaseUrl(cfg) + DevicesPath, bearer.value, DeviceLimit,
                                   since.value, EnterpriseGuid(cfg)));
    var read := ReadListing(listingReply);
    if read.Unavailable? {
      return read.end, listing, posted, log;
    }
    var aborted;
    posted, log, aborted := PostDevices(read.items, nowIso, intakeReplies);
    PostLogsAt(intakeReplies, |posted|);
    end := if aborted then DeviceAborted else Completed;
  }

  /** `startLookoutPolling()`: polling is armed only when the raw credential variable is non-empty. */
  function PollingStarted(appKeyEnv: Option<string>): (started: bool)
    ensures started <==> appKeyEnv.Some? && appKeyEnv.value != ""
  {
    appKeyEnv.Some? && appKeyEnv.value != ""
  }
}
