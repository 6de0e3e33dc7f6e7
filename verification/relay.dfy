/**
 * Properties of the relay as a whole: what the poller posts is what the intake endpoint
 * accepts and signs, the discovery document advertises the event the endpoint emits, and
 * the scenarios the relay is built for.
 */
module Relay {
  import opened Wrappers
  import opened JsValues
  import opened RiskLevels
  import Http
  import LookoutAuth
  import LookoutPoll
  import LookoutIntake
  import Server

  /**
   * A notice with a truthy email, "low" as its previous level and a reason passes the intake's
   * validation; unless its timestamp's conversion throws, the SET built from it carries
   * the notice's level, subject and reason, with low as the previous level.
   */
  lemma NoticeBuildsMatchingSet(
    n: LookoutPoll.IntakeNotice,
    cfg: LookoutIntake.IntakeConfig, nowMs: int, jti: string, parseDate: string -> Option<int>)
    requires Truthy(Some(n.email)) && n.previousLevel == "low" && n.reason != ""
    ensures var r := LookoutIntake.BuildSet(n.ToJson(), cfg, nowMs, jti, parseDate);
      && r != Err(LookoutIntake.MissingFields)
      && (LookoutIntake.EventTimestamp(Some(n.eventTimestamp), nowMs, parseDate).Done? ==> r.Ok?)
      && (r.Ok? ==>
            var e := r.value.events[LookoutIntake.DeviceRiskChange];
            && e.currentLevel == n.currentLevel
            && e.previousLevel == Low
            && e.subject == LookoutIntake.UserSubject("email", n.email)
            && e.reasonAdmin == JStr(n.reason))
  {
    var body := n.ToJson();
    assert LookoutIntake.Email(body) == Some(n.email);
    assert LookoutIntake.RiskField(body, "current_level") == Some(JStr(n.currentLevel.Name()));
    assert LookoutIntake.RiskField(body, "previous_level") == Some(JStr("low"));
    assert LookoutIntake.RiskField(body, "reason") == Some(JStr(n.reason));
    assert Prop(Some(body), "event_timestamp") == Some(n.eventTimestamp);
    LookoutIntake.NormalizeRiskLevelFixesNames(n.currentLevel);
    LookoutIntake.NormalizeRiskLevelFixesNames(Low);
  }

  /** Every notice the poller posts is such a notice, so it builds the matching SET. */
  lemma PolledNoticeBuildsMatchingSet(
    devices: seq<Json>, nowIso: string, n: LookoutPoll.IntakeNotice,
    cfg: LookoutIntake.IntakeConfig, nowMs: int, jti: string, parseDate: string -> Option<int>)
    requires n in LookoutPoll.SweepDevices(devices, nowIso).notices
    ensures var r := LookoutIntake.BuildSet(n.ToJson(), cfg, nowMs, jti, parseDate);
      && r != Err(LookoutIntake.MissingFields)
      && (LookoutIntake.EventTimestamp(Some(n.eventTimestamp), nowMs, parseDate).Done? ==> r.Ok?)
      && (r.Ok? ==>
            var e := r.value.events[LookoutIntake.DeviceRiskChange];
            && e.currentLevel == n.currentLevel
            && e.previousLevel == Low
            && e.subject == LookoutIntake.UserSubject("email", n.email)
            && e.reasonAdmin == JStr(n.reason))
  {
    LookoutPoll.SweepNoticesComeFromDevices(devices, nowIso, n);
    var i :| 0 <= i < |devices| && LookoutPoll.ProcessDevice(devices[i], nowIso) == LookoutPoll.Post(n);
    assert Truthy(Prop(Some(devices[i]), "email"));
    assert n.reason[0] == 'L';
    NoticeBuildsMatchingSet(n, cfg, nowMs, jti, parseDate);
  }

  /**
   * End to end: when the intake endpoint receives a posted notice (the posted text parses
   * back to the notice), the key loads and the identity provider answers 2xx, the request
   * is accepted and the delivered SET carries the poller's level with low as the previous one.
   */
  lemma PolledNoticeIsAccepted(
    devices: seq<Json>, nowIso: string, n: LookoutPoll.IntakeNotice, posted: string,
    parse: string -> Option<Json>, cfg: LookoutIntake.IntakeConfig, nowMs: int, jti: string,
    parseDate: string -> Option<int>, key: string, delivery: Http.Reply)
    requires n in LookoutPoll.SweepDevices(devices, nowIso).notices
    requires posted != "" && parse(posted) == Some(n.ToJson())
    requires LookoutIntake.EventTimestamp(Some(n.eventTimestamp), nowMs, parseDate).Done?
    requires delivery.Ok()
    ensures var o := LookoutIntake.IntakeOutcome(
        Some(posted), parse, cfg, nowMs, jti, parseDate, LookoutIntake.KeyReady(key), delivery);
      && o.0 == LookoutIntake.Accepted && o.0.Status() == 202
      && o.1.Some?
      && o.1.value.payload.events[LookoutIntake.DeviceRiskChange].currentLevel == n.currentLevel
      && o.1.value.payload.events[LookoutIntake.DeviceRiskChange].previousLevel == Low
  {
    PolledNoticeBuildsMatchingSet(devices, nowIso, n, cfg, nowMs, jti, parseDate);
  }

  /** Every SET the intake endpoint builds names the issuer and an event type the discovery document advertises. */
  lemma DiscoveryAdvertisesEmittedEvents(
    cfg: Server.Config, body: Json, nowMs: int, jti: string, parseDate: string -> Option<int>)
    requires LookoutIntake.BuildSet(body, LookoutIntake.IntakeConfig(cfg.issuer, cfg.oktaOrg), nowMs, jti, parseDate).Ok?
    ensures var p := LookoutIntake.BuildSet(body, LookoutIntake.IntakeConfig(cfg.issuer, cfg.oktaOrg), nowMs, jti, parseDate).value;
      && p.events.Keys <= Server.WellKnown(cfg.issuer).eventsSupported
      && p.iss == Server.WellKnown(cfg.issuer).issuer
  {
  }

  /** A listed device with an email and the THREATS_HIGH status. */
  function HighDevice(): Json
  {
    JObj(map["email" := JStr("a@x.com"), "security_status" := JStr("THREATS_HIGH")])
  }

  /** The status THREATS_HIGH maps to high. */
  lemma HighDeviceMapsToHigh()
    ensures LookoutPoll.MapSecurityStatus(Some(JStr("THREATS_HIGH"))) == Done(Some(High))
  {
    LookoutPoll.KeywordsAreUpper();
    assert ToUpper("THREATS_HIGH") == "THREATS_HIGH";
  }

  /** The device is posted as a change from low to high, stamped with the cycle's time. */
  lemma HighDeviceIsPosted(nowIso: string)
    ensures LookoutPoll.ProcessDevice(HighDevice(), nowIso) == LookoutPoll.Post(HighNotice(nowIso))
  {
    var d := HighDevice();
    assert Prop(Some(d), "email") == Some(JStr("a@x.com"));
    assert Prop(Some(d), "security_status") == Some(JStr("THREATS_HIGH"));
    assert Prop(Some(d), "updated_time") == None;
    assert Truthy(Some(JStr("a@x.com"))) && Truthy(Some(JStr("THREATS_HIGH")));
    assert ToJsString(JStr("THREATS_HIGH")) == Done("THREATS_HIGH");
    assert ToJsString(JStr("a@x.com")) == Done("a@x.com");
    assert Or(None, Some(JStr(nowIso))) == Some(JStr(nowIso));
    HighDeviceMapsToHigh();
  }

  /** The notice posted for `HighDevice()` in a cycle whose formatted time is `nowIso`. */
  function HighNotice(nowIso: string): LookoutPoll.IntakeNotice
  {
    LookoutPoll.IntakeNotice(JStr("a@x.com"), High, "low", LookoutPoll.Reason("THREATS_HIGH", "a@x.com"), JStr(nowIso))
  }

  /** A listing of that device alone posts exactly its notice and completes. */
  lemma HighDeviceAloneIsPostedOnce(nowIso: string)
    ensures LookoutPoll.SweepDevices([HighDevice()], nowIso) == LookoutPoll.Sweep([HighNotice(nowIso)], false)
  {
    var d := HighDevice();
    HighDeviceIsPosted(nowIso);
    assert [d][..0] == [];
  }

  /**
   * Whenever a cycle's listing holds the THREATS_HIGH device and no entry before it
   * throws, that cycle posts it as a change from low to high, stamped with the cycle's
   * time. A pass takes nothing from earlier cycles, so the device is posted again on
   * every such cycle.
   */
  lemma HighDeviceIsPostedEachCycle(devices: seq<Json>, i: nat, nowIso: string)
    requires i < |devices| && devices[i] == HighDevice()
    requires forall j :: 0 <= j < i ==> LookoutPoll.ProcessDevice(devices[j], nowIso) != LookoutPoll.Abort
    ensures HighNotice(nowIso) in LookoutPoll.SweepDevices(devices, nowIso).notices
  {
    HighDeviceIsPosted(nowIso);
    LookoutPoll.SweepPostsQualifyingDevice(devices, nowIso, i);
  }

  /**
   * A 2xx listing whose `count` is an object with its own `toString` key ends the cycle
   * at the log line after the listing: the listed device is never posted.
   */
  lemma UnprintableCountPostsNothing(text: Option<string>)
    ensures var data := JObj(map["devices" := JArr([HighDevice()]), "count" := JObj(map["toString" := JNum(1)])]);
      LookoutPoll.ReadListing(Http.Response(200, text, Some(data))) == LookoutPoll.Unavailable(LookoutPoll.CountUnprintable)
  {
    var count := JObj(map["toString" := JNum(1)]);
    var data := JObj(map["devices" := JArr([HighDevice()]), "count" := count]);
    assert Prop(Some(data), "count") == Some(count);
    assert ToJsString(count) == Threw;
  }

  /** A notice without `user.email` is a 400 `missing_fields`, and nothing is signed or delivered. */
  lemma MissingEmailIsRejected(
    cfg: LookoutIntake.IntakeConfig, nowMs: int, jti: string, parseDate: string -> Option<int>,
    parse: string -> Option<Json>, text: string, key: LookoutIntake.KeyLoad, delivery: Http.Reply)
    requires text != ""
    requires parse(text) == Some(JObj(map["user" := JObj(map[]), "risk" := JObj(map["current_level" := JStr("high")])]))
    ensures LookoutIntake.IntakeOutcome(Some(text), parse, cfg, nowMs, jti, parseDate, key, delivery)
      == (LookoutIntake.MissingFields, None)
    ensures LookoutIntake.IntakeReply.MissingFields.Status() == 400 && LookoutIntake.IntakeReply.MissingFields.Code() == "missing_fields"
  {
    var body := JObj(map["user" := JObj(map[]), "risk" := JObj(map["current_level" := JStr("high")])]);
    assert LookoutIntake.Email(body) == None;
  }

  /**
   * The polling guard tests the raw credential variable while the token call tests the
   * stripped key: a credential of whitespace alone starts polling, yet no token can be obtained.
   */
  lemma WhitespaceKeyStartsPollingWithoutCredential(k: string)
    requires k != "" && forall i :: 0 <= i < |k| ==> IsJsSpace(k[i])
    ensures LookoutPoll.PollingStarted(Some(k))
    ensures LookoutAuth.AppKey(Some(k)) == ""
  {
    LookoutAuth.SanitizeAllSpace(k);
  }
}
