/**
 * The upstream access-token cache: one process-wide slot `{token, expiresAt}` refreshed by
 * an OAuth2 client-credentials exchange against the vendor's token endpoint.
 */
module LookoutAuth {
  import opened Wrappers
  import opened JsValues
  import Http

  const DefaultTokenUrl := "https://api.lookout.com/oauth2/token"
  const GrantBody := "grant_type=client_credentials"
  /** A cached token stops being served this many seconds before its literal expiry. */
  const RefreshMarginSeconds := 60

  datatype AuthError =
    | MissingAppKey                          // credential empty after stripping whitespace
    | TokenRejected(status: int, text: string) // non-2xx answer from the token endpoint
    | ExchangeFailed                         // fetch, body read or JSON decoding threw
    | GrantUnreadable                        // reading the grant's fields threw

  /** The POST the exchange sends: endpoint, Authorization header and form body. */
  datatype TokenRequest = TokenRequest(url: string, authorization: string, body: string)

  /** The contents of the cache slot. */
  datatype Slot = Slot(token: Option<Json>, expiresAt: Num)

  /** The slot and the call's result after an exchange was attempted. */
  datatype Exchange = Exchange(slot: Slot, result: Result<Option<Json>, AuthError>)

  ghost predicate HasNoSpace(s: string)
  {
    forall i :: 0 <= i < |s| ==> !IsJsSpace(s[i])
  }

  /** `raw.replace(/\s+/g, "")` */
  function Sanitize(raw: string): (key: string)
    ensures HasNoSpace(key)
    ensures |key| <= |raw|
    decreases |raw|
  {
    if raw == [] then []
    else (if IsJsSpace(raw[0]) then [] else [raw[0]]) + Sanitize(raw[1..])
  }

  /** Stripping works piece by piece: what is kept of `a + b` is what is kept of `a`, then of `b`. */
  lemma {:induction false} SanitizeConcat(a: string, b: string)
    ensures Sanitize(a + b) == Sanitize(a) + Sanitize(b)
    decreases |a|
  {
    if a != [] {
      assert (a + b)[1..] == a[1..] + b;
      SanitizeConcat(a[1..], b);
    } else {
      assert a + b == b;
    }
  }

  /** A credential is left as it is exactly when it holds no whitespace. */
  lemma {:induction false} SanitizeKeepsCleanKey(raw: string)
    ensures HasNoSpace(raw) <==> Sanitize(raw) == raw
    decreases |raw|
  {
    if raw != [] && HasNoSpace(raw) {
      assert HasNoSpace(raw[1..]) by {
        forall i | 0 <= i < |raw| - 1 ensures !IsJsSpace(raw[1..][i]) { assert raw[1..][i] == raw[i + 1]; }
      }
      SanitizeKeepsCleanKey(raw[1..]);
      assert Sanitize(raw) == [raw[0]] + raw[1..];
    }
  }

  /**
   * The length comparison behind the whitespace warning detects whitespace exactly:
   * the stripped key is as long as the raw one if and only if there was none.
   */
  lemma {:induction false} SanitizeLengthDetectsSpace(raw: string)
    ensures |Sanitize(raw)| == |raw| <==> HasNoSpace(raw)
    decreases |raw|
  {
    SanitizeKeepsCleanKey(raw);
    if raw != [] && |Sanitize(raw)| == |raw| {
      var rest := Sanitize(raw[1..]);
      assert |rest| <= |raw| - 1;
      assert !IsJsSpace(raw[0]);
      assert |rest| == |raw[1..]|;
      SanitizeLengthDetectsSpace(raw[1..]);
      forall i | 0 <= i < |raw| ensures !IsJsSpace(raw[i]) {
        if i > 0 { assert raw[i] == raw[1..][i - 1]; }
      }
    }
  }

  /** A credential made only of whitespace strips to the empty key. */
  lemma {:induction false} SanitizeAllSpace(raw: string)
    requires forall i :: 0 <= i < |raw| ==> IsJsSpace(raw[i])
    ensures Sanitize(raw) == ""
    decreases |raw|
  {
    if raw != [] {
      assert IsJsSpace(raw[0]);
      assert forall i :: 0 <= i < |raw| - 1 ==> raw[1..][i] == raw[i + 1];
      SanitizeAllSpace(raw[1..]);
    }
  }

  /** Stripping twice is stripping once. */
  lemma SanitizeIdempotent(raw: string)
    ensures Sanitize(Sanitize(raw)) == Sanitize(raw)
  {
    SanitizeKeepsCleanKey(Sanitize(raw));
  }

  /** The credential `(process.env.LOOKOUT_APP_KEY || "")` with its whitespace stripped. */
  function AppKey(appKeyEnv: Option<string>): (key: string)
    ensures HasNoSpace(key)
    ensures appKeyEnv.None? ==> key == ""
    ensures appKeyEnv.Some? && HasNoSpace(appKeyEnv.value) ==> key == appKeyEnv.value
  {
    var raw := if appKeyEnv.Some? then appKeyEnv.value else "";
    SanitizeKeepsCleanKey(raw);
    Sanitize(raw)
  }

  /** `process.env.LOOKOUT_TOKEN_URL || DefaultTokenUrl` */
  function TokenUrl(tokenUrlEnv: Option<string>): (url: string)
    ensures url != ""
    ensures tokenUrlEnv.Some? && tokenUrlEnv.value != "" ==> url == tokenUrlEnv.value
    ensures tokenUrlEnv.None? || tokenUrlEnv.value == "" ==> url == DefaultTokenUrl
  {
    if tokenUrlEnv.Some? && tokenUrlEnv.value != "" then tokenUrlEnv.value else DefaultTokenUrl
  }

  /** `now + (expires_in - 60) * 1000`, NaN when `expires_in` converts to NaN. */
  function ExpiryAfter(nowMs: int, expiresIn: Num): (at: Num)
    ensures expiresIn.NaN? <==> at.NaN?
    ensures expiresIn.Finite? ==>
      at.v == nowMs + expiresIn.v * 1000 - RefreshMarginSeconds * 1000
  {
    NumAdd(nowMs, NumMul(NumSub(expiresIn, RefreshMarginSeconds), 1000))
  }

  /** A token granted at `grantedAt` for `expiresIn` seconds is never served within 60 s of its literal expiry. */
  lemma ServedOnlyBeforeMargin(grantedAt: int, expiresIn: int, nowMs: int)
    requires NumGreater(ExpiryAfter(grantedAt, Finite(expiresIn)), nowMs)
    ensures nowMs + RefreshMarginSeconds * 1000 < grantedAt + expiresIn * 1000
  {
  }

  /**
   * The effect of the token endpoint's reply on the slot, and what the call returns.
   * A failed or unreadable reply leaves the slot as it was, except that a grant whose
   * `expires_in` cannot be converted has already overwritten the token.
   */
  function AfterExchange(prior: Slot, nowMs: int, reply: Http.Reply): (x: Exchange)
    ensures !reply.Ok() ==> x.slot == prior && x.result.Err?
    ensures reply.Response? && !reply.Ok() && reply.text.Some? ==>
      x.result == Err(TokenRejected(reply.status, reply.text.value))
    ensures x.result.Ok? <==>
      reply.Ok() && reply.json.Some? && !reply.json.value.JNull?
      && ToNumber(Prop(reply.json, "expires_in")).Done?
    ensures x.result.Ok? ==>
      x.result.value == x.slot.token == Prop(reply.json, "access_token")
      && x.slot.expiresAt == ExpiryAfter(nowMs, ToNumber(Prop(reply.json, "expires_in")).value)
    ensures x.result.Err? ==> x.slot.expiresAt == prior.expiresAt
    ensures x.result.Err? && x.slot != prior ==> x.result.error == GrantUnreadable
    // The half-written slot: the grant's token, stored with the old expiry.
    ensures (reply.Ok() && reply.json.Some? && !reply.json.value.JNull?
             && ToNumber(Prop(reply.json, "expires_in")).Threw?) ==>
      x == Exchange(Slot(Prop(reply.json, "access_token"), prior.expiresAt), Err(GrantUnreadable))
    ensures x.slot != prior ==> reply.Ok() && x.slot.token == Prop(reply.json, "access_token")
    // An unreadable or null body throws before anything is stored.
    ensures x.slot != prior ==> reply.Ok() && reply.json.Some? && !reply.json.value.JNull?
  {
    match reply
    case NetworkError => Exchange(prior, Err(ExchangeFailed))
    case Response(status, text, json) =>
      if !reply.Ok() then
        Exchange(prior, if text.None? then Err(ExchangeFailed) else Err(TokenRejected(status, text.value)))
      else if json.None? then Exchange(prior, Err(ExchangeFailed))
      else if json.value.JNull? then Exchange(prior, Err(GrantUnreadable))
      else
        var token := Prop(json, "access_token");
        match ToNumber(Prop(json, "expires_in"))
        case Threw => Exchange(Slot(token, prior.expiresAt), Err(GrantUnreadable))
        case Done(e) => Exchange(Slot(token, ExpiryAfter(nowMs, e)), Ok(token))
  }

  /** The process-wide `tokenCache` object. */
  class TokenCache {
    var token: Option<Json>
    var expiresAt: Num

    /** The initial slot `{token: null, expiresAt: 0}`, which serves nothing. */
    constructor ()
      ensures token == None && expiresAt == Finite(0)
      ensures !Truthy(token)
    {
      token := None;
      expiresAt := Finite(0);
    }

    /** The cache-hit test `tokenCache.token && tokenCache.expiresAt > now`. */
    predicate Serves(nowMs: int)
      reads this
    {
      Truthy(token) && NumGreater(expiresAt, nowMs)
    }

    /**
     * `getLookoutToken()` at clock reading `nowMs`. `reply` is what the token endpoint
     * would answer; `request` is the exchange actually sent, `None` when none was.
     */
    method GetToken(nowMs: int, appKeyEnv: Option<string>, tokenUrlEnv: Option<string>, reply: Http.Reply)
      returns (r: Result<Option<Json>, AuthError>, request: Option<TokenRequest>)
      modifies this
      // A still-valid cached token is served before the credential is even looked at.
      ensures old(Serves(nowMs)) ==>
        r == Ok(old(token)) && request == None && token == old(token) && expiresAt == old(expiresAt)
      // An empty credential fails before any exchange and leaves the slot alone.
      ensures !old(Serves(nowMs)) && AppKey(appKeyEnv) == "" ==>
        r == Err(MissingAppKey) && request == None && token == old(token) && expiresAt == old(expiresAt)
      // Otherwise exactly one exchange is sent, bearing the stripped credential.
      ensures !old(Serves(nowMs)) && AppKey(appKeyEnv) != "" ==>
        request == Some(TokenRequest(TokenUrl(tokenUrlEnv), "Bearer " + AppKey(appKeyEnv), GrantBody))
      ensures request.Some? ==>
        var x := AfterExchange(Slot(old(token), old(expiresAt)), nowMs, reply);
        Slot(token, expiresAt) == x.slot && r == x.result
      // Whatever is returned is what the cache now holds.
      ensures r.Ok? ==> r.value == token
    {
      if Serves(nowMs) {
        return Ok(token), None;
      }
      var url := TokenUrl(tokenUrlEnv);
      var appKey := AppKey(appKeyEnv);
      if appKey == "" {
        return Err(MissingAppKey), None;
      }
      request := Some(TokenRequest(url, "Bearer " + appKey, GrantBody));
      match reply {
        case NetworkError =>
          r := Err(ExchangeFailed);
        case Response(status, text, json) =>
          if !reply.Ok() {
            r := if text.None? then Err(ExchangeFailed) else Err(TokenRejected(status, text.value));
          } else if json.None? {
            r := Err(ExchangeFailed);
          } else if json.value.JNull? {
            r := Err(GrantUnreadable);
          } else {
            token := Prop(json, "access_token");
            var expiresIn := ToNumber(Prop(json, "expires_in"));
            if expiresIn.Threw? {
              r := Err(GrantUnreadable);
            } else {
              expiresAt := ExpiryAfter(nowMs, expiresIn.value);
              r := Ok(token);
            }
          }
      }
    }
  }
}
