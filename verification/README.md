# Lookout → Okta risk relay, modelled in Dafny

The relay is a small Node.js service. It pulls device security posture from Lookout Mobile Risk API (MRA) and pushes it to Okta as signed Security Event Tokens (SETs). It has four parts, and each has a module here:

- **LookoutAuth** (`src/lookout-auth.mjs`) covers the OAuth client-credentials exchange and the cached access token. The token is served until 60 seconds before it expires.
- **LookoutPoll** (`src/lookout-poll.mjs`) covers one polling cycle:
  - compute the `updated_since` window
  - get a token
  - list up to 200 devices
  - map each device's `security_status` to low, medium or high
  - post a notice for every medium or high device to the service's own intake endpoint

  It also covers the guard that decides whether polling starts.
- **LookoutIntake** (`src/lookout-intake.mjs`) covers the `POST /intake/lookout` handler. The handler validates the notice, normalises both risk levels, picks the event time, builds the device-risk-change SET, loads the signing key once, and delivers the signed SET to Okta's security-events endpoint. It answers 202, 400 or 500.
- **Server** (`src/server.mjs`) covers the startup checks, request routing, the SSF discovery document and the cached JWKS.

The module **Relay** proves properties that span the parts:

- every notice the poller posts passes the intake's validation
- the SET built from a posted notice carries the poller's level, subject and reason, with `low` as the previous level
- the discovery document advertises every event type the intake endpoint emits
- concrete scenarios

Shared modules:

- **JsValues** gives the JavaScript semantics that the decisions depend on:
  - truthiness and optional chaining
  - `String(x)`, including a TypeError for an object with its own `toString` key
  - ASCII `toUpperCase`/`toLowerCase`
  - the `\s` class
  - numeric conversion for `expires_in - 60`
  - NaN
- **Http** models a fetch result as a value: a network error, or a status with a body that may or may not be readable as text and as JSON.
- **RiskLevels** holds the three levels.
- **Wrappers** holds Option and Result.

Every network answer, file read, clock reading, generated `jti`, JSON parse and date-string parse is an input to the model, and no I/O happens inside it. State that lives in module variables in the source is a class with `modifies` clauses:

- `LookoutAuth.TokenCache` for `tokenCache`
- `LookoutIntake.SigningKeyCache` for `privateKeyPromise`
- `Server.JwksStore` for `jwksCache`

Methods that change state are tied to pure functions of the old state and the inputs, and the properties are proved about those functions:

- `TokenCache.GetToken` leaves the cache and result that `AfterExchange` gives.
- `HandleIntake` answers with `IntakeOutcome`.
- The device loop `PostDevices` posts exactly what `SweepDevices` computes.
- `GetPrivateKey` and `GetJwks` state their new cache directly.
- `PollOnce` and `Serve` compose these, and state the new caches too.

The model follows what the code does. Several behaviours are easy to miss:

- **No risk state, no transition detection, no heartbeat.** The poller keeps no per-device history. It sends `previous_level: "low"` every time and re-posts every medium or high device on every cycle whose listing includes it, provided no earlier entry of that listing throws (`Relay.HighDeviceIsPostedEachCycle` for the pass, `LookoutPoll.PollOnce` for how a cycle reaches it).
- **A `null` entry in the device list aborts the cycle.** `d.email` on `null` throws outside any `try`, so the rest of the list is not processed (`LookoutPoll.SweepAbortedIff`).
- **A malformed `expires_in` leaves the cache half written.** The token field is assigned before `expires_in - 60` is evaluated. If that conversion throws (an object with a `toString` key), the new token is stored with the old expiry.
- **Whitespace in the credential is treated inconsistently.** Polling starts when `LOOKOUT_APP_KEY` is set and non-empty. The token call strips all whitespace first, so a credential of spaces starts polling and then fails on every cycle with the missing-key error (`Relay.WhitespaceKeyStartsPollingWithoutCredential`).
- **A failed key load is permanent.** A rejected private-key load is cached like a successful one, so every later intake request that passes JSON parsing and validation fails with 500. Requests rejected with 400 never reach the key. A missing key is not a startup failure.
- **Startup order decides which check fires.** The intake module is evaluated before the server module's body, so a missing `SSF_ISSUER` is reported by the intake module's check. The server's own check can never fire.
- **The listing's log line can end the cycle.** `${data.count ?? "?"}` is evaluated outside any `try`. A `count` object with its own `toString` key throws there, so nothing is posted (`Relay.UnprintableCountPostsNothing`).
- **A falsy parsed JWKS is re-read.** It is not cached and is read again on every request.

## Model

| member | source | states |
|---|---|---|
| JsValues.Or | src/lookout-poll.mjs:127 | `a \|\| b` is `a` when `a` is truthy and `b` otherwise |
| JsValues.Prop | src/lookout-intake.mjs:100-104 | `v?.key` is defined exactly when `v` is an object holding `key`, and is then that field |
| JsValues.IntToDecimal | src/lookout-intake.mjs:67 | a status number prints as a minus sign exactly for negatives, then a digit string whose decimal value is the magnitude, with no leading zero (so "0" is the only form starting with 0) |
| JsValues.IntToDecimalRoundTrip | src/lookout-intake.mjs:67 | reading `String(n)` back as a number gives `n` again |
| JsValues.NatToDecimal | src/lookout-intake.mjs:67 | the decimal form of a natural number is a digit string denoting that number, with no leading zero |
| JsValues.DigitChar | src/lookout-intake.mjs:67 | each decimal digit prints as the character whose code is 48 plus the digit |
| JsValues.ToJsString | src/lookout-poll.mjs:33 | `String()` of a string, number, boolean or null never throws and a string converts to itself; an object throws exactly when it carries its own `toString` key |
| JsValues.JoinFromThrowsIff | src/lookout-poll.mjs:33 | `String()` of an array throws exactly when one of its non-null elements' own conversion throws |
| JsValues.ToUpper | src/lookout-poll.mjs:33 | upper-casing keeps the length and maps every character through the ASCII upper case |
| JsValues.ToLower | src/lookout-intake.mjs:35 | lower-casing keeps the length and maps every character through the ASCII lower case |
| JsValues.UpperMatchesIgnoringCase | src/lookout-poll.mjs:33-36 | for an upper-case keyword, `s.toUpperCase() === keyword` holds exactly when `s` equals the keyword ignoring case |
| JsValues.LowerMatchesIgnoringCase | src/lookout-intake.mjs:35-37 | for a lower-case keyword, `s.toLowerCase() === keyword` holds exactly when `s` equals the keyword ignoring case |
| JsValues.TrimStart | src/lookout-auth.mjs:52 | numeric conversion drops exactly the leading whitespace run: every dropped character is whitespace, and the result is a suffix that does not start with whitespace |
| JsValues.TrimEnd | src/lookout-auth.mjs:52 | numeric conversion drops exactly the trailing whitespace run: every dropped character is whitespace, and the result is a prefix that does not end with whitespace |
| JsValues.NoSpaceIsUntrimmed | src/lookout-auth.mjs:52 | a string that starts and ends with a non-whitespace character is left unchanged by the trimming |
| JsValues.BlankReadsAsZero | src/lookout-auth.mjs:52 | `Number` of text made only of whitespace is 0 |
| JsValues.DigitsReadAsValue | src/lookout-auth.mjs:52 | `Number` of a run of decimal digits is the value those digits denote |
| JsValues.NegatedDigitsReadAsValue | src/lookout-auth.mjs:52 | `Number` of a minus sign followed by decimal digits is the negated value |
| JsValues.ToNumber | src/lookout-auth.mjs:52 | a JSON number converts to itself, a missing field to NaN, null to 0 and a boolean to 0 or 1; a string is read by `StringToNumber`; it throws exactly for an object or array whose string conversion throws |
| JsValues.Take | src/lookout-poll.mjs:153 | `substring(0, n)` is the prefix of length `min(n, length)` |
| RiskLevels.RiskLevel.Name | src/lookout-poll.mjs:35-39 | the wire names are `low`, `medium` and `high`, each as an if-and-only-if with its level |
| RiskLevels.NamesDistinct | src/lookout-intake.mjs:36-38 | the three level names are pairwise different |
| LookoutAuth.Sanitize | src/lookout-auth.mjs:21 | `replace(/\s+/g, "")` leaves no whitespace character and never lengthens the key |
| LookoutAuth.SanitizeConcat | src/lookout-auth.mjs:21 | stripping distributes over concatenation |
| LookoutAuth.SanitizeKeepsCleanKey | src/lookout-auth.mjs:21 | a key is left unchanged exactly when it has no whitespace |
| LookoutAuth.SanitizeLengthDetectsSpace | src/lookout-auth.mjs:28 | the length test behind the "contained whitespace" warning holds exactly when the raw key had whitespace |
| LookoutAuth.SanitizeAllSpace | src/lookout-auth.mjs:20-25 | a credential made only of whitespace strips to the empty key, which is rejected |
| LookoutAuth.SanitizeIdempotent | src/lookout-auth.mjs:21 | stripping twice is stripping once |
| LookoutAuth.AppKey | src/lookout-auth.mjs:20-21 | the credential sent never contains whitespace; it is empty when the variable is unset, and a clean value is sent unchanged |
| LookoutAuth.TokenUrl | src/lookout-auth.mjs:16-17 | the token endpoint is never empty: the configured one when set and non-empty, the public default otherwise |
| LookoutAuth.ExpiryAfter | src/lookout-auth.mjs:52 | the expiry is `now + (expires_in - 60) * 1000`, and NaN exactly when `expires_in` is not a number |
| LookoutAuth.ServedOnlyBeforeMargin | src/lookout-auth.mjs:12-14 | a cached token is served only while more than 60 seconds of its lifetime remain |
| LookoutAuth.AfterExchange | src/lookout-auth.mjs:44-54 | a non-2xx reply fails with the status and text and leaves the cache alone; success holds exactly when the reply is 2xx, its JSON is readable and non-null, and `expires_in` converts; on success the cache holds `access_token` with the computed expiry; when the `expires_in` conversion throws, the cache holds `access_token` with the old expiry; the slot changes only on a 2xx grant with a readable, non-null body, and only to its `access_token` |
| LookoutAuth.TokenCache.constructor | src/lookout-auth.mjs:4-7 | the cache starts with no token and expiry 0 |
| LookoutAuth.TokenCache.GetToken | src/lookout-auth.mjs:9-55 | a valid cached token is returned with no request; an empty stripped key fails before any request and changes nothing; otherwise exactly one POST goes to the token URL with `Bearer <key>` and the client-credentials body, and the new cache and result are those of `AfterExchange`; a returned token is what the cache holds |
| LookoutPoll.IsoSince | src/lookout-poll.mjs:24-27 | the window start is `now - minutes * 60000`, and it is defined exactly when the minutes are a number and the instant is a valid date (`toISOString` throws otherwise) |
| LookoutPoll.MapSecurityStatus | src/lookout-poll.mjs:30-40 | a falsy status gives `null`; the mapping throws exactly when `String(status)` throws |
| LookoutPoll.KeywordsAreUpper | src/lookout-poll.mjs:35-36 | the status keywords are upper case |
| LookoutPoll.MapSecurityStatusCases | src/lookout-poll.mjs:33-39 | THREATS_CRITICAL or THREATS_HIGH, in any case, gives high; THREATS_MEDIUM gives medium; every other present status gives low; each as an if-and-only-if |
| LookoutPoll.ProcessDevice | src/lookout-poll.mjs:97-138 | a `null` entry throws; a device without a truthy email and status is skipped before any conversion; one mapped to low is skipped; a posted notice carries the device's email, its mapped level (never low), previous level `low`, the reason text and `updated_time` or the cycle's time; a qualifying device whose email converts is always posted |
| LookoutPoll.ProcessDeviceAbortsIff | src/lookout-poll.mjs:97-138 | a device ends the cycle exactly when it is `null`, when its present email and status lead to a status conversion that throws, or when it qualifies and its email cannot be converted for the reason |
| LookoutPoll.SweepDevices | src/lookout-poll.mjs:97-177 | a pass over the listing posts no more notices than there are listed devices |
| LookoutPoll.SweepConcat | src/lookout-poll.mjs:97-177 | a pass over `a + b` is the pass over `a`, then, unless that aborted, the pass over `b` |
| LookoutPoll.SweepAbortHasCause | src/lookout-poll.mjs:97-100 | a pass that ended early was ended by some listed device whose step throws |
| LookoutPoll.SweepAbortsAtThrowingDevice | src/lookout-poll.mjs:97-100 | any listed device whose step throws ends the pass early |
| LookoutPoll.SweepAbortedIff | src/lookout-poll.mjs:97-100 | a pass ends early exactly when some device's step throws |
| LookoutPoll.SweepNoticesComeFromDevices | src/lookout-poll.mjs:114-138 | every posted notice is the step of some listed device, with previous level `low` and current level medium or high |
| LookoutPoll.SweepPostsQualifyingDevice | src/lookout-poll.mjs:97-140 | a posting device with no throwing device before it is among the posted notices |
| LookoutPoll.PostLogOf | src/lookout-poll.mjs:147-176 | a post counts as sent exactly when the intake answers 2xx; a rejection with readable text records the status and the first 500 characters of that text; a failed fetch or unreadable rejection text is logged as an exception |
| LookoutPoll.PostLogsAt | src/lookout-poll.mjs:147-175 | the k-th log line of the device loop is the outcome of the k-th post's answer |
| LookoutPoll.PostDevices | src/lookout-poll.mjs:97-177 | the loop posts exactly the notices of `SweepDevices` in order, stops exactly when that pass aborts, and its log is one line per post, taken from that post's answer |
| LookoutPoll.ReadListing | src/lookout-poll.mjs:66-95 | the listing is usable exactly when the reply is 2xx with readable non-null JSON whose `count` can be logged; `devices` is used when it is an array and is empty otherwise; a readable non-2xx reply ends the cycle with its status; an unprintable `count` ends it before the loop; a network error, unreadable rejection text or unreadable body ends it as an exception, and a null body as unusable |
| LookoutPoll.BaseUrl | src/lookout-poll.mjs:5-6 | the listing host is `LOOKOUT_BASE_URL` when set and non-empty, and `https://api.lookout.com` otherwise |
| LookoutPoll.EnterpriseGuid | src/lookout-poll.mjs:14 | a tenant is pinned exactly when `LOOKOUT_ENTERPRISE_GUID` is set and non-empty, and is then that value |
| LookoutPoll.PollOnce | src/lookout-poll.mjs:42-178 | an invalid window ends the cycle before the token; a served or credential-less cache is left as it was, and otherwise the cache is what `AfterExchange` leaves, with the cycle ending on the token error exactly when the exchange fails; the listing request has the base URL, the devices path, limit 200, the window start, the tenant and the bearer token; a cycle that reaches the devices posts exactly `SweepDevices` of the listing, and any other ending posts nothing; the cycle ends on the invalid window exactly when the window is invalid; once the window and the token are settled, an unprintable token ends it with a listing exception before any request, and otherwise the listing is requested and the cycle ends with the listing's own failure or runs the device loop |
| LookoutPoll.PollingStarted | src/lookout-poll.mjs:180-186 | polling starts exactly when `LOOKOUT_APP_KEY` is set and non-empty |
| LookoutIntake.NormalizeRiskLevel | src/lookout-intake.mjs:34-39 | a falsy value is low; normalisation throws exactly when `String(raw)` throws |
| LookoutIntake.KeywordsAreLower | src/lookout-intake.mjs:36-37 | the level keywords are lower case |
| LookoutIntake.NormalizeRiskLevelCases | src/lookout-intake.mjs:35-38 | critical, severe or high, in any case, gives high; medium or moderate gives medium; every other value gives low; each as an if-and-only-if |
| LookoutIntake.NormalizeRiskLevelFixesNames | src/lookout-intake.mjs:34-39 | each level's own name normalises to that level |
| LookoutIntake.NormalizeRiskLevelIdempotent | src/lookout-intake.mjs:34-39 | normalising a normalised level's name gives the same level |
| JsValues.TimeClip | src/lookout-intake.mjs:122 | a `Date` time value is kept exactly when it is within ±8.64e15 ms, and is NaN otherwise |
| LookoutIntake.DateTimeValue | src/lookout-intake.mjs:122 | `new Date(v).getTime()` throws exactly for an object or array whose string conversion throws; null is time 0, a number goes through the Date range, and every finite result lies within that range |
| LookoutIntake.FloorSeconds | src/lookout-intake.mjs:122-125 | `Math.floor(t / 1000)` is the whole second containing `t`, and NaN stays NaN |
| LookoutIntake.EventTimestamp | src/lookout-intake.mjs:121-123 | a falsy `event_timestamp` uses the current second; a number is taken as milliseconds; a date string goes through the date parser and the Date range, NaN when unparsable; only an object or array whose string conversion throws makes it throw |
| LookoutIntake.SetHeader | src/lookout-intake.mjs:48-52 | the JOSE header is RS256, `secevent+jwt`, key id `lookout-ssf-key-1` |
| LookoutIntake.BuildSet | src/lookout-intake.mjs:100-152 | `missing_fields` exactly when the email or current level is falsy; the payload has the issuer, the audience, `iat` in seconds, the jti and a single device-risk-change event with the normalised levels (previous defaulting to low), `system`, the reason or its default, the email subject and the event time |
| LookoutIntake.DeliveryVerdict | src/lookout-intake.mjs:55-71 | delivery is accepted exactly when Okta answers 2xx; otherwise the reply is a 500 whose message is `Okta SSF <status>: <text>` |
| LookoutIntake.BodyText | src/lookout-intake.mjs:89 | an empty body is parsed as `{}` and any other body as itself |
| LookoutIntake.IntakeOutcome | src/lookout-intake.mjs:78-172 | the status is always 202, 400 or 500; `invalid_json` exactly when the body does not parse; `missing_fields` exactly when validation fails; nothing is delivered on a 400; a SET is delivered exactly when it was built and the key loaded, to the org's security-events URL with the SET content type and header; 202 exactly when it was delivered and Okta answered 2xx |
| LookoutIntake.EmptyBodyMissesFields | src/lookout-intake.mjs:89-114 | an empty body is a 400 `missing_fields` and nothing is delivered |
| LookoutIntake.SigningKeyCache.constructor | src/lookout-intake.mjs:16 | no key load has been started |
| LookoutIntake.SigningKeyCache.GetPrivateKey | src/lookout-intake.mjs:21-29 | the first call starts the single load and every call returns its outcome, failure included |
| LookoutIntake.HandleIntake | src/lookout-intake.mjs:78-172 | the reply and the delivery are `IntakeOutcome` with the cached key outcome, or the file's when none is cached; the key cache afterwards holds the file's outcome exactly when it was empty and a SET was built, and is unchanged otherwise, so the file is read at most once and never for a 400 |
| Server.Boot | src/lookout-intake.mjs:7-11 | startup fails on a missing `SSF_ISSUER` first, then on a missing `OKTA_ORG`; otherwise both are used as given, and polling follows the credential guard |
| Server.EffectiveMethod | src/server.mjs:46 | the method is never empty: the request's own method when non-empty, GET otherwise |
| Server.Dispatch | src/server.mjs:52-83 | health for `/` and `/status` on GET or HEAD, discovery and JWKS on GET, intake on POST, each as an if-and-only-if, and 404 otherwise |
| Server.WellKnown | src/server.mjs:33-41 | the discovery document names the issuer, `<issuer>/jwks.json`, push delivery and exactly the device-risk-change and user-risk-change events |
| Server.JwksStore.constructor | src/server.mjs:23 | the JWKS cache starts empty |
| Server.JwksStore.GetJwks | src/server.mjs:24-30 | the file is read exactly when the cache is falsy; a successful read is cached, a failed read changes nothing, and a truthy key set is never read again |
| Server.Serve | src/server.mjs:43-89 | health answers 200 `ok`; discovery answers the document; JWKS serves the truthy cached set unchanged, otherwise reads the file and serves and caches it, or answers 500 with the cache unchanged when the read fails; intake answers `IntakeOutcome` and leaves the key cache as `HandleIntake` does; anything else is 404; only intake can deliver or touch the key cache, and only JWKS touches its cache |
| Relay.PolledNoticeBuildsMatchingSet | src/lookout-poll.mjs:129-138 | a notice the poller posts never fails validation; if its time converts, the SET is built, with the poller's level, `low` as the previous level, the email subject and the reason |
| Relay.PolledNoticeIsAccepted | src/lookout-intake.mjs:78-161 | a posted notice that parses back, with the key loaded and Okta answering 2xx, is accepted with 202 and delivered with the poller's level |
| Relay.DiscoveryAdvertisesEmittedEvents | src/server.mjs:33-41 | every SET built names the advertised issuer and only event types the discovery document lists |
| Relay.NoticeBuildsMatchingSet | src/lookout-intake.mjs:100-152 | a notice with a truthy email, previous level `low` and a reason never fails validation; if its time converts, the SET is built with its level, `low` as the previous level, the email subject and the reason |
| Relay.HighDeviceMapsToHigh | src/lookout-poll.mjs:35 | the status THREATS_HIGH maps to high |
| Relay.HighDeviceIsPosted | src/lookout-poll.mjs:97-138 | a device with an email and THREATS_HIGH is posted as high from low, with the cycle's time |
| Relay.HighDeviceAloneIsPostedOnce | src/lookout-poll.mjs:97-177 | a listing of that device alone posts exactly its notice and completes |
| Relay.HighDeviceIsPostedEachCycle | src/lookout-poll.mjs:97-138 | whenever a cycle's listing holds the THREATS_HIGH device and no earlier entry throws, that cycle posts it as high from `low`, stamped with that cycle's time; the pass has no input from earlier cycles |
| Relay.UnprintableCountPostsNothing | src/lookout-poll.mjs:92-95 | a 2xx listing whose `count` cannot be converted to a string ends the cycle before any device is posted |
| Relay.MissingEmailIsRejected | src/lookout-intake.mjs:106-114 | a notice without `user.email` is a 400 `missing_fields`, and nothing is delivered |
| Relay.WhitespaceKeyStartsPollingWithoutCredential | src/lookout-poll.mjs:181 | a whitespace-only credential starts polling but strips to the empty key that the token call rejects |

## Left out

- I/O is out: HTTP serving, the fetch calls, file reads and `console` logging. Every reply, file content and parse result is an input value.
- Timers and concurrency are out: the interval timer, overlapping cycles, and concurrent requests sharing the caches. Each cycle and request is modelled as one sequential step.
- JWT signing (`SignJWT`, `importPKCS8`) is out. Signing is taken to succeed once the key has loaded, and the delivered SET is the header plus the payload.
- `crypto.randomUUID` is out, and the `jti` is an input.
- Date string parsing (`new Date(string)`) is a parameter. ISO formatting (`toISOString`) is out, and the cycle's formatted time is one input. The second clock reading for a device without `updated_time` is taken to be that same time.
- The source reads the clock separately in several places, and the model uses one reading for each of them:
  - in the poller, the window start (`src/lookout-poll.mjs:25`) and the token cache test (`src/lookout-auth.mjs:10`) share one `nowMs`
  - in the intake handler, the default event time (`src/lookout-intake.mjs:123`) and `iat` (`src/lookout-intake.mjs:125`) share one `nowMs`

  Readings taken a few milliseconds apart are not modelled.
- URL parsing, request-body chunk decoding and `URLSearchParams` serialisation are out. A request carries its path and body text, and the listing request carries its parameters as fields.
- JSON numbers are integers. Floating-point values, and numeric conversion of strings other than optionally signed decimal integers with surrounding whitespace, are not modelled.
- Case mapping is modelled for ASCII letters only.
- The poll interval (`LOOKOUT_POLL_INTERVAL_SECONDS`), `PORT` and the post target (`SSF_INTAKE_URL`) are not modelled. They only set the timer and where the notices go. The other environment variables the core reads are parameters.
- `src/gen-jwk.mjs`, the key-generation script, is not part of this model.
- `JSON.stringify` of response bodies is out. The discovery, JWKS and intake bodies are kept as structured values, and the `detail` text of a 400 is dropped.
- The `message` of a 500 is kept only for the Okta delivery failure (`DeliveryVerdict`'s text). Every other 500 carries `InternalError(None)`, so the text of `err.message` for those throws is not modelled.
- `PostDevices` builds its log once the loop has ended, from the number of posts and their answers, so how log lines interleave in time with the posts is not modelled; the log itself is the same line by line.
