/** src/services/crewSenseService.ts: the scheduling API client. It keeps a
    bearer token and its expiry, obtains a new token with an OAuth 2.0
    client-credentials exchange (section 4.4 of RFC 6749) when the cached one
    is missing or expired, retries a data request once after HTTP 401, and
    builds the endpoints of the schedule, users and work-types calls.
    The clock, the outcome of each token exchange and the response to each
    data request are inputs. */
module CrewSense {
  import opened Wrappers
  import opened Decimal

  // ---------------------------------------------------------------- payloads

  /** A schedule payload as the API sends it (ScheduleShift, Assignment and
      ScheduleResponse); only the fields the dashboard reads are kept. */
  datatype ScheduleShift = ScheduleShift(id: int, start: string, end: string, length: int, userName: string)

  datatype Assignment = Assignment(
    id: int, date: string, name: string, minimumStaffing: int,
    isFinalized: bool, shifts: seq<ScheduleShift>)

  datatype DayColor = DayColor(color: string, caption: string)

  datatype DaySchedule = DaySchedule(assignments: Option<seq<Assignment>>, dayColor: Option<DayColor>)

  datatype ScheduleResponse = ScheduleResponse(start: string, end: string, days: Option<map<string, DaySchedule>>)

  /** A parsed JSON body. */
  datatype Json =
    | JNull
    | JBool(b: bool)
    | JNumber(n: int)
    | JString(s: string)
    | JArray(items: seq<Json>)
    | JObject(members: seq<(string, Json)>)

  /** The value of a key in an object's members; a later duplicate wins, as
      in JSON.parse. */
  function LastMember(members: seq<(string, Json)>, key: string): Option<Json> {
    if members == [] then None
    else if members[|members| - 1].0 == key then Some(members[|members| - 1].1)
    else LastMember(members[..|members| - 1], key)
  }

  /** A member that is a non-empty (so truthy) string. */
  function TextMember(body: Json, key: string): (t: Option<string>)
    ensures t.Some? ==> t.value != ""
    ensures t.Some? <==>
      body.JObject? && LastMember(body.members, key).Some? && LastMember(body.members, key).value.JString?
      && LastMember(body.members, key).value.s != ""
    ensures t.Some? ==> LastMember(body.members, key) == Some(JString(t.value))
  {
    if !body.JObject? then None
    else match LastMember(body.members, key)
      case Some(JString(s)) => if s != "" then Some(s) else None
      case _ => None
  }

  // ------------------------------------------------------------ HTTP model

  /** A response: status, reason phrase and the body, None when it is not JSON. */
  datatype HttpResponse = HttpResponse(status: nat, statusText: string, body: Option<Json>)

  /** What a fetch of a data endpoint produced: a rejection (network
      failure) or a response. */
  datatype FetchResult = NetworkError | Responded(response: HttpResponse)

  /** A successful token response body. */
  datatype TokenResponse = TokenResponse(accessToken: string, tokenType: string, expiresIn: int)

  /** What the token exchange produced: a rejected fetch, or a response
      whose body is a token response, or None when the body is not JSON. */
  datatype ExchangeResult =
    | ExchangeRejected
    | ExchangeResponse(status: nat, statusText: string, token: Option<TokenResponse>)

  /** Response.ok */
  predicate IsOk(status: int) {
    200 <= status <= 299
  }

  predicate ExchangeSucceeded(e: ExchangeResult) {
    e.ExchangeResponse? && IsOk(e.status) && e.token.Some?
  }

  /** A request the client sends. */
  datatype Request =
    | TokenRequest(url: string, clientId: string, clientSecret: string, grantType: string)
    | DataRequest(url: string, bearerToken: string)

  /** Why a call was rejected: an Error with the client's own message, the
      fetch's rejection, or the rejection of parsing a success body. */
  datatype ServiceError = Thrown(message: string) | NetworkFailure | InvalidJson

  const AuthenticationFailed: string := "Authentication failed"
  const IncompleteConfiguration: string := "CrewSense API configuration is incomplete"
  const DefaultBaseUrl: string := "https://api.crewsense.com"
  /** Seconds taken off the reported lifetime of a token. */
  const SafetyMarginSeconds: int := 300

  // ------------------------------------------------------------ configuration

  datatype Config = Config(clientId: string, clientSecret: string, baseUrl: string)

  /** `value || fallback` for an environment variable that may be unset. */
  function OrElse(v: Option<string>, fallback: string): (s: string)
    ensures s == fallback || (v.Some? && s == v.value && s != "")
    ensures v.Some? && v.value != "" ==> s == v.value
  {
    if v.Some? && v.value != "" then v.value else fallback
  }

  /** The constructor's configuration: credentials from the environment,
      the base URL defaulting to the public API, and an error when either
      credential is unset or empty. */
  function LoadConfig(envClientId: Option<string>, envClientSecret: Option<string>, envBaseUrl: Option<string>)
    : (r: Result<Config, ServiceError>)
    ensures r.Failure? <==> envClientId.None? || envClientId.value == "" || envClientSecret.None? || envClientSecret.value == ""
    ensures r.Failure? ==> r.error == Thrown(IncompleteConfiguration)
    ensures r.Success? ==>
      r.value.clientId == envClientId.value && r.value.clientSecret == envClientSecret.value
    ensures r.Success? && (envBaseUrl.None? || envBaseUrl.value == "") ==> r.value.baseUrl == DefaultBaseUrl
    ensures r.Success? && envBaseUrl.Some? && envBaseUrl.value != "" ==> r.value.baseUrl == envBaseUrl.value
  {
    var config := Config(OrElse(envClientId, ""), OrElse(envClientSecret, ""), OrElse(envBaseUrl, DefaultBaseUrl));
    if config.clientId == "" || config.clientSecret == "" then Failure(Thrown(IncompleteConfiguration))
    else Success(config)
  }

  // ------------------------------------------------------------- token state

  datatype TokenState = TokenState(accessToken: Option<string>, tokenExpiry: Option<int>)

  /** The cached token may be used at instant now: it is present and
      non-empty, an expiry is present and now is strictly before it. */
  predicate HasValidToken(s: TokenState, now: int) {
    s.accessToken.Some? && s.accessToken.value != "" && s.tokenExpiry.Some? && now < s.tokenExpiry.value
  }

  function TokenRequestFor(config: Config): Request {
    TokenRequest(config.baseUrl + "/oauth/access_token", config.clientId, config.clientSecret, "client_credentials")
  }

  /** The expiry recorded for a token obtained at now that lives expiresIn
      seconds: the safety margin before the reported end, in milliseconds. */
  function ExpiryFor(now: int, expiresIn: int): int {
    now + (expiresIn - SafetyMarginSeconds) * 1000
  }

  datatype TokenOutcome = TokenOutcome(state: TokenState, result: Result<string, ServiceError>, sent: seq<Request>)

  /** getAccessToken as a function of the token state, the clock and the
      exchange's outcome. */
  function TokenStep(config: Config, s: TokenState, now: int, exchange: ExchangeResult): (o: TokenOutcome)
    ensures o.sent == [] || o.sent == [TokenRequestFor(config)]
    ensures o.result.Failure? ==> o.state == s && o.result.error == Thrown(AuthenticationFailed)
    ensures o.result.Success? ==> o.state.accessToken == Some(o.result.value)
  {
    if HasValidToken(s, now) then TokenOutcome(s, Success(s.accessToken.value), [])
    else if ExchangeSucceeded(exchange) then
      var data := exchange.token.value;
      TokenOutcome(TokenState(Some(data.accessToken), Some(ExpiryFor(now, data.expiresIn))),
                   Success(data.accessToken), [TokenRequestFor(config)])
    else TokenOutcome(s, Failure(Thrown(AuthenticationFailed)), [TokenRequestFor(config)])
  }

  /** No exchange is sent exactly when the cached token is still valid, and
      then the cached token is returned and nothing changes. */
  lemma CachedTokenIffNoExchange(config: Config, s: TokenState, now: int, exchange: ExchangeResult)
    ensures TokenStep(config, s, now, exchange).sent == [] <==> HasValidToken(s, now)
    ensures HasValidToken(s, now) ==>
      TokenStep(config, s, now, exchange) == TokenOutcome(s, Success(s.accessToken.value), [])
  {
  }

  /** Otherwise exactly one client-credentials exchange is sent; success
      stores the new token and its margin-reduced expiry, failure of any kind
      leaves both fields as they were and reports "Authentication failed". */
  lemma ExchangeOutcome(config: Config, s: TokenState, now: int, exchange: ExchangeResult)
    requires !HasValidToken(s, now)
    ensures var o := TokenStep(config, s, now, exchange);
      && o.sent == [TokenRequest(config.baseUrl + "/oauth/access_token", config.clientId, config.clientSecret, "client_credentials")]
      && (ExchangeSucceeded(exchange) ==>
            o.state == TokenState(Some(exchange.token.value.accessToken), Some(now + (exchange.token.value.expiresIn - 300) * 1000))
            && o.result == Success(exchange.token.value.accessToken))
      && (!ExchangeSucceeded(exchange) ==> o.state == s && o.result == Failure(Thrown("Authentication failed")))
  {
  }

  /** A freshly obtained token is served from the cache exactly until its
      recorded expiry, and a token that lives 300 seconds or less is never
      served from the cache: the next call at the same or a later instant
      exchanges again. */
  lemma NewTokenServedUntilExpiry(config: Config, s: TokenState, now: int, exchange: ExchangeResult, later: int)
    requires !HasValidToken(s, now) && ExchangeSucceeded(exchange)
    ensures var data := exchange.token.value;
      (HasValidToken(TokenStep(config, s, now, exchange).state, later)
       <==> data.accessToken != "" && later < now + (data.expiresIn - 300) * 1000)
    ensures exchange.token.value.expiresIn <= 300 && now <= later ==>
      !HasValidToken(TokenStep(config, s, now, exchange).state, later)
  {
  }

  lemma ShortLivedTokenExchangesAgain(config: Config, s: TokenState, now: int, exchange: ExchangeResult,
                                      later: int, next: ExchangeResult)
    requires !HasValidToken(s, now) && ExchangeSucceeded(exchange)
    requires exchange.token.value.expiresIn <= SafetyMarginSeconds
    requires now <= later
    ensures TokenStep(config, TokenStep(config, s, now, exchange).state, later, next).sent == [TokenRequestFor(config)]
  {
    NewTokenServedUntilExpiry(config, s, now, exchange, later);
  }

  // --------------------------------------------------------- data requests

  /** errorData.message || errorData.error, when the body is JSON. */
  function ErrorDetail(body: Option<Json>): (d: Option<string>)
    ensures d.Some? ==> body.Some? && d.value != ""
    ensures d.Some? ==> d == TextMember(body.value, "message") || d == TextMember(body.value, "error")
    ensures body.Some? && TextMember(body.value, "message").Some? ==> d == TextMember(body.value, "message")
    ensures d.None? ==> body.None? || (TextMember(body.value, "message").None? && TextMember(body.value, "error").None?)
  {
    if body.None? then None
    else if TextMember(body.value, "message").Some? then TextMember(body.value, "message")
    else TextMember(body.value, "error")
  }

  function StatusLine(r: HttpResponse): string {
    "API request failed: " + NatToString(r.status) + " " + r.statusText
  }

  /** The message of a failed request: the status line, then " - " and the
      body's message or error when there is one. */
  function ApiErrorMessage(r: HttpResponse): (msg: string)
    ensures ErrorDetail(r.body).None? ==> msg == StatusLine(r)
    ensures ErrorDetail(r.body).Some? ==> msg == StatusLine(r) + " - " + ErrorDetail(r.body).value
  {
    var errorMessage := StatusLine(r);
    match ErrorDetail(r.body)
    case Some(detail) => errorMessage + " - " + detail
    case None => errorMessage
  }

  /** The inputs of one attempt: the clock when it starts, the outcome of the
      token exchange should one be sent, and the response to the request. */
  datatype Attempt = Attempt(now: int, exchange: ExchangeResult, response: FetchResult)

  datatype RequestOutcome = RequestOutcome(state: TokenState, result: Result<Json, ServiceError>, sent: seq<Request>)

  /** makeAuthenticatedRequest as a function: `attempt` feeds the call and
      `retry` the single retry after a 401. */
  function RequestSpec(config: Config, s: TokenState, endpoint: string, retrying: bool,
                       attempt: Attempt, retry: Attempt): (o: RequestOutcome)
    ensures |o.sent| >= 1
    ensures o.result.Success? ==> DataRequests(o.sent) >= 1
    decreases if retrying then 0 else 1
  {
    var t := TokenStep(config, s, attempt.now, attempt.exchange);
    if t.result.Failure? then RequestOutcome(t.state, Failure(t.result.error), t.sent)
    else
      var sent := t.sent + [DataRequest(config.baseUrl + endpoint, t.result.value)];
      match attempt.response
      case NetworkError => RequestOutcome(t.state, Failure(NetworkFailure), sent)
      case Responded(r) =>
        if !IsOk(r.status) then
          if r.status == 401 && !retrying then
            var again := RequestSpec(config, TokenState(None, None), endpoint, true, retry, retry);
            RequestOutcome(again.state, again.result, sent + again.sent)
          else RequestOutcome(t.state, Failure(Thrown(ApiErrorMessage(r))), sent)
        else if r.body.None? then RequestOutcome(t.state, Failure(InvalidJson), sent)
        else RequestOutcome(t.state, Success(r.body.value), sent)
  }

  /** How many data requests a log holds. */
  function DataRequests(sent: seq<Request>): nat {
    if sent == [] then 0
    else DataRequests(sent[..|sent| - 1]) + (if sent[|sent| - 1].DataRequest? then 1 else 0)
  }

  lemma {:induction false} DataRequestsAppend(a: seq<Request>, b: seq<Request>)
    ensures DataRequests(a + b) == DataRequests(a) + DataRequests(b)
  {
    if b != [] {
      assert (a + b)[..|a + b| - 1] == a + b[..|b| - 1];
      DataRequestsAppend(a, b[..|b| - 1]);
    } else {
      assert a + b == a;
    }
  }

  lemma TokenStepSendsNoData(config: Config, s: TokenState, now: int, exchange: ExchangeResult)
    ensures DataRequests(TokenStep(config, s, now, exchange).sent) == 0
  {
    assert [TokenRequestFor(config)][..0] == [];
  }

  /** One call sends at most two data requests, a retry at most one, and the
      second is sent only when the first was answered with 401. */
  lemma {:induction false} AtMostOneRetry(config: Config, s: TokenState, endpoint: string, retrying: bool,
                                          attempt: Attempt, retry: Attempt)
    ensures DataRequests(RequestSpec(config, s, endpoint, retrying, attempt, retry).sent) <= if retrying then 1 else 2
    ensures DataRequests(RequestSpec(config, s, endpoint, retrying, attempt, retry).sent) == 2 ==>
      !retrying && attempt.response.Responded? && attempt.response.response.status == 401
    decreases if retrying then 0 else 1
  {
    var t := TokenStep(config, s, attempt.now, attempt.exchange);
    TokenStepSendsNoData(config, s, attempt.now, attempt.exchange);
    if t.result.Success? {
      var sent := t.sent + [DataRequest(config.baseUrl + endpoint, t.result.value)];
      DataRequestsAppend(t.sent, [DataRequest(config.baseUrl + endpoint, t.result.value)]);
      assert [DataRequest(config.baseUrl + endpoint, t.result.value)][..0] == [];
      assert DataRequests(sent) == 1;
      if attempt.response.Responded? {
        var r := attempt.response.response;
        if !IsOk(r.status) && r.status == 401 && !retrying {
          var again := RequestSpec(config, TokenState(None, None), endpoint, true, retry, retry);
          AtMostOneRetry(config, TokenState(None, None), endpoint, true, retry, retry);
          DataRequestsAppend(sent, again.sent);
        }
      }
    }
  }

  /** A 401 on the first attempt clears the token, so the retry always begins
      with a fresh exchange, and the call's outcome is the retry's. */
  lemma UnauthorizedIsRetriedWithFreshToken(config: Config, s: TokenState, endpoint: string,
                                             attempt: Attempt, retry: Attempt)
    requires TokenStep(config, s, attempt.now, attempt.exchange).result.Success?
    requires attempt.response.Responded? && attempt.response.response.status == 401
    ensures var t := TokenStep(config, s, attempt.now, attempt.exchange);
      var o := RequestSpec(config, s, endpoint, false, attempt, retry);
      var again := RequestSpec(config, TokenState(None, None), endpoint, true, retry, retry);
      && o.sent == t.sent + [DataRequest(config.baseUrl + endpoint, t.result.value)] + again.sent
      && again.sent[0] == TokenRequestFor(config)
      && o.result == again.result && o.state == again.state
  {
  }

  /** A 401 on the retry, and any other failure status at any time, is
      reported at once with the status line and the body's detail; nothing
      is retried. */
  lemma FailureStatusNotRetried(config: Config, s: TokenState, endpoint: string, retrying: bool,
                                attempt: Attempt, retry: Attempt)
    requires TokenStep(config, s, attempt.now, attempt.exchange).result.Success?
    requires attempt.response.Responded? && !IsOk(attempt.response.response.status)
    requires retrying || attempt.response.response.status != 401
    ensures var t := TokenStep(config, s, attempt.now, attempt.exchange);
      var o := RequestSpec(config, s, endpoint, retrying, attempt, retry);
      && o.result == Failure(Thrown(ApiErrorMessage(attempt.response.response)))
      && o.sent == t.sent + [DataRequest(config.baseUrl + endpoint, t.result.value)]
      && o.state == t.state
  {
  }

  /** A data fetch that rejects, or an ok response whose body does not
      parse, fails at once: the token state after the exchange is kept and
      exactly one data request was sent. */
  lemma FetchOrParseFailureNotRetried(config: Config, s: TokenState, endpoint: string, retrying: bool,
                                      attempt: Attempt, retry: Attempt)
    requires TokenStep(config, s, attempt.now, attempt.exchange).result.Success?
    requires attempt.response.NetworkError?
      || (attempt.response.Responded? && IsOk(attempt.response.response.status)
          && attempt.response.response.body.None?)
    ensures var t := TokenStep(config, s, attempt.now, attempt.exchange);
      var o := RequestSpec(config, s, endpoint, retrying, attempt, retry);
      && o.result == Failure(if attempt.response.NetworkError? then NetworkFailure else InvalidJson)
      && o.sent == t.sent + [DataRequest(config.baseUrl + endpoint, t.result.value)]
      && o.state == t.state
      && DataRequests(o.sent) == 1
  {
    var t := TokenStep(config, s, attempt.now, attempt.exchange);
    TokenStepSendsNoData(config, s, attempt.now, attempt.exchange);
    DataRequestsAppend(t.sent, [DataRequest(config.baseUrl + endpoint, t.result.value)]);
    assert [DataRequest(config.baseUrl + endpoint, t.result.value)][..0] == [];
  }

  lemma StatusDigits()
    ensures NatToString(401) == "401"
    ensures NatToString(500) == "500"
  {
    assert NatToString(4) == "4" && NatToString(40) == "40";
    assert NatToString(5) == "5" && NatToString(50) == "50";
  }

  /** A JSON body with both a message and an error: the message wins. */
  lemma ApiErrorMessagePrefersMessage()
    ensures ApiErrorMessage(HttpResponse(500, "Internal Server Error",
              Some(JObject([("error", JString("e")), ("message", JString("m"))]))))
            == "API request failed: 500 Internal Server Error - m"
  {
    StatusDigits();
    var ms := [("error", JString("e")), ("message", JString("m"))];
    assert LastMember(ms, "message") == Some(JString("m"));
    assert TextMember(JObject(ms), "message") == Some("m");
    var r := HttpResponse(500, "Internal Server Error", Some(JObject(ms)));
    assert ErrorDetail(r.body) == Some("m");
    assert StatusLine(r) == "API request failed: 500 Internal Server Error";
    assert ApiErrorMessage(r) == StatusLine(r) + " - " + "m";
  }

  /** A body that is not JSON adds nothing to the status line. */
  lemma ApiErrorMessageWithoutJson()
    ensures ApiErrorMessage(HttpResponse(500, "Internal Server Error", None))
            == "API request failed: 500 Internal Server Error"
  {
    StatusDigits();
    var r := HttpResponse(500, "Internal Server Error", None);
    assert ErrorDetail(r.body) == None;
    assert StatusLine(r) == "API request failed: " + "500" + " " + "Internal Server Error";
  }

  /** A JSON body with only an error field appends that error. */
  lemma ApiErrorMessageFallsBackToError()
    ensures ApiErrorMessage(HttpResponse(401, "Unauthorized", Some(JObject([("error", JString("expired"))]))))
            == "API request failed: 401 Unauthorized - expired"
  {
    StatusDigits();
    var es := [("error", JString("expired"))];
    assert es[..0] == [];
    assert LastMember(es, "message") == None;
    assert LastMember(es, "error") == Some(JString("expired"));
    var r := HttpResponse(401, "Unauthorized", Some(JObject(es)));
    assert TextMember(JObject(es), "message") == None;
    assert TextMember(JObject(es), "error") == Some("expired");
    assert ErrorDetail(r.body) == Some("expired");
    assert StatusLine(r) == "API request failed: 401 Unauthorized";
    assert ApiErrorMessage(r) == StatusLine(r) + " - " + "expired";
  }

  /** A success answers with the parsed body unchanged, and a failed token
      step ends the call before any data request. */
  lemma SuccessReturnsBody(config: Config, s: TokenState, endpoint: string, retrying: bool,
                           attempt: Attempt, retry: Attempt)
    ensures var t := TokenStep(config, s, attempt.now, attempt.exchange);
      var o := RequestSpec(config, s, endpoint, retrying, attempt, retry);
      && (t.result.Failure? ==> o.result == Failure(Thrown(AuthenticationFailed)) && o.state == s && o.sent == t.sent)
      && (t.result.Success? && attempt.response.Responded? && IsOk(attempt.response.response.status)
          && attempt.response.response.body.Some? ==>
            o.result == Success(attempt.response.response.body.value))
  {
  }

  // -------------------------------------------------------------- endpoints

  datatype ScheduleParams = ScheduleParams(start: Option<string>, end: Option<string>, userId: Option<string>)

  predicate Truthy(v: Option<string>) {
    v.Some? && v.value != ""
  }

  /** The position of a query parameter in the order getSchedule appends them. */
  function ParamRank(name: string): nat {
    if name == "start" then 0 else if name == "end" then 1 else 2
  }

  /** The parameters getSchedule appends: the truthy ones, each with its own
      value, in the order start, end, user_id. */
  function SelectedParams(params: Option<ScheduleParams>): (pairs: seq<(string, string)>)
    ensures |pairs| <= 3
    ensures forall i :: 0 <= i < |pairs| ==> pairs[i].0 in ["start", "end", "user_id"] && pairs[i].1 != ""
    ensures forall i, j :: 0 <= i < j < |pairs| ==> pairs[i].0 != pairs[j].0
    ensures forall i, j :: 0 <= i < j < |pairs| ==> ParamRank(pairs[i].0) < ParamRank(pairs[j].0)
    ensures forall v :: ("start", v) in pairs <==>
      params.Some? && Truthy(params.value.start) && v == params.value.start.value
    ensures forall v :: ("end", v) in pairs <==>
      params.Some? && Truthy(params.value.end) && v == params.value.end.value
    ensures forall v :: ("user_id", v) in pairs <==>
      params.Some? && Truthy(params.value.userId) && v == params.value.userId.value
  {
    if params.None? then []
    else
      var p := params.value;
      (if Truthy(p.start) then [("start", p.start.value)] else [])
      + (if Truthy(p.end) then [("end", p.end.value)] else [])
      + (if Truthy(p.userId) then [("user_id", p.userId.value)] else [])
  }

  /** URLSearchParams.toString: key=value pairs joined by '&'. Keys and
      values are taken as already percent-encoded. */
  function QueryString(pairs: seq<(string, string)>): (q: string)
    ensures q == "" <==> pairs == []
  {
    if pairs == [] then ""
    else if |pairs| == 1 then pairs[0].0 + "=" + pairs[0].1
    else pairs[0].0 + "=" + pairs[0].1 + "&" + QueryString(pairs[1..])
  }

  /** String.prototype.split with a one-character separator. */
  function Split(s: string, sep: char): (parts: seq<string>)
    ensures |parts| >= 1
  {
    if s == [] then [""]
    else
      var rest := Split(s[1..], sep);
      if s[0] == sep then [""] + rest else [[s[0]] + rest[0]] + rest[1..]
  }

  lemma {:induction false} SplitWithout(a: string, sep: char)
    requires sep !in a
    ensures Split(a, sep) == [a]
  {
    if a != [] {
      SplitWithout(a[1..], sep);
      assert [a[0]] + a[1..] == a;
    }
  }

  lemma {:induction false} SplitAtFirst(a: string, sep: char, b: string)
    requires sep !in a
    ensures Split(a + [sep] + b, sep) == [a] + Split(b, sep)
  {
    if a == [] {
      assert a + [sep] + b == [sep] + b;
      assert ([sep] + b)[1..] == b;
    } else {
      var s := a + [sep] + b;
      assert s[1..] == a[1..] + [sep] + b;
      SplitAtFirst(a[1..], sep, b);
      assert [a[0]] + a[1..] == a;
    }
  }

  /** Reads a query string back into its pairs. */
  function ParseQuery(q: string): seq<(string, string)> {
    if q == "" then [] else ParsePairs(Split(q, '&'))
  }

  function ParsePairs(parts: seq<string>): seq<(string, string)> {
    if parts == [] then []
    else
      var kv := Split(parts[0], '=');
      [(kv[0], if |kv| > 1 then kv[1] else "")] + ParsePairs(parts[1..])
  }

  predicate Plain(s: string) {
    '&' !in s && '=' !in s
  }

  /** Percent-encoding keeps '&' and '=' out of keys and values, so a query
      string reads back as the pairs in the order they were appended. */
  lemma {:induction false} QueryStringReadsBack(pairs: seq<(string, string)>)
    requires forall i :: 0 <= i < |pairs| ==> Plain(pairs[i].0) && Plain(pairs[i].1)
    ensures ParseQuery(QueryString(pairs)) == pairs
  {
    if pairs != [] {
      var first := pairs[0].0 + "=" + pairs[0].1;
      SplitWithout(pairs[0].1, '=');
      SplitAtFirst(pairs[0].0, '=', pairs[0].1);
      assert '&' !in first;
      if |pairs| == 1 {
        SplitWithout(first, '&');
        assert Split(first, '=') == [pairs[0].0, pairs[0].1];
        assert ParsePairs([first]) == [pairs[0]] + ParsePairs([]);
      } else {
        QueryStringReadsBack(pairs[1..]);
        var rest := QueryString(pairs[1..]);
        assert QueryString(pairs) == first + ['&'] + rest;
        SplitAtFirst(first, '&', rest);
        assert ParsePairs([first] + Split(rest, '&')) == [pairs[0]] + ParsePairs(Split(rest, '&'));
      }
    }
  }

  function ScheduleEndpointOf(pairs: seq<(string, string)>): (endpoint: string)
    ensures endpoint == "/v1/schedule" <==> pairs == []
    ensures |endpoint| >= 12 && endpoint[..12] == "/v1/schedule"
  {
    var query := QueryString(pairs);
    "/v1/schedule" + (if query != "" then "?" + query else "")
  }

  /** With no truthy parameter the endpoint is the bare path; otherwise the
      query after '?' reads back as exactly the truthy parameters, in order. */
  lemma ScheduleEndpointShape(params: Option<ScheduleParams>)
    requires params.Some? ==> Plain(OrElse(params.value.start, "")) && Plain(OrElse(params.value.end, ""))
                              && Plain(OrElse(params.value.userId, ""))
    ensures SelectedParams(params) == [] ==> ScheduleEndpointOf(SelectedParams(params)) == "/v1/schedule"
    ensures SelectedParams(params) != [] ==>
      var e := ScheduleEndpointOf(SelectedParams(params));
      e[..13] == "/v1/schedule?" && ParseQuery(e[13..]) == SelectedParams(params)
    ensures params.None? || !(Truthy(params.value.start) || Truthy(params.value.end) || Truthy(params.value.userId))
            <==> SelectedParams(params) == []
  {
    var pairs := SelectedParams(params);
    if pairs != [] {
      QueryStringReadsBack(pairs);
      var e := ScheduleEndpointOf(pairs);
      assert e == "/v1/schedule?" + QueryString(pairs);
      assert e[13..] == QueryString(pairs);
    }
  }

  const UsersEndpoint: string := "/v1/users"
  const WorkTypesEndpoint: string := "/v1/work_types"

  // -------------------------------------------------------------- the client

  class CrewSenseService {
    const config: Config
    var accessToken: Option<string>
    var tokenExpiry: Option<int>
    /** Every request the client has sent, oldest first. */
    ghost var sent: seq<Request>

    function State(): TokenState
      reads this
    {
      TokenState(accessToken, tokenExpiry)
    }

    /** A client over a loaded configuration, holding no token. */
    constructor (config: Config)
      ensures this.config == config
      ensures State() == TokenState(None, None) && sent == []
    {
      this.config := config;
      accessToken := None;
      tokenExpiry := None;
      sent := [];
    }

    /** `new CrewSenseService()`: reads the configuration from the
        environment and throws when a credential is missing. */
    static method Create(envClientId: Option<string>, envClientSecret: Option<string>, envBaseUrl: Option<string>)
      returns (r: Result<CrewSenseService, ServiceError>)
      ensures var c := LoadConfig(envClientId, envClientSecret, envBaseUrl);
        && (r.Failure? <==> c.Failure?)
        && (r.Failure? ==> r.error == c.error)
        && (r.Success? ==> fresh(r.value) && r.value.config == c.value
                           && r.value.State() == TokenState(None, None) && r.value.sent == [])
    {
      var c := LoadConfig(envClientId, envClientSecret, envBaseUrl);
      if c.Failure? {
        return Failure(c.error);
      }
      var service := new CrewSenseService(c.value);
      return Success(service);
    }

    /** getAccessToken */
    method GetAccessToken(now: int, exchange: ExchangeResult) returns (r: Result<string, ServiceError>)
      modifies this
      ensures var o := TokenStep(config, old(State()), now, exchange);
        State() == o.state && r == o.result && sent == old(sent) + o.sent
    {
      if accessToken.Some? && accessToken.value != "" && tokenExpiry.Some? && now < tokenExpiry.value {
        return Success(accessToken.value);
      }
      sent := sent + [TokenRequest(config.baseUrl + "/oauth/access_token", config.clientId,
                                   config.clientSecret, "client_credentials")];
      if exchange.ExchangeRejected? || !IsOk(exchange.status) || exchange.token.None? {
        return Failure(Thrown(AuthenticationFailed));
      }
      var data := exchange.token.value;
      accessToken := Some(data.accessToken);
      tokenExpiry := Some(now + (data.expiresIn - SafetyMarginSeconds) * 1000);
      return Success(data.accessToken);
    }

    /** makeAuthenticatedRequest */
    method MakeAuthenticatedRequest(endpoint: string, retrying: bool, attempt: Attempt, retry: Attempt)
      returns (r: Result<Json, ServiceError>)
      modifies this
      decreases if retrying then 0 else 1
      ensures var o := RequestSpec(config, old(State()), endpoint, retrying, attempt, retry);
        State() == o.state && r == o.result && sent == old(sent) + o.sent
    {
      var token := GetAccessToken(attempt.now, attempt.exchange);
      if token.Failure? {
        return Failure(token.error);
      }
      sent := sent + [DataRequest(config.baseUrl + endpoint, token.value)];
      if attempt.response.NetworkError? {
        return Failure(NetworkFailure);
      }
      var response := attempt.response.response;
      if !IsOk(response.status) {
        if response.status == 401 && !retrying {
          ghost var firstSent := sent;
          accessToken := None;
          tokenExpiry := None;
          r := MakeAuthenticatedRequest(endpoint, true, retry, retry);
          ghost var again := RequestSpec(config, TokenState(None, None), endpoint, true, retry, retry);
          assert sent == firstSent + again.sent;
          return;
        }
        return Failure(Thrown(ApiErrorMessage(response)));
      }
      if response.body.None? {
        return Failure(InvalidJson);
      }
      return Success(response.body.value);
    }

    /** The endpoint getSchedule requests: the truthy parameters appended in
        turn, and '?' only when there is at least one. */
    static method ScheduleEndpoint(params: Option<ScheduleParams>) returns (endpoint: string)
      ensures endpoint == ScheduleEndpointOf(SelectedParams(params))
      ensures SelectedParams(params) == [] ==> endpoint == "/v1/schedule"
    {
      var queryParams: seq<(string, string)> := [];
      if params.Some? && Truthy(params.value.start) {
        queryParams := queryParams + [("start", params.value.start.value)];
      }
      if params.Some? && Truthy(params.value.end) {
        queryParams := queryParams + [("end", params.value.end.value)];
      }
      if params.Some? && Truthy(params.value.userId) {
        queryParams := queryParams + [("user_id", params.value.userId.value)];
      }
      assert queryParams == SelectedParams(params);
      var query := QueryString(queryParams);
      endpoint := "/v1/schedule" + (if query != "" then "?" + query else "");
    }

    /** getSchedule */
    method GetSchedule(params: Option<ScheduleParams>, attempt: Attempt, retry: Attempt)
      returns (r: Result<Json, ServiceError>)
      modifies this
      ensures var o := RequestSpec(config, old(State()), ScheduleEndpointOf(SelectedParams(params)), false, attempt, retry);
        State() == o.state && r == o.result && sent == old(sent) + o.sent
    {
      var endpoint := ScheduleEndpoint(params);
      r := MakeAuthenticatedRequest(endpoint, false, attempt, retry);
    }

    /** getUsers */
    method GetUsers(attempt: Attempt, retry: Attempt) returns (r: Result<Json, ServiceError>)
      modifies this
      ensures var o := RequestSpec(config, old(State()), UsersEndpoint, false, attempt, retry);
        State() == o.state && r == o.result && sent == old(sent) + o.sent
    {
      r := MakeAuthenticatedRequest(UsersEndpoint, false, attempt, retry);
    }

    /** getWorkTypes */
    method GetWorkTypes(attempt: Attempt, retry: Attempt) returns (r: Result<Json, ServiceError>)
      modifies this
      ensures var o := RequestSpec(config, old(State()), WorkTypesEndpoint, false, attempt, retry);
        State() == o.state && r == o.result && sent == old(sent) + o.sent
    {
      r := MakeAuthenticatedRequest(WorkTypesEndpoint, false, attempt, retry);
    }
  }
}
