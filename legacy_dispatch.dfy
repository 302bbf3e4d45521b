/** The session state machine and the dispatcher of the legacy client, `QuestradeAPI`, as pure
    functions of its state. It differs from the current one in how it classifies a response and
    in what it changes on the request it re-sends. */
module LegacyDispatch {
  import opened Wrappers
  import opened Failures
  import opened JavaStrings
  import opened QueryStrings
  import opened Authorizations
  import opened Network
  import Dispatch
  import Endpoints

  /** The status the legacy dispatcher takes for a rejected refresh token. */
  const BadRequest: int := 400

  /** What Gson makes of the first line of an error response when asked for a Java `int`:
      null (no line, so unboxing dereferences null), a syntax error, or a number. */
  datatype IntReading = NoLine | NotAnInt | AnInt(value: int)

  /** One HTTP exchange as the legacy dispatcher reads it: a status, the first body line and
      that line read as an `int`; or a connection that fails with an I/O error. */
  datatype LegacyResponse =
    | LegacyReply(status: int, firstLine: Option<string>, reading: IntReading)
    | LegacyConnectionFailure

  /** The fields of a legacy `Request`: a complete URL, the method name, token and content type. */
  datatype LegacyRequestData = LegacyRequestData(
    url: string,
    requestMethod: string,
    accessToken: Option<string>,
    contentType: Option<string>)

  /** The fields of a `QuestradeAPI`, the server script, the log of relay calls and the log of
      the requests dispatched, in order. */
  datatype LegacySession = LegacySession(
    startingRefreshToken: Option<string>,
    authorization: Option<Authorization>,
    authRelay: Option<Dispatch.Relay>,
    network: seq<LegacyResponse>,
    relayed: seq<Dispatch.RelayCall>,
    requests: seq<LegacyRequestData>)

  /** What `connectToURL` leaves behind: its return value or exception, the client, the request. */
  datatype LegacySent = LegacySent(body: Result<Option<string>, Failure>, session: LegacySession, request: LegacyRequestData)

  /** What `retrieveAccessToken` or `activate` leaves behind. */
  datatype LegacyExchanged = LegacyExchanged(outcome: Outcome<Failure>, session: LegacySession)

  /** What a dispatch may change: it eats a prefix of the script and appends relay calls. */
  predicate Consumes(s: LegacySession, s': LegacySession) {
    && s'.startingRefreshToken == s.startingRefreshToken
    && s'.authRelay == s.authRelay
    && |s'.network| <= |s.network|
    && s'.network == s.network[|s.network| - |s'.network|..]
    && s.relayed <= s'.relayed
    && (s.authRelay.None? ==> s'.relayed == s.relayed)
  }

  lemma ConsumesTransitive(a: LegacySession, b: LegacySession, c: LegacySession)
    requires Consumes(a, b) && Consumes(b, c)
    ensures Consumes(a, c)
  {
  }

  /** The request the legacy `retrieveAccessToken(refreshToken)` builds. */
  function TokenRequest(refreshToken: Option<string>): LegacyRequestData {
    LegacyRequestData(Dispatch.TokenEndpoint + JavaString(refreshToken), "GET", None, None)
  }

  /** `connectToURL`. An exhausted script is an I/O error, which is swallowed (null). */
  function ConnectTo(s: LegacySession, req: LegacyRequestData, decode: Dispatch.Decoder): (r: LegacySent)
    ensures Consumes(s, r.session)
    ensures r.request == req.(accessToken := r.request.accessToken)
    decreases |s.network|, 0
  {
    var s1 := s.(requests := s.requests + [req]);
    if s.network == [] then LegacySent(Success(None), s1, req)
    else Classify(s1.(network := s.network[1..]), req, s.network[0], decode)
  }

  /** The handling of one response: a connection failure is swallowed (null); 400 is a
      `RefreshTokenException` before the body is read; 2xx gives the first body line; otherwise
      the line is read as an `int`, 1017 re-authenticates and any other number is a
      `StatusCodeException` with the status. */
  function Classify(s: LegacySession, req: LegacyRequestData, response: LegacyResponse, decode: Dispatch.Decoder): (r: LegacySent)
    ensures Consumes(s, r.session)
    ensures r.request == req.(accessToken := r.request.accessToken)
    decreases |s.network|, 3
  {
    match response
    case LegacyConnectionFailure => LegacySent(Success(None), s, req)
    case LegacyReply(status, line, reading) =>
      if status == BadRequest then LegacySent(Failure(RefreshTokenException(status)), s, req)
      else if IsSuccessStatus(status) then LegacySent(Success(line), s, req)
      else
        match reading
        case NoLine => LegacySent(Failure(NullPointer), s, req)
        case NotAnInt => LegacySent(Failure(JsonSyntax), s, req)
        case AnInt(code) =>
          if code == Dispatch.ExpiredToken then Renew(s, req, decode)
          else LegacySent(Failure(StatusCodeException(status)), s, req)
  }

  /** The 1017 branch: exchange the current refresh token, overwrite only the request's access
      token and send it again; the URL, with the server it was built with, is kept. */
  function Renew(s: LegacySession, req: LegacyRequestData, decode: Dispatch.Decoder): (r: LegacySent)
    ensures Consumes(s, r.session)
    ensures r.request == req.(accessToken := r.request.accessToken)
    decreases |s.network|, 2
  {
    if s.authorization.None? then LegacySent(Failure(NullPointer), s, req)
    else
      var e := Exchange(s, s.authorization.value.refreshToken, decode);
      if e.outcome.Fail? then LegacySent(Failure(e.outcome.error), e.session, req)
      else if e.session.authorization.None? then LegacySent(Failure(NullPointer), e.session, req)
      else
        var sent := ConnectTo(e.session, req.(accessToken := e.session.authorization.value.accessToken), decode);
        ConsumesTransitive(s, e.session, sent.session);
        sent
  }

  /** `retrieveAccessToken(refreshToken)`: the decoded response replaces the authorization and is
      handed to the relay, when one is set; a response that is not JSON throws before either. */
  function Exchange(s: LegacySession, refreshToken: Option<string>, decode: Dispatch.Decoder): (r: LegacyExchanged)
    ensures Consumes(s, r.session)
    ensures r.outcome.Pass? && s.authRelay.Some? ==>
      |r.session.relayed| > 0
      && r.session.relayed[|r.session.relayed| - 1] == Dispatch.RelayCall(s.authRelay.value, r.session.authorization)
    decreases |s.network|, 1
  {
    var sent := ConnectTo(s, TokenRequest(refreshToken), decode);
    if sent.body.Failure? then LegacyExchanged(Fail(sent.body.error), sent.session)
    else if Dispatch.DecodeLine(sent.body.value, decode).NotJson? then LegacyExchanged(Fail(JsonSyntax), sent.session)
    else
      var renewed := Dispatch.DecodeLine(sent.body.value, decode).authorization;
      var s' := sent.session.(authorization := renewed);
      if s'.authRelay.Some? then LegacyExchanged(Pass, s'.(relayed := s'.relayed + [Dispatch.RelayCall(s'.authRelay.value, renewed)]))
      else LegacyExchanged(Pass, s')
  }

  /** `retrieveAccessToken()`. */
  function Refresh(s: LegacySession, decode: Dispatch.Decoder): (r: LegacyExchanged)
    ensures s.authorization.None? ==> r == LegacyExchanged(Fail(NullPointer), s)
    ensures s.authorization.Some? ==> Consumes(s, r.session)
  {
    if s.authorization.None? then LegacyExchanged(Fail(NullPointer), s)
    else Exchange(s, s.authorization.value.refreshToken, decode)
  }

  /** `activate`: one exchange of the starting refresh token, which is then forgotten (it is kept
      if the exchange throws); without one, nothing. */
  function Activate(s: LegacySession, decode: Dispatch.Decoder): (r: LegacyExchanged)
    ensures r.outcome.Pass? ==> r.session.startingRefreshToken.None?
    ensures r.outcome.Fail? ==> r.session.startingRefreshToken == s.startingRefreshToken
    ensures s.startingRefreshToken.None? ==> r == LegacyExchanged(Pass, s)
  {
    if s.startingRefreshToken.Some? then
      var e := Exchange(s, s.startingRefreshToken, decode);
      if e.outcome.Fail? then e else LegacyExchanged(Pass, e.session.(startingRefreshToken := None))
    else LegacyExchanged(Pass, s)
  }

  // ---------------------------------------------------------------------------------------------
  // The endpoints: the URL is the server's text (Java writes a null server as "null") followed by
  // the resource and the query, fixed when the request is built.

  function LegacyPlan(auth: Option<Authorization>, resource: string, params: seq<Param>): Result<LegacyRequestData, Failure> {
    if auth.None? then Failure(NullPointer)
    else Success(LegacyRequestData(JavaString(auth.value.apiServer) + resource + Query(params), "GET", auth.value.accessToken, None))
  }

  function RangeParams(start: string, end: string): seq<Param> {
    [Param("startTime", [start]), Param("endTime", [end])]
  }

  function AccountsPlan(auth: Option<Authorization>): Result<LegacyRequestData, Failure> {
    LegacyPlan(auth, "v1/accounts/", [])
  }

  function TimePlan(auth: Option<Authorization>): Result<LegacyRequestData, Failure> {
    LegacyPlan(auth, "v1/time", [])
  }

  /** `getActivities`: no check that the range is in order. */
  function ActivitiesPlan(auth: Option<Authorization>, accountNumber: string, start: string, end: string): Result<LegacyRequestData, Failure> {
    LegacyPlan(auth, "v1/accounts/" + accountNumber + "/activities", RangeParams(start, end))
  }

  /** `getExecutions`: no check that the range is in order. */
  function ExecutionsPlan(auth: Option<Authorization>, accountNumber: string, start: string, end: string): Result<LegacyRequestData, Failure> {
    LegacyPlan(auth, "v1/accounts/" + accountNumber + "/executions", RangeParams(start, end))
  }

  /** An endpoint call: the dispatcher's result and the client afterwards. */
  datatype LegacyCalled = LegacyCalled(body: Result<Option<string>, Failure>, session: LegacySession)

  function Perform(s: LegacySession, plan: Result<LegacyRequestData, Failure>, decode: Dispatch.Decoder): (r: LegacyCalled)
    ensures plan.Failure? ==> r == LegacyCalled(Failure(plan.error), s)
    ensures plan.Success? ==> Consumes(s, r.session)
  {
    match plan
    case Failure(e) => LegacyCalled(Failure(e), s)
    case Success(d) =>
      var sent := ConnectTo(s, d, decode);
      LegacyCalled(sent.body, sent.session)
  }

  // ---------------------------------------------------------------------------------------------
  // Properties

  /** A 400 is a refresh-token failure whatever the body says, even an expired-token code, and
      whatever was requested: one response is consumed and nothing else changes. */
  lemma BadRequestIsRefreshTokenFailure(s: LegacySession, req: LegacyRequestData, decode: Dispatch.Decoder)
    requires s.network != [] && s.network[0].LegacyReply? && s.network[0].status == BadRequest
    ensures ConnectTo(s, req, decode)
      == LegacySent(Failure(RefreshTokenException(BadRequest)), s.(requests := s.requests + [req], network := s.network[1..]), req)
  {
  }

  /** A 2xx response gives its first body line and consumes exactly that response. */
  lemma SuccessReturnsFirstLine(s: LegacySession, req: LegacyRequestData, decode: Dispatch.Decoder)
    requires s.network != [] && s.network[0].LegacyReply? && IsSuccessStatus(s.network[0].status)
    ensures ConnectTo(s, req, decode)
      == LegacySent(Success(s.network[0].firstLine), s.(requests := s.requests + [req], network := s.network[1..]), req)
  {
  }

  /** A dispatch whose script is exhausted or whose connection fails swallows the IOException
      and returns null: the request is logged, at most that one answer is consumed, and there is
      no exchange and no relay call. */
  lemma FailedConnectionIsNull(s: LegacySession, req: LegacyRequestData, decode: Dispatch.Decoder)
    requires s.network == [] || s.network[0].LegacyConnectionFailure?
    ensures ConnectTo(s, req, decode)
      == LegacySent(Success(None), s.(requests := s.requests + [req], network := if s.network == [] then [] else s.network[1..]), req)
  {
  }

  /** The other error statuses: the body must read as an `int`; any number but 1017 is a
      `StatusCodeException` carrying the status, not the number. */
  lemma OtherErrors(s: LegacySession, req: LegacyRequestData, decode: Dispatch.Decoder)
    requires s.network != [] && s.network[0].LegacyReply?
    requires var st := s.network[0].status; st != BadRequest && !IsSuccessStatus(st)
    requires !(s.network[0].reading.AnInt? && s.network[0].reading.value == Dispatch.ExpiredToken)
    ensures var r := ConnectTo(s, req, decode);
      var reading := s.network[0].reading;
      && r.session == s.(requests := s.requests + [req], network := s.network[1..]) && r.request == req
      && (reading.NoLine? ==> r.body == Failure(NullPointer))
      && (reading.NotAnInt? ==> r.body == Failure(JsonSyntax))
      && (reading.AnInt? ==> r.body == Failure(StatusCodeException(s.network[0].status)))
  {
  }

  /** The session after a token exchange for `refreshToken` answered with 2xx and `grant`. */
  function Granted(s: LegacySession, refreshToken: Option<string>, grant: string, decode: Dispatch.Decoder): LegacySession
    requires s.network != [] && decode(grant).Parsed?
  {
    var sent := s.(requests := s.requests + [TokenRequest(refreshToken)], network := s.network[1..], authorization := decode(grant).authorization);
    if s.authRelay.Some? then sent.(relayed := s.relayed + [Dispatch.RelayCall(s.authRelay.value, decode(grant).authorization)]) else sent
  }

  lemma ExchangeGranted(s: LegacySession, refreshToken: Option<string>, decode: Dispatch.Decoder, grant: string)
    requires s.network != [] && s.network[0].LegacyReply? && IsSuccessStatus(s.network[0].status)
    requires s.network[0].status != BadRequest && s.network[0].firstLine == Some(grant) && decode(grant).Parsed?
    ensures Exchange(s, refreshToken, decode) == LegacyExchanged(Pass, Granted(s, refreshToken, grant, decode))
  {
    var req := TokenRequest(refreshToken);
    assert ConnectTo(s, req, decode) == Classify(s.(requests := s.requests + [req], network := s.network[1..]), req, s.network[0], decode);
  }

  /** A token exchange answered with 2xx and a line that is not JSON throws the decoder's
      `JsonSyntaxException`, leaving the authorization and the relay calls as they were. */
  lemma ExchangeRejectsNonJson(s: LegacySession, refreshToken: Option<string>, decode: Dispatch.Decoder, text: string)
    requires s.network != [] && s.network[0].LegacyReply? && IsSuccessStatus(s.network[0].status)
    requires s.network[0].status != BadRequest && s.network[0].firstLine == Some(text) && decode(text).NotJson?
    ensures Exchange(s, refreshToken, decode)
      == LegacyExchanged(Fail(JsonSyntax), s.(requests := s.requests + [TokenRequest(refreshToken)], network := s.network[1..]))
  {
    var req := TokenRequest(refreshToken);
    assert ConnectTo(s, req, decode) == Classify(s.(requests := s.requests + [req], network := s.network[1..]), req, s.network[0], decode);
  }

  /** `connectToURL` logs the request before anything else, and the log of dispatched requests
      only grows. */
  lemma ConnectToIsLogged(s: LegacySession, req: LegacyRequestData, decode: Dispatch.Decoder)
    ensures s.requests + [req] <= ConnectTo(s, req, decode).session.requests
    decreases |s.network|, 0
  {
    var s1 := s.(requests := s.requests + [req]);
    if s.network != [] {
      ClassifyIsLogged(s1.(network := s.network[1..]), req, s.network[0], decode);
      assert ConnectTo(s, req, decode) == Classify(s1.(network := s.network[1..]), req, s.network[0], decode);
    }
  }

  lemma ClassifyIsLogged(s: LegacySession, req: LegacyRequestData, response: LegacyResponse, decode: Dispatch.Decoder)
    ensures s.requests <= Classify(s, req, response, decode).session.requests
    decreases |s.network|, 3
  {
    var r := Classify(s, req, response, decode);
    if && response.LegacyReply? && response.status != BadRequest && !IsSuccessStatus(response.status)
       && response.reading.AnInt? && response.reading.value == Dispatch.ExpiredToken
    {
      assert r == Renew(s, req, decode);
      RenewIsLogged(s, req, decode);
    } else {
      assert r.session == s;
    }
  }

  /** The 1017 branch first sends one token request, for the refresh token in place. */
  lemma RenewIsLogged(s: LegacySession, req: LegacyRequestData, decode: Dispatch.Decoder)
    ensures s.requests <= Renew(s, req, decode).session.requests
    ensures s.authorization.Some? ==>
      s.requests + [TokenRequest(s.authorization.value.refreshToken)] <= Renew(s, req, decode).session.requests
    decreases |s.network|, 2
  {
    var r := Renew(s, req, decode);
    if s.authorization.Some? {
      var log := s.requests + [TokenRequest(s.authorization.value.refreshToken)];
      ExchangeIsLogged(s, s.authorization.value.refreshToken, decode);
      var e := Exchange(s, s.authorization.value.refreshToken, decode);
      if e.outcome.Pass? && e.session.authorization.Some? {
        var again := req.(accessToken := e.session.authorization.value.accessToken);
        assert r == ConnectTo(e.session, again, decode);
        ConnectToIsLogged(e.session, again, decode);
        Dispatch.PrefixTransitive(log, e.session.requests, e.session.requests + [again]);
        Dispatch.PrefixTransitive(log, e.session.requests + [again], r.session.requests);
      } else {
        assert r.session == e.session;
      }
      Dispatch.PrefixTransitive(s.requests, log, r.session.requests);
    }
  }

  /** An exchange sends one token request, for the refresh token it is given. */
  lemma ExchangeIsLogged(s: LegacySession, refreshToken: Option<string>, decode: Dispatch.Decoder)
    ensures s.requests + [TokenRequest(refreshToken)] <= Exchange(s, refreshToken, decode).session.requests
    decreases |s.network|, 1
  {
    ConnectToIsLogged(s, TokenRequest(refreshToken), decode);
  }

  /** An expired-token answer followed by a grant: the request is re-sent with the new access
      token on the SAME URL, so a server change in the new authorization is not followed. */
  lemma RetryKeepsUrl(s: LegacySession, req: LegacyRequestData, decode: Dispatch.Decoder, status: int, grant: string)
    requires s.authorization.Some? && Dispatch.Authorizes(decode, grant)
    requires status != BadRequest && !IsSuccessStatus(status)
    requires |s.network| >= 2 && s.network[0] == LegacyReply(status, Some("1017"), AnInt(Dispatch.ExpiredToken))
    requires s.network[1] == LegacyReply(200, Some(grant), NotAnInt)
    ensures ConnectTo(s, req, decode)
      == ConnectTo(RenewedSession(s, req, grant, decode), req.(accessToken := decode(grant).authorization.value.accessToken), decode)
    ensures ConnectTo(s, req, decode).request.url == req.url
  {
    var popped := s.(requests := s.requests + [req], network := s.network[1..]);
    assert ConnectTo(s, req, decode) == Classify(popped, req, s.network[0], decode);
    assert Classify(popped, req, s.network[0], decode) == Renew(popped, req, decode);
    assert popped.network[0] == s.network[1];
    ExchangeGranted(popped, s.authorization.value.refreshToken, decode, grant);
  }

  /** Under the same script the log shows the request, a token request for the refresh token
      in place, then the request again with the new token. */
  lemma RetryIsLogged(s: LegacySession, req: LegacyRequestData, decode: Dispatch.Decoder, status: int, grant: string)
    requires s.authorization.Some? && Dispatch.Authorizes(decode, grant)
    requires status != BadRequest && !IsSuccessStatus(status)
    requires |s.network| >= 2 && s.network[0] == LegacyReply(status, Some("1017"), AnInt(Dispatch.ExpiredToken))
    requires s.network[1] == LegacyReply(200, Some(grant), NotAnInt)
    ensures s.requests + [req, TokenRequest(s.authorization.value.refreshToken), req.(accessToken := decode(grant).authorization.value.accessToken)]
      <= ConnectTo(s, req, decode).session.requests
  {
    RetryKeepsUrl(s, req, decode, status, grant);
    RenewedLog(s, req, grant, decode, ConnectTo(s, req, decode));
  }

  /** The session in which the request is re-sent after the first renewal. */
  function RenewedSession(s: LegacySession, req: LegacyRequestData, grant: string, decode: Dispatch.Decoder): LegacySession
    requires s.authorization.Some? && |s.network| >= 2 && decode(grant).Parsed?
  {
    Granted(s.(requests := s.requests + [req], network := s.network[1..]), s.authorization.value.refreshToken, grant, decode)
  }

  /** The requests dispatched once the re-sent request is answered. */
  lemma RenewedLog(s: LegacySession, req: LegacyRequestData, grant: string, decode: Dispatch.Decoder, r: LegacySent)
    requires s.authorization.Some? && |s.network| >= 2 && Dispatch.Authorizes(decode, grant)
    requires r == ConnectTo(RenewedSession(s, req, grant, decode), req.(accessToken := decode(grant).authorization.value.accessToken), decode)
    ensures s.requests + [req, TokenRequest(s.authorization.value.refreshToken), req.(accessToken := decode(grant).authorization.value.accessToken)]
      <= r.session.requests
  {
    var again := req.(accessToken := decode(grant).authorization.value.accessToken);
    var renewed := RenewedSession(s, req, grant, decode);
    assert renewed.requests == s.requests + [req] + [TokenRequest(s.authorization.value.refreshToken)];
    ConnectToIsLogged(renewed, again, decode);
    Dispatch.ThreeMore(s.requests, req, TokenRequest(s.authorization.value.refreshToken), again, renewed.requests, r.session.requests);
  }

  /** Activation exchanges the starting token once; afterwards activating again does nothing. */
  lemma ActivateIsIdempotent(s: LegacySession, decode: Dispatch.Decoder)
    requires Activate(s, decode).outcome.Pass?
    ensures Activate(Activate(s, decode).session, decode) == LegacyExchanged(Pass, Activate(s, decode).session)
  {
  }

  /** With a starting refresh token and a server that grants it, activation adopts the grant,
      consumes one response, relays once when a relay is set and forgets the starting token. */
  lemma ActivateExchangesOnce(s: LegacySession, decode: Dispatch.Decoder, grant: string)
    requires s.startingRefreshToken.Some?
    requires s.network != [] && s.network[0] == LegacyReply(200, Some(grant), NotAnInt) && decode(grant).Parsed?
    ensures var r := Activate(s, decode);
      && r.outcome.Pass?
      && r.session.authorization == decode(grant).authorization
      && r.session.network == s.network[1..]
      && r.session.startingRefreshToken.None?
      && r.session.relayed == s.relayed + (if s.authRelay.Some? then [Dispatch.RelayCall(s.authRelay.value, decode(grant).authorization)] else [])
      && r.session.requests == s.requests + [TokenRequest(s.startingRefreshToken)]
  {
    ExchangeGranted(s, s.startingRefreshToken, decode, grant);
  }

  /** When the server answers the starting token with a line that is not JSON, activation throws
      and keeps the starting token; nothing is adopted and nothing is relayed. */
  lemma ActivateKeepsTokenOnNonJson(s: LegacySession, decode: Dispatch.Decoder, text: string)
    requires s.startingRefreshToken.Some?
    requires s.network != [] && s.network[0] == LegacyReply(200, Some(text), NotAnInt) && decode(text).NotJson?
    ensures var r := Activate(s, decode);
      && r.outcome == Fail(JsonSyntax)
      && r.session.startingRefreshToken == s.startingRefreshToken
      && r.session.authorization == s.authorization
      && r.session.relayed == s.relayed
      && r.session.requests == s.requests + [TokenRequest(s.startingRefreshToken)]
  {
    ExchangeRejectsNonJson(s, s.startingRefreshToken, decode, text);
  }

  /** The legacy range endpoints send a reversed range as it is; they fail only on a null
      authorization. */
  lemma NoRangeGuard(auth: Option<Authorization>, accountNumber: string, start: string, end: string)
    ensures ActivitiesPlan(auth, accountNumber, start, end).Success? <==> auth.Some?
    ensures ExecutionsPlan(auth, accountNumber, start, end).Success? <==> auth.Some?
    ensures auth.Some? ==>
      ActivitiesPlan(auth, accountNumber, start, end).value.url
        == JavaString(auth.value.apiServer) + ("v1/accounts/" + accountNumber + "/activities")
           + ("?startTime=" + start + "&endTime=" + end)
    ensures auth.Some? ==>
      ExecutionsPlan(auth, accountNumber, start, end).value.url
        == JavaString(auth.value.apiServer) + ("v1/accounts/" + accountNumber + "/executions")
           + ("?startTime=" + start + "&endTime=" + end)
  {
    Endpoints.RangeQuery(Endpoints.ZonedTime(0, start), Endpoints.ZonedTime(0, end));
  }
}
