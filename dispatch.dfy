/** The session state machine and the dispatcher of the current client, as pure functions of the
    client's state; the `Questrade` class is proved to follow them step for step. */
module Dispatch {
  import opened Wrappers
  import opened Failures
  import opened JavaStrings
  import opened Authorizations
  import opened Requests
  import opened Network

  /** The OAuth 2.0 refresh-token grant (section 6 of RFC 6749), issued as a GET whose query
      already names the grant; the refresh token is appended raw. */
  const TokenEndpoint: string := "https://login.questrade.com/oauth2/token?grant_type=refresh_token&refresh_token="

  /** The error code the server uses for an expired or invalid access token. */
  const ExpiredToken: int := 1017

  /** The identity of a caller-supplied `Consumer<Authorization>`. */
  datatype Relay = Relay(id: nat)

  /** One invocation of the relay: which relay, with which (possibly null) authorization. */
  datatype RelayCall = RelayCall(relay: Relay, authorization: Option<Authorization>)

  /** What Gson's `fromJson(text, Authorization.class)` makes of a token response: the object
      it builds (null for a null or empty document), or the `JsonSyntaxException` it throws on
      text that is not JSON. */
  datatype Decoded = Parsed(authorization: Option<Authorization>) | NotJson

  /** Gson's decoding of a token response. */
  type Decoder = string -> Decoded

  /** `text` decodes to a non-null authorization. */
  predicate Authorizes(decode: Decoder, text: string) {
    decode(text).Parsed? && decode(text).authorization.Some?
  }

  /** The fields of a `Questrade` client, the server script it talks to, the log of relay calls
      and the log of the requests dispatched, in order. */
  datatype Session = Session(
    startingRefreshToken: Option<string>,
    startingAuthorization: Option<Authorization>,
    authorization: Option<Authorization>,
    authRelay: Option<Relay>,
    lastRequest: Option<string>,
    network: seq<Response>,
    relayed: seq<RelayCall>,
    requests: seq<RequestData>)

  /** What `sendRequest` leaves behind: its return value or exception, the client, the request. */
  datatype Sent = Sent(body: Result<Option<string>, Failure>, session: Session, request: RequestData)

  /** What `retrieveAccessToken` or `activate` leaves behind. */
  datatype Exchanged = Exchanged(outcome: Outcome<Failure>, session: Session)

  predicate IsArgumentCode(code: int) {
    code == 1002 || code == 1003 || code == 1004
  }

  /** The constructors never set both starting credentials. */
  predicate AtMostOneStartingCredential(s: Session) {
    !(s.startingRefreshToken.Some? && s.startingAuthorization.Some?)
  }

  /** What a dispatch may change: it eats a prefix of the script and appends relay calls, and
      it never touches the starting credentials or the relay. */
  predicate Consumes(s: Session, s': Session) {
    && s'.startingRefreshToken == s.startingRefreshToken
    && s'.startingAuthorization == s.startingAuthorization
    && s'.authRelay == s.authRelay
    && |s'.network| <= |s.network|
    && s'.network == s.network[|s.network| - |s'.network|..]
    && s.relayed <= s'.relayed
    && (s.authRelay.None? ==> s'.relayed == s.relayed)
  }

  /** `lastRequest` is the text of the last request dispatched. */
  predicate Recorded(s: Session) {
    |s.requests| > 0 && s.lastRequest == Some(Describe(s.requests[|s.requests| - 1]))
  }

  lemma ConsumesTransitive(a: Session, b: Session, c: Session)
    requires Consumes(a, b) && Consumes(b, c)
    ensures Consumes(a, c)
  {
  }

  /** The request `retrieveAccessToken(refreshToken)` builds: a GET to the token endpoint, with no
      server and no bearer token (Java writes a null token as "null"). */
  function TokenRequest(refreshToken: Option<string>): RequestData {
    RequestData("GET", None, TokenEndpoint + JavaString(refreshToken), None, None)
  }

  /** What Gson makes of a response line: a null line decodes to null. */
  function DecodeLine(line: Option<string>, decode: Decoder): Decoded {
    match line
    case None => Parsed(None)
    case Some(text) => decode(text)
  }

  /** `sendRequest`. It records the request's text, then takes the next scripted response; an
      exhausted script is an I/O error, which is swallowed (null). */
  function Send(s: Session, req: RequestData, decode: Decoder): (r: Sent)
    ensures Consumes(s, r.session)
    ensures r.session.lastRequest.Some?
    ensures r.request == req.(accessToken := r.request.accessToken, apiServer := r.request.apiServer)
    decreases |s.network|, 0
  {
    var s1 := s.(lastRequest := Some(Describe(req)), requests := s.requests + [req]);
    if s.network == [] then Sent(Success(None), s1, req)
    else Receive(s1.(network := s.network[1..]), req, s.network[0], decode)
  }

  /** `Send` one step at a time: the text and the log are updated first, then the next
      response, if any, is taken off the script and handled. */
  lemma SendStep(s: Session, req: RequestData, decode: Decoder)
    ensures var s1 := s.(lastRequest := Some(Describe(req)), requests := s.requests + [req]);
      Send(s, req, decode)
        == if s.network == [] then Sent(Success(None), s1, req) else Receive(s1.(network := s.network[1..]), req, s.network[0], decode)
  {
  }

  /** The handling of one response, `s` being the session it left behind: a connection failure
      is swallowed (null); 2xx gives the first body line; otherwise, in this order, an unreadable
      envelope is a `RefreshTokenException` whatever the status, an empty body dereferences null,
      code 1017 re-authenticates, codes 1002-1004 are an `ArgumentException` with the server's
      message, and anything else a `StatusCodeException` with the status. */
  function Receive(s: Session, req: RequestData, response: Response, decode: Decoder): (r: Sent)
    requires s.lastRequest.Some?
    ensures Consumes(s, r.session)
    ensures r.session.lastRequest.Some?
    ensures r.request == req.(accessToken := r.request.accessToken, apiServer := r.request.apiServer)
    decreases |s.network|, 3
  {
    match response
    case ConnectionFailure => Sent(Success(None), s, req)
    case Reply(status, line, error) =>
      if IsSuccessStatus(status) then Sent(Success(line), s, req)
      else
        match error
        case Malformed => Sent(Failure(RefreshTokenException(status)), s, req)
        case Empty => Sent(Failure(NullPointer), s, req)
        case Envelope(code, message) =>
          if code == ExpiredToken then Reauthenticate(s, req, decode)
          else if IsArgumentCode(code) then Sent(Failure(ArgumentException(message)), s, req)
          else Sent(Failure(StatusCodeException(status)), s, req)
  }

  /** The 1017 branch: exchange the current refresh token, overwrite the request's token and
      server with the new authorization's and send it again, with no bound on how often. */
  function Reauthenticate(s: Session, req: RequestData, decode: Decoder): (r: Sent)
    requires s.lastRequest.Some?
    ensures Consumes(s, r.session)
    ensures r.session.lastRequest.Some?
    ensures r.request == req.(accessToken := r.request.accessToken, apiServer := r.request.apiServer)
    decreases |s.network|, 2
  {
    if s.authorization.None? then Sent(Failure(NullPointer), s, req)
    else
      var e := Exchange(s, s.authorization.value.refreshToken, decode);
      if e.outcome.Fail? then Sent(Failure(e.outcome.error), e.session, req)
      else if e.session.authorization.None? then Sent(Failure(NullPointer), e.session, req)
      else
        var renewed := e.session.authorization.value;
        var sent := Send(e.session, req.(accessToken := renewed.accessToken, apiServer := renewed.apiServer), decode);
        ConsumesTransitive(s, e.session, sent.session);
        sent
  }

  /** `Reauthenticate` one step at a time, once an authorization is in place. */
  lemma ReauthenticateStep(s: Session, req: RequestData, decode: Decoder)
    requires s.lastRequest.Some? && s.authorization.Some?
    ensures var e := Exchange(s, s.authorization.value.refreshToken, decode);
      Reauthenticate(s, req, decode)
        == if e.outcome.Fail? then Sent(Failure(e.outcome.error), e.session, req)
           else if e.session.authorization.None? then Sent(Failure(NullPointer), e.session, req)
           else Send(e.session, req.(accessToken := e.session.authorization.value.accessToken, apiServer := e.session.authorization.value.apiServer), decode)
  {
  }

  /** The 1017 branch, once the exchange `e` has returned normally with an authorization: the
      request is sent again with that authorization's token and server. */
  lemma ReauthenticateResends(s: Session, req: RequestData, decode: Decoder, e: Exchanged)
    requires s.lastRequest.Some? && s.authorization.Some?
    requires e == Exchange(s, s.authorization.value.refreshToken, decode)
    requires e.outcome.Pass? && e.session.authorization.Some?
    ensures Reauthenticate(s, req, decode)
      == Send(e.session, req.(accessToken := e.session.authorization.value.accessToken, apiServer := e.session.authorization.value.apiServer), decode)
  {
  }

  /** `retrieveAccessToken(refreshToken)`: one token request; on success the decoded response
      replaces the authorization wholesale and is handed to the relay, when one is set. A
      response that is not JSON throws out of the decoding, before either. */
  function Exchange(s: Session, refreshToken: Option<string>, decode: Decoder): (r: Exchanged)
    ensures Consumes(s, r.session)
    ensures r.outcome.Pass? && s.authRelay.Some? ==>
      |r.session.relayed| > 0 && r.session.relayed[|r.session.relayed| - 1] == RelayCall(s.authRelay.value, r.session.authorization)
    decreases |s.network|, 1
  {
    var sent := Send(s, TokenRequest(refreshToken), decode);
    if sent.body.Failure? then Exchanged(Fail(sent.body.error), sent.session)
    else if DecodeLine(sent.body.value, decode).NotJson? then Exchanged(Fail(JsonSyntax), sent.session)
    else
      var renewed := DecodeLine(sent.body.value, decode).authorization;
      var s' := sent.session.(authorization := renewed);
      if s'.authRelay.Some? then Exchanged(Pass, s'.(relayed := s'.relayed + [RelayCall(s'.authRelay.value, renewed)]))
      else Exchanged(Pass, s')
  }

  /** `retrieveAccessToken()`: an exchange with the refresh token of the current authorization. */
  function Refresh(s: Session, decode: Decoder): (r: Exchanged)
    ensures s.authorization.None? ==> r == Exchanged(Fail(NullPointer), s)
  {
    if s.authorization.None? then Exchanged(Fail(NullPointer), s)
    else Exchange(s, s.authorization.value.refreshToken, decode)
  }

  /** `activate`: consumes the starting refresh token with one exchange (keeping it if the exchange
      throws), or adopts the cached authorization with no request, or does nothing. */
  function Activate(s: Session, decode: Decoder): (r: Exchanged)
    ensures r.outcome.Pass? ==> r.session.startingRefreshToken.None?
    ensures r.outcome.Pass? && AtMostOneStartingCredential(s) ==> r.session.startingAuthorization.None?
    ensures r.outcome.Fail? ==> r.session.startingRefreshToken == s.startingRefreshToken
  {
    if s.startingRefreshToken.Some? then
      var e := Exchange(s, s.startingRefreshToken, decode);
      if e.outcome.Fail? then e else Exchanged(Pass, e.session.(startingRefreshToken := None))
    else if s.startingAuthorization.Some? then
      Exchanged(Pass, s.(authorization := s.startingAuthorization, startingAuthorization := None))
    else Exchanged(Pass, s)
  }

  /** The session after a token exchange the next scripted response grants with `grant`. */
  function Granted(s: Session, refreshToken: Option<string>, grant: string, decode: Decoder): Session
    requires s.network != [] && decode(grant).Parsed?
  {
    var token := TokenRequest(refreshToken);
    var sent := s.(lastRequest := Some(Describe(token)), requests := s.requests + [token], network := s.network[1..], authorization := decode(grant).authorization);
    if s.authRelay.Some? then sent.(relayed := s.relayed + [RelayCall(s.authRelay.value, decode(grant).authorization)]) else sent
  }

  /** A token exchange answered with 2xx and a grant line adopts what the line decodes to,
      consumes that one response and relays the result once, when a relay is set. */
  lemma ExchangeGranted(s: Session, refreshToken: Option<string>, decode: Decoder, grant: string)
    requires s.network != [] && s.network[0].Reply? && IsSuccessStatus(s.network[0].status)
    requires s.network[0].firstLine == Some(grant) && decode(grant).Parsed?
    ensures Exchange(s, refreshToken, decode) == Exchanged(Pass, Granted(s, refreshToken, grant, decode))
  {
    var req := TokenRequest(refreshToken);
    var popped := s.(lastRequest := Some(Describe(req)), requests := s.requests + [req], network := s.network[1..]);
    assert Send(s, req, decode) == Receive(popped, req, s.network[0], decode);
    assert Receive(popped, req, s.network[0], decode) == Sent(Success(Some(grant)), popped, req);
  }

  /** A token exchange answered with 2xx and a line that is not JSON throws the decoder's
      `JsonSyntaxException`: the request is logged and its response consumed, but the
      authorization is left as it was and the relay is not called. */
  lemma ExchangeRejectsNonJson(s: Session, refreshToken: Option<string>, decode: Decoder, text: string)
    requires s.network != [] && s.network[0].Reply? && IsSuccessStatus(s.network[0].status)
    requires s.network[0].firstLine == Some(text) && decode(text).NotJson?
    ensures Exchange(s, refreshToken, decode)
      == Exchanged(Fail(JsonSyntax), s.(lastRequest := Some(Describe(TokenRequest(refreshToken))),
                                        requests := s.requests + [TokenRequest(refreshToken)], network := s.network[1..]))
  {
    var req := TokenRequest(refreshToken);
    var popped := s.(lastRequest := Some(Describe(req)), requests := s.requests + [req], network := s.network[1..]);
    assert Send(s, req, decode) == Receive(popped, req, s.network[0], decode);
    assert Receive(popped, req, s.network[0], decode) == Sent(Success(Some(text)), popped, req);
  }

  // ---------------------------------------------------------------------------------------------
  // The log of dispatched requests

  /** What one dispatch of `req` does to the log: `req` is the first request dispatched,
      `lastRequest` is the text of the last one, and a normal return answers the request the
      dispatcher is left holding. */
  predicate Logged(s: Session, req: RequestData, r: Sent) {
    s.requests + [req] <= r.session.requests && Answers(s, r)
  }

  /** The log only grows, `lastRequest` is the text of its last entry, and a normal return
      answers the request the dispatcher is left holding. */
  predicate Answers(s: Session, r: Sent) {
    s.requests <= r.session.requests && EndsWithAnswer(r)
  }

  /** `lastRequest` is the text of the last request logged, and a normal return answers it. */
  predicate EndsWithAnswer(r: Sent) {
    Recorded(r.session) && (r.body.Success? ==> r.session.requests[|r.session.requests| - 1] == r.request)
  }

  /** `sendRequest` records the text of every request it dispatches, and the value it returns
      answers the request whose text `getLastRequest` then gives. */
  lemma SendIsLogged(s: Session, req: RequestData, decode: Decoder)
    ensures Logged(s, req, Send(s, req, decode))
    ensures var r := Send(s, req, decode);
      r.body.Success? ==> r.session.lastRequest == Some(Describe(r.request))
    decreases |s.network|, 0
  {
    var r := Send(s, req, decode);
    var s1 := s.(lastRequest := Some(Describe(req)), requests := s.requests + [req]);
    if s.network == [] {
      assert r == Sent(Success(None), s1, req);
      LoggedFirst(s, req, s1, r);
    } else {
      var popped := s1.(network := s.network[1..]);
      assert r == Receive(popped, req, s.network[0], decode);
      ReceiveIsLogged(popped, req, s.network[0], decode);
      LoggedFirst(s, req, popped, r);
    }
    LastTextAnswered(r);
  }

  lemma LoggedFirst(s: Session, req: RequestData, s1: Session, r: Sent)
    requires s1.requests == s.requests + [req] && Answers(s1, r)
    ensures Logged(s, req, r)
  {
  }

  lemma LastTextAnswered(r: Sent)
    requires EndsWithAnswer(r)
    ensures r.body.Success? ==> r.session.lastRequest == Some(Describe(r.request))
  {
  }

  lemma ReceiveIsLogged(s: Session, req: RequestData, response: Response, decode: Decoder)
    requires Recorded(s) && s.requests[|s.requests| - 1] == req
    ensures Answers(s, Receive(s, req, response, decode))
    decreases |s.network|, 3
  {
    var r := Receive(s, req, response, decode);
    match response
    case ConnectionFailure =>
      assert r == Sent(Success(None), s, req);
      AnswersUnchanged(s, req, r);
    case Reply(status, line, error) =>
      if IsSuccessStatus(status) {
        assert r == Sent(Success(line), s, req);
        AnswersUnchanged(s, req, r);
      } else if error.Envelope? && error.code == ExpiredToken {
        assert r == Reauthenticate(s, req, decode);
        ReauthenticateIsLogged(s, req, decode);
      } else {
        assert r.session == s && r.request == req;
        AnswersUnchanged(s, req, r);
      }
  }

  lemma AnswersUnchanged(s: Session, req: RequestData, r: Sent)
    requires Recorded(s) && s.requests[|s.requests| - 1] == req
    requires r.session == s && r.request == req
    ensures Answers(s, r)
  {
  }

  /** The 1017 branch first dispatches a token request for the current refresh token. */
  lemma ReauthenticateIsLogged(s: Session, req: RequestData, decode: Decoder)
    requires Recorded(s)
    ensures Answers(s, Reauthenticate(s, req, decode))
    ensures s.authorization.Some? ==>
      s.requests + [TokenRequest(s.authorization.value.refreshToken)] <= Reauthenticate(s, req, decode).session.requests
    decreases |s.network|, 2
  {
    var r := Reauthenticate(s, req, decode);
    if s.authorization.None? {
      assert r == Sent(Failure(NullPointer), s, req);
      AnswersFailed(s.requests, r);
    } else {
      var token := TokenRequest(s.authorization.value.refreshToken);
      ExchangeIsLogged(s, s.authorization.value.refreshToken, decode);
      var e := Exchange(s, s.authorization.value.refreshToken, decode);
      if e.outcome.Pass? && e.session.authorization.Some? {
        var renewed := e.session.authorization.value;
        var again := req.(accessToken := renewed.accessToken, apiServer := renewed.apiServer);
        SendIsLogged(e.session, again, decode);
        assert r == Send(e.session, again, decode);
        AnswersWiden(s.requests + [token], e.session, again, r);
      } else {
        assert r.session == e.session && r.body.Failure?;
        AnswersFailed(s.requests + [token], r);
      }
      AnswersPrefix(s, s.requests + [token], r);
    }
  }

  lemma AnswersFailed(log: seq<RequestData>, r: Sent)
    requires r.body.Failure? && Recorded(r.session) && log <= r.session.requests
    ensures log <= r.session.requests && EndsWithAnswer(r)
  {
  }

  lemma AnswersWiden(log: seq<RequestData>, mid: Session, req: RequestData, r: Sent)
    requires log <= mid.requests && Logged(mid, req, r)
    ensures log <= r.session.requests && EndsWithAnswer(r)
  {
    PrefixTransitive(log, mid.requests, r.session.requests);
  }

  lemma AnswersPrefix(s: Session, log: seq<RequestData>, r: Sent)
    requires s.requests <= log && log <= r.session.requests && EndsWithAnswer(r)
    ensures Answers(s, r)
  {
    PrefixTransitive(s.requests, log, r.session.requests);
  }

  lemma PrefixTransitive<T>(a: seq<T>, b: seq<T>, c: seq<T>)
    requires a <= b && b <= c
    ensures a <= c
  {
    assert c[..|b|][..|a|] == c[..|a|];
  }

  /** A token exchange dispatches the token request for the refresh token it is given. */
  lemma ExchangeIsLogged(s: Session, refreshToken: Option<string>, decode: Decoder)
    ensures s.requests + [TokenRequest(refreshToken)] <= Exchange(s, refreshToken, decode).session.requests
    ensures Recorded(Exchange(s, refreshToken, decode).session)
    decreases |s.network|, 1
  {
    var sent := Send(s, TokenRequest(refreshToken), decode);
    SendIsLogged(s, TokenRequest(refreshToken), decode);
    var r := Exchange(s, refreshToken, decode);
    if sent.body.Failure? {
      assert r == Exchanged(Fail(sent.body.error), sent.session);
    } else if DecodeLine(sent.body.value, decode).NotJson? {
      assert r == Exchanged(Fail(JsonSyntax), sent.session);
    } else {
      var renewed := DecodeLine(sent.body.value, decode).authorization;
      var adopted := sent.session.(authorization := renewed);
      if adopted.authRelay.Some? {
        assert r.session == adopted.(relayed := adopted.relayed + [RelayCall(adopted.authRelay.value, renewed)]);
      } else {
        assert r.session == adopted;
      }
    }
    SameLog(sent.session, r.session);
  }

  lemma SameLog(a: Session, b: Session)
    requires Recorded(a) && a.requests == b.requests && a.lastRequest == b.lastRequest
    ensures Recorded(b)
  {
  }

  // ---------------------------------------------------------------------------------------------
  // Activation

  /** Activation happens once: after an activation that returned normally, activating again
      changes nothing. */
  lemma ActivateIsIdempotent(s: Session, decode: Decoder)
    requires AtMostOneStartingCredential(s)
    requires Activate(s, decode).outcome.Pass?
    ensures Activate(Activate(s, decode).session, decode) == Exchanged(Pass, Activate(s, decode).session)
  {
  }

  /** A client built from cached data adopts that authorization on activation, with no request,
      no relay call and no change to the script. */
  lemma ActivateCachedMakesNoRequest(s: Session, cached: Authorization, decode: Decoder)
    requires s.startingRefreshToken.None? && s.startingAuthorization == Some(cached)
    ensures Activate(s, decode) == Exchanged(Pass, s.(authorization := Some(cached), startingAuthorization := None))
  {
  }

  /** With a starting refresh token and a server that grants it, activation sends exactly one
      token request for that token, adopts the decoded grant and clears the starting token. */
  lemma ActivateExchangesOnce(s: Session, decode: Decoder, grant: string)
    requires s.startingRefreshToken.Some?
    requires s.network != [] && s.network[0].Reply? && IsSuccessStatus(s.network[0].status)
    requires s.network[0].firstLine == Some(grant) && decode(grant).Parsed?
    ensures var r := Activate(s, decode);
      && r.outcome.Pass?
      && r.session.authorization == decode(grant).authorization
      && r.session.network == s.network[1..]
      && r.session.startingRefreshToken.None?
      && r.session.lastRequest == Some(Describe(TokenRequest(s.startingRefreshToken)))
      && r.session.requests == s.requests + [TokenRequest(s.startingRefreshToken)]
      && r.session.relayed == s.relayed + (if s.authRelay.Some? then [RelayCall(s.authRelay.value, decode(grant).authorization)] else [])
  {
    ExchangeGranted(s, s.startingRefreshToken, decode, grant);
  }

  /** When the server answers the starting token with a line that is not JSON, activation throws
      and keeps the starting token; nothing is adopted and nothing is relayed. */
  lemma ActivateKeepsTokenOnNonJson(s: Session, decode: Decoder, text: string)
    requires s.startingRefreshToken.Some?
    requires s.network != [] && s.network[0].Reply? && IsSuccessStatus(s.network[0].status)
    requires s.network[0].firstLine == Some(text) && decode(text).NotJson?
    ensures var r := Activate(s, decode);
      && r.outcome == Fail(JsonSyntax)
      && r.session.startingRefreshToken == s.startingRefreshToken
      && r.session.authorization == s.authorization
      && r.session.relayed == s.relayed
      && r.session.requests == s.requests + [TokenRequest(s.startingRefreshToken)]
  {
    ExchangeRejectsNonJson(s, s.startingRefreshToken, decode, text);
  }

  // ---------------------------------------------------------------------------------------------
  // Classification of one response

  /** A 2xx response gives its first body line unchanged and consumes exactly that response. */
  lemma SuccessReturnsFirstLine(s: Session, req: RequestData, decode: Decoder)
    requires s.network != [] && s.network[0].Reply? && IsSuccessStatus(s.network[0].status)
    ensures Send(s, req, decode)
      == Sent(Success(s.network[0].firstLine), s.(lastRequest := Some(Describe(req)), requests := s.requests + [req], network := s.network[1..]), req)
  {
  }

  /** A dispatch whose script is exhausted or whose connection fails swallows the IOException
      and returns null: the request is logged and its text recorded, at most that one answer is
      consumed, and there is no exchange and no relay call. */
  lemma FailedConnectionIsNull(s: Session, req: RequestData, decode: Decoder)
    requires s.network == [] || s.network[0].ConnectionFailure?
    ensures Send(s, req, decode)
      == Sent(Success(None), s.(lastRequest := Some(Describe(req)), requests := s.requests + [req],
                                network := if s.network == [] then [] else s.network[1..]), req)
  {
  }


  /** The error branches other than 1017, in the order they are tried: each throws without any
      exchange, leaving the authorization, the relay log and the request as they were. */
  lemma NonRetryableErrors(s: Session, req: RequestData, decode: Decoder)
    requires s.network != [] && s.network[0].Reply? && !IsSuccessStatus(s.network[0].status)
    requires !(s.network[0].error.Envelope? && s.network[0].error.code == ExpiredToken)
    ensures var r := Send(s, req, decode);
      var status := s.network[0].status;
      var error := s.network[0].error;
      && r.session == s.(lastRequest := Some(Describe(req)), requests := s.requests + [req], network := s.network[1..])
      && r.request == req
      && (error.Malformed? ==> r.body == Failure(RefreshTokenException(status)))
      && (error.Empty? ==> r.body == Failure(NullPointer))
      && (error.Envelope? && IsArgumentCode(error.code) ==> r.body == Failure(ArgumentException(error.message)))
      && (error.Envelope? && !IsArgumentCode(error.code) ==> r.body == Failure(StatusCodeException(status)))
  {
    var popped := s.(lastRequest := Some(Describe(req)), requests := s.requests + [req], network := s.network[1..]);
    assert Send(s, req, decode) == Receive(popped, req, s.network[0], decode);
  }

  /** An unreadable error body is taken for a bad refresh token whatever the status, even on a
      request that is not a token exchange. */
  lemma MalformedBodyIsRefreshTokenFailure(s: Session, req: RequestData, decode: Decoder, status: int, line: Option<string>)
    requires s.network != [] && s.network[0] == Reply(status, line, Malformed) && !IsSuccessStatus(status)
    ensures Send(s, req, decode).body == Failure(RefreshTokenException(status))
    ensures !IsArgumentException(Send(s, req, decode).body.error)
  {
  }

  // ---------------------------------------------------------------------------------------------
  // Re-authentication

  /** The response the server gives to an expired access token. */
  const Expired: Response := Reply(401, Some("{\"code\":1017,\"message\":\"Access token is invalid\"}"), Envelope(ExpiredToken, Some("Access token is invalid")))

  /** A script in which each grant is preceded by an expired-token answer. */
  function Renewals(grants: seq<string>): (script: seq<Response>)
    ensures |script| == 2 * |grants|
    decreases |grants|
  {
    if grants == [] then [] else [Expired, Reply(200, Some(grants[0]), Envelope(0, None))] + Renewals(grants[1..])
  }

  /** The relay calls the grants cause, in order. */
  function RelayCalls(relay: Relay, grants: seq<string>, decode: Decoder): seq<RelayCall>
    requires AllDecode(grants, decode)
    decreases |grants|
  {
    if grants == [] then []
    else
      AllDecodeTail(grants, decode);
      [RelayCall(relay, decode(grants[0]).authorization)] + RelayCalls(relay, grants[1..], decode)
  }

  predicate AllDecode(grants: seq<string>, decode: Decoder) {
    forall i :: 0 <= i < |grants| ==> Authorizes(decode, grants[i])
  }

  /** The request the dispatcher is left holding after `grants` renewals. */
  function Retried(req: RequestData, grants: seq<string>, decode: Decoder): RequestData
    requires AllDecode(grants, decode)
  {
    if grants == [] then req
    else
      var last := decode(grants[|grants| - 1]).authorization.value;
      req.(accessToken := last.accessToken, apiServer := last.apiServer)
  }

  /** The session in which the re-sent request runs after the first renewal. */
  function AfterFirstRenewal(s: Session, req: RequestData, grant: string, decode: Decoder): Session
    requires s.authorization.Some? && |s.network| >= 2 && decode(grant).Parsed?
  {
    Granted(s.(lastRequest := Some(Describe(req)), requests := s.requests + [req], network := s.network[1..]), s.authorization.value.refreshToken, grant, decode)
  }

  /** One expired-token answer followed by a grant: the request is re-sent with the token and
      the server of the new authorization, after exactly one exchange and one relay call. The
      log shows the request, then a token request for the current authorization's refresh
      token, then the request again. */
  lemma RetryUsesNewAuthorization(s: Session, req: RequestData, decode: Decoder, grant: string)
    requires s.authorization.Some? && Authorizes(decode, grant)
    requires |s.network| >= 2 && s.network[0] == Expired && s.network[1] == Reply(200, Some(grant), Envelope(0, None))
    ensures Send(s, req, decode) == Send(AfterFirstRenewal(s, req, grant, decode), Retried(req, [grant], decode), decode)
    ensures s.requests + [req, TokenRequest(s.authorization.value.refreshToken), Retried(req, [grant], decode)]
      <= Send(s, req, decode).session.requests
  {
    var popped := s.(lastRequest := Some(Describe(req)), requests := s.requests + [req], network := s.network[1..]);
    SendStep(s, req, decode);
    assert Send(s, req, decode) == Receive(popped, req, Expired, decode);
    assert Receive(popped, req, Expired, decode) == Reauthenticate(popped, req, decode);
    assert popped.network[0] == s.network[1];
    ExchangeGranted(popped, s.authorization.value.refreshToken, decode, grant);
    ReauthenticateStep(popped, req, decode);
    RenewedLog(s, req, grant, decode, Send(s, req, decode));
  }

  /** The requests dispatched once the request re-sent after the first renewal is answered. */
  lemma RenewedLog(s: Session, req: RequestData, grant: string, decode: Decoder, r: Sent)
    requires s.authorization.Some? && |s.network| >= 2 && Authorizes(decode, grant)
    requires r == Send(AfterFirstRenewal(s, req, grant, decode), Retried(req, [grant], decode), decode)
    ensures s.requests + [req, TokenRequest(s.authorization.value.refreshToken), Retried(req, [grant], decode)] <= r.session.requests
  {
    var after := AfterFirstRenewal(s, req, grant, decode);
    AfterFirstRenewalLog(s, req, grant, decode);
    SendIsLogged(after, Retried(req, [grant], decode), decode);
    ThreeMore(s.requests, req, TokenRequest(s.authorization.value.refreshToken), Retried(req, [grant], decode), after.requests, r.session.requests);
  }

  /** The first renewal adds the request and then one token request to the log. */
  lemma AfterFirstRenewalLog(s: Session, req: RequestData, grant: string, decode: Decoder)
    requires s.authorization.Some? && |s.network| >= 2 && decode(grant).Parsed?
    ensures AfterFirstRenewal(s, req, grant, decode).requests == s.requests + [req, TokenRequest(s.authorization.value.refreshToken)]
  {
    assert s.requests + [req] + [TokenRequest(s.authorization.value.refreshToken)] == s.requests + [req, TokenRequest(s.authorization.value.refreshToken)];
  }

  lemma ThreeMore<T>(log: seq<T>, a: T, b: T, c: T, mid: seq<T>, last: seq<T>)
    requires mid == log + [a, b] && mid + [c] <= last
    ensures log + [a, b, c] <= last
  {
    assert mid + [c] == log + [a, b, c];
  }

  /** The authorization in place after `grants` renewals starting from `current`. */
  function LastAuthorization(current: Option<Authorization>, grants: seq<string>, decode: Decoder): Option<Authorization>
    requires AllDecode(grants, decode)
  {
    if grants == [] then current else decode(grants[|grants| - 1]).authorization
  }

  /** A dispatch that ended with the body `line`, the script `rest`, the authorization `auth` in
      place and `request` as the request last sent. */
  predicate Settled(r: Sent, line: Option<string>, rest: seq<Response>, auth: Option<Authorization>, request: RequestData) {
    r.body == Success(line) && r.session.network == rest && r.session.authorization == auth && r.request == request
  }

  /** There is no retry cap: however many expired-token answers arrive, each followed by a grant,
      the dispatcher re-authenticates once per answer and returns the body of the first 2xx
      answer, with the last authorization in place and its token and server on the request. */
  lemma NoRetryCap(s: Session, req: RequestData, decode: Decoder, grants: seq<string>, line: Option<string>, rest: seq<Response>)
    requires s.authorization.Some? && AllDecode(grants, decode)
    requires s.network == Renewals(grants) + [Reply(200, line, Envelope(0, None))] + rest
    ensures var r := Send(s, req, decode);
      && r.body == Success(line)
      && r.session.network == rest
      && r.session.authorization == (if grants == [] then s.authorization else decode(grants[|grants| - 1]).authorization)
      && r.request == Retried(req, grants, decode)
      && r.session.lastRequest == Some(Describe(Retried(req, grants, decode)))
      && r.session.requests == s.requests + Issued(req, s.authorization.value, grants, decode)
  {
    RenewalsSettle(s, req, decode, grants, line, rest);
    RenewalsAreLogged(s, req, decode, grants, line, rest);
    SendIsLogged(s, req, decode);
  }

  lemma {:induction false} RenewalsSettle(s: Session, req: RequestData, decode: Decoder, grants: seq<string>, line: Option<string>, rest: seq<Response>)
    requires s.authorization.Some? && AllDecode(grants, decode)
    requires s.network == Renewals(grants) + [Reply(200, line, Envelope(0, None))] + rest
    ensures Settled(Send(s, req, decode), line, rest, LastAuthorization(s.authorization, grants, decode), Retried(req, grants, decode))
    decreases |grants|
  {
    if grants == [] {
      assert s.network == [Reply(200, line, Envelope(0, None))] + rest;
      SuccessReturnsFirstLine(s, req, decode);
      assert s.network[1..] == rest;
    } else {
      var g := grants[0];
      var renewed := AfterFirstRenewal(s, req, g, decode);
      var retried := Retried(req, [g], decode);
      FirstRenewal(s, req, decode, grants, line, rest);
      RetriedStep(req, grants, decode);
      RetryUsesNewAuthorization(s, req, decode, g);
      LastAuthorizationStep(s.authorization, grants, decode);
      RenewalsSettle(renewed, retried, decode, grants[1..], line, rest);
    }
  }

  /** Renewing with the first grant and then with the others leaves the authorization of the
      last grant, as renewing with all of them does. */
  lemma LastAuthorizationStep(current: Option<Authorization>, grants: seq<string>, decode: Decoder)
    requires AllDecode(grants, decode) && grants != []
    ensures Authorizes(decode, grants[0]) && AllDecode(grants[1..], decode)
    ensures LastAuthorization(decode(grants[0]).authorization, grants[1..], decode) == LastAuthorization(current, grants, decode)
  {
    AllDecodeTail(grants, decode);
    if grants[1..] != [] {
      assert grants[1..][|grants[1..]| - 1] == grants[|grants| - 1];
    }
  }

  /** The session after the first renewal has the rest of the script, the first grant in place
      and a relay log one call longer. */
  lemma FirstRenewal(s: Session, req: RequestData, decode: Decoder, grants: seq<string>, line: Option<string>, rest: seq<Response>)
    requires s.authorization.Some? && grants != [] && decode(grants[0]).Parsed?
    requires s.network == Renewals(grants) + [Reply(200, line, Envelope(0, None))] + rest
    ensures |s.network| >= 2 && s.network[0] == Expired && s.network[1] == Reply(200, Some(grants[0]), Envelope(0, None))
    ensures AfterFirstRenewal(s, req, grants[0], decode).network == Renewals(grants[1..]) + [Reply(200, line, Envelope(0, None))] + rest
    ensures AfterFirstRenewal(s, req, grants[0], decode).authorization == decode(grants[0]).authorization
    ensures AfterFirstRenewal(s, req, grants[0], decode).authRelay == s.authRelay
    ensures AfterFirstRenewal(s, req, grants[0], decode).relayed
      == s.relayed + (if s.authRelay.Some? then [RelayCall(s.authRelay.value, decode(grants[0]).authorization)] else [])
    ensures AfterFirstRenewal(s, req, grants[0], decode).requests == s.requests + [req, TokenRequest(s.authorization.value.refreshToken)]
  {
    RenewalsScript(s.network, grants, line, rest);
    AfterFirstRenewalLog(s, req, grants[0], decode);
  }

  /** Renewing with the first grant and then with the others leaves the request as renewing with
      all of them does. */
  lemma RetriedStep(req: RequestData, grants: seq<string>, decode: Decoder)
    requires AllDecode(grants, decode) && grants != []
    ensures Authorizes(decode, grants[0]) && AllDecode(grants[1..], decode)
    ensures Retried(Retried(req, [grants[0]], decode), grants[1..], decode) == Retried(req, grants, decode)
  {
    AllDecodeTail(grants, decode);
    if grants[1..] != [] {
      assert grants[1..][|grants[1..]| - 1] == grants[|grants| - 1];
    }
  }

  /** The relay log after the first renewal, extended by the calls of the other grants, is the
      log extended by the calls of all of them. */
  lemma RelayStep(relayed: seq<RelayCall>, relay: Relay, grants: seq<string>, decode: Decoder)
    requires AllDecode(grants, decode) && grants != []
    ensures Authorizes(decode, grants[0]) && AllDecode(grants[1..], decode)
    ensures RelayCalls(relay, grants, decode) == [RelayCall(relay, decode(grants[0]).authorization)] + RelayCalls(relay, grants[1..], decode)
    ensures relayed + RelayCalls(relay, grants, decode)
      == (relayed + [RelayCall(relay, decode(grants[0]).authorization)]) + RelayCalls(relay, grants[1..], decode)
  {
    AllDecodeTail(grants, decode);
    var call := RelayCall(relay, decode(grants[0]).authorization);
    assert RelayCalls(relay, grants, decode) == [call] + RelayCalls(relay, grants[1..], decode);
  }

  lemma RenewalsScript(network: seq<Response>, grants: seq<string>, line: Option<string>, rest: seq<Response>)
    requires grants != []
    requires network == Renewals(grants) + [Reply(200, line, Envelope(0, None))] + rest
    ensures |network| >= 2 && network[0] == Expired && network[1] == Reply(200, Some(grants[0]), Envelope(0, None))
    ensures network[1..][1..] == Renewals(grants[1..]) + [Reply(200, line, Envelope(0, None))] + rest
  {
    var tail := Renewals(grants[1..]) + [Reply(200, line, Envelope(0, None))] + rest;
    assert network == [Expired, Reply(200, Some(grants[0]), Envelope(0, None))] + tail;
    assert network[1..] == [Reply(200, Some(grants[0]), Envelope(0, None))] + tail;
  }

  /** Under the same script every renewal is handed to the relay, in order. */
  lemma {:induction false} RenewalsAreRelayed(s: Session, req: RequestData, decode: Decoder, grants: seq<string>, line: Option<string>, rest: seq<Response>)
    requires s.authorization.Some? && AllDecode(grants, decode)
    requires s.network == Renewals(grants) + [Reply(200, line, Envelope(0, None))] + rest
    ensures Send(s, req, decode).session.relayed
      == s.relayed + (if s.authRelay.Some? then RelayCalls(s.authRelay.value, grants, decode) else [])
    decreases |grants|
  {
    if grants == [] {
      assert s.network == [Reply(200, line, Envelope(0, None))] + rest;
      SuccessReturnsFirstLine(s, req, decode);
    } else {
      var g := grants[0];
      var renewed := AfterFirstRenewal(s, req, g, decode);
      var retried := Retried(req, [g], decode);
      FirstRenewal(s, req, decode, grants, line, rest);
      AllDecodeTail(grants, decode);
      RetryUsesNewAuthorization(s, req, decode, g);
      RenewalsAreRelayed(renewed, retried, decode, grants[1..], line, rest);
      if s.authRelay.Some? {
        var relay := s.authRelay.value;
        RelayStep(s.relayed, relay, grants, decode);
        Regrouped(s.relayed, [RelayCall(relay, decode(g).authorization)], RelayCalls(relay, grants[1..], decode),
                  renewed.relayed, Send(renewed, retried, decode).session.relayed);
      }
    }
  }

  /** The requests dispatched under that script: the request, then for each grant a token
      request for the refresh token in place and the request again with the new authorization. */
  function Issued(req: RequestData, current: Authorization, grants: seq<string>, decode: Decoder): (issued: seq<RequestData>)
    requires AllDecode(grants, decode)
    ensures |issued| == 2 * |grants| + 1
    decreases |grants|
  {
    if grants == [] then [req]
    else
      AllDecodeTail(grants, decode);
      var next := decode(grants[0]).authorization.value;
      [req, TokenRequest(current.refreshToken)] + Issued(Retried(req, [grants[0]], decode), next, grants[1..], decode)
  }

  /** Under that script every request that `Issued` lists is dispatched, in order. */
  lemma {:induction false} RenewalsAreLogged(s: Session, req: RequestData, decode: Decoder, grants: seq<string>, line: Option<string>, rest: seq<Response>)
    requires s.authorization.Some? && AllDecode(grants, decode)
    requires s.network == Renewals(grants) + [Reply(200, line, Envelope(0, None))] + rest
    ensures Send(s, req, decode).session.requests == s.requests + Issued(req, s.authorization.value, grants, decode)
    decreases |grants|
  {
    if grants == [] {
      assert s.network == [Reply(200, line, Envelope(0, None))] + rest;
      SuccessReturnsFirstLine(s, req, decode);
    } else {
      var g := grants[0];
      var renewed := AfterFirstRenewal(s, req, g, decode);
      var retried := Retried(req, [g], decode);
      FirstRenewal(s, req, decode, grants, line, rest);
      AllDecodeTail(grants, decode);
      RetryUsesNewAuthorization(s, req, decode, g);
      RenewalsAreLogged(renewed, retried, decode, grants[1..], line, rest);
      IssuedStep(req, s.authorization.value, grants, decode);
      Regrouped(s.requests, [req, TokenRequest(s.authorization.value.refreshToken)], Issued(retried, decode(g).authorization.value, grants[1..], decode),
        renewed.requests, Send(s, req, decode).session.requests);
    }
  }

  /** `Issued` over one grant and then the others. */
  lemma IssuedStep(req: RequestData, current: Authorization, grants: seq<string>, decode: Decoder)
    requires AllDecode(grants, decode) && grants != []
    ensures Authorizes(decode, grants[0]) && AllDecode(grants[1..], decode)
    ensures Issued(req, current, grants, decode)
      == [req, TokenRequest(current.refreshToken)] + Issued(Retried(req, [grants[0]], decode), decode(grants[0]).authorization.value, grants[1..], decode)
  {
    AllDecodeTail(grants, decode);
  }

  lemma Regrouped<T>(log: seq<T>, head: seq<T>, tail: seq<T>, mid: seq<T>, last: seq<T>)
    requires mid == log + head && last == mid + tail
    ensures last == log + (head + tail)
  {
  }

  /** The k-th exchange under that script sends the refresh token of the authorization in place
      after k renewals (the current one for k = 0), and the k-th resend carries the token and
      server of the k-th grant. */
  lemma {:induction false} IssuedAt(req: RequestData, current: Authorization, grants: seq<string>, decode: Decoder, k: nat)
    requires AllDecode(grants, decode) && k <= |grants|
    ensures AllDecode(grants[..k], decode) && LastAuthorization(Some(current), grants[..k], decode).Some?
    ensures Issued(req, current, grants, decode)[2 * k] == Retried(req, grants[..k], decode)
    ensures k < |grants| ==>
      Issued(req, current, grants, decode)[2 * k + 1] == TokenRequest(LastAuthorization(Some(current), grants[..k], decode).value.refreshToken)
    decreases k
  {
    AllDecodePrefix(grants, decode, k);
    if k == 0 {
      assert grants[..0] == [];
    } else {
      var next := decode(grants[0]).authorization.value;
      var retried := Retried(req, [grants[0]], decode);
      AllDecodeTail(grants, decode);
      IssuedAt(retried, next, grants[1..], decode, k - 1);
      assert Issued(req, current, grants, decode)[2 * k] == Issued(retried, next, grants[1..], decode)[2 * (k - 1)];
      var before := grants[1..][..k - 1];
      PrefixAfterFirst(grants, k);
      if k == 1 {
        assert grants[..k] == [grants[0]];
      } else {
        assert before[|before| - 1] == grants[k - 1];
        assert grants[..k][k - 1] == grants[k - 1];
      }
      if k < |grants| {
        assert Issued(req, current, grants, decode)[2 * k + 1] == Issued(retried, next, grants[1..], decode)[2 * (k - 1) + 1];
      }
    }
  }

  /** Under that script the k-th renewal dispatches the request carrying the token and
      server of grant k - 1 (the request as given for k = 0), then a token request for the
      refresh token of that same authorization (the current one for k = 0): each exchange uses
      the refresh token of the latest grant, never a stale one. */
  lemma RenewalUsesLatestRefreshToken(s: Session, req: RequestData, decode: Decoder, grants: seq<string>, line: Option<string>, rest: seq<Response>, k: nat)
    requires s.authorization.Some? && AllDecode(grants, decode) && k < |grants|
    requires s.network == Renewals(grants) + [Reply(200, line, Envelope(0, None))] + rest
    ensures RenewalLogged(Send(s, req, decode).session.requests, |s.requests|, req, s.authorization.value, grants, decode, k)
  {
    NoRetryCap(s, req, decode, grants, line, rest);
    IssuedLatest(s.requests, req, s.authorization.value, grants, decode, k, Send(s, req, decode).session.requests);
  }

  /** From position `at` on, `log` holds `2 * |grants| + 1` requests, and the k-th renewal in it
      is the request with the token and server of grant k - 1 (as given for k = 0) followed by
      a token request for the refresh token of that authorization (of `current` for k = 0). */
  predicate RenewalLogged(log: seq<RequestData>, at: nat, req: RequestData, current: Authorization, grants: seq<string>, decode: Decoder, k: nat)
    requires AllDecode(grants, decode) && k < |grants|
  {
    && |log| == at + 2 * |grants| + 1
    && log[at + 2 * k]
      == (if k == 0 then req
          else req.(accessToken := decode(grants[k - 1]).authorization.value.accessToken, apiServer := decode(grants[k - 1]).authorization.value.apiServer))
    && log[at + 2 * k + 1] == TokenRequest(if k == 0 then current.refreshToken else decode(grants[k - 1]).authorization.value.refreshToken)
  }

  /** `IssuedAt` with the k-th authorization written out, read in a log that ends with `Issued`. */
  lemma IssuedLatest(before: seq<RequestData>, req: RequestData, current: Authorization, grants: seq<string>, decode: Decoder, k: nat, log: seq<RequestData>)
    requires AllDecode(grants, decode) && k < |grants|
    requires log == before + Issued(req, current, grants, decode)
    ensures RenewalLogged(log, |before|, req, current, grants, decode, k)
  {
    IssuedAt(req, current, grants, decode, k);
    if k > 0 {
      assert grants[..k][k - 1] == grants[k - 1];
    }
  }

  lemma PrefixAfterFirst<T>(xs: seq<T>, k: nat)
    requires 0 < k <= |xs|
    ensures xs[..k] == [xs[0]] + xs[1..][..k - 1]
  {
    assert xs[1..][..k - 1] == xs[1..k];
  }

  lemma AllDecodePrefix(grants: seq<string>, decode: Decoder, k: nat)
    requires AllDecode(grants, decode) && k <= |grants|
    ensures AllDecode(grants[..k], decode)
  {
    forall i | 0 <= i < |grants[..k]| ensures Authorizes(decode, grants[..k][i]) {
      assert grants[..k][i] == grants[i];
    }
  }

  lemma AllDecodeTail(grants: seq<string>, decode: Decoder)
    requires grants != [] && AllDecode(grants, decode)
    ensures AllDecode(grants[1..], decode)
  {
    forall i | 0 <= i < |grants[1..]| ensures Authorizes(decode, grants[1..][i]) {
      assert grants[1..][i] == grants[i + 1];
    }
  }

  /** Without a relay no relay call ever happens, whatever the script. */
  lemma NoRelayWithoutRelay(s: Session, req: RequestData, decode: Decoder)
    requires s.authRelay.None?
    ensures Send(s, req, decode).session.relayed == s.relayed
    ensures Activate(s, decode).session.relayed == s.relayed
  {
  }
}
