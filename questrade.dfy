/** The current client, `Questrade`: its fields, its session methods and its endpoints, each
    proved to do what the pure session machine of `Dispatch` and the plans of `Endpoints` say. */
module Client {
  import opened Wrappers
  import opened Failures
  import opened QueryStrings
  import opened Authorizations
  import opened Requests
  import opened Network
  import opened Dispatch
  import opened Endpoints
  import opened Accounts

  /** The outcome of an endpoint call: the dispatcher's result and the client afterwards. */
  datatype Called = Called(body: Result<Option<string>, Failure>, session: Session)

  /** An endpoint call: a failed guard or a null authorization throws before any request;
      otherwise the planned request is dispatched. */
  function Perform(s: Session, plan: Result<RequestData, Failure>, decode: Decoder): (r: Called)
    ensures plan.Failure? ==> r == Called(Failure(plan.error), s)
    ensures plan.Success? ==> Consumes(s, r.session) && r.session.lastRequest.Some?
  {
    match plan
    case Failure(e) => Called(Failure(e), s)
    case Success(d) =>
      var sent := Send(s, d, decode);
      Called(sent.body, sent.session)
  }

  /** The text an endpoint hands to the JSON decoder. A null body (an I/O error swallowed by the
      dispatcher) makes the decoder return null, whose field the endpoint then reads. */
  function Payload(body: Result<Option<string>, Failure>): (r: Result<string, Failure>)
    ensures r.Success? <==> body.Success? && body.value.Some?
    ensures r.Success? ==> r.value == body.value.value
    ensures body.Failure? ==> r == Failure(body.error)
    ensures body == Success(None) ==> r == Failure(NullPointer)
  {
    match body
    case Failure(e) => Failure(e)
    case Success(None) => Failure(NullPointer)
    case Success(Some(text)) => Success(text)
  }

  /** What the JSON decoder makes of the accounts response: the `accounts` array (null when the
      field is missing) and the top-level `userId`. */
  datatype AccountsPayload = AccountsPayload(accounts: Option<seq<AccountRecord>>, userId: int)

  /** What Gson's `fromJson(text, Accounts.class)` makes of the accounts response: the object it
      builds (null for an empty document), or the `JsonSyntaxException` it throws on text that
      is not JSON. */
  datatype AccountsDecoded = AccountsParsed(payload: Option<AccountsPayload>) | AccountsNotJson

  type AccountsParser = string -> AccountsDecoded

  /** The accounts `getAccounts` returns: those of the response, each with the response's user id.
      Text that is not JSON throws out of the decoding; a null object or a missing `accounts`
      array is dereferenced by the loop. */
  function InjectedAccounts(body: Result<Option<string>, Failure>, parse: AccountsParser)
    : (r: Result<seq<AccountRecord>, Failure>)
    ensures r.Success? <==>
      && Payload(body).Success? && parse(Payload(body).value).AccountsParsed?
      && parse(Payload(body).value).payload.Some? && parse(Payload(body).value).payload.value.accounts.Some?
    ensures Payload(body).Success? && parse(Payload(body).value).AccountsNotJson? ==> r == Failure(JsonSyntax)
    ensures Payload(body).Success? && parse(Payload(body).value) == AccountsParsed(None) ==> r == Failure(NullPointer)
    ensures (&& Payload(body).Success? && parse(Payload(body).value).AccountsParsed? && parse(Payload(body).value).payload.Some?
             && parse(Payload(body).value).payload.value.accounts.None?)
      ==> r == Failure(NullPointer)
    ensures r.Success? ==>
      var payload := parse(Payload(body).value).payload.value;
      && |r.value| == |payload.accounts.value|
      && forall i :: 0 <= i < |r.value| ==>
           r.value[i].userId == payload.userId
           && r.value[i].(userId := 0) == payload.accounts.value[i].(userId := 0)
    ensures Payload(body).Failure? ==> r == Failure(Payload(body).error)
  {
    match Payload(body)
    case Failure(e) => Failure(e)
    case Success(text) =>
      match parse(text)
      case AccountsNotJson => Failure(JsonSyntax)
      case AccountsParsed(None) => Failure(NullPointer)
      case AccountsParsed(Some(payload)) =>
        match payload.accounts
        case None => Failure(NullPointer)
        case Some(records) => Success(seq(|records|, i requires 0 <= i < |records| => records[i].(userId := payload.userId)))
  }

  /** What the JSON decoder builds for the `accounts` array: one new `Account` per element. */
  method Materialize(records: seq<AccountRecord>) returns (accounts: array<Account>)
    ensures fresh(accounts) && accounts.Length == |records|
    ensures forall j :: 0 <= j < |records| ==> fresh(accounts[j]) && accounts[j].Record() == records[j]
  {
    var built: seq<Account> := [];
    for k := 0 to |records|
      invariant |built| == k
      invariant forall j :: 0 <= j < k ==> fresh(built[j]) && built[j].Record() == records[j]
    {
      var account := new Account.FromJson(records[k]);
      built := built + [account];
    }
    accounts := new Account[|built|](j requires 0 <= j < |built| => built[j]);
  }

  /** The injection loop of `getAccounts`: every account gets `userId`, and nothing else changes. */
  method InjectUserId(accounts: array<Account>, userId: int)
    modifies set j | 0 <= j < accounts.Length :: accounts[j]
    ensures forall j :: 0 <= j < accounts.Length ==> accounts[j].Record() == old(accounts[j].Record()).(userId := userId)
  {
    for i := 0 to accounts.Length
      invariant forall j :: 0 <= j < accounts.Length ==>
        accounts[j].Record().(userId := 0) == old(accounts[j].Record()).(userId := 0)
      invariant forall j :: 0 <= j < i ==> accounts[j].userId == userId
    {
      accounts[i].SetUserId(userId);
    }
  }

  /** The request an endpoint has built, as a value, or the exception it threw while building it. */
  function Built(r: Result<Request, Failure>): Result<RequestData, Failure>
    reads if r.Success? then {r.value} else {}
  {
    match r
    case Failure(e) => Failure(e)
    case Success(request) => Success(request.Data())
  }

  // ---------------------------------------------------------------------------------------------
  // The request each endpoint builds, statement by statement in the source's order, from the
  // client's authorization at the time of the call. A null authorization throws where the
  // source first reads it.

  method BalancesRequest(auth: Option<Authorization>, accountNumber: string) returns (r: Result<Request, Failure>)
    ensures r.Success? ==> fresh(r.value)
    ensures Built(r) == BalancesPlan(auth, accountNumber)
  {
    var request := new Request(AccountResource(accountNumber, "/balances"));
    if auth.None? {
      return Failure(NullPointer);
    }
    request.SetAccessToken(auth.value.accessToken);
    request.SetRequestMethod(GET);
    request.SetApiServer(auth.value.apiServer);
    r := Success(request);
  }

  method AccountsRequest(auth: Option<Authorization>) returns (r: Result<Request, Failure>)
    ensures r.Success? ==> fresh(r.value)
    ensures Built(r) == AccountsPlan(auth)
  {
    var request := new Request("v1/accounts/");
    if auth.None? {
      return Failure(NullPointer);
    }
    request.SetAccessToken(auth.value.accessToken);
    request.SetRequestMethod(GET);
    request.SetApiServer(auth.value.apiServer);
    r := Success(request);
  }

  method TimeRequest(auth: Option<Authorization>) returns (r: Result<Request, Failure>)
    ensures r.Success? ==> fresh(r.value)
    ensures Built(r) == TimePlan(auth)
  {
    var request := new Request("v1/time");
    request.SetRequestMethod(GET);
    if auth.None? {
      return Failure(NullPointer);
    }
    request.SetApiServer(auth.value.apiServer);
    request.SetAccessToken(auth.value.accessToken);
    r := Success(request);
  }

  /** The part the four time-range endpoints share: the guard on the range, the request on
      `resource`, the session's server and token, then `startTime` and `endTime`. (The order of
      the two setters differs between the endpoints and is not observable.) */
  method RangeRequest(auth: Option<Authorization>, resource: string, startTime: ZonedTime, endTime: ZonedTime)
    returns (r: Result<Request, Failure>)
    ensures r.Success? ==>
      && fresh(r.value) && r.value.Valid() && r.value.resource == resource
      && r.value.params == [Param("startTime", [startTime.iso]), Param("endTime", [endTime.iso])]
      && r.value.requestMethod == "GET" && r.value.contentType.None?
    ensures Built(r) == TimeRangePlan(auth, resource, startTime, endTime, [])
  {
    if IsAfter(startTime, endTime) {
      return Failure(TimeRangeException(TimeRangeMessage));
    }
    var request := new Request(resource);
    request.SetRequestMethod(GET);
    if auth.None? {
      return Failure(NullPointer);
    }
    request.SetApiServer(auth.value.apiServer);
    request.SetAccessToken(auth.value.accessToken);
    request.AddParameter("startTime", startTime.iso, []);
    request.AddParameter("endTime", endTime.iso, []);
    assert [startTime.iso] + [] == [startTime.iso] && [endTime.iso] + [] == [endTime.iso];
    ghost var range := [Param("startTime", [startTime.iso]), Param("endTime", [endTime.iso])];
    assert request.params == range + [];
    r := Success(request);
  }

  method ActivitiesRequest(auth: Option<Authorization>, accountNumber: string, startTime: ZonedTime, endTime: ZonedTime)
    returns (r: Result<Request, Failure>)
    ensures r.Success? ==> fresh(r.value)
    ensures Built(r) == ActivitiesPlan(auth, accountNumber, startTime, endTime)
  {
    r := RangeRequest(auth, AccountResource(accountNumber, "/activities"), startTime, endTime);
  }

  method ExecutionsRequest(auth: Option<Authorization>, accountNumber: string, startTime: ZonedTime, endTime: ZonedTime)
    returns (r: Result<Request, Failure>)
    ensures r.Success? ==> fresh(r.value)
    ensures Built(r) == ExecutionsPlan(auth, accountNumber, startTime, endTime)
  {
    r := RangeRequest(auth, AccountResource(accountNumber, "/executions"), startTime, endTime);
  }

  method OrdersRequest(auth: Option<Authorization>, accountNumber: string, orderIds: seq<int>)
    returns (r: Result<Request, Failure>)
    ensures r.Success? ==> fresh(r.value)
    ensures Built(r) == OrdersPlan(auth, accountNumber, orderIds)
  {
    var request := new Request(AccountResource(accountNumber, "/orders"));
    request.SetRequestMethod(GET);
    if auth.None? {
      return Failure(NullPointer);
    }
    request.SetAccessToken(auth.value.accessToken);
    request.SetApiServer(auth.value.apiServer);
    var added := request.AddIntArrayParameter("ids", orderIds);
    if added.Fail? {
      return Failure(added.error);
    }
    r := Success(request);
  }

  /** The varargs `getOrders`: only the optional ids are added, `orderId` is never read. */
  method ListedOrdersRequest(auth: Option<Authorization>, accountNumber: string, orderId: int, orderIds: seq<int>)
    returns (r: Result<Request, Failure>)
    ensures r.Success? ==> fresh(r.value)
    ensures Built(r) == ListedOrdersPlanAsWritten(auth, accountNumber, orderId, orderIds)
  {
    var request := new Request(AccountResource(accountNumber, "/orders"));
    request.SetRequestMethod(GET);
    if auth.None? {
      return Failure(NullPointer);
    }
    request.SetApiServer(auth.value.apiServer);
    request.SetAccessToken(auth.value.accessToken);
    var added := request.AddIntArrayParameter("ids", orderIds);
    if added.Fail? {
      assert Decimals(orderIds) == [];
      return Failure(added.error);
    }
    assert request.params == [Param("ids", Decimals(orderIds))];
    r := Success(request);
  }

  method OrdersInRangeRequest(auth: Option<Authorization>, accountNumber: string, startTime: ZonedTime, endTime: ZonedTime,
                              state: Option<OrderState>)
    returns (r: Result<Request, Failure>)
    ensures r.Success? ==> fresh(r.value)
    ensures Built(r) == OrdersInRangePlan(auth, accountNumber, startTime, endTime, state)
  {
    r := RangeRequest(auth, AccountResource(accountNumber, "/orders"), startTime, endTime);
    if r.Failure? || state.None? {
      return;
    }
    r.value.AddParameter("stateFilter", state.value.Name(), []);
    assert [state.value.Name()] + [] == [state.value.Name()];
  }

  method PositionsRequest(auth: Option<Authorization>, accountNumber: string) returns (r: Result<Request, Failure>)
    ensures r.Success? ==> fresh(r.value)
    ensures Built(r) == PositionsPlan(auth, accountNumber)
  {
    var request := new Request(AccountResource(accountNumber, "/positions"));
    request.SetRequestMethod(GET);
    if auth.None? {
      return Failure(NullPointer);
    }
    request.SetApiServer(auth.value.apiServer);
    request.SetAccessToken(auth.value.accessToken);
    r := Success(request);
  }

  method CandlesRequest(auth: Option<Authorization>, symbolId: int, startTime: ZonedTime, endTime: ZonedTime, interval: Interval)
    returns (r: Result<Request, Failure>)
    ensures r.Success? ==> fresh(r.value)
    ensures Built(r) == CandlesPlan(auth, symbolId, startTime, endTime, interval)
  {
    r := RangeRequest(auth, "v1/markets/candles/" + JavaStrings.DecimalString(symbolId), startTime, endTime);
    if r.Failure? {
      return;
    }
    r.value.AddParameter("interval", interval.Name(), []);
    assert [interval.Name()] + [] == [interval.Name()];
  }

  method MarketsRequest(auth: Option<Authorization>) returns (r: Result<Request, Failure>)
    ensures r.Success? ==> fresh(r.value)
    ensures Built(r) == MarketsPlan(auth)
  {
    var request := new Request("v1/markets");
    request.SetRequestMethod(GET);
    if auth.None? {
      return Failure(NullPointer);
    }
    request.SetApiServer(auth.value.apiServer);
    request.SetAccessToken(auth.value.accessToken);
    r := Success(request);
  }

  method SearchRequest(auth: Option<Authorization>, prefix: string, offset: int) returns (r: Result<Request, Failure>)
    ensures r.Success? ==> fresh(r.value)
    ensures Built(r) == SearchPlan(auth, prefix, offset)
  {
    if offset < 0 {
      return Failure(ArgumentException(Some(NegativeOffsetMessage)));
    }
    var request := new Request("v1/symbols/search");
    request.SetRequestMethod(GET);
    if auth.None? {
      return Failure(NullPointer);
    }
    request.SetApiServer(auth.value.apiServer);
    request.SetAccessToken(auth.value.accessToken);
    request.AddParameter("prefix", prefix, []);
    assert [prefix] + [] == [prefix];
    ghost var first := [Param("prefix", [prefix])];
    assert request.params == first;
    if offset > 0 {
      request.AddParameter("offset", JavaStrings.DecimalString(offset), []);
      assert [JavaStrings.DecimalString(offset)] + [] == [JavaStrings.DecimalString(offset)];
    } else {
      assert first + [] == first;
    }
    r := Success(request);
  }

  /** The array overloads of `getSymbol` and `getQuote`: `values` under `key` on `resource`. */
  method ListRequest(auth: Option<Authorization>, resource: string, key: string, values: seq<string>)
    returns (r: Result<Request, Failure>)
    ensures r.Success? ==> fresh(r.value)
    ensures Built(r) == ListPlan(auth, resource, key, values)
  {
    var request := new Request(resource);
    request.SetRequestMethod(GET);
    if auth.None? {
      return Failure(NullPointer);
    }
    request.SetApiServer(auth.value.apiServer);
    request.SetAccessToken(auth.value.accessToken);
    var added := request.AddArrayParameter(key, values);
    if added.Fail? {
      return Failure(added.error);
    }
    assert request.path == resource + Query([Param(key, values)]);
    r := Success(request);
  }

  /** The decoding step of `getAccounts`: the payload's accounts, each given its user id. */
  method DecodeAccounts(body: Result<Option<string>, Failure>, parse: AccountsParser)
    returns (r: Result<array<Account>, Failure>)
    ensures r.Success? <==> InjectedAccounts(body, parse).Success?
    ensures r.Failure? ==> r.error == InjectedAccounts(body, parse).error
    ensures r.Success? ==>
      var records := InjectedAccounts(body, parse).value;
      && fresh(r.value) && r.value.Length == |records|
      && forall i :: 0 <= i < |records| ==> fresh(r.value[i]) && r.value[i].Record() == records[i]
  {
    var text := Payload(body);
    if text.Failure? {
      return Failure(text.error);
    }
    var decoded := parse(text.value);
    if decoded.AccountsNotJson? {
      return Failure(JsonSyntax);
    }
    if decoded.payload.None? || decoded.payload.value.accounts.None? {
      return Failure(NullPointer);
    }
    var payload := decoded.payload.value;
    var records := payload.accounts.value;
    var accounts := Materialize(records);
    InjectUserId(accounts, payload.userId);
    r := Success(accounts);
  }

  /** A `Questrade` client. `network` is the server it talks to, as the script of its answers;
      `relayed` logs the calls of the authorization relay and `requests` the requests it
      dispatched; `decode` is the JSON decoding of a token response. */
  class Questrade {
    var lastRequest: Option<string>
    var authorization: Option<Authorization>
    var authRelay: Option<Relay>
    var startingRefreshToken: Option<string>
    var startingAuthorization: Option<Authorization>
    var network: seq<Response>
    ghost var relayed: seq<RelayCall>
    ghost var requests: seq<RequestData>
    const decode: Decoder

    ghost function State(): Session
      reads this
    {
      Session(startingRefreshToken, startingAuthorization, authorization, authRelay, lastRequest, network, relayed, requests)
    }

    /** `Questrade(String refreshToken)`: holds the token for `activate`; no request is made. */
    constructor (refreshToken: Option<string>, network: seq<Response>, decode: Decoder)
      ensures State() == Session(refreshToken, None, None, None, None, network, [], [])
      ensures AtMostOneStartingCredential(State())
      ensures this.decode == decode
    {
      lastRequest := None;
      authorization := None;
      authRelay := None;
      startingRefreshToken := refreshToken;
      startingAuthorization := None;
      this.network := network;
      relayed := [];
      requests := [];
      this.decode := decode;
    }

    /** `Questrade(refreshToken, accessToken, apiServer)`: holds a cached authorization for
        `activate`; no request is made and `authorization` stays null until then. */
    constructor FromCache(refreshToken: Option<string>, accessToken: Option<string>, apiServer: Option<string>,
                          network: seq<Response>, decode: Decoder)
      ensures State() == Session(None, Some(Cached(refreshToken, accessToken, apiServer)), None, None, None, network, [], [])
      ensures AtMostOneStartingCredential(State())
      ensures this.decode == decode
    {
      lastRequest := None;
      authorization := None;
      authRelay := None;
      startingRefreshToken := None;
      startingAuthorization := Some(Cached(refreshToken, accessToken, apiServer));
      this.network := network;
      relayed := [];
      requests := [];
      this.decode := decode;
    }

    /** `getLastRequest`: the text of the last request sent, null before the first. */
    function GetLastRequest(): Option<string>
      reads this
    {
      lastRequest
    }

    /** `getAuthorization`. */
    function GetAuthorization(): Option<Authorization>
      reads this
    {
      authorization
    }

    /** `setAuthRelay`: installs the relay (null removes it) and changes nothing else. */
    method SetAuthRelay(relay: Option<Relay>)
      modifies this`authRelay
      ensures State() == old(State()).(authRelay := relay)
    {
      authRelay := relay;
    }

    /** `activate`. */
    method Activate() returns (o: Outcome<Failure>)
      modifies this
      ensures Exchanged(o, State()) == Dispatch.Activate(old(State()), decode)
    {
      if startingRefreshToken.Some? {
        o := RetrieveAccessToken(startingRefreshToken);
        if o.Fail? {
          return;
        }
        startingRefreshToken := None;
      } else if startingAuthorization.Some? {
        authorization := startingAuthorization;
        startingAuthorization := None;
        o := Pass;
      } else {
        o := Pass;
      }
    }

    /** `retrieveAccessToken(refreshToken)`. */
    method RetrieveAccessToken(refreshToken: Option<string>) returns (o: Outcome<Failure>)
      modifies this
      ensures Exchanged(o, State()) == Exchange(old(State()), refreshToken, decode)
      decreases |network|, 1
    {
      var request := new Request(TokenEndpoint + JavaStrings.JavaString(refreshToken));
      request.SetRequestMethod(GET);
      var response := SendRequest(request);
      if response.Failure? {
        return Fail(response.error);
      }
      var decoded := DecodeLine(response.value, decode);
      if decoded.NotJson? {
        return Fail(JsonSyntax);
      }
      authorization := decoded.authorization;
      if authRelay.Some? {
        relayed := relayed + [RelayCall(authRelay.value, authorization)];
      }
      o := Pass;
    }

    /** `retrieveAccessToken()`: refreshes with the current authorization's refresh token. */
    method Refresh() returns (o: Outcome<Failure>)
      modifies this
      ensures Exchanged(o, State()) == Dispatch.Refresh(old(State()), decode)
    {
      if authorization.None? {
        return Fail(NullPointer);
      }
      o := RetrieveAccessToken(authorization.value.refreshToken);
    }

    /** `sendRequest`: overwrites the request's token and server only on re-authentication. */
    method SendRequest(request: Request) returns (body: Result<Option<string>, Failure>)
      modifies this, request`accessToken, request`apiServer
      ensures Sent(body, State(), request.Data()) == Send(old(State()), old(request.Data()), decode)
      decreases |network|, 0
    {
      SendStep(State(), request.Data(), decode);
      var data := request.Data();
      lastRequest := Some(Describe(data));
      requests := requests + [data];
      if network == [] {
        return Success(None);
      }
      var response := network[0];
      network := network[1..];
      match response
      case ConnectionFailure =>
        return Success(None);
      case Reply(status, line, error) =>
        if IsSuccessStatus(status) {
          return Success(line);
        }
        match error
        case Malformed =>
          return Failure(RefreshTokenException(status));
        case Empty =>
          return Failure(NullPointer);
        case Envelope(code, message) =>
          if code == ExpiredToken {
            body := Reauthenticate(request);
          } else if IsArgumentCode(code) {
            return Failure(ArgumentException(message));
          } else {
            return Failure(StatusCodeException(status));
          }
    }

    /** The 1017 branch of `sendRequest`: a new authorization, then the request again with its
        token and server. */
    method Reauthenticate(request: Request) returns (body: Result<Option<string>, Failure>)
      requires lastRequest.Some?
      modifies this, request`accessToken, request`apiServer
      ensures Sent(body, State(), request.Data()) == Dispatch.Reauthenticate(old(State()), old(request.Data()), decode)
      decreases |network|, 2
    {
      if authorization.None? {
        return Failure(NullPointer);
      }
      ghost var before, data := State(), request.Data();
      ghost var e := Exchange(State(), authorization.value.refreshToken, decode);
      var o := RetrieveAccessToken(authorization.value.refreshToken);
      assert Exchanged(o, State()) == e;
      if o.Fail? {
        ReauthenticateStep(before, data, decode);
        return Failure(o.error);
      }
      if authorization.None? {
        ReauthenticateStep(before, data, decode);
        return Failure(NullPointer);
      }
      ghost var resent := data.(accessToken := authorization.value.accessToken, apiServer := authorization.value.apiServer);
      request.SetAccessToken(authorization.value.accessToken);
      request.SetApiServer(authorization.value.apiServer);
      assert request.Data() == resent;
      assert State() == e.session;
      ReauthenticateResends(before, data, decode, e);
      body := SendRequest(request);
    }

    // -------------------------------------------------------------------------------------------
    // Endpoints. Each builds its request, dispatches it and hands the body to the JSON decoder.

    /** The dispatch step of every endpoint: an exception thrown while building the request
        propagates; otherwise the request is sent. */
    method Submit(built: Result<Request, Failure>, ghost plan: Result<RequestData, Failure>)
      returns (body: Result<Option<string>, Failure>)
      requires plan == Built(built)
      modifies this, if built.Success? then {built.value} else {}
      ensures Called(body, State()) == Perform(old(State()), plan, decode)
    {
      if built.Failure? {
        return Failure(built.error);
      }
      body := SendRequest(built.value);
    }

    /** `getBalances`: the response body the `Balances` are decoded from. */
    method GetBalances(accountNumber: string) returns (body: Result<Option<string>, Failure>)
      modifies this
      ensures Called(body, State()) == Perform(old(State()), BalancesPlan(old(authorization), accountNumber), decode)
    {
      var built := BalancesRequest(authorization, accountNumber);
      body := Submit(built, BalancesPlan(authorization, accountNumber));
    }

    /** `getAccounts`: the decoded accounts, each given the response's top-level user id. */
    method GetAccounts(parse: AccountsParser) returns (r: Result<array<Account>, Failure>)
      modifies this
      ensures var c := Perform(old(State()), AccountsPlan(old(authorization)), decode);
        && State() == c.session
        && (r.Success? <==> InjectedAccounts(c.body, parse).Success?)
        && (r.Failure? ==> r.error == InjectedAccounts(c.body, parse).error)
        && (r.Success? ==>
              var records := InjectedAccounts(c.body, parse).value;
              && fresh(r.value) && r.value.Length == |records|
              && forall i :: 0 <= i < |records| ==> fresh(r.value[i]) && r.value[i].Record() == records[i])
    {
      var built := AccountsRequest(authorization);
      var body := Submit(built, AccountsPlan(authorization));
      r := DecodeAccounts(body, parse);
    }

    /** `getTime`: the server time, as the JSON text the `time` field is read from. */
    method GetTime() returns (json: Result<string, Failure>)
      modifies this
      ensures var c := Perform(old(State()), TimePlan(old(authorization)), decode);
        json == Payload(c.body) && State() == c.session
    {
      var built := TimeRequest(authorization);
      var body := Submit(built, TimePlan(authorization));
      json := Payload(body);
    }

    /** `getActivities`. */
    method GetActivities(accountNumber: string, startTime: ZonedTime, endTime: ZonedTime) returns (json: Result<string, Failure>)
      modifies this
      ensures var c := Perform(old(State()), ActivitiesPlan(old(authorization), accountNumber, startTime, endTime), decode);
        json == Payload(c.body) && State() == c.session
    {
      var built := ActivitiesRequest(authorization, accountNumber, startTime, endTime);
      var body := Submit(built, ActivitiesPlan(authorization, accountNumber, startTime, endTime));
      json := Payload(body);
    }

    /** `getExecutions`. */
    method GetExecutions(accountNumber: string, startTime: ZonedTime, endTime: ZonedTime) returns (json: Result<string, Failure>)
      modifies this
      ensures var c := Perform(old(State()), ExecutionsPlan(old(authorization), accountNumber, startTime, endTime), decode);
        json == Payload(c.body) && State() == c.session
    {
      var built := ExecutionsRequest(authorization, accountNumber, startTime, endTime);
      var body := Submit(built, ExecutionsPlan(authorization, accountNumber, startTime, endTime));
      json := Payload(body);
    }

    /** `getOrders(String, int[])`. */
    method GetOrders(accountNumber: string, orderIds: seq<int>) returns (json: Result<string, Failure>)
      modifies this
      ensures var c := Perform(old(State()), OrdersPlan(old(authorization), accountNumber, orderIds), decode);
        json == Payload(c.body) && State() == c.session
    {
      var built := OrdersRequest(authorization, accountNumber, orderIds);
      var body := Submit(built, OrdersPlan(authorization, accountNumber, orderIds));
      json := Payload(body);
    }

    /** `getOrders(String, int, int...)`: the request of `getOrders(String, int[])` on the
        optional ids alone. */
    method GetListedOrders(accountNumber: string, orderId: int, orderIds: seq<int>) returns (json: Result<string, Failure>)
      modifies this
      ensures var c := Perform(old(State()), ListedOrdersPlanAsWritten(old(authorization), accountNumber, orderId, orderIds), decode);
        json == Payload(c.body) && State() == c.session
    {
      var built := ListedOrdersRequest(authorization, accountNumber, orderId, orderIds);
      var body := Submit(built, ListedOrdersPlanAsWritten(authorization, accountNumber, orderId, orderIds));
      json := Payload(body);
    }

    /** `getOrders(String, ZonedDateTime, ZonedDateTime, OrderState)`; the three-argument overload
        passes a null state. */
    method GetOrdersInRange(accountNumber: string, startTime: ZonedTime, endTime: ZonedTime, state: Option<OrderState>) returns (json: Result<string, Failure>)
      modifies this
      ensures var c := Perform(old(State()), OrdersInRangePlan(old(authorization), accountNumber, startTime, endTime, state), decode);
        json == Payload(c.body) && State() == c.session
    {
      var built := OrdersInRangeRequest(authorization, accountNumber, startTime, endTime, state);
      var body := Submit(built, OrdersInRangePlan(authorization, accountNumber, startTime, endTime, state));
      json := Payload(body);
    }

    /** `getPositions`. */
    method GetPositions(accountNumber: string) returns (json: Result<string, Failure>)
      modifies this
      ensures var c := Perform(old(State()), PositionsPlan(old(authorization), accountNumber), decode);
        json == Payload(c.body) && State() == c.session
    {
      var built := PositionsRequest(authorization, accountNumber);
      var body := Submit(built, PositionsPlan(authorization, accountNumber));
      json := Payload(body);
    }

    /** `getCandles`. */
    method GetCandles(symbolId: int, startTime: ZonedTime, endTime: ZonedTime, interval: Interval) returns (json: Result<string, Failure>)
      modifies this
      ensures var c := Perform(old(State()), CandlesPlan(old(authorization), symbolId, startTime, endTime, interval), decode);
        json == Payload(c.body) && State() == c.session
    {
      var built := CandlesRequest(authorization, symbolId, startTime, endTime, interval);
      var body := Submit(built, CandlesPlan(authorization, symbolId, startTime, endTime, interval));
      json := Payload(body);
    }

    /** `getMarkets`. */
    method GetMarkets() returns (json: Result<string, Failure>)
      modifies this
      ensures var c := Perform(old(State()), MarketsPlan(old(authorization)), decode);
        json == Payload(c.body) && State() == c.session
    {
      var built := MarketsRequest(authorization);
      var body := Submit(built, MarketsPlan(authorization));
      json := Payload(body);
    }

    /** `searchSymbol(prefix, offset)`. */
    method SearchSymbolFrom(prefix: string, offset: int) returns (json: Result<string, Failure>)
      modifies this
      ensures var c := Perform(old(State()), SearchPlan(old(authorization), prefix, offset), decode);
        json == Payload(c.body) && State() == c.session
    {
      var built := SearchRequest(authorization, prefix, offset);
      var body := Submit(built, SearchPlan(authorization, prefix, offset));
      json := Payload(body);
    }

    /** The array overloads of `getSymbol` and `getQuote`. */
    method GetList(resource: string, key: string, values: seq<string>) returns (json: Result<string, Failure>)
      modifies this
      ensures var c := Perform(old(State()), ListPlan(old(authorization), resource, key, values), decode);
        json == Payload(c.body) && State() == c.session
    {
      var built := ListRequest(authorization, resource, key, values);
      var body := Submit(built, ListPlan(authorization, resource, key, values));
      json := Payload(body);
    }

    /** `searchSymbol(prefix)`: the two-argument search from offset 0. */
    method SearchSymbol(prefix: string) returns (json: Result<string, Failure>)
      modifies this
      ensures var c := Perform(old(State()), SearchPlan(old(authorization), prefix, 0), decode);
        json == Payload(c.body) && State() == c.session
    {
      json := SearchSymbolFrom(prefix, 0);
    }

    /** `getSymbol(int id, int... ids)`: never an empty list. */
    method GetSymbolsById(id: int, ids: seq<int>) returns (json: Result<string, Failure>)
      modifies this
      ensures var c := Perform(old(State()), SymbolsPlan(old(authorization), "ids", Decimals([id] + ids)), decode);
        json == Payload(c.body) && State() == c.session
    {
      json := GetList("v1/symbols", "ids", Decimals([id] + ids));
    }

    /** `getSymbol(int[] ids)`. */
    method GetSymbolsByIds(ids: seq<int>) returns (json: Result<string, Failure>)
      modifies this
      ensures var c := Perform(old(State()), SymbolsPlan(old(authorization), "ids", Decimals(ids)), decode);
        json == Payload(c.body) && State() == c.session
    {
      json := GetList("v1/symbols", "ids", Decimals(ids));
    }

    /** `getSymbol(String name, String... names)`: never an empty list. */
    method GetSymbolsByName(name: string, names: seq<string>) returns (json: Result<string, Failure>)
      modifies this
      ensures var c := Perform(old(State()), SymbolsPlan(old(authorization), "names", [name] + names), decode);
        json == Payload(c.body) && State() == c.session
    {
      json := GetList("v1/symbols", "names", [name] + names);
    }

    /** `getSymbol(String[] names)`. */
    method GetSymbolsByNames(names: seq<string>) returns (json: Result<string, Failure>)
      modifies this
      ensures var c := Perform(old(State()), SymbolsPlan(old(authorization), "names", names), decode);
        json == Payload(c.body) && State() == c.session
    {
      json := GetList("v1/symbols", "names", names);
    }

    /** `getQuote(int id, int... ids)`: never an empty list. */
    method GetQuote(id: int, ids: seq<int>) returns (json: Result<string, Failure>)
      modifies this
      ensures var c := Perform(old(State()), QuotesPlan(old(authorization), [id] + ids), decode);
        json == Payload(c.body) && State() == c.session
    {
      json := GetList("v1/markets/quotes", "ids", Decimals([id] + ids));
    }

    /** `getQuote(int[] ids)`. */
    method GetQuotes(ids: seq<int>) returns (json: Result<string, Failure>)
      modifies this
      ensures var c := Perform(old(State()), QuotesPlan(old(authorization), ids), decode);
        json == Payload(c.body) && State() == c.session
    {
      json := GetList("v1/markets/quotes", "ids", Decimals(ids));
    }
  }
}
