/** The legacy client, `QuestradeAPI`, and its `Request`, proved to follow `LegacyDispatch`. */
module LegacyClient {
  import opened Wrappers
  import opened Failures
  import opened JavaStrings
  import opened QueryStrings
  import opened Authorizations
  import opened Requests
  import opened Network
  import opened LegacyDispatch
  import Dispatch

  /** `getConnection` of the legacy request: the URL as it is, the bearer token when there is one,
      and a content type that also turns on output. */
  function LegacyConnect(d: LegacyRequestData): (c: Connection)
    ensures c.url == d.url && c.requestMethod == d.requestMethod
    ensures c.doOutput <==> d.contentType.Some?
    ensures HeaderValue(c.headers, "Authorization") == if d.accessToken.Some? then Some("Bearer " + d.accessToken.value) else None
    ensures HeaderValue(c.headers, "Content-Type") == d.contentType
  {
    Connection(d.url, d.requestMethod, Headers(d.accessToken, d.contentType), d.contentType.Some?)
  }

  /** A legacy request under construction: a complete URL to which single-valued parameters are
      appended. The ghost `base` is the URL it was created with and `params` those appended. */
  class LegacyRequest {
    var accessToken: Option<string>
    var parameterCount: nat
    var requestMethod: string
    var url: string
    var contentType: Option<string>
    ghost var base: string
    ghost var params: seq<Param>

    ghost predicate Valid()
      reads this
    {
      url == base + Query(params) && parameterCount == |params|
    }

    function Data(): LegacyRequestData
      reads this
    {
      LegacyRequestData(url, requestMethod, accessToken, contentType)
    }

    /** `Request(String URL)`: the method defaults to "GET". */
    constructor (url: string)
      ensures Valid() && base == url && params == []
      ensures Data() == LegacyRequestData(url, "GET", None, None)
    {
      accessToken := None;
      parameterCount := 0;
      requestMethod := "GET";
      this.url := url;
      contentType := None;
      base := url;
      params := [];
    }

    /** `setRequestMethod(String)`: stored as given. */
    method SetRequestMethod(requestMethod: string)
      modifies this`requestMethod
      ensures this.requestMethod == requestMethod
    {
      this.requestMethod := requestMethod;
    }

    method SetContentType(contentType: Option<string>)
      modifies this`contentType
      ensures this.contentType == contentType
    {
      this.contentType := contentType;
    }

    method SetAccessToken(accessToken: Option<string>)
      modifies this`accessToken
      ensures this.accessToken == accessToken
    {
      this.accessToken := accessToken;
    }

    /** `addParameter(String key, String value)`: `?` before the first parameter, `&` before the
        others; nothing is encoded. */
    method AddParameter(key: string, value: string)
      requires Valid()
      modifies this`url, this`parameterCount, this`params
      ensures Valid()
      ensures params == old(params) + [Param(key, [value])]
      ensures url == old(url) + Separator(old(parameterCount)) + (key + "=" + value)
    {
      ghost var p := Param(key, [value]);
      assert Render(p) == key + "=" + value by {
        assert Join([value], ',') == value;
      }
      ghost var head := url + Separator(parameterCount);
      url := url + Separator(parameterCount) + key + "=" + value;
      Associative(head, key + "=", value);
      Associative(head, key, "=");
      parameterCount := parameterCount + 1;
      QueryAppend(base, params, p);
      params := params + [p];
    }
  }

  /** The request an endpoint has built, as a value, or the exception it threw while building it. */
  function Built(r: Result<LegacyRequest, Failure>): Result<LegacyRequestData, Failure>
    reads if r.Success? then {r.value} else {}
  {
    match r
    case Failure(e) => Failure(e)
    case Success(request) => Success(request.Data())
  }

  /** The request the four legacy endpoints build: the server's text and the resource, fixed at
      construction, then the parameters in order. */
  method EndpointRequest(auth: Option<Authorization>, resource: string, range: Option<(string, string)>)
    returns (r: Result<LegacyRequest, Failure>)
    ensures r.Success? ==> fresh(r.value)
    ensures Built(r) == LegacyPlan(auth, resource, if range.Some? then RangeParams(range.value.0, range.value.1) else [])
  {
    if auth.None? {
      return Failure(NullPointer);
    }
    var request := new LegacyRequest(JavaString(auth.value.apiServer) + resource);
    request.SetRequestMethod("GET");
    request.SetAccessToken(auth.value.accessToken);
    if range.Some? {
      request.AddParameter("startTime", range.value.0);
      request.AddParameter("endTime", range.value.1);
      assert request.params == RangeParams(range.value.0, range.value.1);
    }
    r := Success(request);
  }

  /** A `QuestradeAPI`. `network` is the server's script of answers, `relayed` the log of relay
      calls, `requests` the log of the requests dispatched and `decode` the JSON
      decoding of a token response. */
  class QuestradeAPI {
    var authorization: Option<Authorization>
    var authRelay: Option<Dispatch.Relay>
    var startingRefreshToken: Option<string>
    var network: seq<LegacyResponse>
    ghost var relayed: seq<Dispatch.RelayCall>
    ghost var requests: seq<LegacyRequestData>
    const decode: Dispatch.Decoder

    ghost function State(): LegacySession
      reads this
    {
      LegacySession(startingRefreshToken, authorization, authRelay, network, relayed, requests)
    }

    /** `QuestradeAPI(String refreshToken)`: no request is made. */
    constructor (refreshToken: Option<string>, network: seq<LegacyResponse>, decode: Dispatch.Decoder)
      ensures State() == LegacySession(refreshToken, None, None, network, [], [])
      ensures this.decode == decode
    {
      authorization := None;
      authRelay := None;
      startingRefreshToken := refreshToken;
      this.network := network;
      relayed := [];
      requests := [];
      this.decode := decode;
    }

    function GetAuthorization(): Option<Authorization>
      reads this
    {
      authorization
    }

    /** `setAuthRelay`: installs the relay (null removes it) and changes nothing else. */
    method SetAuthRelay(relay: Option<Dispatch.Relay>)
      modifies this`authRelay
      ensures State() == old(State()).(authRelay := relay)
    {
      authRelay := relay;
    }

    /** `activate`. */
    method Activate() returns (o: Outcome<Failure>)
      modifies this
      ensures LegacyExchanged(o, State()) == LegacyDispatch.Activate(old(State()), decode)
    {
      if startingRefreshToken.Some? {
        o := RetrieveAccessToken(startingRefreshToken);
        if o.Fail? {
          return;
        }
        startingRefreshToken := None;
      } else {
        o := Pass;
      }
    }

    /** `retrieveAccessToken(refreshToken)`. */
    method RetrieveAccessToken(refreshToken: Option<string>) returns (o: Outcome<Failure>)
      modifies this
      ensures LegacyExchanged(o, State()) == Exchange(old(State()), refreshToken, decode)
      decreases |network|, 1
    {
      var request := new LegacyRequest(Dispatch.TokenEndpoint + JavaString(refreshToken));
      request.SetRequestMethod("GET");
      var response := ConnectToUrl(request);
      if response.Failure? {
        return Fail(response.error);
      }
      var decoded := Dispatch.DecodeLine(response.value, decode);
      if decoded.NotJson? {
        return Fail(JsonSyntax);
      }
      authorization := decoded.authorization;
      if authRelay.Some? {
        relayed := relayed + [Dispatch.RelayCall(authRelay.value, authorization)];
      }
      o := Pass;
    }

    /** `retrieveAccessToken()`. */
    method Refresh() returns (o: Outcome<Failure>)
      modifies this
      ensures LegacyExchanged(o, State()) == LegacyDispatch.Refresh(old(State()), decode)
    {
      if authorization.None? {
        return Fail(NullPointer);
      }
      o := RetrieveAccessToken(authorization.value.refreshToken);
    }

    /** `connectToURL`. */
    method ConnectToUrl(request: LegacyRequest) returns (body: Result<Option<string>, Failure>)
      modifies this, request`accessToken
      ensures LegacySent(body, State(), request.Data()) == ConnectTo(old(State()), old(request.Data()), decode)
      decreases |network|, 0
    {
      requests := requests + [request.Data()];
      if network == [] {
        return Success(None);
      }
      var response := network[0];
      network := network[1..];
      match response
      case LegacyConnectionFailure =>
        return Success(None);
      case LegacyReply(status, line, reading) =>
        if status == BadRequest {
          return Failure(RefreshTokenException(status));
        }
        if IsSuccessStatus(status) {
          return Success(line);
        }
        match reading
        case NoLine =>
          return Failure(NullPointer);
        case NotAnInt =>
          return Failure(JsonSyntax);
        case AnInt(code) =>
          if code == Dispatch.ExpiredToken {
            body := Renew(request);
          } else {
            return Failure(StatusCodeException(status));
          }
    }

    /** The 1017 branch of `connectToURL`: a new authorization, its token on the request, and the
        request again. */
    method Renew(request: LegacyRequest) returns (body: Result<Option<string>, Failure>)
      modifies this, request`accessToken
      ensures LegacySent(body, State(), request.Data()) == LegacyDispatch.Renew(old(State()), old(request.Data()), decode)
      decreases |network|, 2
    {
      if authorization.None? {
        return Failure(NullPointer);
      }
      var o := RetrieveAccessToken(authorization.value.refreshToken);
      if o.Fail? {
        return Failure(o.error);
      }
      if authorization.None? {
        return Failure(NullPointer);
      }
      request.SetAccessToken(authorization.value.accessToken);
      body := ConnectToUrl(request);
    }

    /** The dispatch step of every endpoint. */
    method Submit(built: Result<LegacyRequest, Failure>, ghost plan: Result<LegacyRequestData, Failure>)
      returns (body: Result<Option<string>, Failure>)
      requires plan == Built(built)
      modifies this, if built.Success? then {built.value} else {}
      ensures LegacyCalled(body, State()) == Perform(old(State()), plan, decode)
    {
      if built.Failure? {
        return Failure(built.error);
      }
      body := ConnectToUrl(built.value);
    }

    /** `getAccounts`: the response text the accounts are decoded from. */
    method GetAccounts() returns (body: Result<Option<string>, Failure>)
      modifies this
      ensures LegacyCalled(body, State()) == Perform(old(State()), AccountsPlan(old(authorization)), decode)
    {
      var built := EndpointRequest(authorization, "v1/accounts/", None);
      body := Submit(built, AccountsPlan(authorization));
    }

    /** `getTime`: the response text the time is read from. */
    method GetTime() returns (body: Result<Option<string>, Failure>)
      modifies this
      ensures LegacyCalled(body, State()) == Perform(old(State()), TimePlan(old(authorization)), decode)
    {
      var built := EndpointRequest(authorization, "v1/time", None);
      body := Submit(built, TimePlan(authorization));
    }

    /** `getActivities`, with the range already formatted. */
    method GetActivities(accountNumber: string, startTime: string, endTime: string) returns (body: Result<Option<string>, Failure>)
      modifies this
      ensures LegacyCalled(body, State()) == Perform(old(State()), ActivitiesPlan(old(authorization), accountNumber, startTime, endTime), decode)
    {
      var built := EndpointRequest(authorization, "v1/accounts/" + accountNumber + "/activities", Some((startTime, endTime)));
      body := Submit(built, ActivitiesPlan(authorization, accountNumber, startTime, endTime));
    }

    /** `getExecutions`, with the range already formatted. */
    method GetExecutions(accountNumber: string, startTime: string, endTime: string) returns (body: Result<Option<string>, Failure>)
      modifies this
      ensures LegacyCalled(body, State()) == Perform(old(State()), ExecutionsPlan(old(authorization), accountNumber, startTime, endTime), decode)
    {
      var built := EndpointRequest(authorization, "v1/accounts/" + accountNumber + "/executions", Some((startTime, endTime)));
      body := Submit(built, ExecutionsPlan(authorization, accountNumber, startTime, endTime));
    }
  }
}
