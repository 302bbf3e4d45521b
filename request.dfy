/** The builder of one outbound HTTP request. */
module Requests {
  import opened Wrappers
  import opened Failures
  import opened JavaStrings
  import opened QueryStrings

  datatype RequestMethod = GET | POST {
    /** `Enum.name()`. */
    function Name(): string {
      match this
      case GET => "GET"
      case POST => "POST"
    }
  }

  datatype Header = Header(name: string, value: string)

  /** The fields of a `Request` at one moment, as a value. */
  datatype RequestData = RequestData(
    requestMethod: string,
    apiServer: Option<string>,
    path: string,
    accessToken: Option<string>,
    contentType: Option<string>)

  /** What `getConnection` opens: the URL, the method and the request properties it sets. */
  datatype Connection = Connection(url: string, requestMethod: string, headers: seq<Header>, doOutput: bool)

  /** The value of the first header called `name`, if any. */
  function HeaderValue(headers: seq<Header>, name: string): Option<string>
    decreases |headers|
  {
    if headers == [] then None
    else if headers[0].name == name then Some(headers[0].value)
    else HeaderValue(headers[1..], name)
  }

  /** The URL a request targets: the API server, when there is one, in front of the path. */
  function TargetUrl(d: RequestData): (url: string)
    ensures |d.path| <= |url| && url[|url| - |d.path|..] == d.path
    ensures d.apiServer.Some? ==> url == d.apiServer.value + d.path
    ensures d.apiServer.None? ==> url == d.path
  {
    if d.apiServer.Some? then d.apiServer.value + d.path else d.path
  }

  /** The request properties `getConnection` sets (section 2.1 of RFC 6750 for the bearer token). */
  function Headers(accessToken: Option<string>, contentType: Option<string>): (hs: seq<Header>)
    ensures HeaderValue(hs, "Authorization") == if accessToken.Some? then Some("Bearer " + accessToken.value) else None
    ensures HeaderValue(hs, "Content-Type") == contentType
  {
    (if accessToken.Some? then [Header("Authorization", "Bearer " + accessToken.value)] else [])
    + (if contentType.Some? then [Header("Content-Type", contentType.value)] else [])
  }

  /** `getConnection`, without the network: the connection it would open and configure. */
  function Connect(d: RequestData): (c: Connection)
    ensures c.url == TargetUrl(d) && c.requestMethod == d.requestMethod
    ensures c.doOutput <==> d.contentType.Some?
    ensures HeaderValue(c.headers, "Authorization") == if d.accessToken.Some? then Some("Bearer " + d.accessToken.value) else None
    ensures HeaderValue(c.headers, "Content-Type") == d.contentType
  {
    Connection(TargetUrl(d), d.requestMethod, Headers(d.accessToken, d.contentType), d.contentType.Some?)
  }

  /** `toString`: the method, a space, then the URL the request targets. */
  function Describe(d: RequestData): (s: string)
    ensures s == d.requestMethod + " " + TargetUrl(d)
  {
    d.requestMethod + " " + (if d.apiServer.Some? then d.apiServer.value else "") + d.path
  }

  /** The strings Java writes for the elements of an `int[]`. */
  function Decimals(xs: seq<int>): (ss: seq<string>)
    ensures |ss| == |xs|
    ensures forall i :: 0 <= i < |xs| ==> ss[i] == DecimalString(xs[i])
  {
    seq(|xs|, i requires 0 <= i < |xs| => DecimalString(xs[i]))
  }

  /** Appending a parameter appends its separator and its rendering to the query. */
  lemma QueryAppend(base: string, ps: seq<Param>, p: Param)
    ensures base + Query(ps + [p]) == base + Query(ps) + Separator(|ps|) + Render(p)
  {
    var added := ps + [p];
    assert added[..|added| - 1] == ps;
    assert Query(added) == Query(ps) + Separator(|ps|) + Render(p);
    Associative(base + Query(ps), Separator(|ps|), Render(p));
    Associative(base, Query(ps), Separator(|ps|));
    Associative(base, Query(ps) + Separator(|ps|), Render(p));
  }

  /** The loop of `addParameter`: the first value, then a comma and each further value. */
  method AppendValues(lead: string, first: string, rest: seq<string>) returns (text: string)
    ensures text == lead + Join([first] + rest, ',')
  {
    text := lead + first;
    var i := 0;
    while i < |rest|
      invariant 0 <= i <= |rest|
      invariant text == lead + Join([first] + rest[..i], ',')
    {
      JoinSnoc([first] + rest[..i], rest[i], ',');
      assert [first] + rest[..i + 1] == [first] + rest[..i] + [rest[i]];
      text := text + "," + rest[i];
      i := i + 1;
    }
    assert rest[..i] == rest;
  }

  /** A request under construction. The ghost `resource` is the path it was created with and
      `params` the parameters appended since, in order. */
  class Request {
    var accessToken: Option<string>
    var parameterCount: nat
    var requestMethod: string
    var path: string
    var contentType: Option<string>
    var apiServer: Option<string>
    ghost var resource: string
    ghost var params: seq<Param>

    /** The path is always the creation path followed by the query of the parameters added. */
    ghost predicate Valid()
      reads this
    {
      path == resource + Query(params) && parameterCount == |params|
    }

    function Data(): RequestData
      reads this
    {
      RequestData(requestMethod, apiServer, path, accessToken, contentType)
    }

    constructor (path: string)
      ensures Valid() && resource == path && params == []
      ensures Data() == RequestData("GET", None, path, None, None)
    {
      accessToken := None;
      parameterCount := 0;
      requestMethod := "GET";
      this.path := path;
      contentType := None;
      apiServer := None;
      resource := path;
      params := [];
    }

    method SetRequestMethod(m: RequestMethod)
      modifies this`requestMethod
      ensures requestMethod == m.Name()
    {
      requestMethod := m.Name();
    }

    method SetContentType(contentType: Option<string>)
      modifies this`contentType
      ensures this.contentType == contentType
    {
      this.contentType := contentType;
    }

    method SetApiServer(apiServer: Option<string>)
      modifies this`apiServer
      ensures this.apiServer == apiServer
    {
      this.apiServer := apiServer;
    }

    method SetAccessToken(accessToken: Option<string>)
      modifies this`accessToken
      ensures this.accessToken == accessToken
    {
      this.accessToken := accessToken;
    }

    /** The body shared by the four `addParameter` overloads, once the first value is known. */
    method AppendParameter(key: string, first: string, rest: seq<string>)
      requires Valid()
      modifies this`path, this`parameterCount, this`params
      ensures Valid()
      ensures params == old(params) + [Param(key, [first] + rest)]
      ensures path == old(path) + Separator(old(parameterCount)) + Render(Param(key, [first] + rest))
    {
      ghost var head := path + Separator(parameterCount);
      path := AppendValues(path + Separator(parameterCount) + key + "=", first, rest);
      ghost var p := Param(key, [first] + rest);
      Associative(head, key, "=");
      Associative(head, key + "=", Join(p.values, ','));
      parameterCount := parameterCount + 1;
      QueryAppend(resource, params, p);
      params := params + [p];
    }

    /** `addParameter(String key, String[] values)`: reads `values[0]` unconditionally. */
    method AddArrayParameter(key: string, values: seq<string>) returns (o: Outcome<Failure>)
      requires Valid()
      modifies this`path, this`parameterCount, this`params
      ensures Valid()
      ensures o.Fail? <==> values == []
      ensures o.Fail? ==> o.error == IndexOutOfBounds && params == old(params) && path == old(path)
      ensures o.Pass? ==> params == old(params) + [Param(key, values)]
      ensures o.Pass? ==> path == old(path) + Separator(old(parameterCount)) + Render(Param(key, values))
    {
      if values == [] {
        return Fail(IndexOutOfBounds);
      }
      AppendParameter(key, values[0], values[1..]);
      assert [values[0]] + values[1..] == values;
      o := Pass;
    }

    /** `addParameter(String key, int[] values)`. */
    method AddIntArrayParameter(key: string, values: seq<int>) returns (o: Outcome<Failure>)
      requires Valid()
      modifies this`path, this`parameterCount, this`params
      ensures Valid()
      ensures o.Fail? <==> values == []
      ensures o.Fail? ==> o.error == IndexOutOfBounds && params == old(params) && path == old(path)
      ensures o.Pass? ==> params == old(params) + [Param(key, Decimals(values))]
      ensures o.Pass? ==> path == old(path) + Separator(old(parameterCount)) + Render(Param(key, Decimals(values)))
    {
      o := AddArrayParameter(key, Decimals(values));
    }

    /** `addParameter(String key, String value, String... values)`. */
    method AddParameter(key: string, value: string, values: seq<string>)
      requires Valid()
      modifies this`path, this`parameterCount, this`params
      ensures Valid()
      ensures params == old(params) + [Param(key, [value] + values)]
      ensures path == old(path) + Separator(old(parameterCount)) + Render(Param(key, [value] + values))
    {
      AppendParameter(key, value, values);
    }

    /** `addParameter(String key, int value, int... values)`. */
    method AddIntParameter(key: string, value: int, values: seq<int>)
      requires Valid()
      modifies this`path, this`parameterCount, this`params
      ensures Valid()
      ensures params == old(params) + [Param(key, Decimals([value] + values))]
      ensures path == old(path) + Separator(old(parameterCount)) + Render(Param(key, Decimals([value] + values)))
    {
      assert Decimals([value] + values) == [DecimalString(value)] + Decimals(values);
      AppendParameter(key, DecimalString(value), Decimals(values));
    }
  }
}
