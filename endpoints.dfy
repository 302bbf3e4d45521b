/** The request each endpoint of the current client builds, before it is dispatched: a client-side
    guard, then the authorization it dereferences, then a GET on the API server with the bearer
    token and the endpoint's query parameters in order. */
module Endpoints {
  import opened Wrappers
  import opened Failures
  import opened JavaStrings
  import opened QueryStrings
  import opened Authorizations
  import opened Requests

  /** A `ZonedDateTime`: the instant it denotes and the text `yyyy-MM-dd'T'HH:mm:ssXXX` makes of it. */
  datatype ZonedTime = ZonedTime(instant: int, iso: string)

  /** `ZonedDateTime.isAfter`: compares instants, not local times. */
  predicate IsAfter(a: ZonedTime, b: ZonedTime) {
    a.instant > b.instant
  }

  datatype OrderState = All | Open | Closed {
    /** `Enum.name()`. */
    function Name(): string {
      match this
      case All => "All"
      case Open => "Open"
      case Closed => "Closed"
    }
  }

  /** The candle granularities. */
  datatype Interval =
    | OneMinute | TwoMinutes | ThreeMinutes | FourMinutes | FiveMinutes | TenMinutes
    | FifteenMinutes | TwentyMinutes | HalfHour | OneHour | TwoHours | FourHours
    | OneDay | OneWeek | OneMonth | OneYear
  {
    /** `Enum.name()`. */
    function Name(): string {
      match this
      case OneMinute => "OneMinute"
      case TwoMinutes => "TwoMinutes"
      case ThreeMinutes => "ThreeMinutes"
      case FourMinutes => "FourMinutes"
      case FiveMinutes => "FiveMinutes"
      case TenMinutes => "TenMinutes"
      case FifteenMinutes => "FifteenMinutes"
      case TwentyMinutes => "TwentyMinutes"
      case HalfHour => "HalfHour"
      case OneHour => "OneHour"
      case TwoHours => "TwoHours"
      case FourHours => "FourHours"
      case OneDay => "OneDay"
      case OneWeek => "OneWeek"
      case OneMonth => "OneMonth"
      case OneYear => "OneYear"
    }
  }

  /** An authenticated GET of `resource` with `params`; a null authorization is dereferenced. */
  function Plan(auth: Option<Authorization>, resource: string, params: seq<Param>): Result<RequestData, Failure> {
    if auth.None? then Failure(NullPointer)
    else Success(RequestData("GET", auth.value.apiServer, resource + Query(params), auth.value.accessToken, None))
  }

  /** The endpoints that take a time range refuse a start after the end before anything else. */
  function TimeRangePlan(auth: Option<Authorization>, resource: string, start: ZonedTime, end: ZonedTime, extra: seq<Param>)
    : Result<RequestData, Failure>
  {
    if IsAfter(start, end) then Failure(TimeRangeException(TimeRangeMessage))
    else Plan(auth, resource, [Param("startTime", [start.iso]), Param("endTime", [end.iso])] + extra)
  }

  /** The endpoints that take an array read its first element after the authorization. */
  function ListPlan(auth: Option<Authorization>, resource: string, key: string, values: seq<string>): Result<RequestData, Failure> {
    if auth.None? then Failure(NullPointer)
    else if values == [] then Failure(IndexOutOfBounds)
    else Plan(auth, resource, [Param(key, values)])
  }

  function AccountResource(accountNumber: string, collection: string): string {
    "v1/accounts/" + accountNumber + collection
  }

  function BalancesPlan(auth: Option<Authorization>, accountNumber: string): Result<RequestData, Failure> {
    Plan(auth, AccountResource(accountNumber, "/balances"), [])
  }

  function AccountsPlan(auth: Option<Authorization>): Result<RequestData, Failure> {
    Plan(auth, "v1/accounts/", [])
  }

  function TimePlan(auth: Option<Authorization>): Result<RequestData, Failure> {
    Plan(auth, "v1/time", [])
  }

  function ActivitiesPlan(auth: Option<Authorization>, accountNumber: string, start: ZonedTime, end: ZonedTime): Result<RequestData, Failure> {
    TimeRangePlan(auth, AccountResource(accountNumber, "/activities"), start, end, [])
  }

  function ExecutionsPlan(auth: Option<Authorization>, accountNumber: string, start: ZonedTime, end: ZonedTime): Result<RequestData, Failure> {
    TimeRangePlan(auth, AccountResource(accountNumber, "/executions"), start, end, [])
  }

  /** `getOrders(String, int[])`. */
  function OrdersPlan(auth: Option<Authorization>, accountNumber: string, orderIds: seq<int>): Result<RequestData, Failure> {
    ListPlan(auth, AccountResource(accountNumber, "/orders"), "ids", Decimals(orderIds))
  }

  /** `getOrders(String, int, int...)` as written: the first id is dropped and only the
      optional ones are sent, so a single id reads past an empty array. */
  function ListedOrdersPlanAsWritten(auth: Option<Authorization>, accountNumber: string, orderId: int, orderIds: seq<int>)
    : Result<RequestData, Failure>
  {
    OrdersPlan(auth, accountNumber, orderIds)
  }

  /** `getOrders(String, int, int...)` as documented: every id, the first one first. */
  function ListedOrdersPlan(auth: Option<Authorization>, accountNumber: string, orderId: int, orderIds: seq<int>)
    : Result<RequestData, Failure>
  {
    Plan(auth, AccountResource(accountNumber, "/orders"), [Param("ids", Decimals([orderId] + orderIds))])
  }

  /** `getOrders(String, ZonedDateTime, ZonedDateTime, OrderState)`; a null state adds no filter. */
  function OrdersInRangePlan(auth: Option<Authorization>, accountNumber: string, start: ZonedTime, end: ZonedTime, state: Option<OrderState>)
    : Result<RequestData, Failure>
  {
    TimeRangePlan(auth, AccountResource(accountNumber, "/orders"), start, end,
      if state.Some? then [Param("stateFilter", [state.value.Name()])] else [])
  }

  function PositionsPlan(auth: Option<Authorization>, accountNumber: string): Result<RequestData, Failure> {
    Plan(auth, AccountResource(accountNumber, "/positions"), [])
  }

  function CandlesPlan(auth: Option<Authorization>, symbolId: int, start: ZonedTime, end: ZonedTime, interval: Interval)
    : Result<RequestData, Failure>
  {
    TimeRangePlan(auth, "v1/markets/candles/" + DecimalString(symbolId), start, end, [Param("interval", [interval.Name()])])
  }

  function MarketsPlan(auth: Option<Authorization>): Result<RequestData, Failure> {
    Plan(auth, "v1/markets", [])
  }

  /** `searchSymbol(prefix, offset)`: a negative offset is refused; a zero offset is not sent. */
  function SearchPlan(auth: Option<Authorization>, prefix: string, offset: int): Result<RequestData, Failure> {
    if offset < 0 then Failure(ArgumentException(Some(NegativeOffsetMessage)))
    else Plan(auth, "v1/symbols/search",
      [Param("prefix", [prefix])] + (if offset > 0 then [Param("offset", [DecimalString(offset)])] else []))
  }

  /** `getSymbol(int[])` and `getSymbol(String[])`: one of `ids` or `names`. */
  function SymbolsPlan(auth: Option<Authorization>, key: string, values: seq<string>): Result<RequestData, Failure> {
    ListPlan(auth, "v1/symbols", key, values)
  }

  /** `getQuote(int[])`. */
  function QuotesPlan(auth: Option<Authorization>, ids: seq<int>): Result<RequestData, Failure> {
    ListPlan(auth, "v1/markets/quotes", "ids", Decimals(ids))
  }

  // ---------------------------------------------------------------------------------------------
  // What the requests carry

  lemma QueryOfOne(p: Param)
    ensures Query([p]) == "?" + Render(p)
  {
    assert [p][..0] == [];
  }

  lemma QueryOfTwo(p: Param, q: Param)
    ensures Query([p, q]) == "?" + Render(p) + "&" + Render(q)
  {
    assert [p, q][..1] == [p];
    QueryOfOne(p);
  }

  lemma QueryOfThree(p: Param, q: Param, r: Param)
    ensures Query([p, q, r]) == "?" + Render(p) + "&" + Render(q) + "&" + Render(r)
  {
    assert [p, q, r][..2] == [p, q];
    QueryOfTwo(p, q);
  }

  /** Every authenticated request goes to the session's API server with the session's access
      token as a bearer token, and its query gives back exactly the parameters it was built from. */
  lemma PlanCarriesSession(auth: Option<Authorization>, resource: string, params: seq<Param>, server: string, token: string)
    requires auth.Some? && auth.value.apiServer == Some(server) && auth.value.accessToken == Some(token)
    requires Unambiguous(params)
    ensures Plan(auth, resource, params).Success?
    ensures var c := Connect(Plan(auth, resource, params).value);
      && c.url == server + resource + Query(params)
      && c.requestMethod == "GET"
      && HeaderValue(c.headers, "Authorization") == Some("Bearer " + token)
      && HeaderValue(c.headers, "Content-Type").None?
      && !c.doOutput
    ensures ParseQuery(Query(params)) == params
  {
    QueryRoundTrip(params);
  }

  /** A null authorization fails every endpoint once its own guard has passed. */
  lemma NullAuthorizationFails(resource: string, params: seq<Param>, accountNumber: string, start: ZonedTime, end: ZonedTime,
                               extra: seq<Param>, key: string, values: seq<string>, ids: seq<int>, orderId: int,
                               state: Option<OrderState>, symbolId: int, interval: Interval, prefix: string, offset: int)
    ensures Plan(None, resource, params) == Failure(NullPointer)
    ensures !IsAfter(start, end) ==> TimeRangePlan(None, resource, start, end, extra) == Failure(NullPointer)
    ensures ListPlan(None, resource, key, values) == Failure(NullPointer)
    ensures BalancesPlan(None, accountNumber) == Failure(NullPointer)
    ensures AccountsPlan(None) == Failure(NullPointer) && TimePlan(None) == Failure(NullPointer)
    ensures !IsAfter(start, end) ==> ActivitiesPlan(None, accountNumber, start, end) == Failure(NullPointer)
    ensures !IsAfter(start, end) ==> ExecutionsPlan(None, accountNumber, start, end) == Failure(NullPointer)
    ensures OrdersPlan(None, accountNumber, ids) == Failure(NullPointer)
    ensures ListedOrdersPlanAsWritten(None, accountNumber, orderId, ids) == Failure(NullPointer)
    ensures !IsAfter(start, end) ==> OrdersInRangePlan(None, accountNumber, start, end, state) == Failure(NullPointer)
    ensures PositionsPlan(None, accountNumber) == Failure(NullPointer)
    ensures !IsAfter(start, end) ==> CandlesPlan(None, symbolId, start, end, interval) == Failure(NullPointer)
    ensures MarketsPlan(None) == Failure(NullPointer)
    ensures offset >= 0 ==> SearchPlan(None, prefix, offset) == Failure(NullPointer)
    ensures SymbolsPlan(None, key, values) == Failure(NullPointer)
    ensures QuotesPlan(None, ids) == Failure(NullPointer)
  {
  }

  /** The time-range guard: a start strictly after the end is refused before the authorization
      is read, with the fixed message, as an `ArgumentException`; equal instants are accepted. */
  lemma TimeRangeGuard(auth: Option<Authorization>, resource: string, start: ZonedTime, end: ZonedTime, extra: seq<Param>)
    ensures TimeRangePlan(auth, resource, start, end, extra).Failure? && TimeRangePlan(auth, resource, start, end, extra).error.TimeRangeException?
      <==> IsAfter(start, end)
    ensures IsAfter(start, end) ==>
      TimeRangePlan(auth, resource, start, end, extra) == Failure(TimeRangeException(TimeRangeMessage))
      && IsArgumentException(TimeRangePlan(auth, resource, start, end, extra).error)
    ensures start.instant == end.instant && auth.Some? ==> TimeRangePlan(auth, resource, start, end, extra).Success?
  {
  }

  lemma RenderSingle(key: string, value: string)
    ensures Render(Param(key, [value])) == key + "=" + value
  {
  }

  /** The query of a time range: `?startTime=...&endTime=...`. */
  lemma RangeQuery(start: ZonedTime, end: ZonedTime)
    ensures Query([Param("startTime", [start.iso]), Param("endTime", [end.iso])])
      == "?startTime=" + start.iso + "&endTime=" + end.iso
  {
    QueryOfTwo(Param("startTime", [start.iso]), Param("endTime", [end.iso]));
    RenderSingle("startTime", start.iso);
    RenderSingle("endTime", end.iso);
    KeyPrefix("?", "startTime", "?startTime=", start.iso);
    var first := "?startTime=" + start.iso;
    Associative(first, "&", "endTime" + "=" + end.iso);
    KeyPrefix("&", "endTime", "&endTime=", end.iso);
    Associative(first, "&endTime=", end.iso);
  }

  /** Activities and executions ask for the range as `startTime` then `endTime`. */
  lemma RangeRequestPaths(auth: Option<Authorization>, accountNumber: string, start: ZonedTime, end: ZonedTime)
    requires auth.Some? && !IsAfter(start, end)
    ensures ActivitiesPlan(auth, accountNumber, start, end).Success?
    ensures ActivitiesPlan(auth, accountNumber, start, end).value.path
      == "v1/accounts/" + accountNumber + "/activities" + ("?startTime=" + start.iso + "&endTime=" + end.iso)
    ensures ExecutionsPlan(auth, accountNumber, start, end).Success?
    ensures ExecutionsPlan(auth, accountNumber, start, end).value.path
      == "v1/accounts/" + accountNumber + "/executions" + ("?startTime=" + start.iso + "&endTime=" + end.iso)
  {
    var range := [Param("startTime", [start.iso]), Param("endTime", [end.iso])];
    assert range + [] == range;
    RangeQuery(start, end);
  }

  /** Appending one single-valued parameter after the first adds `&key=value`. */
  lemma QueryAppendSingle(ps: seq<Param>, key: string, prefix: string, value: string)
    requires ps != [] && prefix == "&" + key + "="
    ensures Query(ps + [Param(key, [value])]) == Query(ps) + (prefix + value)
  {
    var all := ps + [Param(key, [value])];
    assert all[..|all| - 1] == ps;
    RenderSingle(key, value);
    assert Separator(|all| - 1) == "&";
    assert Query(all) == Query(ps) + "&" + (key + "=" + value);
    Associative(Query(ps), "&", key + "=" + value);
    KeyPrefix("&", key, prefix, value);
  }

  /** Orders in a range: the state filter comes last and only when a state is given. */
  lemma OrdersInRangePath(auth: Option<Authorization>, accountNumber: string, start: ZonedTime, end: ZonedTime, state: Option<OrderState>)
    requires auth.Some? && !IsAfter(start, end)
    ensures OrdersInRangePlan(auth, accountNumber, start, end, state).Success?
    ensures OrdersInRangePlan(auth, accountNumber, start, end, state).value.path
      == "v1/accounts/" + accountNumber + "/orders"
         + ("?startTime=" + start.iso + "&endTime=" + end.iso
            + (if state.Some? then "&stateFilter=" + state.value.Name() else ""))
  {
    var range := [Param("startTime", [start.iso]), Param("endTime", [end.iso])];
    RangeQuery(start, end);
    if state.Some? {
      QueryAppendSingle(range, "stateFilter", "&stateFilter=", state.value.Name());
    } else {
      assert range + [] == range;
    }
  }

  /** Candles: the symbol id in decimal in the path, then the range, then the interval's name. */
  lemma CandlesPath(auth: Option<Authorization>, symbolId: int, start: ZonedTime, end: ZonedTime, interval: Interval)
    requires auth.Some? && !IsAfter(start, end)
    ensures CandlesPlan(auth, symbolId, start, end, interval).Success?
    ensures CandlesPlan(auth, symbolId, start, end, interval).value.path
      == "v1/markets/candles/" + DecimalString(symbolId)
         + ("?startTime=" + start.iso + "&endTime=" + end.iso + ("&interval=" + interval.Name()))
    ensures ParseDecimal(DecimalString(symbolId)) == symbolId
  {
    var range := [Param("startTime", [start.iso]), Param("endTime", [end.iso])];
    var name := interval.Name();
    RangeQuery(start, end);
    QueryAppendSingle(range, "interval", "&interval=", name);
    DecimalRoundTrip(symbolId);
  }

  /** Symbol search: a negative offset is refused before the authorization is read; offset 0,
      the default of the one-argument overload, is left out of the query. */
  lemma SearchPaths(auth: Option<Authorization>, prefix: string, offset: int)
    ensures offset < 0 ==> SearchPlan(auth, prefix, offset) == Failure(ArgumentException(Some(NegativeOffsetMessage)))
    ensures offset >= 0 && auth.Some? ==> SearchPlan(auth, prefix, offset).Success?
    ensures offset == 0 && auth.Some? ==> SearchPlan(auth, prefix, offset).value.path == "v1/symbols/search" + ("?prefix=" + prefix)
    ensures offset > 0 && auth.Some? ==>
      SearchPlan(auth, prefix, offset).value.path
        == "v1/symbols/search" + ("?prefix=" + prefix + ("&offset=" + DecimalString(offset)))
  {
    var p := Param("prefix", [prefix]);
    QueryOfOne(p);
    RenderSingle("prefix", prefix);
    KeyPrefix("?", "prefix", "?prefix=", prefix);
    if offset == 0 {
      assert [p] + [] == [p];
    } else if offset > 0 {
      QueryAppendSingle([p], "offset", "&offset=", DecimalString(offset));
    }
  }

  /** An array-taking endpoint sends its values comma-joined under one key, and fails on an
      empty array once the authorization has been read. */
  lemma ListPath(auth: Option<Authorization>, resource: string, key: string, values: seq<string>)
    ensures auth.Some? && values == [] ==> ListPlan(auth, resource, key, values) == Failure(IndexOutOfBounds)
    ensures auth.Some? && values != [] ==> ListPlan(auth, resource, key, values).Success?
    ensures auth.Some? && values != [] ==>
      ListPlan(auth, resource, key, values).value.path == resource + ("?" + key + "=" + Join(values, ','))
  {
    QueryOfOne(Param(key, values));
  }

  // ---------------------------------------------------------------------------------------------
  // The listed-orders overload

  /** As written, the listed-orders overload never sends its first id: one id alone fails with
      an index error, and two ids ask for the second one only. */
  lemma ListedOrdersDropFirstId(auth: Option<Authorization>, accountNumber: string, orderId: int, other: int)
    requires auth.Some?
    ensures ListedOrdersPlanAsWritten(auth, accountNumber, orderId, []) == Failure(IndexOutOfBounds)
    ensures ListedOrdersPlanAsWritten(auth, accountNumber, orderId, [other]).Success?
    ensures ListedOrdersPlanAsWritten(auth, accountNumber, orderId, [other])
      != OrdersPlan(auth, accountNumber, [orderId, other])
  {
    var one := Decimals([other]);
    var two := Decimals([orderId, other]);
    assert Join(one, ',') == one[0];
    assert Join(two, ',') == Join(two[..1], ',') + [','] + two[1];
    assert Join(two[..1], ',') == two[0];
    QueryOfOne(Param("ids", one));
    QueryOfOne(Param("ids", two));
    assert one[0] == two[1] && |two[0]| >= 1;
    assert |Query([Param("ids", one)])| < |Query([Param("ids", two)])|;
    var resource := AccountResource(accountNumber, "/orders");
    assert ListedOrdersPlanAsWritten(auth, accountNumber, orderId, [other]).value.path == resource + Query([Param("ids", one)]);
    assert OrdersPlan(auth, accountNumber, [orderId, other]).value.path == resource + Query([Param("ids", two)]);
  }

  /** As documented, the listed-orders overload asks for every id, the first one first, exactly
      as the array overload does for the same ids, and it can never read an empty array. */
  lemma ListedOrdersSendEveryId(auth: Option<Authorization>, accountNumber: string, orderId: int, orderIds: seq<int>)
    ensures ListedOrdersPlan(auth, accountNumber, orderId, orderIds) == OrdersPlan(auth, accountNumber, [orderId] + orderIds)
    ensures ListedOrdersPlan(auth, accountNumber, orderId, orderIds) != Failure(IndexOutOfBounds)
    ensures auth.Some? ==>
      ListedOrdersPlan(auth, accountNumber, orderId, orderIds).value.path
        == "v1/accounts/" + accountNumber + "/orders" + ("?ids=" + Join(Decimals([orderId] + orderIds), ','))
  {
    var ids := Decimals([orderId] + orderIds);
    assert ids != [];
    QueryOfOne(Param("ids", ids));
    KeyPrefix("?", "ids", "?ids=", Join(ids, ','));
  }
}
