# j-questrade: the session and request-dispatch core, in Dafny

j-questrade is a Java client for the Questrade brokerage REST API. This project models its core:

- the session: a starting refresh token or a cached authorization, consumed once by `activate`;
  token exchanges that replace the `Authorization` wholesale and notify an optional relay;
- the dispatcher `sendRequest`: it records the request's text, classifies the answer (success,
  unreadable error body, expired token, argument error, other status) and, on an expired token,
  re-authenticates and re-sends the request with no cap on the number of retries;
- the endpoints: the client-side guards (time range, negative offset), the request each one builds
  (path, ordered query parameters, bearer token, API server) and the `userId` injection of
  `getAccounts`;
- the `Request` builder, whose path grows in place by `?key=v1,v2` then `&key=...`;
- the cached-data `Authorization`, `Account.setUserId` and the positional balance selectors;
- the older client, `QuestradeAPI`, whose dispatcher takes a 400 for a bad refresh token before
  anything else and, on retry, replaces only the token and keeps the URL.

The OAuth 2.0 refresh-token grant (section 6 of RFC 6749) is issued as a GET whose query carries
the grant. Authenticated calls carry the bearer token of section 2.1 of RFC 6750. Query strings
are the query component of section 3.4 of RFC 3986, written with no percent-encoding.

The model is organised as follows.

- Pure state machines. `Dispatch` (current client) and `LegacyDispatch` (older client) are
  functions of the client's fields, plus the server's script of answers, a log of relay calls and
  a log of the requests dispatched (logged before the server is contacted, so a request whose
  connection fails is logged too).
  The lemmas about the clients' behaviour are stated over these functions.
- Classes. The clients themselves are the classes `Client.Questrade` and
  `LegacyClient.QuestradeAPI`. They hold the same fields as the Java classes, and every method is
  proved to leave exactly the state the matching function describes.
- Requests. Every endpoint builds a `Requests.Request` (or a `LegacyClient.LegacyRequest`) step
  by step, as the source does, and proves it equal to the request that `Endpoints` plans. The
  properties of each endpoint's URL are proved about those plans.
- Parameters. The network is a sequence of scripted responses. Gson's decoding of a token
  response is a function given at construction: it builds an authorization, which may be null,
  or it throws `JsonSyntaxException` on text that is not JSON. The relay is an identity whose
  calls are logged.

Two behaviours of the current dispatcher are worth stating on their own:

- It has no retry cap (Questrade.java:795-800). Every further 1017 answer triggers one more
  exchange, with the refresh token of the latest grant, and one more send
  (`Dispatch.NoRetryCap`, `Dispatch.RenewalUsesLatestRefreshToken`).
- An error body that Gson cannot read is reported as `RefreshTokenException` whatever the status
  (Questrade.java:788-792), even on a request that is not a token exchange
  (`Dispatch.MalformedBodyIsRefreshTokenFailure`).

## Model

| member | source | states |
|---|---|---|
| Authorizations.Cached | src/main/java/com/jquestrade/Authorization.java:7-13 | the cached-data constructor stores refresh token, access token and server verbatim, expiry 1800 and type "Bearer" |
| Accounts.Account.FromJson | src/com/jquestrade/Account.java:9-17 | a decoded account holds exactly the fields of its JSON element |
| Accounts.Account.SetUserId | src/com/jquestrade/Account.java:79-81 | the user id becomes the argument and every other field is unchanged |
| BalanceSelection.Select | src/com/jquestrade/Balances.java:34-39 | CAD reads index 0, USD index 1; a null array is a NullPointerException, a short one an index error |
| BalanceSelection.PerCurrencyBalances | src/com/jquestrade/Balances.java:34-39 | succeeds iff the array is present and long enough for the currency's index, and then returns that element; otherwise the matching Java exception |
| BalanceSelection.CombinedBalances | src/com/jquestrade/Balances.java:46-51 | as above, on the combined balances |
| BalanceSelection.SodPerCurrencyBalances | src/com/jquestrade/Balances.java:61-66 | as above, on the start-of-day per-currency balances |
| BalanceSelection.SodCombinedBalances | src/com/jquestrade/Balances.java:76-81 | as above, on the start-of-day combined balances |
| BalanceSelection.PositionalAgreesWithLabels | src/com/jquestrade/Balances.java:22-81 | when the server lists CAD then USD, all four selectors return the balance labelled with the requested currency |
| BalanceSelection.SelectionIgnoresLabels | src/com/jquestrade/Balances.java:34-39 | selection never reads the label: with USD listed first, the CAD selector returns the USD entry |
| JavaStrings.DecimalString | src/main/java/com/jquestrade/Request.java:70-76 | an int is written as an optional minus sign and decimal digits |
| JavaStrings.DigitsRoundTrip | src/main/java/com/jquestrade/Request.java:70-76 | the digits of a natural number read back as that number |
| JavaStrings.DecimalRoundTrip | src/main/java/com/jquestrade/Request.java:70-76 | an int written into a query reads back as the same int |
| QueryStrings.SplitJoin | src/main/java/com/jquestrade/Request.java:41-43 | values free of the separator are recovered by cutting their comma-join at the separator |
| QueryStrings.ParseParamRender | src/main/java/com/jquestrade/Request.java:38-43 | a rendered `key=v1,v2` piece reads back as the same key and values |
| QueryStrings.QueryIsJoin | src/main/java/com/jquestrade/Request.java:37-79 | a non-empty query is `?` followed by the rendered parameters joined by `&` |
| QueryStrings.QueryRoundTrip | src/main/java/com/jquestrade/Request.java:37-79 | with no delimiter inside keys or values, the query determines its parameters, in order |
| QueryStrings.RawValuesAreAmbiguous | src/main/java/com/jquestrade/Request.java:59-61 | values are not encoded: `prefix=A&B=C` is produced both by one parameter and by two |
| Requests.TargetUrl | src/main/java/com/jquestrade/Request.java:94-100 | the URL is the server followed by the path when there is a server, the path alone otherwise |
| Requests.Headers | src/main/java/com/jquestrade/Request.java:105-112 | `Authorization: Bearer <token>` iff there is a token; `Content-Type` iff there is a content type |
| Requests.Connect | src/main/java/com/jquestrade/Request.java:93-117 | the connection targets TargetUrl with the request's method, its headers, and output on iff a content type is set |
| Requests.Describe | src/main/java/com/jquestrade/Request.java:120-122 | `toString` is the method, a space and the target URL |
| Requests.Decimals | src/main/java/com/jquestrade/Request.java:48-57 | each int of an array is written as its decimal string, in order |
| Requests.QueryAppend | src/main/java/com/jquestrade/Request.java:37-46 | appending a parameter appends its separator and its rendering to the query |
| Requests.AppendValues | src/main/java/com/jquestrade/Request.java:63-65 | the value loop appends the first value and then `,v` for each further value: the comma-join |
| Requests.Request.constructor | src/main/java/com/jquestrade/Request.java:16-31 | a new request has the given path, method "GET", no token, server or content type, and no parameters |
| Requests.Request.SetRequestMethod | src/main/java/com/jquestrade/Request.java:33-35 | stores the enum's name and changes no other field |
| Requests.Request.SetContentType | src/main/java/com/jquestrade/Request.java:81-83 | changes only the content type |
| Requests.Request.SetApiServer | src/main/java/com/jquestrade/Request.java:85-87 | changes only the server |
| Requests.Request.SetAccessToken | src/main/java/com/jquestrade/Request.java:89-91 | changes only the token |
| Requests.Request.AppendParameter | src/main/java/com/jquestrade/Request.java:59-68 | the old path is extended by `?` (first parameter) or `&`, then `key=` and the comma-joined values; the parameter count grows by one |
| Requests.Request.AddArrayParameter | src/main/java/com/jquestrade/Request.java:37-46 | fails with an index error iff the array is empty, changing nothing; otherwise appends `key=` and all values in order |
| Requests.Request.AddIntArrayParameter | src/main/java/com/jquestrade/Request.java:48-57 | as the string array overload, with the ints in decimal |
| Requests.Request.AddParameter | src/main/java/com/jquestrade/Request.java:59-68 | appends `key=` and the first value, then the varargs, and never fails |
| Requests.Request.AddIntParameter | src/main/java/com/jquestrade/Request.java:70-79 | as the string varargs overload, with the ints in decimal |
| Endpoints.PlanCarriesSession | src/main/java/com/jquestrade/Questrade.java:200-208 | every planned request is a GET to the session's server plus the path and query, with the session's bearer token and no content type; its query reads back as its parameters |
| Endpoints.NullAuthorizationFails | src/main/java/com/jquestrade/Questrade.java:227-233 | with a null authorization every endpoint throws NullPointerException once its own guard has passed |
| Endpoints.TimeRangeGuard | src/main/java/com/jquestrade/Questrade.java:282-285 | the range guard fails iff the start is strictly after the end, with the fixed message, as an ArgumentException, before the authorization is read; equal instants pass |
| Endpoints.RangeQuery | src/main/java/com/jquestrade/Questrade.java:293-294 | a range is sent as `?startTime=...&endTime=...` |
| Endpoints.RangeRequestPaths | src/main/java/com/jquestrade/Questrade.java:282-336 | activities and executions are sent to their account path with startTime then endTime |
| Endpoints.OrdersInRangePath | src/main/java/com/jquestrade/Questrade.java:418-436 | orders in a range send startTime, endTime, then stateFilter only when a state is given |
| Endpoints.CandlesPath | src/main/java/com/jquestrade/Questrade.java:498-511 | candles put the symbol id in decimal in the path, then startTime, endTime and interval |
| Endpoints.SearchPaths | src/main/java/com/jquestrade/Questrade.java:576-590 | a negative offset fails before the authorization is read; offset 0 is not sent; a positive offset follows the prefix |
| Endpoints.ListPath | src/main/java/com/jquestrade/Questrade.java:630-640 | an array endpoint sends its values comma-joined under one key and fails on an empty array |
| Endpoints.ListedOrdersDropFirstId | src/main/java/com/jquestrade/Questrade.java:377-387 | as written, the varargs order lookup with one id fails and with two ids asks for the second only |
| Endpoints.ListedOrdersSendEveryId | src/main/java/com/jquestrade/Questrade.java:377-387 | corrected, it plans exactly the array overload's request for all ids, first id first, and never fails on an empty array |
| Dispatch.Send | src/main/java/com/jquestrade/Questrade.java:767-819 | a dispatch only eats a prefix of the script and appends relay calls, always records a request text, and changes only the request's token and server |
| Dispatch.SendIsLogged | src/main/java/com/jquestrade/Questrade.java:767-819 | the request is logged before anything else and the log of dispatched requests only grows; `lastRequest` is the text of the last request sent, and on a normal return it is the text of the request answered |
| Dispatch.ReceiveIsLogged | src/main/java/com/jquestrade/Questrade.java:780-812 | handling one answer only extends the log, and a normal return answers the last request logged |
| Dispatch.ReauthenticateIsLogged | src/main/java/com/jquestrade/Questrade.java:795-800 | the 1017 branch first sends one token request for the refresh token of the authorization in place |
| Dispatch.ExchangeIsLogged | src/main/java/com/jquestrade/Questrade.java:136-150 | an exchange sends one token request, for the refresh token it was given, and records its text |
| Dispatch.Receive | src/main/java/com/jquestrade/Questrade.java:780-812 | the same frame for the handling of one answer |
| Dispatch.Reauthenticate | src/main/java/com/jquestrade/Questrade.java:795-800 | the same frame for the 1017 branch |
| Dispatch.Exchange | src/main/java/com/jquestrade/Questrade.java:136-150 | an exchange only eats a prefix of the script; if it returns normally with a relay set, the last relay call carries the new authorization |
| Dispatch.Refresh | src/main/java/com/jquestrade/Questrade.java:160-162 | with a null authorization it throws NullPointerException and changes nothing |
| Dispatch.Activate | src/main/java/com/jquestrade/Questrade.java:98-108 | on normal return the starting refresh token is gone and, with at most one starting credential, so is the cached authorization; on a throw the starting token is kept |
| Dispatch.ExchangeGranted | src/main/java/com/jquestrade/Questrade.java:136-150 | an exchange whose 2xx line Gson reads adopts the decoded line, consumes one answer and relays once iff a relay is set |
| Dispatch.ExchangeRejectsNonJson | src/main/java/com/jquestrade/Questrade.java:142-148 | a 2xx line that is not JSON throws JsonSyntaxException after the request is logged and its answer consumed, with the authorization and the relay calls unchanged |
| Dispatch.ActivateIsIdempotent | src/main/java/com/jquestrade/Questrade.java:98-108 | after an activation that returned normally, a second activation changes nothing |
| Dispatch.ActivateCachedMakesNoRequest | src/main/java/com/jquestrade/Questrade.java:102-105 | a cached authorization is adopted with no request, no relay call and the script untouched |
| Dispatch.ActivateExchangesOnce | src/main/java/com/jquestrade/Questrade.java:99-101 | with a starting refresh token, activation sends one token request for it, adopts the grant Gson reads, relays once and clears the token |
| Dispatch.ActivateKeepsTokenOnNonJson | src/main/java/com/jquestrade/Questrade.java:99-101 | when the grant is not JSON, activation throws JsonSyntaxException and keeps the starting token, the authorization and the relay calls |
| Dispatch.SuccessReturnsFirstLine | src/main/java/com/jquestrade/Questrade.java:808-812 | a 2xx answer returns its first body line unchanged and consumes that answer only |
| Dispatch.FailedConnectionIsNull | src/main/java/com/jquestrade/Questrade.java:814-818 | an exhausted script or a failed connection is the swallowed IOException: null is returned, the request is logged and its text recorded, at most one answer is consumed, and there is no exchange and no relay call |
| Dispatch.NonRetryableErrors | src/main/java/com/jquestrade/Questrade.java:780-805 | the non-1017 errors, in order: unreadable body, empty body, codes 1002-1004, anything else; each throws without an exchange |
| Dispatch.MalformedBodyIsRefreshTokenFailure | src/main/java/com/jquestrade/Questrade.java:788-792 | an unreadable error body is a RefreshTokenException whatever the status, and not an ArgumentException |
| Dispatch.RetryUsesNewAuthorization | src/main/java/com/jquestrade/Questrade.java:795-800 | after 1017 and a grant, the request is re-sent with the new authorization's token and server; the log shows the request, a token request for the current refresh token, then the request again |
| Dispatch.NoRetryCap | src/main/java/com/jquestrade/Questrade.java:795-800 | any number of 1017 answers, each followed by a grant, end in the first 2xx body, with the last grant in place and on the request, `lastRequest` its text, and the log of dispatched requests extended by exactly Issued |
| Dispatch.Issued | src/main/java/com/jquestrade/Questrade.java:795-800 | under k renewals 2k + 1 requests are dispatched |
| Dispatch.RenewalsAreLogged | src/main/java/com/jquestrade/Questrade.java:795-800 | under that script the log shows the request, then for each grant a token request for the refresh token in place and the request with the grant's token and server |
| Dispatch.IssuedAt | src/main/java/com/jquestrade/Questrade.java:795-800 | entry 2k of that log is the request after k grants; entry 2k + 1 is the token request for the refresh token in place after k grants |
| Dispatch.RenewalUsesLatestRefreshToken | src/main/java/com/jquestrade/Questrade.java:795-800 | the k-th exchange carries the refresh token of grant k - 1 (of the current authorization for k = 0), never a stale one, and follows the request carrying grant k - 1's token and server |
| Dispatch.RenewalsSettle | src/main/java/com/jquestrade/Questrade.java:795-800 | the inductive form of NoRetryCap |
| Dispatch.RenewalsAreRelayed | src/main/java/com/jquestrade/Questrade.java:146-148 | under that script every renewal is handed to the relay, in order |
| Dispatch.NoRelayWithoutRelay | src/main/java/com/jquestrade/Questrade.java:146-148 | without a relay, neither dispatch nor activation ever logs a relay call |
| Client.Perform | src/main/java/com/jquestrade/Questrade.java:449-453 | a failed guard or null authorization throws before any request; otherwise the dispatch frame holds |
| Client.Payload | src/main/java/com/jquestrade/Questrade.java:451-452 | the decoder gets the body text; a null body makes the endpoint dereference null |
| Client.InjectedAccounts | src/main/java/com/jquestrade/Questrade.java:237-244 | the accounts are those of the response, in order, each with the response's user id and otherwise unchanged; a body that is not JSON is a JsonSyntaxException, and a null body, a null object or a missing array a NullPointerException |
| Client.Materialize | src/main/java/com/jquestrade/Questrade.java:237 | one new Account per decoded element, holding its fields |
| Client.InjectUserId | src/main/java/com/jquestrade/Questrade.java:240-242 | every account gets the user id and nothing else about it changes |
| Client.DecodeAccounts | src/main/java/com/jquestrade/Questrade.java:237-244 | the returned new accounts are exactly InjectedAccounts of the body |
| Client.BalancesRequest | src/main/java/com/jquestrade/Questrade.java:200-206 | builds exactly the planned balances request |
| Client.AccountsRequest | src/main/java/com/jquestrade/Questrade.java:227-233 | builds exactly the planned accounts request |
| Client.TimeRequest | src/main/java/com/jquestrade/Questrade.java:254-260 | builds exactly the planned time request |
| Client.RangeRequest | src/main/java/com/jquestrade/Questrade.java:282-294 | the shared range step: the guard, then a GET with server, token, startTime and endTime |
| Client.ActivitiesRequest | src/main/java/com/jquestrade/Questrade.java:282-294 | builds exactly the planned activities request |
| Client.ExecutionsRequest | src/main/java/com/jquestrade/Questrade.java:317-329 | builds exactly the planned executions request |
| Client.OrdersRequest | src/main/java/com/jquestrade/Questrade.java:348-355 | builds exactly the planned orders request, failing on an empty array |
| Client.ListedOrdersRequest | src/main/java/com/jquestrade/Questrade.java:377-384 | builds the listed-orders request as written: the array request on the optional ids alone, failing when there are none |
| Client.OrdersInRangeRequest | src/main/java/com/jquestrade/Questrade.java:418-433 | builds exactly the planned orders-in-range request |
| Client.PositionsRequest | src/main/java/com/jquestrade/Questrade.java:467-473 | builds exactly the planned positions request |
| Client.CandlesRequest | src/main/java/com/jquestrade/Questrade.java:498-511 | builds exactly the planned candles request |
| Client.MarketsRequest | src/main/java/com/jquestrade/Questrade.java:530-536 | builds exactly the planned markets request |
| Client.SearchRequest | src/main/java/com/jquestrade/Questrade.java:576-590 | builds exactly the planned search request |
| Client.ListRequest | src/main/java/com/jquestrade/Questrade.java:630-637 | builds exactly the planned array request |
| Client.Questrade.constructor | src/main/java/com/jquestrade/Questrade.java:65-67 | holds the refresh token; no request, no authorization |
| Client.Questrade.FromCache | src/main/java/com/jquestrade/Questrade.java:80-82 | holds the cached authorization; no request, and the authorization stays null until activation |
| Client.Questrade.SetAuthRelay | src/main/java/com/jquestrade/Questrade.java:185-188 | changes only the relay |
| Client.Questrade.Activate | src/main/java/com/jquestrade/Questrade.java:98-108 | leaves exactly the state Dispatch.Activate describes |
| Client.Questrade.RetrieveAccessToken | src/main/java/com/jquestrade/Questrade.java:136-150 | leaves exactly the state Dispatch.Exchange describes |
| Client.Questrade.Refresh | src/main/java/com/jquestrade/Questrade.java:160-162 | leaves exactly the state Dispatch.Refresh describes |
| Client.Questrade.SendRequest | src/main/java/com/jquestrade/Questrade.java:767-819 | returns, leaves and re-sends exactly what Dispatch.Send describes |
| Client.Questrade.Reauthenticate | src/main/java/com/jquestrade/Questrade.java:795-800 | leaves exactly what Dispatch.Reauthenticate describes |
| Client.Questrade.Submit | src/main/java/com/jquestrade/Questrade.java:449-453 | an exception thrown while building propagates; otherwise the request is dispatched as Client.Perform describes |
| Client.Questrade.GetBalances | src/main/java/com/jquestrade/Questrade.java:200-212 | performs the balances plan |
| Client.Questrade.GetAccounts | src/main/java/com/jquestrade/Questrade.java:227-245 | performs the accounts plan and returns new accounts equal to InjectedAccounts of the body |
| Client.Questrade.GetTime | src/main/java/com/jquestrade/Questrade.java:254-266 | performs the time plan and hands over the body text |
| Client.Questrade.GetActivities | src/main/java/com/jquestrade/Questrade.java:282-301 | performs the activities plan |
| Client.Questrade.GetExecutions | src/main/java/com/jquestrade/Questrade.java:317-336 | performs the executions plan |
| Client.Questrade.GetOrders | src/main/java/com/jquestrade/Questrade.java:348-358 | performs the orders plan |
| Client.Questrade.GetListedOrders | src/main/java/com/jquestrade/Questrade.java:377-387 | performs the listed-orders plan as written |
| Client.Questrade.GetOrdersInRange | src/main/java/com/jquestrade/Questrade.java:401-436 | performs the orders-in-range plan; no state is the three-argument overload |
| Client.Questrade.GetPositions | src/main/java/com/jquestrade/Questrade.java:467-480 | performs the positions plan |
| Client.Questrade.GetCandles | src/main/java/com/jquestrade/Questrade.java:498-518 | performs the candles plan |
| Client.Questrade.GetMarkets | src/main/java/com/jquestrade/Questrade.java:530-543 | performs the markets plan |
| Client.Questrade.SearchSymbolFrom | src/main/java/com/jquestrade/Questrade.java:576-597 | performs the search plan |
| Client.Questrade.SearchSymbol | src/main/java/com/jquestrade/Questrade.java:556-558 | is the search from offset 0 |
| Client.Questrade.GetList | src/main/java/com/jquestrade/Questrade.java:689-693 | performs the array plan of a symbol or quote lookup |
| Client.Questrade.GetSymbolsById | src/main/java/com/jquestrade/Questrade.java:609-619 | performs the symbols plan for the id, then the further ids |
| Client.Questrade.GetSymbolsByIds | src/main/java/com/jquestrade/Questrade.java:630-640 | performs the symbols plan for the ids |
| Client.Questrade.GetSymbolsByName | src/main/java/com/jquestrade/Questrade.java:652-662 | performs the symbols plan for the name, then the further names |
| Client.Questrade.GetSymbolsByNames | src/main/java/com/jquestrade/Questrade.java:673-683 | performs the symbols plan for the names |
| Client.Questrade.GetQuote | src/main/java/com/jquestrade/Questrade.java:712-724 | performs the quotes plan for the id, then the further ids |
| Client.Questrade.GetQuotes | src/main/java/com/jquestrade/Questrade.java:739-751 | performs the quotes plan for the ids |
| LegacyDispatch.ConnectTo | src/com/jquestrade/QuestradeAPI.java:178-226 | a legacy dispatch only eats a prefix of the script and appends relay calls, and changes only the request's token |
| LegacyDispatch.Classify | src/com/jquestrade/QuestradeAPI.java:184-218 | the same frame for the handling of one answer |
| LegacyDispatch.Renew | src/com/jquestrade/QuestradeAPI.java:206-210 | the same frame for the 1017 branch |
| LegacyDispatch.Exchange | src/com/jquestrade/QuestradeAPI.java:63-79 | an exchange only eats a prefix of the script; if it returns normally with a relay set, the last relay call carries the new authorization |
| LegacyDispatch.Refresh | src/com/jquestrade/QuestradeAPI.java:81-83 | with a null authorization it throws NullPointerException and changes nothing |
| LegacyDispatch.Activate | src/com/jquestrade/QuestradeAPI.java:39-45 | the starting token is cleared on normal return, kept on a throw, and without one nothing happens |
| LegacyDispatch.Perform | src/com/jquestrade/QuestradeAPI.java:96-103 | a null authorization throws before any request; otherwise the legacy dispatch frame holds |
| LegacyDispatch.BadRequestIsRefreshTokenFailure | src/com/jquestrade/QuestradeAPI.java:191-193 | a 400 is a RefreshTokenException before the body is read, whatever it holds, even code 1017 |
| LegacyDispatch.SuccessReturnsFirstLine | src/com/jquestrade/QuestradeAPI.java:195-218 | a 2xx answer returns its first body line and consumes that answer only |
| LegacyDispatch.FailedConnectionIsNull | src/com/jquestrade/QuestradeAPI.java:220-225 | an exhausted script or a failed connection is the swallowed IOException: null is returned, the request is logged, at most one answer is consumed, and there is no exchange and no relay call |
| LegacyDispatch.OtherErrors | src/com/jquestrade/QuestradeAPI.java:202-213 | other errors: no body line dereferences null, a non-number is a syntax error, any number but 1017 is a StatusCodeException with the status |
| LegacyDispatch.ExchangeGranted | src/com/jquestrade/QuestradeAPI.java:63-79 | an exchange whose 2xx line Gson reads adopts the decoded line, consumes one answer and relays once iff a relay is set |
| LegacyDispatch.ExchangeRejectsNonJson | src/com/jquestrade/QuestradeAPI.java:70-77 | a 2xx line that is not JSON throws JsonSyntaxException, with the authorization and the relay calls unchanged |
| LegacyDispatch.RetryKeepsUrl | src/com/jquestrade/QuestradeAPI.java:206-210 | after 1017 and a grant the request is re-sent with the new token on the same URL |
| LegacyDispatch.RetryIsLogged | src/com/jquestrade/QuestradeAPI.java:206-210 | under the same script the log shows the request, a token request for the refresh token in place, then the request with the new token |
| LegacyDispatch.ConnectToIsLogged | src/com/jquestrade/QuestradeAPI.java:178-226 | the request is logged before anything else, and the log of dispatched requests only grows |
| LegacyDispatch.ClassifyIsLogged | src/com/jquestrade/QuestradeAPI.java:184-218 | handling one answer only extends that log |
| LegacyDispatch.RenewIsLogged | src/com/jquestrade/QuestradeAPI.java:206-210 | the 1017 branch first sends one token request, for the refresh token of the authorization in place |
| LegacyDispatch.ExchangeIsLogged | src/com/jquestrade/QuestradeAPI.java:63-79 | an exchange sends one token request, for the refresh token it was given |
| LegacyDispatch.ActivateIsIdempotent | src/com/jquestrade/QuestradeAPI.java:39-45 | after an activation that returned normally, a second activation changes nothing |
| LegacyDispatch.ActivateExchangesOnce | src/com/jquestrade/QuestradeAPI.java:39-45 | with a starting token, activation sends one token request for it, adopts the grant Gson reads, consumes one answer, relays once and forgets the token |
| LegacyDispatch.ActivateKeepsTokenOnNonJson | src/com/jquestrade/QuestradeAPI.java:39-45 | when the grant is not JSON, activation throws JsonSyntaxException and keeps the starting token, the authorization and the relay calls |
| LegacyDispatch.NoRangeGuard | src/com/jquestrade/QuestradeAPI.java:124-154 | the legacy range endpoints accept a reversed range; activities and executions both send startTime then endTime after the server's text and the account path |
| LegacyClient.LegacyConnect | src/com/jquestrade/Request.java:46-62 | the URL is used as it is; bearer header iff a token, content type and output iff a content type |
| LegacyClient.LegacyRequest.constructor | src/com/jquestrade/Request.java:12-24 | a new request has the given URL, method "GET" and no token, content type or parameters |
| LegacyClient.LegacyRequest.SetRequestMethod | src/com/jquestrade/Request.java:26-28 | stores the argument verbatim |
| LegacyClient.LegacyRequest.SetContentType | src/com/jquestrade/Request.java:37-39 | changes only the content type |
| LegacyClient.LegacyRequest.SetAccessToken | src/com/jquestrade/Request.java:42-44 | changes only the token |
| LegacyClient.LegacyRequest.AddParameter | src/com/jquestrade/Request.java:30-35 | the old URL is extended by `?key=value` (first) or `&key=value`; the count grows by one |
| LegacyClient.EndpointRequest | src/com/jquestrade/QuestradeAPI.java:124-131 | builds exactly the planned legacy request |
| LegacyClient.QuestradeAPI.constructor | src/com/jquestrade/QuestradeAPI.java:33-35 | holds the refresh token; no request |
| LegacyClient.QuestradeAPI.SetAuthRelay | src/com/jquestrade/QuestradeAPI.java:89-92 | changes only the relay |
| LegacyClient.QuestradeAPI.Activate | src/com/jquestrade/QuestradeAPI.java:39-45 | leaves exactly the state LegacyDispatch.Activate describes |
| LegacyClient.QuestradeAPI.RetrieveAccessToken | src/com/jquestrade/QuestradeAPI.java:63-79 | leaves exactly the state LegacyDispatch.Exchange describes |
| LegacyClient.QuestradeAPI.Refresh | src/com/jquestrade/QuestradeAPI.java:81-83 | leaves exactly the state LegacyDispatch.Refresh describes |
| LegacyClient.QuestradeAPI.ConnectToUrl | src/com/jquestrade/QuestradeAPI.java:178-226 | returns, leaves and re-sends exactly what LegacyDispatch.ConnectTo describes |
| LegacyClient.QuestradeAPI.Renew | src/com/jquestrade/QuestradeAPI.java:206-210 | leaves exactly what LegacyDispatch.Renew describes |
| LegacyClient.QuestradeAPI.Submit | src/com/jquestrade/QuestradeAPI.java:103 | an exception thrown while building propagates; otherwise the request is dispatched as LegacyDispatch.Perform describes |
| LegacyClient.QuestradeAPI.GetAccounts | src/com/jquestrade/QuestradeAPI.java:96-109 | performs the legacy accounts plan |
| LegacyClient.QuestradeAPI.GetTime | src/com/jquestrade/QuestradeAPI.java:111-122 | performs the legacy time plan |
| LegacyClient.QuestradeAPI.GetActivities | src/com/jquestrade/QuestradeAPI.java:124-138 | performs the legacy activities plan |
| LegacyClient.QuestradeAPI.GetExecutions | src/com/jquestrade/QuestradeAPI.java:140-154 | performs the legacy executions plan |

## Left out

- HTTP I/O (`HttpURLConnection`, streams, `disconnect`): the server is a script of answers, and an exhausted script or a failed connection is the swallowed IOException.
- Gson decoding: a token response is decoded by a function given at construction, which says whether the text is JSON and, if so, which authorization (or null) it makes. Accounts are decoded by a parser given to `getAccounts`, which likewise says whether the text is JSON and, if so, which object (or null) it makes. The other endpoints return the body text their records are decoded from, since those records are floating-point getters with no logic.
- `getTime` parsing and all `ZonedDateTime` formatting: an instant is an integer paired with its formatted text. The legacy endpoints take the range already formatted.
- The authorization relay is an identity, and its invocations are logged in a ghost sequence. Arbitrary callback code is not modelled.
- `revokeAuthorization`: it is commented out in the current client, and marked as not working in the legacy one.
- Concurrency: the code is single-threaded.
- Requests.Request.AppendParameter: `parameterCount` is an unbounded natural, so a Java `int` overflow after 2^31 parameters is not modelled.
- Client.InjectUserId: a null element of the decoded `accounts` array, which would throw in the loop, is not modelled. Elements are always accounts.
- BalanceSelection.Select: a null `Currency` argument (which Java sends to index 1) and null array elements are not modelled.
- Dispatch.Receive: a null error stream is not modelled. An empty error body is modelled as decoding to null, so the code read throws NullPointerException.
- LegacyDispatch.Classify: the JDK's `getInputStream` throws an IOException on most error statuses, which the legacy dispatcher would swallow. The model reads the body as the source's control flow states and treats such answers as scripted replies.
- LegacyClient.LegacyRequest.SetRequestMethod: the legacy call sites pass the enum while the legacy setter takes a string. The model passes the string "GET".
- LegacyClient.QuestradeAPI.GetAccounts: returns the body text. The legacy decoding into records is left out, like that of the current client's endpoints.
- Client.Questrade.GetBalances: returns the body text the `Balances` are decoded from. The selectors are modelled on a decoded value in `BalanceSelection`.
- Client.RangeRequest: the four time-range endpoints call their setters in slightly different orders, which no caller can observe. They share one builder that follows the order of `getActivities`.
- Client.ListRequest: `getSymbol(int, int...)`, `getSymbol(String, String...)` and `getQuote(int, int...)` call the varargs `addParameter`. The model passes their never-empty value list through the array path, which gives the same path.
- Java `null` arguments: account numbers, search prefixes and the elements of the id and name arrays are Dafny strings, so a `null` that Java would concatenate into a URL as the text "null" is not modelled. Null arrays are not modelled either (`getSymbol((int[]) null)` throws NullPointerException at `values.length` or `values[0]`), nor are null `ZonedDateTime` and `Interval` arguments (a null `startTime` throws at `isAfter`). Each is a NullPointerException thrown before any request.

## Findings

| source | as written | input that shows it | evidently intended | confidence | as-written member | corrected member |
|---|---|---|---|---|---|---|
| src/main/java/com/jquestrade/Questrade.java:377-387 | `getOrders(String, int, int...)` builds `ids` from the varargs only, dropping `orderId` | `getOrders(acct, 5)` reads `values[0]` of an empty array; `getOrders(acct, 5, 7)` asks for `ids=7` | `ids=5,7`, the same request as `getOrders(acct, new int[]{5, 7})`, as its doc comment states | not executed | Endpoints.ListedOrdersDropFirstId | Endpoints.ListedOrdersSendEveryId |
