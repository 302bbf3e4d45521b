/** The session snapshot: what one token exchange returns, or what a caller caches. */
module Authorizations {
  import opened Wrappers

  /** The expiry the cached-data constructor assumes, in seconds. */
  const CachedExpiry: int := 1800

  /** The token type the cached-data constructor assumes. */
  const BearerType: string := "Bearer"

  /** An `Authorization`. Its fields are private and it has getters only, so a value never changes
      after construction; the getters are the datatype's field selectors. Every field is nullable,
      since a decoded response may lack any of them. */
  datatype Authorization = Authorization(
    accessToken: Option<string>,
    apiServer: Option<string>,
    expiresIn: int,
    refreshToken: Option<string>,
    tokenType: Option<string>)

  /** The cached-data constructor: the three given credentials verbatim, plus the defaults. */
  function Cached(refreshToken: Option<string>, accessToken: Option<string>, apiServer: Option<string>): (a: Authorization)
    ensures a.refreshToken == refreshToken && a.accessToken == accessToken && a.apiServer == apiServer
    ensures a.expiresIn == CachedExpiry && a.tokenType == Some(BearerType)
  {
    Authorization(accessToken, apiServer, CachedExpiry, refreshToken, Some(BearerType))
  }
}
