/** The slice of a gin request context the core touches: request headers,
    the per-request key/value store, and the aborting JSON error response. */
module Gin {
  import opened Wrappers
  import Token

  /** Values kept in the per-request store; `Other` is any value of another Go type. */
  datatype Value = PayloadValue(payload: Token.Payload) | TextValue(text: string) | Other

  /** The JSON error envelope `{"errors": {"body": [...]}}` written by httperr. */
  datatype Errors = Errors(body: seq<string>)
  datatype ErrorResponse = ErrorResponse(errors: Errors)

  datatype Response = Response(status: int, json: ErrorResponse)

  /** `aborted` holds the response of `AbortWithStatusJSON`; `proceeded`
      records a call of `Next`. */
  datatype Context = Context(
    headers: map<string, string>,
    keys: map<string, Value>,
    aborted: Option<Response>,
    proceeded: bool)

  /** `GetHeader`: the header's value, or "" when it is missing. Headers are
      keyed by their canonical name and hold one value each, so net/http's
      canonicalisation of the key and its choice of the first of several
      values are not modelled. */
  function GetHeader(c: Context, key: string): string
  {
    if key in c.headers then c.headers[key] else ""
  }

  function Set(c: Context, key: string, v: Value): Context
  {
    c.(keys := c.keys[key := v])
  }

  function AbortWithStatusJson(c: Context, status: int, json: ErrorResponse): Context
  {
    c.(aborted := Some(Response(status, json)))
  }

  function Next(c: Context): Context
  {
    c.(proceeded := true)
  }
}
