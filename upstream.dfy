/**
 * The upstream service as both backends reach it: each backend creates an
 * HTTP client bound to one base origin and issues one GET and one POST. The
 * origin and the network call itself are not modelled; requests carry their
 * path relative to the origin, and the call's result is an input (`Reply`).
 */
module Upstream {
  import opened Wrappers
  import opened JsValues

  /** The summary endpoint, relative to the base origin; the portfolio id follows it. */
  const SummaryPathPrefix := "api/portfolio_summary/"

  /** The token-issuance endpoint, relative to the base origin. */
  const TokensPath := "api/v1/users/tokens"

  /** The scheme word a bearer credential starts with. */
  const BearerPrefix := "Bearer "

  /** A request handed to the HTTP client. */
  datatype Request =
    | HttpGet(path: string, headers: map<string, string>)
    | HttpPost(path: string, body: JsObject)

  /** Why the client's promise rejects: a non-2xx response with its body, or no response. */
  datatype UpstreamError = ErrorResponse(status: int, data: JsValue) | NoResponse

  /** What awaiting the client yields: the response's `data`, or the rejection. */
  type Reply = Result<JsValue, UpstreamError>

  /** Why a handler or resolver fails: the upstream call rejected, or the mapping threw. */
  datatype Failure = Rejected(cause: UpstreamError) | Thrown(error: TypeError)

  /** `s` with `prefix` removed, if `s` starts with it. */
  function StripPrefix(prefix: string, s: string): (r: Option<string>)
    ensures r.Some? ==> s == prefix + r.value
    ensures r.None? ==> !(|prefix| <= |s| && s[..|prefix|] == prefix)
  {
    if |prefix| <= |s| && s[..|prefix|] == prefix then Some(s[|prefix|..]) else None
  }

  lemma StripPrefixOfConcat(prefix: string, rest: string)
    ensures StripPrefix(prefix, prefix + rest) == Some(rest)
  {
  }

  /** The upstream's reading of a summary path: the id segment after the prefix. */
  function SummaryIdOf(path: string): Option<string> {
    StripPrefix(SummaryPathPrefix, path)
  }

  /** The upstream's reading of an `Authorization` header: the token after `Bearer `. */
  function BearerToken(authorization: string): Option<string> {
    StripPrefix(BearerPrefix, authorization)
  }

  /** A well-formed upstream summary body: `{user_name, portfolio_amount, return: {gains, percentage}}`. */
  function SummaryBody(userName: Json, portfolioAmount: Json, gains: Json, percentage: Json): JsValue {
    Defined(JObject(map[
      "user_name" := userName,
      "portfolio_amount" := portfolioAmount,
      "return" := JObject(map["gains" := gains, "percentage" := percentage])]))
  }

  /** A well-formed upstream login body: `{auth_token, user_id}`. */
  function LoginBody(authToken: Json, userId: Json): JsValue {
    Defined(JObject(map["auth_token" := authToken, "user_id" := userId]))
  }
}
