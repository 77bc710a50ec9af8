/**
 * The REST backend: `GET /api/portfolio_summary/:id` and
 * `POST /api/v1/users/tokens`. Each route handler shapes one upstream request,
 * awaits it, and either sends a 200 with the normalised body or passes the
 * error to `next`.
 */
module RestFacade {
  import opened Wrappers
  import opened JsValues
  import opened Upstream

  /** What a route handler does: `res.status(200).send(body)` or `next(e)`. */
  datatype Outcome = Send200(body: JsObject) | Next(failure: Failure)

  /** The `Accept` value forwarded when the client sent none. */
  const DefaultAccept := "application/json"

  /** `header || fallback` on a request header: an absent or empty header is falsy. */
  function HeaderOr(header: Option<string>, fallback: string): string {
    if header.Some? && header.value != "" then header.value else fallback
  }

  /**
   * The upstream GET for `GET /api/portfolio_summary/:id`: the path carries the
   * route's id, the client's `Authorization` is forwarded as it came (empty when
   * absent) and its `Accept` too (`application/json` when absent or empty).
   */
  function SummaryRequest(id: string, authorization: Option<string>, accept: Option<string>): (req: Request)
    ensures req.HttpGet?
    ensures SummaryIdOf(req.path) == Some(id)
    ensures req.headers.Keys == {"Authorization", "Accept"}
    ensures req.headers["Authorization"] == authorization.GetOr("")
    ensures accept.Some? && accept.value != "" ==> req.headers["Accept"] == accept.value
    ensures accept.None? || accept.value == "" ==> req.headers["Accept"] == DefaultAccept
  {
    StripPrefixOfConcat(SummaryPathPrefix, id);
    HttpGet(SummaryPathPrefix + id, map[
      "Authorization" := HeaderOr(authorization, ""),
      "Accept" := HeaderOr(accept, DefaultAccept)])
  }

  /**
   * The `.then` callback that flattens the upstream body. Reading `user_name`
   * throws when the body is `undefined` or `null`; reading `return.gains` throws
   * when `return` is; otherwise each of the four fields is copied unchanged
   * (possibly as `undefined`) and nothing else is kept.
   */
  function NormaliseSummary(data: JsValue): (r: Result<JsObject, TypeError>)
    ensures r.Ok? <==> Readable(data) && Readable(Field(data, "return"))
    ensures r.Ok? ==> r.value.Keys == {"name", "amount", "gains", "percentage"}
    ensures r.Ok? ==> r.value["name"] == Field(data, "user_name")
    ensures r.Ok? ==> r.value["amount"] == Field(data, "portfolio_amount")
    ensures r.Ok? ==> r.value["gains"] == Field(Field(data, "return"), "gains")
    ensures r.Ok? ==> r.value["percentage"] == Field(Field(data, "return"), "percentage")
    ensures r.Err? ==> r.error == CannotRead(if Readable(data) then "gains" else "user_name")
  {
    match ReadProperty(data, "user_name")
    case Err(e) => Err(e)
    case Ok(name) =>
      // `data` is readable from here on, so its other reads cannot throw
      var amount := ReadProperty(data, "portfolio_amount").value;
      match ReadProperty(ReadProperty(data, "return").value, "gains")
      case Err(e) => Err(e)
      case Ok(gains) =>
        // and so is `data.return`
        var percentage := ReadProperty(ReadProperty(data, "return").value, "percentage").value;
        Ok(map["name" := name, "amount" := amount, "gains" := gains, "percentage" := percentage])
  }

  /**
   * The summary handler after its upstream call: a rejection goes to `next`
   * unchanged; a body goes through the normalisation, whose TypeError also goes
   * to `next`. A 200 is sent exactly when the body and its `return` are readable.
   */
  function SummaryResponse(reply: Reply): (o: Outcome)
    ensures reply.Err? ==> o == Next(Rejected(reply.error))
    ensures o.Send200? <==> reply.Ok? && Readable(reply.value) && Readable(Field(reply.value, "return"))
    ensures o.Send200? ==> NormaliseSummary(reply.value) == Ok(o.body)
    ensures reply.Ok? && !Readable(reply.value) ==> o == Next(Thrown(CannotRead("user_name")))
    ensures reply.Ok? && Readable(reply.value) && !o.Send200? ==> o == Next(Thrown(CannotRead("gains")))
  {
    match reply
    case Err(e) => Next(Rejected(e))
    case Ok(data) =>
      match NormaliseSummary(data)
      case Ok(summary) => Send200(summary)
      case Err(e) => Next(Thrown(e))
  }

  /**
   * `const { email, password } = req.body` and the upstream POST it leads to:
   * exactly the two fields, taken from the request body.
   */
  function LoginRequest(body: JsValue): (r: Result<Request, TypeError>)
    ensures r.Ok? <==> Readable(body)
    ensures r.Ok? ==> r.value.HttpPost? && r.value.path == TokensPath
    ensures r.Ok? ==> r.value.body.Keys == {"email", "password"}
    ensures r.Ok? ==> r.value.body["email"] == Field(body, "email")
    ensures r.Ok? ==> r.value.body["password"] == Field(body, "password")
    ensures r.Err? ==> r.error == CannotRead("email")
  {
    match ReadProperty(body, "email")
    case Err(e) => Err(e)
    case Ok(email) =>
      var password := ReadProperty(body, "password").value;
      Ok(HttpPost(TokensPath, map["email" := email, "password" := password]))
  }

  /** The response body `{token: data.auth_token, id: data.user_id}`. */
  function NormaliseLogin(data: JsValue): (r: Result<JsObject, TypeError>)
    ensures r.Ok? <==> Readable(data)
    ensures r.Ok? ==> r.value.Keys == {"token", "id"}
    ensures r.Ok? ==> r.value["token"] == Field(data, "auth_token")
    ensures r.Ok? ==> r.value["id"] == Field(data, "user_id")
    ensures r.Err? ==> r.error == CannotRead("auth_token")
  {
    match ReadProperty(data, "auth_token")
    case Err(e) => Err(e)
    case Ok(token) =>
      var id := ReadProperty(data, "user_id").value;
      Ok(map["token" := token, "id" := id])
  }

  /** The login handler after its upstream call: 200 with the renamed fields, or `next`. */
  function LoginResponse(reply: Reply): (o: Outcome)
    ensures reply.Err? ==> o == Next(Rejected(reply.error))
    ensures o.Send200? <==> reply.Ok? && Readable(reply.value)
    ensures o.Send200? ==> NormaliseLogin(reply.value) == Ok(o.body)
    ensures reply.Ok? && !Readable(reply.value) ==> o == Next(Thrown(CannotRead("auth_token")))
  {
    match reply
    case Err(e) => Next(Rejected(e))
    case Ok(data) =>
      match NormaliseLogin(data)
      case Ok(payload) => Send200(payload)
      case Err(e) => Next(Thrown(e))
  }

  /**
   * The whole login route, with the upstream service as `server`. A request body
   * that cannot be destructured goes to `next` and nothing is sent upstream;
   * otherwise the service receives the POST of exactly `{email, password}` and
   * its reply decides the outcome.
   */
  function LoginHandler(body: JsValue, server: Request -> Reply): (o: Outcome)
    ensures !Readable(body) ==> o == Next(Thrown(CannotRead("email")))
    ensures Readable(body) ==>
      o == LoginResponse(server(HttpPost(TokensPath, map["email" := Field(body, "email"), "password" := Field(body, "password")])))
    ensures o.Send200? ==> o.body.Keys == {"token", "id"}
  {
    match LoginRequest(body)
    case Err(e) => Next(Thrown(e))
    case Ok(request) => LoginResponse(server(request))
  }
}
