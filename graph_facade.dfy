/**
 * The GraphQL backend: the `Summary` and `AuthPayload` types of its schema and
 * the `summary` query and `login` mutation resolvers. A resolver's promise
 * either resolves to the mapped object (`Ok`) or rejects (`Err`).
 */
module GraphFacade {
  import opened Wrappers
  import opened JsValues
  import opened Upstream
  import Decimal

  /** The fields the schema declares for `type Summary`. */
  const SummaryType: set<string> := {"name", "amount", "gains", "percentage"}

  /** The fields the schema declares for `type AuthPayload`. */
  const AuthPayloadType: set<string> := {"token", "id"}

  /** A value of the schema's `Int` scalar: a signed 32-bit integer. */
  predicate IsGraphQLInt(i: int) {
    -0x8000_0000 <= i < 0x8000_0000
  }

  /**
   * The upstream GET of the `summary` resolver: the path carries the `id`
   * argument in decimal, and the only header is `Authorization: Bearer <token>`.
   */
  function SummaryRequest(id: int, token: string): (req: Request)
    requires IsGraphQLInt(id)
    ensures req.HttpGet?
    ensures SummaryIdOf(req.path) == Some(Decimal.IntToString(id))
    ensures Decimal.ParseInt(SummaryIdOf(req.path).value) == Some(id)
    ensures req.headers.Keys == {"Authorization"}
    ensures BearerToken(req.headers["Authorization"]) == Some(token)
  {
    StripPrefixOfConcat(SummaryPathPrefix, Decimal.IntToString(id));
    StripPrefixOfConcat(BearerPrefix, token);
    Decimal.IntRoundTrip(id);
    HttpGet(SummaryPathPrefix + Decimal.IntToString(id), map["Authorization" := BearerPrefix + token])
  }

  /**
   * The `.then` callback of the `summary` resolver: the same flattening as the
   * REST backend's, written out again in this file. Its result has exactly the
   * fields of `type Summary`.
   */
  function NormaliseSummary(data: JsValue): (r: Result<JsObject, TypeError>)
    ensures r.Ok? <==> Readable(data) && Readable(Field(data, "return"))
    ensures r.Ok? ==> r.value.Keys == SummaryType
    ensures r.Ok? ==> r.value["name"] == Field(data, "user_name")
    ensures r.Ok? ==> r.value["amount"] == Field(data, "portfolio_amount")
    ensures r.Ok? ==> r.value["gains"] == Field(Field(data, "return"), "gains")
    ensures r.Ok? ==> r.value["percentage"] == Field(Field(data, "return"), "percentage")
    ensures r.Err? ==> r.error == CannotRead(if Readable(data) then "gains" else "user_name")
  {
    match ReadProperty(data, "user_name")
    case Err(e) => Err(e)
    case Ok(name) =>
      var amount := ReadProperty(data, "portfolio_amount").value;
      match ReadProperty(ReadProperty(data, "return").value, "gains")
      case Err(e) => Err(e)
      case Ok(gains) =>
        var percentage := ReadProperty(ReadProperty(data, "return").value, "percentage").value;
        Ok(map["name" := name, "amount" := amount, "gains" := gains, "percentage" := percentage])
  }

  /**
   * The `summary` resolver after its upstream call: it resolves exactly when the
   * body and its `return` are readable, and rejects with the upstream error or
   * the mapping's TypeError otherwise. Nothing resolves when `return` is
   * unreadable, but top-level fields the body lacks resolve as `undefined`.
   */
  function SummaryResolve(reply: Reply): (r: Result<JsObject, Failure>)
    ensures reply.Err? ==> r == Err(Rejected(reply.error))
    ensures r.Ok? <==> reply.Ok? && Readable(reply.value) && Readable(Field(reply.value, "return"))
    ensures r.Ok? ==> r.value.Keys == SummaryType && NormaliseSummary(reply.value) == Ok(r.value)
    ensures reply.Ok? && !Readable(reply.value) ==> r == Err(Thrown(CannotRead("user_name")))
    ensures reply.Ok? && Readable(reply.value) && r.Err? ==> r.error == Thrown(CannotRead("gains"))
  {
    match reply
    case Err(e) => Err(Rejected(e))
    case Ok(data) =>
      match NormaliseSummary(data)
      case Ok(summary) => Ok(summary)
      case Err(e) => Err(Thrown(e))
  }

  /** The upstream POST of the `login` resolver: exactly `{email, password}` from its arguments. */
  function LoginRequest(email: string, password: string): (req: Request)
    ensures req.HttpPost? && req.path == TokensPath
    ensures req.body.Keys == {"email", "password"}
    ensures req.body["email"] == Defined(JStr(email)) && req.body["password"] == Defined(JStr(password))
  {
    HttpPost(TokensPath, map["email" := Defined(JStr(email)), "password" := Defined(JStr(password))])
  }

  /** The resolver's result `{token: data.auth_token, id: data.user_id}`, shaped as `AuthPayload`. */
  function NormaliseLogin(data: JsValue): (r: Result<JsObject, TypeError>)
    ensures r.Ok? <==> Readable(data)
    ensures r.Ok? ==> r.value.Keys == AuthPayloadType
    ensures r.Ok? ==> r.value["token"] == Field(data, "auth_token")
    ensures r.Ok? ==> r.value["id"] == Field(data, "user_id")
    ensures r.Err? ==> r.error == CannotRead("auth_token")
  {
    match ReadProperty(data, "auth_token")
    case Err(e) => Err(e)
    case Ok(token) =>
      var id := ReadProperty(data, "user_id").value;
      Ok(map["token" := token, "id" := id])
  }

  /** The `login` resolver after its upstream call: an `AuthPayload`, or the rejection. */
  function LoginResolve(reply: Reply): (r: Result<JsObject, Failure>)
    ensures reply.Err? ==> r == Err(Rejected(reply.error))
    ensures r.Ok? <==> reply.Ok? && Readable(reply.value)
    ensures r.Ok? ==> r.value.Keys == AuthPayloadType && NormaliseLogin(reply.value) == Ok(r.value)
    ensures reply.Ok? && !Readable(reply.value) ==> r == Err(Thrown(CannotRead("auth_token")))
  {
    match reply
    case Err(e) => Err(Rejected(e))
    case Ok(data) =>
      match NormaliseLogin(data)
      case Ok(payload) => Ok(payload)
      case Err(e) => Err(Thrown(e))
  }
}
