/**
 * The two backends carry separate copies of the same mappings. These lemmas
 * show that the copies agree on every upstream body and every upstream reply,
 * that they send the same upstream requests for the same credentials, and
 * what they produce from well-formed upstream bodies.
 */
module FacadeAgreement {
  import opened Wrappers
  import opened JsValues
  import opened Upstream
  import Decimal
  import RestFacade
  import GraphFacade

  lemma SummaryNormalisationsAgree(data: JsValue)
    ensures RestFacade.NormaliseSummary(data) == GraphFacade.NormaliseSummary(data)
  {
  }

  lemma LoginNormalisationsAgree(data: JsValue)
    ensures RestFacade.NormaliseLogin(data) == GraphFacade.NormaliseLogin(data)
  {
  }

  /** The REST route answers 200 exactly when the resolver resolves, with the same body or the same failure. */
  lemma SummaryOutcomesAgree(reply: Reply)
    ensures RestFacade.SummaryResponse(reply).Send200? <==> GraphFacade.SummaryResolve(reply).Ok?
    ensures RestFacade.SummaryResponse(reply).Send200? ==>
      RestFacade.SummaryResponse(reply).body == GraphFacade.SummaryResolve(reply).value
    ensures RestFacade.SummaryResponse(reply).Next? ==>
      RestFacade.SummaryResponse(reply).failure == GraphFacade.SummaryResolve(reply).error
  {
  }

  lemma LoginOutcomesAgree(reply: Reply)
    ensures RestFacade.LoginResponse(reply).Send200? <==> GraphFacade.LoginResolve(reply).Ok?
    ensures RestFacade.LoginResponse(reply).Send200? ==>
      RestFacade.LoginResponse(reply).body == GraphFacade.LoginResolve(reply).value
    ensures RestFacade.LoginResponse(reply).Next? ==>
      RestFacade.LoginResponse(reply).failure == GraphFacade.LoginResolve(reply).error
  {
  }

  /**
   * A REST client that sends `Authorization: Bearer <token>` for id `i` makes the
   * REST backend send the upstream the same path and credential as the
   * GraphQL backend's `summary(token, id: i)`.
   */
  lemma SummaryRequestsAgree(id: int, token: string, accept: Option<string>)
    requires GraphFacade.IsGraphQLInt(id)
    ensures RestFacade.SummaryRequest(Decimal.IntToString(id), Some(BearerPrefix + token), accept).path
         == GraphFacade.SummaryRequest(id, token).path
    ensures RestFacade.SummaryRequest(Decimal.IntToString(id), Some(BearerPrefix + token), accept).headers["Authorization"]
         == GraphFacade.SummaryRequest(id, token).headers["Authorization"]
  {
  }

  /** A REST body holding two strings leads to the same upstream POST as the `login` mutation. */
  lemma LoginRequestsAgree(email: string, password: string)
    ensures RestFacade.LoginRequest(Defined(JObject(map["email" := JStr(email), "password" := JStr(password)])))
         == Ok(GraphFacade.LoginRequest(email, password))
  {
  }

  /** A well-formed upstream summary body is flattened into exactly its four values. */
  lemma WellFormedSummaryNormalises(userName: Json, portfolioAmount: Json, gains: Json, percentage: Json)
    ensures RestFacade.NormaliseSummary(SummaryBody(userName, portfolioAmount, gains, percentage))
         == Ok(map["name" := Defined(userName), "amount" := Defined(portfolioAmount),
                   "gains" := Defined(gains), "percentage" := Defined(percentage)])
  {
  }

  /** A well-formed upstream login body is renamed into exactly its two values. */
  lemma WellFormedLoginNormalises(authToken: Json, userId: Json)
    ensures RestFacade.NormaliseLogin(LoginBody(authToken, userId))
         == Ok(map["token" := Defined(authToken), "id" := Defined(userId)])
  {
  }

  /** Upstream fields other than the three the mapping reads make no difference to its result. */
  lemma ExtraSummaryFieldsIgnored(fields: map<string, Json>, extra: map<string, Json>)
    requires "user_name" !in extra && "portfolio_amount" !in extra && "return" !in extra
    ensures RestFacade.NormaliseSummary(Defined(JObject(fields + extra)))
         == RestFacade.NormaliseSummary(Defined(JObject(fields)))
  {
  }

  /**
   * A body that lacks `user_name` and `portfolio_amount` but has `return` is not
   * refused: both backends answer with a summary whose `name` and `amount` are
   * `undefined` and whose `gains` and `percentage` are the upstream's.
   */
  lemma MissingTopLevelFieldsPassThrough(gains: Json, percentage: Json)
    ensures var data := Defined(JObject(map["return" := JObject(map["gains" := gains, "percentage" := percentage])]));
      var partial := map["name" := Undefined, "amount" := Undefined, "gains" := Defined(gains), "percentage" := Defined(percentage)];
      && RestFacade.SummaryResponse(Ok(data)) == RestFacade.Send200(partial)
      && GraphFacade.SummaryResolve(Ok(data)) == Ok(partial)
  {
  }
}
