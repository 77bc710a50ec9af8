# mag-chrome-extension: a Dafny model of its backends' mappings and its badge countdown

The repository fronts one upstream financial-account service (login and portfolio summary) through two
backends, a REST server and a GraphQL server, and ships a browser extension whose background script keeps a
daily countdown on the extension's badge. This project models the logic inside that glue:

- **Response normalisation and credential forwarding** in both backends. The upstream summary
  `{user_name, portfolio_amount, return: {gains, percentage}}` is flattened into
  `{name, amount, gains, percentage}`. The upstream login reply `{auth_token, user_id}` is renamed into
  `{token, id}`. The upstream requests are shaped from the route or resolver arguments: the summary path is
  `api/portfolio_summary/<id>`, REST forwards the client's `Authorization` and `Accept` headers, GraphQL
  sends `Authorization: Bearer <token>`, and login posts exactly `{email, password}`.
  Upstream bodies are JSON values (`JsValues.Json`) that may lack any field. Reading a property of
  `undefined` or `null` throws a `TypeError`; reading a missing field gives `undefined`. The model
  therefore keeps the code's real failure behaviour. A body without `return` makes the route call `next`
  and the resolver reject. A missing top-level field is copied through as `undefined`. The two backends
  carry separate copies of the mappings (`RestFacade`, `GraphFacade`); `FacadeAgreement` proves that the
  copies agree on every upstream body and reply.
- **The badge countdown** (`Background`). `millisecondsToDays`, the whole-day difference between the stored
  date and today, and the rule that writes `badgeDate`/`badgeDay` and the badge text back only when the
  stored date is earlier than today and the new count is not negative. `Step` is the rule on a state value.
  `BadgeStore.Run` is the script's imperative run on the stored keys and is proved to do what `Step` says.
  Lemmas give the bounds, idempotence within a day, and how successive daily runs compose.

Three behaviours of the code are easy to miss, and the model keeps them:

- a missing upstream field is not refused: a missing `user_name` or `portfolio_amount` is copied into the
  answer as `undefined` (`FacadeAgreement.MissingTopLevelFieldsPassThrough`), and only a missing `return`
  (or an unreadable body) throws;
- the REST backend's `||` replaces a present but empty `Accept` header with `application/json`, not only
  an absent one;
- the GraphQL resolver does not forward the client's `Accept`: it passes the HTTP client only
  `Authorization`, and the client then adds its own default `Accept`, which is not modelled.

The upstream network call is not modelled: its outcome (`Upstream.Reply`, the response's `data` or the
client's rejection) is a parameter of `SummaryResponse`, `SummaryResolve`, `LoginResponse` and
`LoginResolve`. The clock is a parameter too (`now`), as is the presence of the browser-action API.

## Model

| member | source | states |
|---|---|---|
| `JsValues.ReadProperty` | backend/index-rest.js:30-33 | `v.key` throws exactly when `v` is `undefined` or `null` (naming the key); otherwise it yields the object's own field or `undefined` |
| `RestFacade.SummaryRequest` | backend/index-rest.js:22-27 | the upstream GET's path is `api/portfolio_summary/` followed by the route id (the path yields the id back); the headers are exactly `Authorization` (the client's, or empty) and `Accept` (the client's, or `application/json` when absent or empty) |
| `RestFacade.NormaliseSummary` | backend/index-rest.js:29-34 | succeeds exactly when the body and its `return` are readable; then the result has exactly the keys `name, amount, gains, percentage`, holding `user_name`, `portfolio_amount`, `return.gains`, `return.percentage` unchanged; otherwise the TypeError names `user_name` or `gains` |
| `RestFacade.SummaryResponse` | backend/index-rest.js:20-38 | an upstream rejection goes to `next` unchanged; a 200 is sent exactly when the body and its `return` are readable, with the normalised body; an `undefined`/`null` body goes to `next` as the TypeError on `user_name`, and a readable body without a readable `return` as the TypeError on `gains` |
| `RestFacade.LoginRequest` | backend/index-rest.js:43-48 | destructuring succeeds unless the request body is `undefined`/`null` (then the TypeError names `email`); the upstream POST goes to `api/v1/users/tokens` with exactly `email` and `password` from the request body |
| `RestFacade.NormaliseLogin` | backend/index-rest.js:50 | succeeds exactly when the reply body is readable; then the result has exactly `token` = `auth_token` and `id` = `user_id` |
| `RestFacade.LoginResponse` | backend/index-rest.js:44-53 | an upstream rejection goes to `next` unchanged; a 200 is sent exactly when the reply body is readable, with the renamed fields; an unreadable body goes to `next` as the TypeError on `auth_token` |
| `RestFacade.LoginHandler` | backend/index-rest.js:41-54 | a request body that cannot be destructured goes to `next` as the TypeError on `email`; otherwise the outcome is decided by the service's reply to the POST of exactly `{email, password}` from the body, and a 200 carries exactly `token` and `id` |
| `GraphFacade.SummaryRequest` | backend/index-graph.js:48-54 | for a 32-bit `id` the upstream path is the prefix followed by the decimal `id`, which parses back to `id`; the only header is `Authorization`, whose Bearer token is exactly the `token` argument |
| `GraphFacade.NormaliseSummary` | backend/index-graph.js:55-60 | same as the REST copy, and the result's keys are exactly the fields the schema declares for `Summary` (lines 32-37) |
| `GraphFacade.SummaryResolve` | backend/index-graph.js:48-61 | the promise resolves exactly when the body and its `return` are readable, with keys equal to `Summary`'s fields; it rejects with the upstream error, with the TypeError on `user_name` for an `undefined`/`null` body, or with the TypeError on `gains` for a readable body without a readable `return`; nothing resolves when `return` is unreadable, but top-level fields the body lacks resolve as `undefined` |
| `GraphFacade.LoginRequest` | backend/index-graph.js:64-69 | the upstream POST goes to `api/v1/users/tokens` with exactly `{email, password}` from the mutation's arguments |
| `GraphFacade.NormaliseLogin` | backend/index-graph.js:71 | succeeds exactly when the reply body is readable; the result's keys are `AuthPayload`'s fields (lines 39-42), `token` = `auth_token`, `id` = `user_id` |
| `GraphFacade.LoginResolve` | backend/index-graph.js:64-72 | resolves exactly when the reply body is readable, with an `AuthPayload`-shaped object; rejects with the upstream error when the call fails, and with the TypeError on `auth_token` when the body is unreadable |
| `FacadeAgreement.SummaryNormalisationsAgree` | backend/index-graph.js:55-60 | for every upstream body both copies of the summary mapping give the same result (the REST copy is backend/index-rest.js:29-34) |
| `FacadeAgreement.LoginNormalisationsAgree` | backend/index-graph.js:71 | for every upstream body both copies of the login mapping give the same result (the REST copy is backend/index-rest.js:50) |
| `FacadeAgreement.SummaryOutcomesAgree` | backend/index-rest.js:29-37 | for every upstream reply the REST route sends 200 exactly when the resolver resolves, with the same body, and otherwise passes on the same failure the resolver rejects with |
| `FacadeAgreement.LoginOutcomesAgree` | backend/index-rest.js:44-52 | for every upstream reply the REST login route and the `login` resolver succeed together with the same payload, or fail with the same failure |
| `FacadeAgreement.SummaryRequestsAgree` | backend/index-graph.js:50-52 | a REST client sending `Bearer <token>` for id `i` makes the REST backend use the same upstream path and `Authorization` as `summary(token, id: i)` |
| `FacadeAgreement.LoginRequestsAgree` | backend/index-rest.js:43-48 | a REST body with two strings leads to the same upstream POST as the `login` mutation with those arguments |
| `FacadeAgreement.WellFormedSummaryNormalises` | backend/index-rest.js:29-34 | a complete upstream summary body is flattened into exactly its four values, unchanged |
| `FacadeAgreement.WellFormedLoginNormalises` | backend/index-rest.js:50 | a complete upstream login body is renamed into exactly its two values |
| `FacadeAgreement.ExtraSummaryFieldsIgnored` | backend/index-rest.js:29-34 | upstream fields other than `user_name`, `portfolio_amount` and `return` do not change the result |
| `FacadeAgreement.MissingTopLevelFieldsPassThrough` | backend/index-graph.js:55-60 | a body with `return` but without `user_name` and `portfolio_amount` is answered, by the REST route with a 200 and by the resolver, with `name` and `amount` `undefined` and `gains`/`percentage` copied: a partial summary (the REST copy is backend/index-rest.js:29-35) |
| `Decimal.NatToString` | public/background.js:28 | the decimal text of a count is non-empty, all digits, and starts with `0` only for zero |
| `Decimal.IntToString` | backend/index-graph.js:50 | the text of an integer has a minus sign exactly for negatives, followed by digits; the digits start with `0` only for zero, whose text is `"0"` |
| `Decimal.NatRoundTrip` | public/background.js:28 | the digits of `n` denote `n` |
| `Decimal.IntRoundTrip` | public/background.js:28 | parsing the text of an integer gives the integer back |
| `Decimal.IntToStringInjective` | backend/index-graph.js:50 | different ids give different path texts |
| `Background.MillisecondsToDays` | public/background.js:2-5 | the result `d` is the whole days in `time` rounded down: `d * 86400000 <= time < (d + 1) * 86400000` |
| `Background.DiffDates` | public/background.js:22 | the difference is non-negative and is `now - badgeDate` or its negation |
| `Background.NewDay` | public/background.js:22-23 | the stored count less the new one is the whole days in the absolute difference of the dates, rounded down (`k * 86400000 <= diff < (k + 1) * 86400000`); so the new count never exceeds the stored one, and equals it on the stored date |
| `Background.Step` | public/background.js:21-31 | without an update (no count, no browser-action API, the date not earlier than today, or a negative new count) nothing changes; an update stores today, the count less the elapsed whole days (between 0 and the old count), and as badge text the decimal text of the new count, which is all digits and parses back to it |
| `Background.DiffDatesSymmetric` | public/background.js:22 | the absolute difference is symmetric in its two dates |
| `Background.WholeDaysBetweenMidnights` | public/background.js:22-23 | between dates `k` whole days apart exactly `abs(k)` days are counted |
| `Background.StepIdempotent` | public/background.js:27-29 | a second run on the same day writes nothing |
| `Background.UpdateDecrements` | public/background.js:22-27 | when the dates are midnights, an update takes at least one day off the count |
| `Background.DailyRunsCompose` | public/background.js:22-30 | a run on day `d1` then one on a later day `d2` leaves the same state as a single run on `d2`, whenever that single run writes |
| `Background.BadgeStore.constructor` | public/background.js:16-21 | the store starts with the given `badgeDate`/`badgeDay` and no badge text written |
| `Background.BadgeStore.Run` | public/background.js:16-31 | one run leaves the keys and badge exactly as `Step` says for the old state, today and the API's presence |

## Left out

- Express wiring: `helmet`, `cors`, the body parsers, `app.listen` and the five-minute `apicache` response
  cache are library middleware; their code is not part of this model.
- The HTTP client: the base origin both backends bind it to, the network calls, the joining of that
  origin with the relative paths, the client's default headers and its JSON encoding of request bodies.
  Requests carry the relative path; replies are inputs.
- `res.send` serialises the body as JSON, which drops properties holding `undefined`; the model stops at
  the object handed to `res.send`.
- The GraphQL server: bootstrapping, argument parsing, and the library's check of a resolver's result
  against the schema's non-null types. A `Summary` holding `undefined` is rejected by that library, not by
  the code modelled here.
- Mapping errors to HTTP status codes: the code only calls `next(e)`, so there is no mapping to model.
- `JsValues.ReadProperty`: properties inherited from prototypes (`length`, `constructor`, ...) are not
  modelled; none of the keys the mappings read is one.
- `JsValues.Number`: numbers are kept as their 64-bit pattern and only copied; no floating-point arithmetic
  is modelled, because the mappings do none.
- `Decimal.IntToString`: JavaScript renders numbers of magnitude 10^21 or more in exponent notation; the
  model always writes plain digits.
- Date handling in the background script: `new Date(...)`, local time zones, daylight saving and
  `setHours`/`setMinutes`/`setSeconds`. Timestamps are integers already truncated to midnight; the
  milliseconds the script does not reset are taken as zero.
- Daylight saving: across a change to summer time two local midnights are 23 hours apart, so the script
  counts 0 days and moves `badgeDate` forward without lowering the count. `Background.UpdateDecrements` and
  `Background.DailyRunsCompose` therefore hold only under their precondition that the dates are a whole
  number of 24-hour days apart, which such a pair of midnights is not.
- `Background.MillisecondsToDays`: the script divides in floating point before `Math.floor`; the model
  divides exactly.
- Reading local storage: the parsing of `badgeDate` and the coercion of the `badgeDay` string to a number.
  An absent or unparsable date is `None` (a NaN date, for which `badgeDate < now` is false); an absent,
  empty or non-numeric count is `None`. Both lead to no write, as in the script.
- A missing `chrome` global (which throws in the script) and a missing `chrome.browserAction` are both the
  `hasBrowserAction == false` case: nothing is written.
- src/index.js is not part of this model: it is UI glue (notifications, Elm ports, the `store` library,
  service-worker registration). Its `setBadge` writes the `badgeDate`/`badgeDay` the background script
  reads; here those are the initial state given to `BadgeStore`'s constructor.
