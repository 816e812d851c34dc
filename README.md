# Monarch transactions proxy: request validation and relay

This project models the `POST /get-transactions` handler of the
gsheets-monarch-connector proxy (`proxy_server.js`). The handler checks the
caller's proxy API key, requires a `Token` authorization header and a
`filters` value in the JSON body, forwards one GraphQL request to the Monarch
API with the caller's token and filters, and relays the answer: the upstream
data with status 200, or status 500 with a fixed error and the failure's
message.

The handler is modelled as pure functions in three modules:

- `JsValues` (`js_values.dfy`): JavaScript values as they come out of a JSON
  body, `undefined` versus present, truthiness (what `!x` tests) and
  `startsWith`.
- `JsStrings` (`js_strings.dfy`): `split` on a one-character separator, its
  inverse `join`, and the lemmas that pin down what `split(' ')[1]` returns.
- `TransactionsProxy` (`transactions_proxy.dfy`): the validation ladder
  (`Validate`), the token extraction (`ExtractToken`), the upstream relay
  (`Relay`) and the whole handler for one request (`Handle`), which returns
  the response together with the list of outbound calls it made.

The configured secret `PROXY_API_KEY` is a parameter of `Validate` and
`Handle`: it is read once at start-up and never changes. How the outbound
GraphQL call settles is a parameter too (`UpstreamResult`), since the source
obtains it over the network.

Two behaviours of the code are easy to misread:

- The token is the piece between the first and the second space of the
  header (`split(' ')[1]`), not everything after `Token `:
  `Token a b` yields `a`, and `Token  x` yields the empty token.
- The filters check is JavaScript falsiness: a missing `filters`, `null`,
  `false`, `0` and `""` are refused alike, while `{}`, `[]` and any other
  number (including `Infinity`) pass.
- The repository's tests never send `x-api-key`; against the code every one
  of their requests gets the API-key 401 (`MissingApiKeyRejected`), not the
  responses they expect. The tests also mock a client library that the
  handler does not use. The code is taken as the ground truth.

## Model

| member | source | states |
|---|---|---|
| JsValues.FalsyValues | proxy_server.js:31 | The values `!x` accepts are exactly `undefined`, `null`, `false`, `0`, `NaN` and `""`; every array and object, even empty, is truthy. |
| JsValues.FalsyString | proxy_server.js:18 | An optional string (the configured secret, a header) is falsy exactly when it is absent or empty. |
| JsStrings.Split | proxy_server.js:27 | `split(sep)` returns at least one piece, and no piece contains the separator. |
| JsStrings.SplitCount | proxy_server.js:27 | `split(sep)` returns one more piece than the string has separators. |
| JsStrings.JoinSplit | proxy_server.js:27 | Joining the pieces of a split with the separator gives back the original string. |
| JsStrings.SplitJoin | proxy_server.js:27 | Splitting separator-free pieces that were joined gives back those pieces. |
| JsStrings.SplitNoSeparator | proxy_server.js:27 | A string without the separator splits into itself alone. |
| JsStrings.SplitAfter | proxy_server.js:27 | A separator-free prefix followed by the separator becomes the first piece; the rest is split on its own. |
| JsStrings.SplitHead | proxy_server.js:27 | The first piece of a split is the text before the first separator, or the whole string. |
| TransactionsProxy.ExtractToken | proxy_server.js:27 | `split(' ')[1]` of a header starting with `Token ` is the word after the prefix up to the next space: it has no space, the prefix followed by it begins the header, and it is the whole remainder only when the remainder has no space. |
| TransactionsProxy.Validate | proxy_server.js:16-62 | The checks run in order key, header, filters: no (or empty) secret always gives the API-key 401; the API-key 401 comes exactly when the key is not the non-empty secret; the Token 401 exactly when the key passes and the header is absent or lacks the case-sensitive `Token ` prefix (an empty header included); the 400 exactly when both pass and filters are falsy; otherwise a dispatch to the fixed URL with headers `Authorization: Token <word after prefix>`, `Content-Type: application/json`, `Client-Platform: web` and variables exactly `{filters}`. |
| TransactionsProxy.Relay | proxy_server.js:63-70 | Status 200 exactly for upstream data, with that data as body verbatim; status 500 exactly for an upstream failure, with body `{error: "An internal server error occurred.", details: message}`. |
| TransactionsProxy.Handle | proxy_server.js:13-72 | At most one outbound call; status is one of 200, 400, 401, 500; no call is made exactly when the status is 400 or 401, and then the body is `{error: <message of the failed check>}`; a dispatched request makes exactly the validated call, carrying `{filters}`, and its response is the relay of the upstream outcome. |
| TransactionsProxy.RejectionIgnoresUpstream | proxy_server.js:18-34 | A rejected request makes no call, so its response does not depend on how the upstream would answer. |
| TransactionsProxy.RelayInjective | proxy_server.js:63-70 | Different upstream outcomes give different responses. |
| TransactionsProxy.ForwardedAuthorizationIsPrefix | proxy_server.js:27-41 | The forwarded `Authorization` value is a prefix of the received header, and equal to it exactly when the received header contains one space. |
| TransactionsProxy.TokenIsSecondPiece | proxy_server.js:27 | For a space-free word `w`, both `Token w` and `Token w v` (any `v` after a second space) give `w`: `Token abc` gives `abc`, `Token a b` gives `a`, and `Token ` and `Token  x` give the empty token. |
| TransactionsProxy.MissingApiKeyRejected | proxy_server.js:17-20 | A request without `x-api-key` gets the API-key 401 and makes no call, whatever its other headers and body and whatever the configuration. |
| TransactionsProxy.WellFormedRequestForwarded | proxy_server.js:38-66 | With the right key, a one-word token and truthy filters, exactly one call is made, carrying `Token <that token>` and `{filters}` with the same filters value, and the upstream outcome is relayed. |
| TransactionsProxy.SuccessScenario | proxy_server.js:62-66 | Filters `{startDate: "2024-01-01"}` with token `my-secret-token` and upstream data D give status 200 with body D, and the call carries `Token my-secret-token`. |
| TransactionsProxy.FailureScenario | proxy_server.js:68-70 | An upstream failure with message `Monarch API is down` gives 500 with that message as details. |

## Left out

- Express and body-parser setup, routing, the listening port and `server.js`: framework and process plumbing. The model returns a response value instead of calling `res.status().json()`.
- The GraphQL client and its network call: modelled as the `UpstreamResult` parameter. The text of the GraphQL document is not modelled; only its operation name `Web_GetTransactionsPage` is kept.
- Console logging and `toISOString` timestamps: side effects with no bearing on the response.
- Header-name lowercasing, the joining of repeated headers, and a missing or non-JSON request body: behaviour of the framework, not of the handler.
- JavaScript values that a JSON body cannot produce (`BigInt`, functions, symbols) are not part of `JsValue`.
- Concurrency between requests: the handler keeps no state across requests, so each request is modelled on its own; `Handle` of the same request twice gives the same outbound call twice.
- TransactionsProxy.Relay: an `error.message` that is not a string (for example a thrown non-`Error` value) is not modelled; the failure carries a string message.
