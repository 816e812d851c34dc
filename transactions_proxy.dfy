/** The `POST /get-transactions` handler of the Monarch proxy: a fixed ladder of
    checks on the request (proxy API key, `Token` authorization header,
    `filters` in the body), the construction of the one outbound GraphQL
    request, and the mapping of the upstream outcome to the HTTP response.

    The handler is modelled as pure functions. The configured secret
    (`PROXY_API_KEY`, read once at start-up) is a parameter; the outcome of
    the upstream call, which the source obtains over the network, is a
    parameter too; the response is returned as a value instead of being
    written to the response object. */
module TransactionsProxy {
  import opened JsValues
  import opened JsStrings

  const GraphQLUrl := "https://api.monarch.com/graphql"
  /** The GraphQL operation the handler sends; the text of the document is not modelled. */
  const OperationName := "Web_GetTransactionsPage"
  /** The prefix the `authorization` header must carry, trailing space included. */
  const TokenPrefix := "Token "

  const ApiKeyError := "Unauthorized: Invalid or missing API Key."
  const TokenError := "Authorization header with a Token is required."
  const FiltersError := "Missing \"filters\" in request body."
  const InternalError := "An internal server error occurred."

  /** What the handler reads from an incoming request: the `x-api-key` and
      `authorization` headers (absent or a string) and `req.body.filters`
      (`Undefined` when the body has no such key). */
  datatype Request = Request(apiKey: Option<string>, authorization: Option<string>, filters: JsValue)

  /** The request the GraphQL client is asked to send: endpoint, headers in
      the order the client is configured with them, operation, variables. */
  datatype OutboundRequest = OutboundRequest(
    url: string,
    headers: seq<(string, string)>,
    operation: string,
    variables: JsValue)

  /** Where the validation ladder ends: an early rejection with its status
      and error message, or the outbound request to dispatch. */
  datatype Decision = Reject(status: nat, error: string) | Dispatch(call: OutboundRequest)

  /** How the awaited `client.request` settles: the decoded data, or a
      thrown error with its `message`. */
  datatype UpstreamResult = Data(value: JsValue) | Failed(message: string)

  datatype Response = Response(status: nat, body: JsValue)

  /** One request handled: the response sent and the outbound calls made, in order. */
  datatype Exchange = Exchange(response: Response, calls: seq<OutboundRequest>)

  /** The proxy key check passes exactly when a non-empty secret is
      configured and the `x-api-key` header is that same string. */
  predicate ApiKeyAccepted(secret: Option<string>, apiKey: Option<string>)
  {
    secret.Some? && secret.value != "" && apiKey == secret
  }

  /** The `authorization` header is present and begins with `Token `. */
  predicate BearsToken(authorization: Option<string>)
  {
    authorization.Some? && StartsWith(authorization.value, TokenPrefix)
  }

  /** The word that follows `Token `: everything up to the next space, or up
      to the end of the header when no further space comes. */
  function WordAfterPrefix(h: string): string
    requires StartsWith(h, TokenPrefix)
  {
    var rest := h[|TokenPrefix|..];
    rest[..IndexOf(rest, ' ')]
  }

  /** `authHeader.split(' ')[1]`: the piece between the first and the second
      space. The header's first space is the one ending `Token `, so this is
      the word after the prefix; it never contains a space, and it is the
      whole remainder of the header only when that remainder has no space. */
  function ExtractToken(h: string): (token: string)
    requires StartsWith(h, TokenPrefix)
    ensures token == WordAfterPrefix(h)
    ensures ' ' !in token
    ensures StartsWith(h, TokenPrefix + token)
    ensures token == h[|TokenPrefix|..] <==> ' ' !in h[|TokenPrefix|..]
  {
    var rest := h[|TokenPrefix|..];
    assert h == "Token" + [' '] + rest;
    SplitAfter("Token", ' ', rest);
    SplitHead(rest, ' ');
    assert (TokenPrefix + Split(h, ' ')[1]) == h[..|TokenPrefix| + IndexOf(rest, ' ')];
    Split(h, ' ')[1]
  }

  /** The headers the GraphQL client is constructed with. The `Token `
      written here is the template literal of the forwarded header, a
      literal of its own in the source, apart from the prefix the check
      tests (`TokenPrefix`); lemmas about the forwarded header use the
      literal, lemmas about the check use the constant. */
  function ClientHeaders(token: string): seq<(string, string)>
  {
    [("Authorization", "Token " + token),
     ("Content-Type", "application/json"),
     ("Client-Platform", "web")]
  }

  /** The validation ladder, in the source's order: proxy key, then
      authorization header, then filters. Each failing check ends the
      ladder, so an earlier check's message wins over a later one's. */
  function Validate(secret: Option<string>, req: Request): (d: Decision)
    ensures !Truthy(AsJs(secret)) ==> d == Reject(401, ApiKeyError)
    ensures d == Reject(401, ApiKeyError) <==> !ApiKeyAccepted(secret, req.apiKey)
    ensures d == Reject(401, TokenError) <==>
              ApiKeyAccepted(secret, req.apiKey) && !BearsToken(req.authorization)
    ensures d == Reject(400, FiltersError) <==>
              ApiKeyAccepted(secret, req.apiKey) && BearsToken(req.authorization) && !Truthy(req.filters)
    ensures d.Dispatch? <==>
              ApiKeyAccepted(secret, req.apiKey) && BearsToken(req.authorization) && Truthy(req.filters)
    ensures d.Dispatch? ==>
              d.call == OutboundRequest(GraphQLUrl, ClientHeaders(WordAfterPrefix(req.authorization.value)),
                                        OperationName, Obj([("filters", req.filters)]))
  {
    if !Truthy(AsJs(secret)) || req.apiKey != secret then
      Reject(401, ApiKeyError)
    else if !Truthy(AsJs(req.authorization)) || !StartsWith(req.authorization.value, TokenPrefix) then
      Reject(401, TokenError)
    else
      var token := ExtractToken(req.authorization.value);
      if !Truthy(req.filters) then
        Reject(400, FiltersError)
      else
        Dispatch(OutboundRequest(GraphQLUrl, ClientHeaders(token), OperationName, Obj([("filters", req.filters)])))
  }

  /** The JSON body of every error response the handler produces. */
  function ErrorBody(error: string): JsValue
  {
    Obj([("error", Str(error))])
  }

  /** The response for a settled upstream call: the data verbatim with 200,
      or 500 with the fixed error and the thrown message as details. */
  function Relay(result: UpstreamResult): (resp: Response)
    ensures resp.status == 200 <==> result.Data?
    ensures resp.status == 500 <==> result.Failed?
    ensures result.Data? ==> resp.body == result.value
    ensures result.Failed? ==>
              resp.body == Obj([("error", Str(InternalError)), ("details", Str(result.message))])
  {
    match result
    case Data(v) => Response(200, v)
    case Failed(m) => Response(500, Obj([("error", Str(InternalError)), ("details", Str(m))]))
  }

  /** The whole handler for one request. `upstream` is how the outbound call
      would settle; it is consulted only when the call is made. */
  function Handle(secret: Option<string>, req: Request, upstream: UpstreamResult): (ex: Exchange)
    ensures |ex.calls| <= 1
    ensures ex.response.status in {200, 400, 401, 500}
    ensures ex.calls == [] <==> ex.response.status == 400 || ex.response.status == 401
    ensures var d := Validate(secret, req);
            d.Reject? ==> ex == Exchange(Response(d.status, ErrorBody(d.error)), [])
    ensures var d := Validate(secret, req);
            d.Dispatch? ==>
              && ex.calls == [d.call]
              && ex.calls[0].variables == Obj([("filters", req.filters)])
              && ex.response == Relay(upstream)
  {
    match Validate(secret, req)
    case Reject(status, error) => Exchange(Response(status, ErrorBody(error)), [])
    case Dispatch(call) => Exchange(Relay(upstream), [call])
  }

  /** A rejected request makes no outbound call, so how the upstream would
      have answered cannot change its response. */
  lemma RejectionIgnoresUpstream(secret: Option<string>, req: Request, u1: UpstreamResult, u2: UpstreamResult)
    requires Validate(secret, req).Reject?
    ensures Handle(secret, req, u1) == Handle(secret, req, u2)
    ensures Handle(secret, req, u1).calls == []
  {
  }

  /** The relay loses nothing: different upstream outcomes give different
      responses, so the caller can tell the upstream data from a failure. */
  lemma RelayInjective(a: UpstreamResult, b: UpstreamResult)
    ensures Relay(a) == Relay(b) ==> a == b
  {
  }

  /** The forwarded `Authorization` value is a prefix of the received header,
      and equals it exactly when the received header has a single space. */
  lemma ForwardedAuthorizationIsPrefix(h: string)
    requires StartsWith(h, TokenPrefix)
    ensures StartsWith(h, "Token " + ExtractToken(h))
    ensures "Token " + ExtractToken(h) == h <==> multiset(h)[' '] == 1
  {
    var rest := h[|TokenPrefix|..];
    assert h == TokenPrefix + rest;
    assert multiset(h) == multiset(TokenPrefix) + multiset(rest);
    assert multiset(TokenPrefix)[' '] == 1;
    assert ' ' !in rest <==> multiset(rest)[' '] == 0;
    if "Token " + ExtractToken(h) == h {
      assert ExtractToken(h) == rest;
    }
  }

  /** The token is the piece between the first and the second space: a
      word `w` after the prefix is the token, whether or not a second space
      and more text `v` follow. With `w` empty: `Token ` and `Token  x` give
      the empty token; otherwise `Token abc` gives `abc` and `Token a b`
      gives `a`. */
  lemma TokenIsSecondPiece(w: string, v: string)
    requires ' ' !in w
    ensures StartsWith(TokenPrefix + w, TokenPrefix) && ExtractToken(TokenPrefix + w) == w
    ensures StartsWith(TokenPrefix + (w + " " + v), TokenPrefix) && ExtractToken(TokenPrefix + (w + " " + v)) == w
  {
    TokenExample(w, |w|);
    assert (w + " " + v)[..|w|] == w;
    TokenExample(w + " " + v, |w|);
  }

  /** One example: the header is the prefix followed by `rest`, whose first
      space (or end) is at `i`. */
  lemma TokenExample(rest: string, i: nat)
    requires i <= |rest| && ' ' !in rest[..i] && (i < |rest| ==> rest[i] == ' ')
    ensures StartsWith(TokenPrefix + rest, TokenPrefix)
    ensures ExtractToken(TokenPrefix + rest) == rest[..i]
  {
    var h := TokenPrefix + rest;
    assert h[..|TokenPrefix|] == TokenPrefix && h[|TokenPrefix|..] == rest;
    IndexOfUnique(rest, ' ', i);
  }

  /** A request without an `x-api-key` header is refused at the first check,
      whatever it carries otherwise and however the proxy is configured. */
  lemma MissingApiKeyRejected(secret: Option<string>, authorization: Option<string>, filters: JsValue, upstream: UpstreamResult)
    ensures Handle(secret, Request(None, authorization, filters), upstream)
              == Exchange(Response(401, ErrorBody(ApiKeyError)), [])
  {
  }

  /** A request with the right key, a `Token` header holding one word and
      truthy filters makes one call that carries that same token and those
      same filters, and gets the upstream outcome relayed. */
  lemma WellFormedRequestForwarded(key: string, token: string, filters: JsValue, upstream: UpstreamResult)
    requires key != "" && ' ' !in token && Truthy(filters)
    ensures var ex := Handle(Some(key), Request(Some(key), Some(TokenPrefix + token), filters), upstream);
            && ex.response == Relay(upstream)
            && |ex.calls| == 1
            && ex.calls[0].headers[0] == ("Authorization", "Token " + token)
            && ex.calls[0].variables == Obj([("filters", filters)])
  {
    TokenExample(token, |token|);
  }

  /** The upstream data comes back verbatim with status 200. */
  lemma SuccessScenario(key: string, data: JsValue)
    requires key != ""
    ensures var filters := Obj([("startDate", Str("2024-01-01"))]);
            var ex := Handle(Some(key), Request(Some(key), Some(TokenPrefix + "my-secret-token"), filters), Data(data));
            && ex.response == Response(200, data)
            && ex.calls[0].headers[0] == ("Authorization", "Token " + "my-secret-token")
  {
    WellFormedRequestForwarded(key, "my-secret-token", Obj([("startDate", Str("2024-01-01"))]), Data(data));
  }

  /** An upstream failure is reported as 500 with its message as details. */
  lemma FailureScenario(key: string, filters: JsValue)
    requires key != "" && Truthy(filters)
    ensures Handle(Some(key), Request(Some(key), Some(TokenPrefix + "fake-token"), filters), Failed("Monarch API is down")).response
              == Response(500, Obj([("error", Str(InternalError)), ("details", Str("Monarch API is down"))]))
  {
  }
}
