/** The web front end's protocol client (frontend/src/client/client.ts):
    the agent-card resolver, the JSON-RPC calls, the two streaming calls,
    the card cache and the capability check. `fetch` is an injected
    function from request to outcome, as in the source; `JSON.parse` is a
    parameter. Request ids are parameters. */
module Client {
  import opened Results
  import opened Text
  import opened JsonValues
  import opened ClientErrors
  import opened EventStream

  const DefaultCardPath: string := "/.well-known/agent.json"
  const NetworkErrorPrefix: string := "Network communication error: "
  const NoBodyMessage: string := "No response body received"
  const MissingUrlMessage: string := "Must provide either agentCard or url"
  const JsonRpcVersion: string := "2.0"

  /** A response body: its decoded chunks and how reading ends. */
  datatype Body = Body(chunks: seq<string>, end: ReadEnd)

  datatype Response = Response(status: int, statusText: string, body: Option<Body>)

  /** `response.ok`. */
  predicate Ok(r: Response)
  {
    200 <= r.status <= 299
  }

  datatype RpcRequest = RpcRequest(jsonrpc: string, id: string, methodName: string, params: Json)

  /** What the client asks `fetch` for: the card by GET, or a JSON-RPC
      request by POST with the `Accept` type of the call. */
  datatype HttpRequest = GetRequest(url: string) | PostRequest(url: string, payload: RpcRequest, accept: string)

  datatype FetchOutcome = Rejected(thrown: Thrown) | Responded(response: Response)

  /** `response.json()`: the body text parsed; a failed read rejects with
      the read's message. */
  function ReadJson(r: Response, parse: string -> Result<Json, string>): Result<Json, string>
  {
    match r.body
    case None => parse("")
    case Some(b) => if b.end.ReadFailed? then Failure(ThrownMessage(b.end.thrown)) else parse(Concat(b.chunks))
  }

  /** The request-and-parse shape of `getAgentCard` and `sendRequest`,
      with their `try`/`catch`. */
  function FetchJson(request: HttpRequest, fetch: HttpRequest -> FetchOutcome, parse: string -> Result<Json, string>)
    : (r: Result<Json, Thrown>)
    ensures r.Failure? ==> r.error.ClientThrown?
    ensures fetch(request).Rejected? ==> r == Failure(Normalize(fetch(request).thrown, NetworkErrorPrefix))
    ensures fetch(request).Responded? && !Ok(fetch(request).response) ==>
              r == Failure(ClientThrown(NewHTTPError(fetch(request).response.status, fetch(request).response.statusText)))
    ensures fetch(request).Responded? && Ok(fetch(request).response) ==>
              match ReadJson(fetch(request).response, parse)
              case Success(v) => r == Success(v)
              case Failure(m) => r == Failure(ClientThrown(NewJSONError(m)))
  {
    match fetch(request)
    case Rejected(t) => Failure(Normalize(t, NetworkErrorPrefix))
    case Responded(resp) =>
      if !Ok(resp) then Failure(Normalize(ClientThrown(NewHTTPError(resp.status, resp.statusText)), NetworkErrorPrefix))
      else match ReadJson(resp, parse)
        case Success(v) => Success(v)
        case Failure(m) => Failure(Normalize(ClientThrown(NewJSONError(m)), NetworkErrorPrefix))
  }

  // ---------------------------------------------------------------------
  // Card resolver

  /** One trailing `/` removed. */
  function StripTrailingSlash(s: string): (r: string)
    ensures |s| > 0 && s[|s| - 1] == '/' ==> r == s[..|s| - 1]
    ensures !(|s| > 0 && s[|s| - 1] == '/') ==> r == s
  {
    if |s| > 0 && s[|s| - 1] == '/' then s[..|s| - 1] else s
  }

  /** One leading `/` removed. */
  function StripLeadingSlash(s: string): (r: string)
    ensures |s| > 0 && s[0] == '/' ==> r == s[1..]
    ensures !(|s| > 0 && s[0] == '/') ==> r == s
  {
    if |s| > 0 && s[0] == '/' then s[1..] else s
  }

  /** The card's address: base and path joined by exactly the one `/` the
      resolver inserts. */
  function CardAddress(baseUrl: string, agentCardPath: string): string
  {
    StripTrailingSlash(baseUrl) + "/" + StripLeadingSlash(agentCardPath)
  }

  /** With at most one slash on either side of the join, the address has a
      single slash there, and base and path survive around it. */
  lemma CardAddressSingleSlash(baseUrl: string, agentCardPath: string)
    requires !(|baseUrl| >= 2 && baseUrl[|baseUrl| - 1] == '/' && baseUrl[|baseUrl| - 2] == '/')
    requires !(|agentCardPath| >= 2 && agentCardPath[0] == '/' && agentCardPath[1] == '/')
    ensures var a := CardAddress(baseUrl, agentCardPath);
            var n := |StripTrailingSlash(baseUrl)|;
            n < |a| && a[n] == '/'
            && (n > 0 ==> a[n - 1] != '/')
            && (n + 1 < |a| ==> a[n + 1] != '/')
            && a[..n] + StripLeadingSlash(agentCardPath) == StripTrailingSlash(baseUrl) + a[n + 1..]
  {
    var b := StripTrailingSlash(baseUrl);
    var p := StripLeadingSlash(agentCardPath);
    var a := CardAddress(baseUrl, agentCardPath);
    assert a == b + "/" + p;
    assert a[..|b|] == b && a[|b| + 1..] == p;
    if |b| > 0 && |b| < |baseUrl| {
      assert b[|b| - 1] == baseUrl[|baseUrl| - 2];
    }
    if |p| > 0 && |p| < |agentCardPath| {
      assert p[0] == agentCardPath[1];
    }
  }

  class A2ACardResolver {
    const baseUrl: string
    const agentCardPath: string
    const fetchImpl: HttpRequest -> FetchOutcome

    constructor(baseUrl: string, agentCardPath: string, fetchImpl: HttpRequest -> FetchOutcome)
      ensures this.baseUrl == StripTrailingSlash(baseUrl)
      ensures this.agentCardPath == StripLeadingSlash(agentCardPath)
      ensures this.fetchImpl == fetchImpl
    {
      this.baseUrl := if |baseUrl| > 0 && baseUrl[|baseUrl| - 1] == '/' then baseUrl[..|baseUrl| - 1] else baseUrl;
      this.agentCardPath := if |agentCardPath| > 0 && agentCardPath[0] == '/' then agentCardPath[1..] else agentCardPath;
      this.fetchImpl := fetchImpl;
    }

    /** `getAgentCard`: GET the card; a non-ok status is an HTTP error with
        the response's status, a body that does not parse a JSON error, a
        client error is rethrown, anything else an HTTP 503 network error. */
    function GetAgentCard(parse: string -> Result<Json, string>): (r: Result<Json, Thrown>)
      ensures r == FetchJson(GetRequest(baseUrl + "/" + agentCardPath), fetchImpl, parse)
      ensures r.Failure? ==> r.error.ClientThrown?
    {
      FetchJson(GetRequest(baseUrl + "/" + agentCardPath), fetchImpl, parse)
    }
  }

  // ---------------------------------------------------------------------
  // Client

  /** The card fields the client constructor reads. */
  datatype AgentCard = AgentCard(url: string)

  /** The constructor's choice of endpoint: the card's url, else a
      non-empty `url` option, else an error. */
  function SelectUrl(agentCard: Option<AgentCard>, url: Option<string>): (r: Result<string, Thrown>)
    ensures agentCard.Some? ==> r == Success(agentCard.value.url)
    ensures agentCard.None? && url.Some? && url.value != "" ==> r == Success(url.value)
    ensures r.Failure? <==> agentCard.None? && (url.None? || url.value == "")
    ensures r.Failure? ==> r.error == OtherThrown(MissingUrlMessage)
  {
    if agentCard.Some? then Success(agentCard.value.url)
    else if url.Some? && url.value != "" then Success(url.value)
    else Failure(OtherThrown(MissingUrlMessage))
  }

  /** The non-streaming JSON-RPC methods. */
  datatype RpcMethod = MessageSend | TasksGet | TasksCancel | PushNotificationSet | PushNotificationGet

  /** The streaming JSON-RPC methods. */
  datatype StreamMethod = MessageStream | TasksResubscribe

  function RpcMethodName(m: RpcMethod): string
  {
    match m
    case MessageSend => "message/send"
    case TasksGet => "tasks/get"
    case TasksCancel => "tasks/cancel"
    case PushNotificationSet => "tasks/pushNotification/set"
    case PushNotificationGet => "tasks/pushNotification/get"
  }

  function StreamMethodName(m: StreamMethod): string
  {
    match m
    case MessageStream => "message/stream"
    case TasksResubscribe => "tasks/resubscribe"
  }

  /** Every call names a different method, so the server can tell them apart. */
  lemma MethodNamesDistinct()
    ensures forall a, b :: RpcMethodName(a) == RpcMethodName(b) ==> a == b
    ensures forall a, b :: StreamMethodName(a) == StreamMethodName(b) ==> a == b
    ensures forall a, b :: RpcMethodName(a) != StreamMethodName(b)
  {
  }

  /** The `{ message }` params of the two message calls. */
  function MessageParams(message: Json): Json
  {
    JObject(map["message" := message])
  }

  /** `'result' in response && response.result ? response.result : null`,
      outside any `try`: the TypeError reaches the caller as it is. */
  function ExtractResult(response: Json): (r: Result<Option<Json>, Thrown>)
    ensures r.Failure? <==> ResultMember(response).Failure?
    ensures r.Failure? ==> r.error == OtherThrown(InOperatorError)
    ensures r.Success? ==> r.value == ResultMember(response).value
  {
    match ResultMember(response)
    case Failure(m) => Failure(OtherThrown(m))
    case Success(o) => Success(o)
  }

  /** What a streaming call ends with before its reading loop starts. */
  function StreamPreamble(outcome: FetchOutcome): (r: Result<Body, Thrown>)
    ensures outcome.Rejected? ==> r == Failure(outcome.thrown)
    ensures outcome.Responded? && !Ok(outcome.response) ==>
              r == Failure(ClientThrown(NewHTTPError(outcome.response.status, outcome.response.statusText)))
    ensures outcome.Responded? && Ok(outcome.response) ==>
              (r.Success? <==> outcome.response.body.Some?)
              && (r.Success? ==> r.value == outcome.response.body.value)
              && (r.Failure? ==> r.error == ClientThrown(NewHTTPError(503, NoBodyMessage)))
  {
    match outcome
    case Rejected(t) => Failure(t)
    case Responded(resp) =>
      if !Ok(resp) then Failure(ClientThrown(NewHTTPError(resp.status, resp.statusText)))
      else if resp.body.None? then Failure(ClientThrown(NewHTTPError(503, NoBodyMessage)))
      else Success(resp.body.value)
  }

  /** A streaming call ends with a client error unless `fetch` itself
      rejected with something else: that one propagates unwrapped. */
  lemma StreamFailuresAreClientErrors(outcome: FetchOutcome, parse: string -> Result<Json, string>)
    ensures var pre := StreamPreamble(outcome);
            var failure := if pre.Failure? then Some(pre.error) else StreamSpec(pre.value.chunks, pre.value.end, parse).failure;
            failure.Some? && !failure.value.ClientThrown? ==> outcome.Rejected? && failure.value == outcome.thrown
  {
  }

  /** The capability flags of the card. */
  datatype Capability = Streaming | PushNotifications

  function CapabilityName(c: Capability): string
  {
    match c
    case Streaming => "streaming"
    case PushNotifications => "pushNotifications"
  }

  /** `!!card.capabilities?.<flag>`; on a null card the property access
      throws, which the caller's `catch` also turns into false. */
  predicate CapabilityFlag(card: Json, c: Capability)
  {
    DoubleNot(OptionalProperty(Property(card, "capabilities"), CapabilityName(c)))
  }

  /** A flag holds exactly when the card's capabilities object carries a
      truthy value under the flag's name. */
  lemma CapabilityFlagMeaning(card: Json, c: Capability)
    ensures CapabilityFlag(card, c) <==>
              card.JObject? && "capabilities" in card.members && card.members["capabilities"].JObject?
              && CapabilityName(c) in card.members["capabilities"].members
              && Truthy(card.members["capabilities"].members[CapabilityName(c)])
  {
  }

  class A2AClient {
    const url: string
    const fetchImpl: HttpRequest -> FetchOutcome
    var cachedAgentCard: Option<Json>

    constructor(url: string, fetchImpl: HttpRequest -> FetchOutcome)
      ensures this.url == url && this.fetchImpl == fetchImpl && cachedAgentCard == None
    {
      this.url := url;
      this.fetchImpl := fetchImpl;
      cachedAgentCard := None;
    }

    /** The TypeScript constructor, which throws when neither a card nor a
        url is given. */
    static method Create(agentCard: Option<AgentCard>, url: Option<string>, fetchImpl: HttpRequest -> FetchOutcome)
      returns (r: Result<A2AClient, Thrown>)
      ensures SelectUrl(agentCard, url).Failure? ==> r == Failure(SelectUrl(agentCard, url).error)
      ensures SelectUrl(agentCard, url).Success? ==>
                r.Success? && fresh(r.value) && r.value.url == SelectUrl(agentCard, url).value
                && r.value.fetchImpl == fetchImpl && r.value.cachedAgentCard == None
    {
      var chosen: string;
      if agentCard.Some? {
        chosen := agentCard.value.url;
      } else if url.Some? && url.value != "" {
        chosen := url.value;
      } else {
        return Failure(OtherThrown(MissingUrlMessage));
      }
      var client := new A2AClient(chosen, fetchImpl);
      r := Success(client);
    }

    /** The JSON-RPC request of a call. */
    function NewRequest(methodName: string, id: string, params: Json): (q: RpcRequest)
      ensures q.jsonrpc == JsonRpcVersion && q.methodName == methodName && q.id == id && q.params == params
    {
      RpcRequest(JsonRpcVersion, id, methodName, params)
    }

    /** `sendRequest` followed by the result extraction of the public
        method (`sendMessage` with `MessageParams`, `getTask`, `cancelTask`,
        `setTaskPushNotification`, `getTaskPushNotification`): the truthy
        `result`, none, or the error that ended the call. */
    function Rpc(call: RpcMethod, id: string, params: Json, parse: string -> Result<Json, string>)
      : (r: Result<Option<Json>, Thrown>)
      ensures var sent := FetchJson(PostRequest(url, NewRequest(RpcMethodName(call), id, params), "application/json"),
                                    fetchImpl, parse);
              (sent.Failure? ==> r == Failure(sent.error))
              && (sent.Success? ==> r == ExtractResult(sent.value))
      ensures r.Failure? && !r.error.ClientThrown? ==> r.error == OtherThrown(InOperatorError)
    {
      var sent := FetchJson(PostRequest(url, NewRequest(RpcMethodName(call), id, params), "application/json"),
                            fetchImpl, parse);
      if sent.Failure? then Failure(sent.error) else ExtractResult(sent.value)
    }

    /** `sendMessageStreaming` and `resubscribeTask`: the values a consumer
        receives and the error the generator ends with. */
    method Stream(call: StreamMethod, id: string, params: Json, parse: string -> Result<Json, string>)
      returns (values: seq<Json>, failure: Option<Thrown>)
      ensures var outcome := fetchImpl(PostRequest(url, NewRequest(StreamMethodName(call), id, params), "text/event-stream"));
              var pre := StreamPreamble(outcome);
              (pre.Failure? ==> values == [] && failure == Some(pre.error))
              && (pre.Success? ==> StreamResult(values, failure) == StreamSpec(pre.value.chunks, pre.value.end, parse))
    {
      var request := NewRequest(StreamMethodName(call), id, params);
      var outcome := fetchImpl(PostRequest(url, request, "text/event-stream"));
      if outcome.Rejected? {
        return [], Some(outcome.thrown);
      }
      var response := outcome.response;
      if !Ok(response) {
        return [], Some(ClientThrown(NewHTTPError(response.status, response.statusText)));
      }
      if response.body.None? {
        return [], Some(ClientThrown(NewHTTPError(503, NoBodyMessage)));
      }
      values, failure := ReadEventStream(response.body.value.chunks, response.body.value.end, parse);
    }

    /** The card `agentCard()` returns: the cached one when it is truthy,
        otherwise a fresh fetch from the default path under the client's url. */
    function CurrentCard(parse: string -> Result<Json, string>): (r: Result<Json, Thrown>)
      reads this
      ensures cachedAgentCard.Some? && Truthy(cachedAgentCard.value) ==> r == Success(cachedAgentCard.value)
      ensures !(cachedAgentCard.Some? && Truthy(cachedAgentCard.value)) ==>
                r == FetchJson(GetRequest(CardAddress(url, DefaultCardPath)), fetchImpl, parse)
      ensures r.Failure? ==> r.error.ClientThrown?
    {
      if cachedAgentCard.Some? && Truthy(cachedAgentCard.value) then Success(cachedAgentCard.value)
      else FetchJson(GetRequest(CardAddress(url, DefaultCardPath)), fetchImpl, parse)
    }

    /** `agentCard()`: the cache is set only by a successful fetch. */
    method AgentCard(parse: string -> Result<Json, string>) returns (r: Result<Json, Thrown>)
      modifies this
      ensures r == old(CurrentCard(parse))
      ensures cachedAgentCard == if r.Success? then Some(r.value) else old(cachedAgentCard)
    {
      if cachedAgentCard.Some? && Truthy(cachedAgentCard.value) {
        return Success(cachedAgentCard.value);
      }
      var resolver := new A2ACardResolver(url, DefaultCardPath, fetchImpl);
      r := resolver.GetAgentCard(parse);
      if r.Success? {
        cachedAgentCard := Some(r.value);
      }
    }

    /** `supports`: the capability flag of the card, false when the card
        cannot be had. */
    method Supports(capability: Capability, parse: string -> Result<Json, string>) returns (b: bool)
      modifies this
      ensures b <==> old(CurrentCard(parse)).Success? && CapabilityFlag(old(CurrentCard(parse)).value, capability)
      ensures cachedAgentCard == if old(CurrentCard(parse)).Success? then Some(old(CurrentCard(parse)).value)
                                 else old(cachedAgentCard)
    {
      var card := AgentCard(parse);
      if card.Failure? {
        return false;
      }
      b := CapabilityFlag(card.value, capability);
    }
  }

  /** Once a truthy card is cached, `agentCard()` answers from the cache
      whatever `fetch` would now do. */
  lemma CachedCardIsStable(c: A2AClient, card: Json, parse: string -> Result<Json, string>)
    requires c.cachedAgentCard == Some(card) && Truthy(card)
    ensures c.CurrentCard(parse) == Success(card)
  {
  }
}
