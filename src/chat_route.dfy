/**
 * The chat endpoint (app/api/chat/route.ts): behind the rate-limit gate it
 * answers from the cache when the client sent a key and a truthy answer is
 * stored under it, and otherwise asks the model and stores the answer.
 */
module ChatRoute {
  import opened Common
  import opened Json
  import opened KvStore
  import opened RateLimiter
  import opened RedisClient
  import opened OpenAi
  import opened Http
  import opened RateLimitMiddleware

  /** The parsed request body; `cacheKey` is `None` when the client sent none. */
  datatype ChatRequest = ChatRequest(message: string, history: seq<ChatMessage>, cacheKey: Option<string>)

  const SYSTEM_PROMPT := CAREER_ASSISTANT_PROMPT

  /** `if (cacheKey)`: an empty key is falsy. */
  predicate HasKey(body: ChatRequest) { body.cacheKey.Some? && body.cacheKey.value != "" }

  /** The system prompt, the history in order, then the new message from the user. */
  function BuildMessages(history: seq<ChatMessage>, message: string): (msgs: seq<ChatMessage>)
    ensures |msgs| == |history| + 2
    ensures msgs[0] == ChatMessage("system", SYSTEM_PROMPT)
    ensures msgs[1..|msgs| - 1] == history
    ensures msgs[|msgs| - 1] == ChatMessage("user", message)
  {
    [ChatMessage("system", SYSTEM_PROMPT)] + history + [ChatMessage("user", message)]
  }

  function TextReply(text: Json): Response { JsonResponse(map["text" := text], 200) }

  function ErrorReply(message: string): Response { JsonResponse(map["error" := JStr(message)], 500) }

  /**
   * What the handler answers and leaves in the store, given the store's
   * values, whether its lookup and its write fail, the request body and the
   * model's answer to a message list.
   */
  function Served(values: map<string, Entry>, now: int, getFails: bool, setFails: bool,
                  body: Result<ChatRequest>, complete: seq<ChatMessage> -> Completion): (Response, map<string, Entry>)
  {
    match body
    case Err(e) => (ErrorReply(e), values)
    case Ok(req) =>
      var cached := Visible(values, now, if HasKey(req) then req.cacheKey.value else "");
      var answer := complete(BuildMessages(req.history, req.message));
      if HasKey(req) && getFails then (ErrorReply(UNAVAILABLE), values)
      else if HasKey(req) && cached.Some? && Truthy(cached.value.value) then (TextReply(cached.value.value), values)
      else if answer.Err? then (ErrorReply(answer.error), values)
      else
        var text := ContentOrEmpty(answer.value);
        if !HasKey(req) then (TextReply(JStr(text)), values)
        else if setFails then (ErrorReply(UNAVAILABLE), values)
        else (TextReply(JStr(text)), values[req.cacheKey.value := Entry(JStr(text), Some(now + CACHE_TTL_MEDIUM))])
  }

  /** The outcomes of the handler, case by case. */
  lemma ServedCases(values: map<string, Entry>, now: int, getFails: bool, setFails: bool,
                    body: Result<ChatRequest>, complete: seq<ChatMessage> -> Completion)
    ensures var out := Served(values, now, getFails, setFails, body, complete);
      && (out.0.status == 200 || out.0.status == 500)
      && (body.Err? ==> out == (ErrorReply(body.error), values))
      && (body.Ok? && !HasKey(body.value) ==>
            out.1 == values &&
            match complete(BuildMessages(body.value.history, body.value.message))
            case Ok(content) => out.0 == TextReply(JStr(ContentOrEmpty(content)))
            case Err(e) => out.0 == ErrorReply(e))
    ensures var out := Served(values, now, getFails, setFails, body, complete);
      body.Ok? && HasKey(body.value) ==>
      var key := body.value.cacheKey.value;
      var cached := Visible(values, now, key);
      var answer := complete(BuildMessages(body.value.history, body.value.message));
      && (getFails ==> out == (ErrorReply(UNAVAILABLE), values))
      // a hit is answered from the store and nothing is written
      && (!getFails && cached.Some? && Truthy(cached.value.value) ==> out == (TextReply(cached.value.value), values))
      && (!getFails && !(cached.Some? && Truthy(cached.value.value)) && answer.Err? ==>
            out == (ErrorReply(answer.error), values))
      // a miss is answered by the model, and the answer stored for an hour
      && (!getFails && !setFails && !(cached.Some? && Truthy(cached.value.value)) && answer.Ok? ==>
            var text := ContentOrEmpty(answer.value);
            out == (TextReply(JStr(text)), values[key := Entry(JStr(text), Some(now + CACHE_TTL_MEDIUM))]))
      // a failing write is not failed open
      && (!getFails && setFails && !(cached.Some? && Truthy(cached.value.value)) && answer.Ok? ==>
            out == (ErrorReply(UNAVAILABLE), values))
  {
  }

  /**
   * The handler inside the gate. `body` is `Err` when the request body could
   * not be parsed; `complete` is the model's answer to a message list.
   */
  method Handle(store: Store, body: Result<ChatRequest>, complete: seq<ChatMessage> -> Completion)
    returns (resp: Response)
    modifies store`ops, store`values
    ensures (resp, store.values) == Served(old(store.values), store.now, old(store.Fails(0)), old(store.Fails(1)), body, complete)
    ensures old(store.ops) <= store.ops <= old(store.ops) + 2
    // Without a key the store is neither read nor written.
    ensures body.Err? || !HasKey(body.value) ==> store.ops == old(store.ops)
  {
    if body.Err? {
      return ErrorReply(body.error);
    }
    var req := body.value;
    if HasKey(req) {
      var got := store.Get(req.cacheKey.value);
      if got.Err? {
        return ErrorReply(got.error);
      }
      if Present(got.value) {
        return TextReply(got.value.value);
      }
    }
    var answer := complete(BuildMessages(req.history, req.message));
    if answer.Err? {
      return ErrorReply(answer.error);
    }
    var text := ContentOrEmpty(answer.value);
    if HasKey(req) {
      var put := store.Set(req.cacheKey.value, JStr(text), Some(CACHE_TTL_MEDIUM));
      if put.Err? {
        return ErrorReply(put.error);
      }
    }
    resp := TextReply(JStr(text));
  }

  /**
   * `POST`: the gate, then the handler. `handled` is the handler's own
   * response, present exactly when the gate let the request through;
   * `admitted` and `admittedOps` are the store's values and call count as the
   * gate left them.
   */
  method Post(store: Store, forwardedFor: Option<string>, body: Result<ChatRequest>,
              complete: seq<ChatMessage> -> Completion)
    returns (resp: Response, limit: RateLimitResult, handled: Option<Response>,
             ghost admitted: map<string, Entry>, ghost admittedOps: nat)
    modifies store`ops, store`values
    ensures handled.Some? <==> limit.success
    ensures !limit.success ==> resp == TooManyRequests(limit) && store.values == admitted
    ensures handled.Some? ==> resp == WithRateHeaders(handled.value, limit)
    // an admitted request is served from the store as the gate left it
    ensures handled.Some? ==>
      (handled.value, store.values) ==
        Served(admitted, store.now, admittedOps in store.faulty, admittedOps + 1 in store.faulty, body, complete)
    ensures var key := LimiterKey(IP, ClientIp(forwardedFor));
      && admitted - {key} == old(store.values) - {key}
      && old(store.ops) < admittedOps <= old(store.ops) + 4
      && (old(store.Fails(0)) ==> limit == FAIL_OPEN && admitted == old(store.values))
      && (old(store.Healthy(4)) ==>
            var d := Decide(Visible(old(store.values), store.now, key), store.now, IP_LIMIT, IP_WINDOW);
            limit == d.0 && Visible(admitted, store.now, key) == d.1)
  {
    limit := Admit(store, forwardedFor);
    admitted, admittedOps := store.values, store.ops;
    if !limit.success {
      return TooManyRequests(limit), limit, None, admitted, admittedOps;
    }
    var inner := Handle(store, body, complete);
    handled := Some(inner);
    resp := WithRateHeaders(inner, limit);
  }
}
