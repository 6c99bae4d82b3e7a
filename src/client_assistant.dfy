/**
 * The assistant chat panel (components/client-assistant.tsx): sending a
 * message appends it to the conversation, asks the chat endpoint with a
 * per-user cache key, appends the reply or an apology, and queues a resume
 * analysis when the message asks for one.
 */
module ClientAssistant {
  import opened Common
  import opened Strings
  import opened Json
  import opened KvStore
  import opened RedisClient
  import opened OpenAi
  import opened AiUtils
  import opened JobQueue
  import opened Http
  import opened ChatRoute

  const GREETING := "Hello! I'm your AI career assistant. I can help you with resume feedback, interview preparation, job search advice, and more. How can I assist you today?"
  const FAILED_RESPONSE := "Failed to get AI response"

  /** `list.slice(-n)`: the last `n` elements, or all of them. */
  function LastN<T>(s: seq<T>, n: nat): (r: seq<T>)
    ensures |r| == Min(|s|, n)
    ensures r == s[|s| - |r|..]
  {
    if |s| <= n then s else s[|s| - n..]
  }

  /** One `role: content` line per message, joined by newlines. */
  function Context(messages: seq<ChatMessage>): string
  {
    Join(seq(|messages|, i requires 0 <= i < |messages| => messages[i].role + ": " + messages[i].content), "\n")
  }

  /** `chat:<user id>:<hash of the last five messages and the new input>` */
  function ChatCacheKey(userId: string, prior: seq<ChatMessage>, input: string): string
  {
    "chat:" + userId + ":" + Hash(Utf16(Context(LastN(prior, 5)) + input))
  }

  /** The key is the one `generateCacheKey("chat", userId, hash)` would build. */
  lemma ChatKeyIsCacheKey(userId: string, prior: seq<ChatMessage>, input: string)
    ensures ChatCacheKey(userId, prior, input) ==
      GenerateCacheKey("chat", [userId, Hash(Utf16(Context(LastN(prior, 5)) + input))])
  {
    var h := Hash(Utf16(Context(LastN(prior, 5)) + input));
    assert [userId, h][1..] == [h];
    assert Join([userId, h], ":") == userId + ":" + h;
    assert "chat" + ":" + (userId + ":" + h) == "chat:" + userId + ":" + h;
  }

  /** Users whose ids hold no colon never read each other's cached answers. */
  lemma UsersDoNotShareChatKeys(u1: string, u2: string, p1: seq<ChatMessage>, p2: seq<ChatMessage>, i1: string, i2: string)
    requires ':' !in u1 && ':' !in u2 && u1 != u2
    ensures ChatCacheKey(u1, p1, i1) != ChatCacheKey(u2, p2, i2)
  {
    var h1 := Hash(Utf16(Context(LastN(p1, 5)) + i1));
    var h2 := Hash(Utf16(Context(LastN(p2, 5)) + i2));
    HashHasNoColon(Utf16(Context(LastN(p1, 5)) + i1));
    HashHasNoColon(Utf16(Context(LastN(p2, 5)) + i2));
    ChatKeyIsCacheKey(u1, p1, i1);
    ChatKeyIsCacheKey(u2, p2, i2);
    KeysSeparateArguments("chat", [u1, h1], [u2, h2]);
  }

  /** The lower-cased message mentions both "analyze" and "resume". */
  predicate MentionsResumeAnalysis(message: string)
  {
    Contains(Lower(message), "analyze") && Contains(Lower(message), "resume")
  }

  /** Lower-casing forgets what upper-casing did. */
  lemma LowerOfUpper(s: string)
    ensures Lower(Upper(s)) == Lower(s)
  {
    assert forall i :: 0 <= i < |s| ==> LowerChar(UpperChar(s[i])) == LowerChar(s[i]);
  }

  /** So the analysis trigger does not depend on how the message is capitalised. */
  lemma TriggerIgnoresCase(message: string)
    ensures MentionsResumeAnalysis(Upper(message)) == MentionsResumeAnalysis(message)
  {
    LowerOfUpper(message);
  }

  /** The placeholder job data the panel queues. */
  function AnalysisJobData(userId: string): Json
  {
    JObj(map["userId" := JStr(userId), "resumeText" := JStr("Sample resume text"), "resumeId" := JStr("sample-resume-id")])
  }

  /**
   * What the panel makes of the `fetch` to the chat endpoint: `Err` when the
   * fetch itself threw, a failure for any status outside 200..299, and
   * otherwise the body's `text`.
   */
  function FetchOutcome(fetched: Result<Response>): (r: Result<Json>)
    ensures fetched.Ok? && !(200 <= fetched.value.status < 300) ==> r == Err(FAILED_RESPONSE)
    ensures fetched.Err? ==> r == Err(fetched.error)
    ensures fetched.Ok? && 200 <= fetched.value.status < 300 && fetched.value.body.JObj? && "text" in fetched.value.body.fields ==>
      r == Ok(fetched.value.body.fields["text"])
  {
    match fetched
    case Err(e) => Err(e)
    case Ok(resp) =>
      if !(200 <= resp.status < 300) then Err(FAILED_RESPONSE)
      else match Field(resp.body, "text")
        case Some(t) => Ok(t)
        case None => Ok(JNull)
  }

  /** A request the gate turns away reaches the panel as a failure, so the user sees the apology. */
  lemma RefusedRequestFails(res: RateLimiter.RateLimitResult)
    ensures FetchOutcome(Ok(RateLimitMiddleware.TooManyRequests(res))) == Err(FAILED_RESPONSE)
  {
  }

  /** An answered request reaches the panel as the endpoint's text, whatever headers the gate added. */
  lemma AnsweredRequestText(text: Json, res: RateLimiter.RateLimitResult)
    ensures FetchOutcome(Ok(RateLimitMiddleware.WithRateHeaders(TextReply(text), res))) == Ok(text)
  {
  }

  /** The job queued for a message that asks for a resume analysis, and nothing otherwise. */
  method QueueAnalysis(store: Store, userId: string, message: string, nowMs: int, randomPart: string)
    returns (queued: Option<Result<string>>)
    modifies store`ops, store`lists, store`values
    ensures queued.Some? <==> MentionsResumeAnalysis(message)
    ensures queued.None? ==>
      store.values == old(store.values) && store.lists == old(store.lists) && store.ops == old(store.ops)
    ensures queued.Some? && old(store.Healthy(2)) ==>
      var id := NewJobId(nowMs, randomPart);
      queued.value == Ok(id) &&
      store.List(QUEUE_KEY) ==
        [Encode(Job(id, "resume_analysis", AnalysisJobData(userId), PENDING, nowMs, nowMs, None, None))]
        + old(store.List(QUEUE_KEY))
  {
    queued := None;
    if MentionsResumeAnalysis(message) {
      var r := EnqueueJob(store, "resume_analysis", AnalysisJobData(userId), nowMs, randomPart);
      queued := Some(r);
    }
  }

  /**
   * The messages a send appends: the user's message, then the reply, or the
   * apology when the request failed; a reply followed by a failure to queue
   * the analysis job is followed by the apology too.
   */
  function Appended(message: string, reply: Result<string>, queued: Option<Result<string>>): seq<ChatMessage>
  {
    var mine := ChatMessage("user", message);
    var apology := ChatMessage("assistant", APOLOGY);
    match reply
    case Err(_) => [mine, apology]
    case Ok(text) =>
      [mine, ChatMessage("assistant", text)] + (if queued.Some? && queued.value.Err? then [apology] else [])
  }

  /** The error the panel keeps: the first failure of this send, or the one it had. */
  function ErrorAfter(previous: Option<string>, reply: Result<string>, queued: Option<Result<string>>): Option<string>
  {
    if reply.Err? then Some(reply.error)
    else if queued.Some? && queued.value.Err? then Some(queued.value.error)
    else previous
  }

  /**
   * A send appends two or three messages: the user's own first, assistant
   * messages after it, and the apology last exactly when something failed.
   */
  lemma AppendedShape(message: string, reply: Result<string>, queued: Option<Result<string>>)
    ensures var a := Appended(message, reply, queued);
      && 2 <= |a| <= 3
      && a[0] == ChatMessage("user", message)
      && (forall i :: 1 <= i < |a| ==> a[i].role == "assistant")
      && (a[|a| - 1] == ChatMessage("assistant", APOLOGY) <== ErrorAfter(None, reply, queued).Some?)
      && (reply.Ok? ==> a[1] == ChatMessage("assistant", reply.value))
      && (|a| == 3 <==> reply.Ok? && queued.Some? && queued.value.Err?)
  {
  }

  class Assistant {
    var history: seq<ChatMessage>
    var input: string
    var isTyping: bool
    var error: Option<string>

    constructor ()
      ensures history == [ChatMessage("assistant", GREETING)] && input == "" && !isTyping && error == None
    {
      history := [ChatMessage("assistant", GREETING)];
      input := "";
      isTyping := false;
      error := None;
    }

    /** `handleSendMessage` is a no-op while this holds. */
    predicate Blocked(user: Option<string>)
      reads this
    {
      Trim(input) == "" || user.None? || isTyping
    }

    /**
     * `handleSendMessage`. `reply` is the endpoint's `text`, or the message of
     * the error thrown while fetching it (see `FetchOutcome`); `nowMs` and
     * `randomPart` feed the id of a queued job. `request` is the body posted
     * to the endpoint, `saved` the messages handed to the chat-history store.
     */
    method SendMessage(user: Option<string>, store: Store, reply: Result<string>, nowMs: int, randomPart: string)
      returns (request: Option<ChatRequest>, saved: seq<ChatMessage>, queued: Option<Result<string>>)
      modifies this, store`ops, store`lists, store`values
      ensures old(Blocked(user)) ==>
        history == old(history) && input == old(input) && isTyping == old(isTyping) && error == old(error) &&
        request == None && saved == [] && queued == None &&
        store.ops == old(store.ops) && store.values == old(store.values) && store.lists == old(store.lists)
      ensures !old(Blocked(user)) ==>
        && request == Some(ChatRequest(old(input), LastN(old(history), 5), Some(ChatCacheKey(user.value, old(history), old(input)))))
        && input == "" && !isTyping
        && history == old(history) + Appended(old(input), reply, queued)
        && error == ErrorAfter(old(error), reply, queued)
        && saved == Appended(old(input), reply, None)[..if reply.Ok? then 2 else 1]
        && (queued.Some? <==> reply.Ok? && MentionsResumeAnalysis(old(input)))
      ensures !old(Blocked(user)) && queued.None? ==> store.values == old(store.values) && store.lists == old(store.lists)
      ensures !old(Blocked(user)) && queued.Some? && old(store.Healthy(2)) ==>
        var id := NewJobId(nowMs, randomPart);
        queued.value == Ok(id) &&
        store.List(QUEUE_KEY) ==
          [Encode(Job(id, "resume_analysis", AnalysisJobData(user.value), PENDING, nowMs, nowMs, None, None))]
          + old(store.List(QUEUE_KEY))
    {
      if Trim(input) == "" || user.None? || isTyping {
        return None, [], None;
      }
      request, saved, queued := Send(user.value, store, reply, nowMs, randomPart);
    }

    /** The part of `handleSendMessage` past its guard. */
    method Send(userId: string, store: Store, reply: Result<string>, nowMs: int, randomPart: string)
      returns (request: Option<ChatRequest>, saved: seq<ChatMessage>, queued: Option<Result<string>>)
      modifies this, store`ops, store`lists, store`values
      ensures request == Some(ChatRequest(old(input), LastN(old(history), 5), Some(ChatCacheKey(userId, old(history), old(input)))))
      ensures input == "" && !isTyping
      ensures history == old(history) + Appended(old(input), reply, queued)
      ensures error == ErrorAfter(old(error), reply, queued)
      ensures saved == Appended(old(input), reply, None)[..if reply.Ok? then 2 else 1]
      ensures queued.Some? <==> reply.Ok? && MentionsResumeAnalysis(old(input))
      ensures queued.None? ==> store.values == old(store.values) && store.lists == old(store.lists)
      ensures queued.Some? && old(store.Healthy(2)) ==>
        var id := NewJobId(nowMs, randomPart);
        queued.value == Ok(id) &&
        store.List(QUEUE_KEY) ==
          [Encode(Job(id, "resume_analysis", AnalysisJobData(userId), PENDING, nowMs, nowMs, None, None))]
          + old(store.List(QUEUE_KEY))
    {
      var message, prior := input, history;
      input := "";
      isTyping := true;
      var hash := HashString(Utf16(Context(LastN(prior, 5)) + message));
      request := Some(ChatRequest(message, LastN(prior, 5), Some("chat:" + userId + ":" + hash)));
      queued := None;
      if reply.Ok? {
        queued := QueueAnalysis(store, userId, message, nowMs, randomPart);
      }
      saved := Appended(message, reply, None)[..if reply.Ok? then 2 else 1];
      history := prior + Appended(message, reply, queued);
      error := ErrorAfter(error, reply, queued);
      isTyping := false;
    }
  }
}
