/**
 * Server actions answering through the language model with an in-process
 * cache (app/actions/ai-actions.ts): answers are kept per prompt and system
 * prompt for an hour, measured in milliseconds.
 */
module AiActions {
  import opened Common
  import opened Strings
  import opened OpenAi

  const RESPONSE_TTL_MS := 60 * 60 * 1000

  /** A cached answer and when it was stored. */
  datatype CachedText = CachedText(text: string, timestamp: int)

  /** `{ text }`, or `{ text, error: true }` when the request failed. */
  datatype AiReply = AiReply(text: string, error: bool)

  /** `systemPrompt || ""` */
  function PromptOrEmpty(systemPrompt: Option<string>): string
  {
    if systemPrompt.Some? then systemPrompt.value else ""
  }

  /** `${prompt}_${systemPrompt || ""}` */
  function ResponseKey(prompt: string, systemPrompt: Option<string>): string
  {
    prompt + "_" + PromptOrEmpty(systemPrompt)
  }

  /** The key does not separate the prompt from the system prompt: different requests can share an entry. */
  lemma ResponseKeysCollide()
    ensures ResponseKey("a", Some("b_")) == ResponseKey("a_b", None)
  {
    assert ResponseKey("a", Some("b_")) == "a_b_";
    assert ResponseKey("a_b", None) == "a_b_";
  }

  /** The system message (the default prompt when none, or an empty one, is given), then the prompt. */
  function RequestMessages(prompt: string, systemPrompt: Option<string>): (msgs: seq<ChatMessage>)
    ensures |msgs| == 2 && msgs[0].role == "system" && msgs[1] == ChatMessage("user", prompt)
    ensures msgs[0].content == if systemPrompt.Some? && systemPrompt.value != "" then systemPrompt.value else CAREER_ASSISTANT_PROMPT
  {
    var system := if systemPrompt.Some? && systemPrompt.value != "" then systemPrompt.value else CAREER_ASSISTANT_PROMPT;
    [ChatMessage("system", system), ChatMessage("user", prompt)]
  }

  /** An entry younger than an hour is used. */
  predicate Fresh(e: CachedText, nowMs: int) { nowMs - e.timestamp < RESPONSE_TTL_MS }

  /**
   * `generateAIResponse` on the cache `entries`: the reply, and the cache
   * afterwards. A failure is answered with the apology and caches nothing.
   */
  function Generate(entries: map<string, CachedText>, prompt: string, systemPrompt: Option<string>,
                    complete: seq<ChatMessage> -> Completion, nowMs: int): (AiReply, map<string, CachedText>)
  {
    var key := ResponseKey(prompt, systemPrompt);
    if key in entries && Fresh(entries[key], nowMs) then (AiReply(entries[key].text, false), entries)
    else
      match complete(RequestMessages(prompt, systemPrompt))
      case Err(_) => (AiReply(APOLOGY, true), entries)
      case Ok(content) =>
        var text := ContentOrEmpty(content);
        (AiReply(text, false), entries[key := CachedText(text, nowMs)])
  }

  /** A fresh entry is the answer, whatever the model would say: the model is not asked. */
  lemma FreshEntryAnswers(entries: map<string, CachedText>, prompt: string, systemPrompt: Option<string>,
                          c1: seq<ChatMessage> -> Completion, c2: seq<ChatMessage> -> Completion, nowMs: int)
    requires var key := ResponseKey(prompt, systemPrompt); key in entries && Fresh(entries[key], nowMs)
    ensures Generate(entries, prompt, systemPrompt, c1, nowMs) == Generate(entries, prompt, systemPrompt, c2, nowMs)
    ensures Generate(entries, prompt, systemPrompt, c1, nowMs) ==
      (AiReply(entries[ResponseKey(prompt, systemPrompt)].text, false), entries)
  {
  }

  /** An answer is served from the cache for the following hour, and no longer. */
  lemma AnswerIsReusedForAnHour(entries: map<string, CachedText>, prompt: string, systemPrompt: Option<string>,
                                complete: seq<ChatMessage> -> Completion, nowMs: int,
                                later: int, other: seq<ChatMessage> -> Completion)
    requires complete(RequestMessages(prompt, systemPrompt)).Ok?
    requires var key := ResponseKey(prompt, systemPrompt); !(key in entries && Fresh(entries[key], nowMs))
    requires nowMs <= later
    ensures var (first, after) := Generate(entries, prompt, systemPrompt, complete, nowMs);
      !first.error &&
      (later < nowMs + RESPONSE_TTL_MS ==> Generate(after, prompt, systemPrompt, other, later) == (first, after))
  {
  }

  /** Failures are never cached, and nothing is ever evicted. */
  lemma CacheOnlyGrows(entries: map<string, CachedText>, prompt: string, systemPrompt: Option<string>,
                       complete: seq<ChatMessage> -> Completion, nowMs: int)
    ensures var (reply, after) := Generate(entries, prompt, systemPrompt, complete, nowMs);
      && entries.Keys <= after.Keys
      && after.Keys <= entries.Keys + {ResponseKey(prompt, systemPrompt)}
      && (reply.error ==> after == entries && reply.text == APOLOGY)
      && (forall k :: k in entries && k != ResponseKey(prompt, systemPrompt) ==> after[k] == entries[k])
  {
  }

  const RESUME_PROMPT_LIMIT := 2000

  const RESUME_ANALYZER_PROMPT := "\n      You are an expert resume analyzer and career coach. \n      Analyze the provided resume and provide detailed feedback on the following aspects:\n      1. Overall structure and formatting\n      2. Professional summary/objective\n      3. Work experience descriptions (use of action verbs, quantifiable achievements)\n      4. Skills section (relevance, organization)\n      5. Education section\n      6. Specific improvement suggestions\n      7. List of skills extracted from the resume\n      \n      Format your response in a structured way that's easy to read.\n      BE CONCISE.\n    "

  const JOB_POSTING_PROMPT := "\n      You are an expert job application analyst. Compare the job description with the resume and provide a match score (0-100),\n      a list of skills that match, a list of missing skills, and a detailed analysis.\n      Return the response in JSON format.\n    "

  /** `!answer`: no answer, or an empty one. */
  predicate Answered(answer: Option<string>) { answer.Some? && answer.value != "" }

  /** The request for a question. */
  function QuestionPrompt(jobRole: string): (prompt: string)
    ensures Contains(prompt, jobRole)
  {
    ContainsInfix("Generate a single interview question for a ", jobRole, " position.");
    "Generate a single interview question for a " + jobRole + " position."
  }

  /** The system prompt for asking an interview question. */
  function QuestionSystemPrompt(jobRole: string): (system: string)
    ensures Contains(system, jobRole)
  {
    var head := "\n        You are an expert interviewer for ";
    var tail := " positions.\n        Generate a challenging but common interview question for this role.\n        The question should be specific enough to test the candidate's knowledge and experience.\n        BE CONCISE.\n      ";
    ContainsInfix(head, jobRole, tail);
    head + jobRole + tail
  }

  /** The system prompt for evaluating an answer. */
  function EvaluationSystemPrompt(jobRole: string): (system: string)
    ensures Contains(system, jobRole)
  {
    var head := "\n        You are an expert interviewer and career coach for ";
    var tail := " positions.\n        Evaluate the candidate's answer to the interview question and provide constructive feedback.\n        Include strengths, areas for improvement, and suggestions for a better response.\n        Be encouraging but honest in your assessment.\n        BE CONCISE.\n      ";
    ContainsInfix(head, jobRole, tail);
    head + jobRole + tail
  }

  /** The evaluation request quotes the question, the answer and the role. */
  function EvaluationPrompt(jobRole: string, question: string, answer: string): (prompt: string)
    ensures Contains(prompt, question) && Contains(prompt, answer) && Contains(prompt, jobRole)
  {
    var a := "\n        Question: ";
    var b := "\n        \n        Candidate's Answer: ";
    var c := "\n        \n        Please evaluate this answer for a ";
    var d := " position interview.\n      ";
    var prompt := a + question + b + answer + c + jobRole + d;
    assert prompt == a + question + (b + answer + c + jobRole + d);
    ContainsInfix(a, question, b + answer + c + jobRole + d);
    assert prompt == (a + question + b) + answer + (c + jobRole + d);
    ContainsInfix(a + question + b, answer, c + jobRole + d);
    ContainsInfix(a + question + b + answer + c, jobRole, d);
    prompt
  }

  /** The prompt and system prompt of `conductMockInterview`: without an answer, ask a question. */
  function InterviewPrompts(jobRole: string, question: string, answer: Option<string>): (ps: (string, string))
    ensures !Answered(answer) ==> ps == (QuestionPrompt(jobRole), QuestionSystemPrompt(jobRole))
    ensures Answered(answer) ==>
      ps == (EvaluationPrompt(jobRole, question, answer.value), EvaluationSystemPrompt(jobRole))
  {
    if !Answered(answer) then
      var system := QuestionSystemPrompt(jobRole);
      (QuestionPrompt(jobRole), system)
    else
      var prompt := EvaluationPrompt(jobRole, question, answer.value);
      var system := EvaluationSystemPrompt(jobRole);
      (prompt, system)
  }

  /** The prompt of `analyzeJobPosting`. */
  function JobPostingPrompt(jobDescription: string, resume: string): string
  {
    "\n      Job Description: " + jobDescription + "\n      Resume: " + resume + "\n      Analyze the job description and resume.\n    "
  }

  /** The module-level cache shared by every call. */
  class ResponseCache {
    var entries: map<string, CachedText>

    constructor ()
      ensures entries == map[]
    {
      entries := map[];
    }

    /** `generateAIResponse` */
    method GenerateAiResponse(prompt: string, systemPrompt: Option<string>,
                              complete: seq<ChatMessage> -> Completion, nowMs: int) returns (r: AiReply)
      modifies this
      ensures (r, entries) == Generate(old(entries), prompt, systemPrompt, complete, nowMs)
    {
      var key := ResponseKey(prompt, systemPrompt);
      if key in entries && Fresh(entries[key], nowMs) {
        return AiReply(entries[key].text, false);
      }
      var answer := complete(RequestMessages(prompt, systemPrompt));
      if answer.Err? {
        return AiReply(APOLOGY, true);
      }
      var text := ContentOrEmpty(answer.value);
      entries := entries[key := CachedText(text, nowMs)];
      r := AiReply(text, false);
    }

    /** `analyzeResume`: only the first 2000 characters of the resume are sent. */
    method AnalyzeResume(resumeText: string, complete: seq<ChatMessage> -> Completion, nowMs: int) returns (r: AiReply)
      modifies this
      ensures (r, entries) ==
        Generate(old(entries), Take(resumeText, RESUME_PROMPT_LIMIT), Some(RESUME_ANALYZER_PROMPT), complete, nowMs)
    {
      r := GenerateAiResponse(Take(resumeText, RESUME_PROMPT_LIMIT), Some(RESUME_ANALYZER_PROMPT), complete, nowMs);
    }

    /** `conductMockInterview`: a question to ask when there is no answer yet, otherwise an evaluation of the answer. */
    method ConductMockInterview(jobRole: string, question: string, answer: Option<string>,
                                complete: seq<ChatMessage> -> Completion, nowMs: int) returns (r: AiReply)
      modifies this
      ensures var ps := InterviewPrompts(jobRole, question, answer);
        (r, entries) == Generate(old(entries), ps.0, Some(ps.1), complete, nowMs)
    {
      var ps := InterviewPrompts(jobRole, question, answer);
      r := GenerateAiResponse(ps.0, Some(ps.1), complete, nowMs);
    }

    /** `analyzeJobPosting` */
    method AnalyzeJobPosting(jobDescription: string, resume: string,
                             complete: seq<ChatMessage> -> Completion, nowMs: int) returns (r: AiReply)
      modifies this
      ensures (r, entries) == Generate(old(entries), JobPostingPrompt(jobDescription, resume), Some(JOB_POSTING_PROMPT), complete, nowMs)
    {
      r := GenerateAiResponse(JobPostingPrompt(jobDescription, resume), Some(JOB_POSTING_PROMPT), complete, nowMs);
    }
  }

  /** Resumes that agree on their first 2000 characters are analysed from the same entry. */
  lemma ResumesShareEntryByHead(r1: string, r2: string)
    requires Take(r1, RESUME_PROMPT_LIMIT) == Take(r2, RESUME_PROMPT_LIMIT)
    ensures ResponseKey(Take(r1, RESUME_PROMPT_LIMIT), Some(RESUME_ANALYZER_PROMPT)) ==
            ResponseKey(Take(r2, RESUME_PROMPT_LIMIT), Some(RESUME_ANALYZER_PROMPT))
  {
  }
}
