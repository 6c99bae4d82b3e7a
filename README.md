# AI-test-Resume, modelled in Dafny

This project models the core of AI-test-Resume, a Next.js job-search assistant.
Users upload a resume, chat with an assistant, track their applications,
follow-ups and job alerts, and ask a language model to score, match and
rewrite their profile. The model covers the machinery underneath those pages:

- the Redis-like store (`KvStore`), with string keys holding JSON values, list keys and per-key expiry. Every call may fail, and failures are scheduled by call number;
- the background job queue and its worker endpoint (`JobQueue`, `JobWorker`);
- the fixed-window rate limiter and the middleware that gates routes with it (`RateLimiter`, `RateLimitMiddleware`);
- the cache-key builder and TTL tiers (`RedisClient`), the cache-or-generate wrapper around model calls and its 32-bit string hash (`AiUtils`), and the chat endpoint (`ChatRoute`);
- the assistant chat panel (`ClientAssistant`) and the session store (`SessionStore`);
- the server actions that call the model (`AiActions`, `ProfileImportActions`, `AiProfileActions`, `AdvancedActions`, with `ProfileFields` for field sanitising);
- browser local storage (`LocalStorage`) and what is kept in it: the error log (`ErrorHandler`), upload metadata (`FileHandler`) and the cache sweeper (`PerformanceOptimizer`);
- the auth retry helper and profile merge (`AuthProvider`), and the database bootstrap (`DbInit`);
- the error boundary and error card (`ErrorBoundary`, `ErrorFallback`);
- the dashboard pages' list and form logic (`ApplicationsPage`, `FollowUpPage`, `AlertsPage`, `JobAlertsSetup`, `JobsPage`, `MatchPage`, `ResumeUpload`, `ProfileImporter`, `ProfilePage`).

External services are parameters of the operations that call them. This covers the language model, Supabase, Postgres, `fetch` and the file storage service: the model receives their answers (or the message they throw) as inputs. Clocks and random parts of ids are inputs too. Code that updates shared state step by step is modelled with classes and methods over `map`/`seq` fields:

- the store;
- the queue;
- local storage;
- the in-process response caches;
- the stateful components.

List handling and rendering decisions are modelled as functions. `Common` (Option, Result, subsequences), `Strings` (the JavaScript string built-ins used) and `Json` (parsed values and JavaScript's truthiness, coercion and spread) are the shared vocabulary.

All Dafny sources are under `src/`, one module per source file plus the shared ones.

## Model

| member | source | states |
|---|---|---|
| Strings.EncodeUriComponent | app/dashboard/jobs/page.tsx:57-58 | the encoding holds only URI-safe characters, never shrinks the text, and leaves it unchanged exactly when every character is unreserved |
| Strings.EncodedHasNoBrace | app/dashboard/jobs/page.tsx:57-58 | an encoded value never holds a brace, so it cannot create a placeholder |
| Strings.SplitJoin | app/dashboard/alerts/page.tsx:88-89 | joining separator-free parts and splitting on that separator gives the parts back |
| Strings.JoinSplit | app/dashboard/profile/page.tsx:81-84 | splitting on a separator and joining with it gives the text back |
| Strings.TrimEmptyIffBlank | components/profile-importer.tsx:32 | a text trims to nothing exactly when it is all white space |
| Strings.RadixRoundTrip | utils/ai-utils.ts:156 | every integer is read back from its base-36 (or any base from 2 to 36) rendering |
| Strings.RadixInjective | utils/ai-utils.ts:156 | two integers render alike exactly when they are equal |
| RedisClient.TiersIncrease | utils/redis-client.ts:25-30 | the lifetimes are five minutes, an hour, a day and a week, each longer than the one before |
| RedisClient.NoArgumentsTrailingColon | utils/redis-client.ts:33-35 | with no arguments the key is the prefix followed by a trailing colon |
| RedisClient.GenerateCacheKey | utils/redis-client.ts:33-35 | the key starts with the prefix followed by a colon |
| RedisClient.KeySplitsIntoArguments | utils/redis-client.ts:33-35 | when no argument holds a colon, splitting the key at colons gives back the prefix's pieces followed by exactly the arguments |
| RedisClient.KeysSeparateArguments | utils/redis-client.ts:33-35 | under one prefix, colon-free argument lists give the same key if and only if they are equal |
| JobQueue.StatusFromText | utils/job-queue.ts:3-8 | a status read back from its stored text is the status that text names |
| JobQueue.Encode | utils/job-queue.ts:10-19 | the record a job is stored as; DecodeEncode proves it reads back as the job |
| JobQueue.Decode | utils/job-queue.ts:10-19 | reading a record back as a job; DecodeEncode proves it inverts Encode |
| JobQueue.DecodeEncode | utils/job-queue.ts:10-19 | a job written as its JSON record reads back as the same job |
| JobQueue.NewJobId | utils/job-queue.ts:25 | every new job id starts with `job_` |
| JobQueue.Merge | utils/job-queue.ts:62-66 | `{...job, ...updates, updatedAt}`; MergeStatus, MergeCompleted and MergeFailed state what each update changes |
| JobQueue.MergeStatus | utils/job-queue.ts:62-66 | merging a status update changes the job's status and update time and nothing else |
| JobQueue.MergeCompleted | utils/job-queue.ts:99-102 | completing a job records the status `completed` and its result, nothing else |
| JobQueue.MergeFailed | utils/job-queue.ts:107-110 | failing a job records the status `failed` and the error message, nothing else |
| JobQueue.EnqueueJob | utils/job-queue.ts:21-44 | the pending snapshot is pushed on the queue head before the record is written; a store failure gives the error and, after the push, leaves a snapshot without a record; on success the id is returned and the record is stored under `job:<id>` |
| JobQueue.GetJob | utils/job-queue.ts:46-49 | the record stored under `job:<id>`, or none, or the store's error |
| JobQueue.UpdateJob | utils/job-queue.ts:51-70 | a missing record is the error `Job <id> not found`; otherwise the updates are merged into the record and stamped; no other key changes; one store call when the read fails or finds nothing, two otherwise |
| JobQueue.ProcessNextJob | utils/job-queue.ts:72-114 | an empty queue reports no job; the oldest snapshot is taken from the tail; an unsupported type is pushed back at the head, and when that push fails the job is lost and the store error is thrown; a supported one is marked processing, then completed with the processor's result or failed with its message; when the completed update fails, the job is recorded failed with the store's error and the call reports false; only supported snapshots reach the processor |
| JobQueue.RunProcessor | utils/job-queue.ts:91-114 | a job whose record is gone is reported as not found and nothing is handled; otherwise the processor sees exactly the dequeued snapshot, and the record ends completed with the returned result (reported as true) or failed with the thrown message (reported as false); a completed update that fails is caught and the record ends failed with the store's error (reported as false); no other key changes |
| JobQueue.FirstInFirstOut | utils/job-queue.ts:38-76 | jobs pushed at the head and popped from the tail come out in the order they went in, after those already waiting |
| JobWorker.Handle | app/api/jobs/process/route.ts:11-63 | `job_match` and `follow_up_generation` succeed with their fixed results; a resume analysis yields an object whose only key is `analysis`; any other type throws `Unsupported job type: <type>` |
| JobWorker.SupportedTypesAreHandled | app/api/jobs/process/route.ts:11-63 | for the three types the worker asks for, the processor never rejects the type; only the resume analysis can fail |
| JobWorker.Reply | app/api/jobs/process/route.ts:65-71 | status 200 exactly when processing returned, 500 exactly when it threw; `success` says which; an error's message is in `error` |
| JobWorker.Post | app/api/jobs/process/route.ts:8-73 | the response is the reply for the outcome; an unreachable store gives 500; an empty queue gives success with `processed: false`; on a working store the oldest job is put back when unsupported, reported not found when its record is gone, and otherwise run by the worker's processor and recorded COMPLETED with its result (processed) or FAILED with its message (not processed) |
| KvStore.TtlOf | utils/rate-limiter.ts:35 | TTL answers -2 for a missing key, and -1 or a non-zero count of seconds for a live one |
| KvStore.IncrEntry | utils/rate-limiter.ts:44 | INCR succeeds exactly on a missing key or an integer; a missing key becomes 1 with no expiry, an integer goes up by one and keeps its expiry |
| KvStore.ExpireEntry | utils/rate-limiter.ts:48 | EXPIRE with a timeout that is not positive deletes the key; otherwise the key keeps its value and TTL then reports the timeout |
| KvStore.Store.constructor | utils/redis-client.ts:6-22 | a fresh client sees an empty store at the given clock, with the given calls set to fail |
| KvStore.Store.Get | utils/rate-limiter.ts:30 | GET returns the visible value under the key, or nil, or the connection error |
| KvStore.Store.Set | utils/ai-utils.ts:50 | SET stores the value with the EX expiry (or none), refuses a non-positive EX, and changes no other key |
| KvStore.Store.Del | utils/session-store.ts:15 | DEL removes the key and answers how many visible keys it removed |
| KvStore.Store.Incr | utils/rate-limiter.ts:44 | INCR stores and returns the incremented count, or refuses a value that is not an integer and changes nothing |
| KvStore.Store.Expire | utils/rate-limiter.ts:48 | EXPIRE answers whether a visible key was there and applies the expiry to it |
| KvStore.Store.Ttl | utils/rate-limiter.ts:36 | TTL changes nothing and answers the key's remaining time as above |
| KvStore.Store.LPush | utils/job-queue.ts:38 | LPUSH puts the value at the head of the list and answers the new length |
| KvStore.Store.RPop | utils/job-queue.ts:76 | RPOP removes and returns the tail of the list, or nil for an empty list |
| RateLimiter.LimiterKey | utils/rate-limiter.ts:27 | `ratelimit:<type>:<identifier>`; LimiterKeysSeparate proves the keys equal exactly when type and identifier are |
| RateLimiter.LimiterKeysSeparate | utils/rate-limiter.ts:27 | two limiter keys are equal exactly when both the type and the identifier are, so each client and type has a counter of its own |
| RateLimiter.Decide | utils/rate-limiter.ts:27-57 | the limiter's decision on a counter; CountNeverExceedsLimit, AdmittedIffBelowLimit, RunFrom and WindowRestarts state its properties, and CheckRateLimit is proved to follow it |
| RateLimiter.CheckRateLimit | utils/rate-limiter.ts:20-68 | a failure of any store call it makes (GET, TTL, INCR, EXPIRE or the final TTL) allows the request with remaining 1 and reset 0; with no failing call, the reply and the counter left behind are the limiter's decision; a refusal is never a store error; it makes one to four store calls and changes only the limiter's key; a first request whose EXPIRE fails leaves a counter that never expires |
| RateLimiter.CountNeverExceedsLimit | utils/rate-limiter.ts:33-44 | a counter at or below the limit stays at or below it after a check |
| RateLimiter.AdmittedIffBelowLimit | utils/rate-limiter.ts:33-44 | a request is admitted if and only if the stored count is below the limit |
| RateLimiter.RunFrom | utils/rate-limiter.ts:29-58 | from a count of c within a window, the i-th further request gets the reply for c + i and the counter ends at the smaller of c + k and the limit |
| RateLimiter.SequentialRequests | utils/rate-limiter.ts:29-58 | within one window the i-th request from zero is admitted with `limit - (i + 1)` remaining while i is below the limit and refused after, all reporting the full window as reset |
| RateLimiter.LimitOfThree | utils/rate-limiter.ts:29-58 | with a limit of three, four requests see remaining 2, 1, 0 and then a refusal |
| RateLimiter.WindowRestarts | utils/rate-limiter.ts:46-49 | once a window's expiry has passed, the next request is admitted with `limit - 1` remaining and opens a new window |
| RateLimitMiddleware.ClientIp | middleware/rate-limit.ts:9 | the client is the forwarded-for header when it is non-empty, otherwise `unknown`; never empty |
| RateLimitMiddleware.Admit | middleware/rate-limit.ts:12-17 | each request is checked against 50 per hour under the client's IP key: with no failing store call the reply and counter are Decide's, any failing call fails open; one to four store calls; nothing else in the store changes |
| RateLimitMiddleware.TooManyRequests | middleware/rate-limit.ts:20-36 | a refusal is a 429 with exactly the four rate headers: limit 50, remaining 0, and reset and Retry-After both the decimal of the reset time |
| RateLimitMiddleware.WithRateHeaders | middleware/rate-limit.ts:41-43 | an admitted response keeps its status, body and other headers, and gains the limit 50 and the decimal remaining and reset |
| RateLimitMiddleware.Gate | middleware/rate-limit.ts:4-46 | the verdict is `Decide` on the client's counter with 50 per 3600 s, and the counter left behind is Decide's, whenever none of its one to four store calls fails; any failing call lets the request through; the handler's response (with the rate headers) is returned exactly when the verdict admits, otherwise the 429; only the limiter key changes |
| RateLimitMiddleware.UnknownClientsShareCounter | middleware/rate-limit.ts:9 | all requests without a forwarded-for address count against one shared counter |
| OpenAi.ContentOrEmpty | utils/ai-utils.ts:94 | the reply's content whenever there is one, the empty string when there is none |
| AiUtils.ToInt32 | utils/ai-utils.ts:153-154 | the 32-bit conversion lands in the signed 32-bit range and differs from its input by a multiple of 2^32 |
| AiUtils.ToInt32Offset | utils/ai-utils.ts:153-154 | the 32-bit conversion subtracts exactly the right whole number of 2^32 steps |
| AiUtils.ToInt32Shift | utils/ai-utils.ts:153-154 | adding multiples of 2^32 before the conversion does not change its value |
| AiUtils.HashStepTimes31 | utils/ai-utils.ts:152-154 | one step of the shift-and-subtract loop multiplies the hash by 31 and adds the code unit, in 32-bit arithmetic |
| AiUtils.HashIsPolynomialMod32 | utils/ai-utils.ts:149-157 | the loop computes the polynomial hash with base 31 over the code units, reduced to a signed 32-bit integer |
| AiUtils.HashStringsMatchValues | utils/ai-utils.ts:156 | two hash strings are equal if and only if the 32-bit hash values are |
| AiUtils.HashHasNoColon | utils/ai-utils.ts:156 | a base-36 hash string never holds a colon, so it stays one piece of a cache key |
| AiUtils.DigitsAvoidColon | utils/ai-utils.ts:156 | no base-36 digit is a colon |
| AiUtils.HashString | utils/ai-utils.ts:149-157 | the loop returns the base-36 text of the 32-bit polynomial hash of the string |
| AiUtils.EmptyHash | utils/ai-utils.ts:149-157 | the empty string hashes to `0` |
| AiUtils.GetCachedOrGenerate | utils/ai-utils.ts:27-58 | a cache hit is returned without running the generator; a miss runs it and stores its result with the given TTL; any failure runs the generator once more and returns that; the generator never runs more than twice |
| AiUtils.OptimizePrefixPieces | utils/ai-utils.ts:62-66 | the prefix `resume:optimize` splits into two pieces |
| AiUtils.ResumeKeyPieces | utils/ai-utils.ts:62-66 | an optimisation key splits into `resume`, `optimize` and the hashes of the first 100 code units of each text |
| AiUtils.SharedResumePrefixSharesKey | utils/ai-utils.ts:62-66 | texts that agree on their first 100 code units share one cached optimisation |
| AiUtils.ResumeOptimizeKey | utils/ai-utils.ts:62-66 | the optimisation key; ResumeKeyPieces and SharedResumePrefixSharesKey state what it is built from |
| AiUtils.OptimizeMessages | utils/ai-utils.ts:72-92 | an optimisation sends one system and one user message |
| AiUtils.OptimizeResumeForJob | utils/ai-utils.ts:61-96 | the model's first and second answers to the same request are independent; a failing lookup returns the first; a cached optimisation is returned without asking the model; on a miss, a first success is returned and cached for an hour when the write works; a failed first answer or a failed write returns the second answer and leaves the store as it was |
| AiUtils.InsightsOutcome | utils/ai-utils.ts:104-143 | a failed request fails the run; content that does not parse gives the fixed "Information not available" insights |
| AiUtils.CompanyInsightsKey | utils/ai-utils.ts:100 | `company:insights:<name>`; CompanyKeysSeparate proves different companies get different keys |
| AiUtils.CompanyKeysSeparate | utils/ai-utils.ts:100 | two insights keys are equal exactly when the company names are |
| AiUtils.GetCompanyInsights | utils/ai-utils.ts:99-146 | with independent first and second generator runs: a failing lookup returns the first run's insights; a cached entry is returned as is; on a miss, successful insights are returned and cached for a week under `company:insights:<name>` when the write works; otherwise the second run's outcome is returned and the store is unchanged |
| ChatRoute.BuildMessages | app/api/chat/route.ts:32-46 | the model gets the system prompt first, then the history in its order, then the user's new message |
| ChatRoute.Served | app/api/chat/route.ts:10-67 | the response and the store the handler leaves; ServedCases states each case, and Handle and Post are proved to produce it |
| ChatRoute.Handle | app/api/chat/route.ts:10-67 | the response and the store afterwards are exactly `Served` for the store's values and whether its lookup and write fail; without a key the store is not called; at most two store calls |
| ChatRoute.ServedCases | app/api/chat/route.ts:10-67 | an unreadable body is a 500 with its message; without a key the model's text (or its error) is returned and nothing is written; with a key a failing lookup is a 500, a cached truthy text is returned as is, a fresh text is cached for an hour, and a failing write is a 500 rather than a success; every status is 200 or 500 |
| ChatRoute.Post | app/api/chat/route.ts:8-69 | the handler runs exactly when the limiter admits the request; on a store whose first four calls work, the verdict is the limiter's decision for the client's counter; an admitted request gets exactly `Served` on the store as the gate left it, with the rate headers added; a refusal is the 429 and writes nothing more; the gate changes only the client's counter |
| ClientAssistant.LastN | components/client-assistant.tsx:116 | `slice(-n)` keeps the last n messages, or all of them when there are fewer |
| ClientAssistant.ChatCacheKey | components/client-assistant.tsx:114-120 | the chat key; ChatKeyIsCacheKey and UsersDoNotShareChatKeys state what it is and that users never share one |
| ClientAssistant.ChatKeyIsCacheKey | components/client-assistant.tsx:114-120 | the chat key is the cache key with prefix `chat`, the user id, and the hash of the last five messages' context followed by the new input |
| ClientAssistant.UsersDoNotShareChatKeys | components/client-assistant.tsx:120 | two different users whose ids hold no colon never share a cached answer |
| ClientAssistant.LowerOfUpper | components/client-assistant.tsx:157 | lower-casing undoes what upper-casing did |
| ClientAssistant.TriggerIgnoresCase | components/client-assistant.tsx:157 | whether a message asks for a resume analysis does not depend on its capitalisation |
| ClientAssistant.MentionsResumeAnalysis | components/client-assistant.tsx:157 | the analysis trigger; TriggerIgnoresCase proves it ignores case and QueueAnalysis that it decides the queuing |
| ClientAssistant.FetchOutcome | components/client-assistant.tsx:123-139 | a thrown fetch keeps its error; a status outside 200-299 is `Failed to get AI response`; otherwise the body's `text` is the reply |
| ClientAssistant.RefusedRequestFails | components/client-assistant.tsx:135-137 | a request the rate gate refuses reaches the panel as a failure |
| ClientAssistant.AnsweredRequestText | components/client-assistant.tsx:139-144 | an answered request reaches the panel as the endpoint's text, whatever rate headers were added |
| ClientAssistant.QueueAnalysis | components/client-assistant.tsx:157-166 | a job is queued exactly when the message mentions both `analyze` and `resume`; otherwise the store is untouched; the queued job is the pending placeholder analysis at the queue head |
| ClientAssistant.AppendedShape | components/client-assistant.tsx:103-178 | a send appends two or three messages: the user's first, assistant messages after, the reply second when there is one, and the apology last when something failed; three only when the reply came but queueing failed |
| ClientAssistant.Assistant.constructor | components/client-assistant.tsx:22-47 | the panel starts with the greeting alone, an empty input, not typing and no error |
| ClientAssistant.Assistant.SendMessage | components/client-assistant.tsx:93-182 | with a blank input, no user or a reply pending nothing happens; otherwise the endpoint gets the input, the last five messages and the chat key; the input clears; the history grows by the appended messages; the first error is kept; the user message and the reply are saved; analysis is queued only after a reply |
| ClientAssistant.Assistant.Send | components/client-assistant.tsx:96-181 | the send past the guard: the request, history, error, saved messages and queued job as above |
| SessionStore.SessionKey | utils/session-store.ts:5-20 | `session:<id>`; SessionKeysSeparate proves different sessions get different keys |
| SessionStore.SessionKeysSeparate | utils/session-store.ts:5-20 | two session keys are equal exactly when the session ids are |
| SessionStore.SetSession | utils/session-store.ts:3-6 | on success the session reads back as the data with exactly `ttl` seconds left and no other key changes; a store error or a timeout that is not positive changes nothing |
| SessionStore.GetSession | utils/session-store.ts:8-11 | the live data under `session:<id>`, or nothing |
| SessionStore.DeleteSession | utils/session-store.ts:13-16 | the session reads as gone afterwards and no other key changes |
| SessionStore.ExtendSession | utils/session-store.ts:18-21 | a live session keeps its data and expires `ttl` seconds from now; a timeout that is not positive ends it; a missing session stays missing; no other key changes |
| SessionStore.ReadBackUntilExpiry | utils/session-store.ts:3-11 | a stored session is read back until its timeout runs out, and not after |
| AiActions.ResponseKey | app/actions/ai-actions.ts:32 | `${prompt}_${systemPrompt}`; ResponseKeysCollide shows two different requests sharing it |
| AiActions.ResponseKeysCollide | app/actions/ai-actions.ts:32 | the cache key does not separate the prompt from the system prompt, so two different requests can share an entry |
| AiActions.RequestMessages | app/actions/ai-actions.ts:45-53 | the model gets a system message, the given system prompt or the career-assistant default when it is missing or empty, then the prompt as the user's message |
| AiActions.FreshEntryAnswers | app/actions/ai-actions.ts:35-38 | an entry younger than an hour is the answer and the model is not asked |
| AiActions.AnswerIsReusedForAnHour | app/actions/ai-actions.ts:35-64 | a successful answer is served from the cache for the following hour, whatever the model would say then |
| AiActions.CacheOnlyGrows | app/actions/ai-actions.ts:29-74 | a failure is answered with the apology and caches nothing; nothing is evicted; only the request's own key can change |
| AiActions.Generate | app/actions/ai-actions.ts:29-74 | the cached generation; FreshEntryAnswers, AnswerIsReusedForAnHour and CacheOnlyGrows state its properties, and GenerateAiResponse is proved to follow it |
| AiActions.QuestionPrompt | app/actions/ai-actions.ts:121 | the question request names the job role |
| AiActions.QuestionSystemPrompt | app/actions/ai-actions.ts:115-120 | the interviewer prompt names the job role |
| AiActions.EvaluationSystemPrompt | app/actions/ai-actions.ts:124-130 | the evaluator prompt names the job role |
| AiActions.EvaluationPrompt | app/actions/ai-actions.ts:131-137 | the evaluation request quotes the question, the answer and the role |
| AiActions.InterviewPrompts | app/actions/ai-actions.ts:110-138 | without an answer (missing or empty) a question is asked; otherwise the answer is evaluated |
| AiActions.ResponseCache.constructor | app/actions/ai-actions.ts:4 | the cache starts empty |
| AiActions.ResponseCache.GenerateAiResponse | app/actions/ai-actions.ts:29-74 | the reply and the cache afterwards are those of the cached generation described by the lemmas above |
| AiActions.ResponseCache.AnalyzeResume | app/actions/ai-actions.ts:77-105 | a resume analysis is the cached generation for the first 2000 characters under the analyser prompt |
| AiActions.ResponseCache.ConductMockInterview | app/actions/ai-actions.ts:108-148 | a mock interview step is the cached generation for the question or evaluation prompts |
| AiActions.ResponseCache.AnalyzeJobPosting | app/actions/ai-actions.ts:151-173 | a posting analysis is the cached generation for the description and resume under the analyst prompt |
| AiActions.ResumesShareEntryByHead | app/actions/ai-actions.ts:80-97 | resumes that agree on their first 2000 characters are analysed from the same cache entry |
| ProfileFields.ParseInput | app/actions/ai-profile-actions.ts:108 | the text handed to `JSON.parse` is never empty: a missing or blank answer becomes `{}` |
| ProfileFields.ValidFields | app/actions/ai-profile-actions.ts:116-121 | the sanitised fields are exactly the truthy ones among the five profile fields, copied unchanged except the bio, which is cut to 500 characters; a null answer or a bio that is not a string throws |
| ProfileFields.KeptFieldsTruthy | app/actions/ai-profile-actions.ts:116-121 | every field kept is truthy, the cut bio included |
| ProfileFields.ValidFieldsIdempotent | app/actions/profile-import-actions.ts:110-115 | sanitising sanitised fields changes nothing |
| ProfileFields.SecondPass | app/actions/profile-import-actions.ts:110-115 | truthy profile fields with a bio of at most 500 characters pass the sanitiser unchanged |
| ProfileFields.Changed | app/actions/ai-profile-actions.ts:133 | the changed keys listed are exactly the profile fields present, each at most once |
| ProfileFields.ChangedInOrder | app/actions/ai-profile-actions.ts:133 | the changed keys keep the order of the field list |
| ProfileFields.ChangedFieldsListed | app/actions/ai-profile-actions.ts:131-134 | the message lists each set field once, in the order name, preferred role, location, bio, skills |
| AiProfileActions.UpdateProfileWithAi | app/actions/ai-profile-actions.ts:46-139 | a profile that cannot be ensured fails before the model is asked; a failed fetch fails; an answer that does not parse fails with `Failed to parse AI response` and sends no update; otherwise exactly the sanitised fields are sent, and success names them in the message |
| AiProfileActions.EmptyUpdateMessage | app/actions/ai-profile-actions.ts:131-134 | an answer that changes nothing is still a success, with an empty list of changed fields |
| ProfileImportActions.ImportAndAnalyzeKeysDiffer | app/actions/profile-import-actions.ts:40-165 | import entries and analysis entries never share a key |
| ProfileImportActions.ImportKey | app/actions/profile-import-actions.ts:40 | `import_<user>_<url>`; ImportAndAnalyzeKeysDiffer proves it never equals an analysis key |
| ProfileImportActions.AnalyzeKey | app/actions/profile-import-actions.ts:165 | `analyze_<user>`; ImportAndAnalyzeKeysDiffer proves it never equals an import key |
| ProfileImportActions.DetectPlatform | app/actions/profile-import-actions.ts:65-68 | the platform is LinkedIn exactly when the URL mentions `linkedin.com`, Indeed when it mentions `indeed.com` but not LinkedIn, Glassdoor when it mentions only `glassdoor.com`, and `unknown` otherwise |
| ProfileImportActions.FirstSiteWins | app/actions/profile-import-actions.ts:65-68 | a URL mentioning two sites is attributed to the earlier one in that order, wherever the mentions sit |
| ProfileImportActions.ImportCache.constructor | app/actions/profile-import-actions.ts:13 | the cache starts empty |
| ProfileImportActions.ImportCache.ImportProfileFromUrl | app/actions/profile-import-actions.ts:34-146 | a fresh cached import sends only the cached fields, with no platform or time stamp; otherwise a parse failure caches and sends nothing; a successful parse caches the sanitised fields and sends them with the platform and time; the update error decides success |
| ProfileImportActions.ImportCache.AnalyzeAndOptimizeProfile | app/actions/profile-import-actions.ts:151-245 | a fresh cached analysis is replayed with the cached message and no model call; otherwise a parse failure is `Failed to parse profile analysis` and caches nothing; a success caches and returns the analysis and optimised bio |
| ProfileImportActions.AnalysisData | app/actions/profile-import-actions.ts:227-233 | the cached data holds the answer's `analysis` and `optimizedBio` when they are defined, and nothing else |
| ProfileImportActions.CachedAnalysisReplays | app/actions/profile-import-actions.ts:168-174 | a replayed analysis reports success and carries only what was cached |
| AdvancedActions.DaysBelowSevenIff | app/actions/advanced-actions.ts:363-368 | fewer than seven whole days have passed exactly when less than a week of time has |
| AdvancedActions.DaysSinceApplication | app/actions/advanced-actions.ts:363-365 | the day count is the floor of the elapsed time over a day: that many days fit in it and one more does not |
| AdvancedActions.FollowUpDate | app/actions/advanced-actions.ts:367-374 | the scheduled instant; its rule is stated by FollowUpRule and its bounds by FollowUpIsAhead |
| AdvancedActions.FollowUpRule | app/actions/advanced-actions.ts:362-374 | in milliseconds: a readable application date less than a week old gives that date plus seven days; an older or unreadable one gives now plus three days |
| AdvancedActions.FollowUpIsAhead | app/actions/advanced-actions.ts:362-374 | the follow-up is always scheduled after now, and for an application in the past at most a week from now |
| AdvancedActions.ResumeScoreReply | app/actions/advanced-actions.ts:114-117 | the score reply holds every own property of the model's data, as object spread copies them, except `id`, which is always `temp-id` |
| AdvancedActions.ListAnswerKeepsIndices | app/actions/advanced-actions.ts:114-117 | an answer that parses to an array or a string spreads each index, in decimal, keyed to its element or character, and none of them is displaced by `id` |
| Json.SpreadIndices | app/actions/advanced-actions.ts:114-117 | spreading an array or a string gives exactly its decimal indices as keys, each holding its element (a one-character string for a string) |
| AdvancedActions.InsertedId | app/actions/advanced-actions.ts:402 | the id is the first saved row's id when it has one, otherwise `temp-id`; never falsy |
| AdvancedActions.FollowUpReply | app/actions/advanced-actions.ts:321-416 | a failed model call is `{ error }`; otherwise the reply holds the email text, the scheduled date `FollowUpDate` gives (after now) and the id `InsertedId` gives for the insert (truthy) |
| AdvancedActions.TempAlert | app/actions/advanced-actions.ts:448 | the placeholder alert has id `temp-id` and echoes the title and frequency, and the location and keywords exactly when given |
| AdvancedActions.CreateJobAlert | app/actions/advanced-actions.ts:419-462 | a stored alert returns the saved rows; otherwise the placeholder alert is returned, with the error unless the table was merely missing |
| AdvancedActions.AlertDefaultsToDaily | app/actions/advanced-actions.ts:424 | without a frequency the alert is daily |
| ErrorHandler.Stored | utils/error-handler.ts:42-49 | the stored form of an error keeps its message, its severity's text and its context, and drops what is undefined |
| ErrorHandler.Logged | utils/error-handler.ts:59-69 | there is a list to write back exactly when the stored text parses (or is missing) and gives an array |
| ErrorHandler.NewestFirst | utils/error-handler.ts:60-69 | after logging, the new error comes first and the list holds between one and fifty errors |
| ErrorHandler.KeepsMostRecent | utils/error-handler.ts:61-66 | the previous list follows the new error, cut to its first forty-nine |
| ErrorHandler.Cap | utils/error-handler.ts:64-66 | the first fifty errors; CapOfCap, KeepsMostRecent and LogKeepsFiftyNewest state what it keeps |
| ErrorHandler.GetUserFriendlyErrorMessage | utils/error-handler.ts:117-134 | the generic message is given exactly for errors of unknown type |
| ErrorHandler.FriendlyMessageNamesKind | utils/error-handler.ts:117-134 | each kind of error has its own message: the message tells the kind back |
| ErrorHandler.LogError | utils/error-handler.ts:35-81 | the error returned carries the given fields and the current time; the log is rewritten with it first and capped at fifty when the stored list reads and the write succeeds, and left alone otherwise; a critical error goes to the server exactly when it was stored |
| ErrorHandler.GetStoredErrors | utils/error-handler.ts:84-91 | a missing or unreadable log reads as the empty list; a readable one as what it holds |
| ErrorHandler.ReadBackAfterLog | utils/error-handler.ts:59-91 | after a logged error is written, reading the log gives the list written, with that error first |
| ErrorHandler.ClearStoredErrors | utils/error-handler.ts:94-96 | the log reads as empty afterwards and no other key changes |
| ErrorHandler.CapOfCap | utils/error-handler.ts:64-65 | capping a list that ends in an already capped list is the same as capping once |
| ErrorHandler.LogKeepsFiftyNewest | utils/error-handler.ts:59-69 | however many errors are logged in a row, the log holds the fifty most recent of them and of what it held before, newest first |
| LocalStorage.KeysOf | components/performance-optimizer.tsx:13 | the keys are listed in storage order, one per item |
| LocalStorage.ParseOr | utils/error-handler.ts:60 | reading a key with a fallback throws only for text that does not parse; a missing or empty item gives the fallback; a stored value gives itself |
| LocalStorage.Lookup | utils/file-handler.ts:120 | `getItem` answers exactly when some item has the key, with that item's text |
| LocalStorage.Put | utils/file-handler.ts:34 | `setItem` adds one item for a new key and none for a listed one |
| LocalStorage.LookupPut | utils/file-handler.ts:34 | after `setItem(key, t)`, `getItem(key)` is t and every other key reads as before |
| LocalStorage.PutKeys | utils/file-handler.ts:34 | `setItem` lists no key that was not there before, other than its own |
| LocalStorage.PutDistinct | utils/file-handler.ts:34 | `setItem` never lists a key twice |
| LocalStorage.Remove | utils/error-handler.ts:95 | after `removeItem(key)` the key reads as missing, every other key reads as before, and no key is listed twice |
| LocalStorage.PutPut | utils/file-handler.ts:52 | writing a key twice leaves what one write of the second text leaves |
| LocalStorage.RemoveAt | utils/file-handler.ts:146 | with distinct keys, removing the key at position i takes out that item and nothing else |
| LocalStorage.RemoveAbsent | utils/error-handler.ts:95 | removing a key that is not listed changes nothing |
| LocalStorage.RemoveWhereMembers | components/performance-optimizer.tsx:20-30 | an item survives a selective sweep exactly when it was listed and not selected |
| LocalStorage.Storage.constructor | utils/file-handler.ts:34 | the storage holds the given items, and refuses writes when full |
| LocalStorage.Storage.GetItem | utils/error-handler.ts:60 | `getItem` on the storage's items; Lookup, LookupPut and Remove state what it answers |
| LocalStorage.Storage.SetItem | utils/file-handler.ts:34 | a write succeeds exactly when the storage is not full, and then stores the text under the key |
| LocalStorage.Storage.RemoveItem | utils/error-handler.ts:95 | the key is removed and nothing else changes |
| FileHandler.MetadataJson | utils/file-handler.ts:25-34 | the stored metadata names the user, the status text and the start time, and has no `timestamp` |
| FileHandler.Started | utils/file-handler.ts:22-32 | an upload starts `in_progress` for its user, at the current time, under `<user>/<time>_<name>` |
| FileHandler.Finished | utils/file-handler.ts:50-102 | an upload ends `completed` with an end time when the service reported no error, `failed` with the service's message otherwise, and keeps everything else it started with |
| FileHandler.UploadFileWithProgress | utils/file-handler.ts:14-108 | the metadata item ends as the finished metadata; success exactly when the service reported no error, with its public URL; progress reports 100 only on the chunked path for files over 1 MB; a full storage throws before anything is uploaded |
| FileHandler.InterruptedMembers | utils/file-handler.ts:113-131 | a metadata value is reported exactly when some `upload_` item of the user that is still `in_progress` holds it |
| FileHandler.GetInterruptedUploads | utils/file-handler.ts:113-131 | the walk reports the interrupted uploads of the user, in storage order |
| FileHandler.InterruptedWhileRunning | utils/file-handler.ts:118-121 | an upload's own metadata is reported while it runs and not once it has ended |
| FileHandler.CleanupOldUploadsAsWritten | utils/file-handler.ts:136-153 | the loop as written removes in place while the index moves on, so the item moving into a removed slot is skipped |
| FileHandler.SweepAsWritten | utils/file-handler.ts:140-151 | the index walk as written; SweepSkipsNeighbour shows the item after a removed one is skipped |
| FileHandler.SweepSkipsNeighbour | utils/file-handler.ts:140-151 | with two stale uploads side by side, the written loop removes the first and keeps the second |
| FileHandler.CleanupOldUploads | utils/file-handler.ts:136-153 | with every item looked at, exactly the stale upload metadata is removed and the rest keep their order |
| FileHandler.CleanupRemovesOnlyStale | utils/file-handler.ts:142-147 | only `upload_` items whose start time is before the cutoff go; other keys and unreadable items stay |
| FileHandler.RecentUploadSurvives | utils/file-handler.ts:138-145 | an upload started at the cutoff or later survives the cleanup |
| PerformanceOptimizer.ClearOldCache | components/performance-optimizer.tsx:12-31 | the sweep removes exactly the expired cache items and keeps the rest in their order |
| PerformanceOptimizer.ClearKeepsTheRest | components/performance-optimizer.tsx:13-30 | an item survives exactly when it is not expired; other keys and unreadable items always stay |
| PerformanceOptimizer.OutdatedIff | components/performance-optimizer.tsx:22-24 | a cache entry is removed exactly when its timestamp is truthy and more than an hour behind |
| PerformanceOptimizer.UploadMetadataSurvives | components/performance-optimizer.tsx:14-23 | upload metadata has a start time but no timestamp, so this sweep never removes it |
| AuthProvider.Pow2 | components/auth-provider.tsx:52 | each doubling factor is at least one |
| AuthProvider.Backoff | components/auth-provider.tsx:49-53 | n retries produce exactly n waits |
| AuthProvider.BackoffDoubles | components/auth-provider.tsx:52 | the i-th wait is the first delay times 2^i |
| AuthProvider.BackoffPrefix | components/auth-provider.tsx:52 | a shorter run of waits is the start of a longer one |
| AuthProvider.WithRetry | components/auth-provider.tsx:38-59 | the result is the outcome of the last call; every earlier call threw a rate-limit error; there are no more waits than retries and they double from the first delay; a rate-limit error is rethrown only once the retries are used up |
| AuthProvider.DefaultBackoff | components/auth-provider.tsx:34-38 | with the defaults the call runs at most four times, waiting 1000, 2000 and 4000 ms in between |
| AuthProvider.FirstSuccessReturned | components/auth-provider.tsx:39-40 | a value on the first call is returned as is, with no wait |
| AuthProvider.UsedTokenNotRetried | components/auth-provider.tsx:44-47 | an auth error about a used refresh token is rethrown at once, however many retries are left |
| AuthProvider.AuthState.constructor | components/auth-provider.tsx:62 | the provider holds the given user |
| AuthProvider.AuthState.UpdateProfile | components/auth-provider.tsx:234-247 | without a user it throws `No user logged in` and sends nothing; a database error is thrown and the user kept; otherwise the user becomes the old user merged with the data; the update is sent for the user's id |
| AuthProvider.MergeKeepsOtherFields | components/auth-provider.tsx:242 | after the merge, saved fields take the new values and every other field is kept |
| DbInit.MissingTablesInOrder | lib/db-init.ts:87 | the missing tables are exactly the required ones not listed, in the required order; none are missing exactly when all are listed |
| DbInit.CreateTables | lib/db-init.ts:98-108 | the creation loop collects the missing tables whose creation went through, in order |
| DbInit.ReportIsFaithful | lib/db-init.ts:87-114 | the report lists as created exactly the missing tables whose creation did not fail, in order, and succeeds exactly when none failed, that is when all missing tables were created |
| DbInit.NothingMissing | lib/db-init.ts:89-95 | with nothing missing the report is a success that created nothing |
| DbInit.InitWithSupabaseRpc | lib/db-init.ts:70-123 | a failed table listing is a failed report with its message; otherwise the report above |
| DbInit.InitWithPostgres | lib/db-init.ts:128-182 | a failed table listing rolls back and throws; otherwise the report above |
| DbInit.InitializeDatabase | lib/db-init.ts:46-65 | the Postgres route runs exactly when the RPC route is unsuccessful; a successful RPC report is returned as is; a Postgres throw becomes a failed report with its message |
| DbInit.GenericSchemaNamesTable | lib/db-init.ts:375-383 | the generic statement creates the table it is asked for |
| DbInit.GetTableSchema | lib/db-init.ts:187-387 | a listed table gets its own statement, any other the generic id, user id and creation time statement |
| DbInit.RequiredTablesHaveSchemas | lib/db-init.ts:26-41 | the required list and the probed list name the same fourteen tables, and each of them has a creation statement |
| DbInit.EnsureDatabaseTables | lib/db-init.ts:476-512 | the result is always a success, and reports as created exactly the probed tables whose probe threw or named a missing relation, whatever creation then did |
| DbInit.EnsureReportsMissing | lib/db-init.ts:486-499 | a table is reported exactly when its probe says it is missing, in probe order |
| ErrorBoundary.Boundary.constructor | components/error-boundary.tsx:17-20 | a new boundary holds no error |
| ErrorBoundary.Boundary.Catch | components/error-boundary.tsx:22-24 | a caught error is held and flags the boundary |
| ErrorBoundary.Boundary.Reset | components/error-boundary.tsx:30-32 | reset clears the flag and the error |
| ErrorBoundary.Boundary.Render | components/error-boundary.tsx:34-71 | the children render exactly when nothing was caught; a database error shows the database fallback; any other error the given fallback when there is one, else the default box with the message |
| ErrorBoundary.ResetShowsChildren | components/error-boundary.tsx:30-70 | after a reset the children render again |
| ErrorBoundary.MissingRelationIsDatabaseError | components/error-boundary.tsx:37-47 | any message containing `does not exist` is a database error |
| ErrorFallback.DatabaseErrorAgreesWithBoundary | components/error-fallback.tsx:27 | every message this card treats as a database error, the boundary treats as one too |
| ErrorFallback.FixOutcome | components/error-fallback.tsx:38-59 | success exactly when the tables were ensured; the message names the created tables, or says all are available, or reports the failure or the crash |
| ErrorFallback.FixMessageNamesTables | components/error-fallback.tsx:44-45 | the success message names every created table |
| ErrorFallback.FallbackState.constructor | components/error-fallback.tsx:23-24 | the card starts idle with no report |
| ErrorFallback.FallbackState.HandleFixDatabase | components/error-fallback.tsx:29-63 | the report of the repair is stored and the card is idle again |
| ErrorFallback.AllAvailableIffNoneCreated | components/error-fallback.tsx:44-46 | a successful repair says all tables are available exactly when none had to be created |
| ApplicationsPage.FromRows | app/dashboard/applications/page.tsx:111-121 | the fetched list keeps its length and each application carries its row's fields, `date_applied` as `dateApplied` |
| ApplicationsPage.FindStatus | app/dashboard/applications/page.tsx:302-305 | a found option is in the list and has the status asked for; nothing is found exactly when no option has it |
| ApplicationsPage.KnownStatusesHaveBadges | app/dashboard/applications/page.tsx:32-38 | a status has a badge exactly when it is one of applied, interviewing, offer, rejected, withdrawn |
| ApplicationsPage.FilterByStatus | app/dashboard/applications/page.tsx:298-299 | "all" shows every application; any other filter shows exactly the applications with that status |
| ApplicationsPage.FilterKeepsOrder | app/dashboard/applications/page.tsx:298-299 | the filtered list is a subsequence of the full list |
| ApplicationsPage.EditById | app/dashboard/applications/page.tsx:219-221 | same length; the updated application replaces every entry with its id and every other entry is unchanged |
| ApplicationsPage.DeleteById | app/dashboard/applications/page.tsx:250 | an application remains exactly when it was there and its id differs |
| ApplicationsPage.DeleteKeepsOrder | app/dashboard/applications/page.tsx:250 | the remaining applications keep their order |
| ApplicationsPage.DeleteIdempotent | app/dashboard/applications/page.tsx:250 | deleting an id twice is deleting it once |
| ApplicationsPage.DeleteAfterEdit | app/dashboard/applications/page.tsx:199-266 | deleting the edited id after an edit gives the same list as deleting it without the edit |
| ApplicationsPage.ResetForm | app/dashboard/applications/page.tsx:284-295 | the form is emptied with status "applied" and today's date, no application is current, the list and dialogs are untouched |
| ApplicationsPage.HandleAddApplication | app/dashboard/applications/page.tsx:158-196 | signed out, an error or an empty answer changes nothing; otherwise the first returned row heads the list, the dialog closes and the form resets |
| ApplicationsPage.OpenEditDialog | app/dashboard/applications/page.tsx:269-281 | the application becomes current, the edit dialog opens and the form holds its fields |
| ApplicationsPage.HandleEditApplication | app/dashboard/applications/page.tsx:199-241 | with nothing being edited, an error or an empty answer nothing changes; otherwise the returned row replaces its id in the list and the dialog closes |
| ApplicationsPage.HandleDeleteApplication | app/dashboard/applications/page.tsx:244-266 | a failed delete changes nothing; a successful one removes every application with the id |
| ApplicationsPage.AddedShowsFirst | app/dashboard/applications/page.tsx:178 | a newly added application heads both the full list and the list filtered by its own status |
| FollowUpPage.MarkSent | app/dashboard/follow-up/page.tsx:90 | same length; every follow-up with the id gets `sent` set and the others are unchanged |
| FollowUpPage.HandleMarkAsSent | app/dashboard/follow-up/page.tsx:84-104 | a reported error leaves the list as it was; otherwise the follow-ups with the id are marked sent |
| FollowUpPage.MarkSentSettles | app/dashboard/follow-up/page.tsx:84-104 | marking twice is marking once, and afterwards every follow-up with the id shows "Sent" |
| FollowUpPage.MarkSentOnlyFlag | app/dashboard/follow-up/page.tsx:90 | marking changes nothing but the `sent` flag, which is set exactly when it was set already or the id matches |
| FollowUpPage.StatusColor | app/dashboard/follow-up/page.tsx:114-123 | a listed status gets its colour and anything else gets slate |
| FollowUpPage.SlateMeansWithdrawnOrUnknown | app/dashboard/follow-up/page.tsx:114-123 | the colour is slate exactly for "withdrawn" and unlisted statuses |
| FollowUpPage.SentBadge | app/dashboard/follow-up/page.tsx:275-277 | the badge reads "Sent" exactly when the follow-up is sent and "Pending" exactly when it is not |
| AlertsPage.ParseKeywords | app/dashboard/alerts/page.tsx:88-91 | the trimmed, non-empty comma pieces; ParsedAreClean, KeywordsRoundTrip and BlankFieldNoKeywords state its properties |
| AlertsPage.ParsedAreClean | app/dashboard/alerts/page.tsx:88-91 | every keyword parsed from the field is non-empty, comma-free and has no white space at either end |
| AlertsPage.TrimmedIsClean | app/dashboard/alerts/page.tsx:88-91 | a comma-free piece that is not blank trims to such a keyword |
| AlertsPage.KeywordsRoundTrip | app/dashboard/alerts/page.tsx:88-91 | any list of such keywords, the empty list included, joined with commas parses back to the same list |
| AlertsPage.BlankFieldNoKeywords | app/dashboard/alerts/page.tsx:88-91 | a field of only commas and white space parses to no keywords |
| AlertsPage.OrUndefined | app/dashboard/alerts/page.tsx:96 | an empty location is sent as undefined and any other is sent as typed |
| AlertsPage.KeywordsOrUndefined | app/dashboard/alerts/page.tsx:97 | the keywords are sent as undefined exactly when none were parsed, and otherwise as the parsed list |
| AlertsPage.RequestFor | app/dashboard/alerts/page.tsx:93-99 | the request carries the user's id, the title and frequency as typed, the location and keywords as above |
| AlertsPage.HandleCreateAlert | app/dashboard/alerts/page.tsx:74-122 | an empty title or no user makes no call and changes nothing; an error keeps the page; success appends the first returned row, empties the form and closes the dialog |
| AlertsPage.FirstRow | app/dashboard/alerts/page.tsx:104 | the appended entry is undefined exactly when the answer is empty, and otherwise its first row |
| AlertsPage.DeleteAlert | app/dashboard/alerts/page.tsx:124-144 | a failed delete, or a list holding an undefined or null entry (whose `id` throws), is left as it was; otherwise an alert remains exactly when its id differs |
| AlertsPage.DeleteRemovesId | app/dashboard/alerts/page.tsx:130 | a successful delete keeps the order of the list, and when every entry is readable no alert with the id is left |
| AlertsPage.GetFrequencyLabel | app/dashboard/alerts/page.tsx:155-157 | the four frequencies are shown as Daily, Weekly, Bi-Weekly and Monthly |
| AlertsPage.UnknownFrequencyShownAsIs | app/dashboard/alerts/page.tsx:26-31 | a value is shown unchanged exactly when it is not one of the four frequencies |
| JobAlertsSetup.Frequency | components/job-alerts-setup.tsx:62 | the real-time switch sends "realtime"; otherwise the chosen frequency is sent |
| JobAlertsSetup.HandleCreateAlert | components/job-alerts-setup.tsx:28-78 | no user or an empty title makes no call and keeps the form; otherwise the request carries the id, title, location, keywords and frequency, and the form returns to its defaults unless an error was reported |
| JobAlertsSetup.KeywordsSentAsTyped | components/job-alerts-setup.tsx:52-55 | keywords typed as a comma-separated list of clean words reach the request unchanged |
| JobAlertsSetup.SuccessRestoresDefaults | components/job-alerts-setup.tsx:72-77 | after a successful create the switch is off and the frequency is daily |
| JobsPage.PortalsHavePlainParts | app/dashboard/jobs/page.tsx:15-40 | no portal's template holds a brace outside its two placeholders |
| JobsPage.FindPortal | app/dashboard/jobs/page.tsx:54 | a found portal is in the list with the id asked for; nothing is found exactly when no portal has it |
| JobsPage.FillTemplatePlaces | app/dashboard/jobs/page.tsx:57-58 | replacing the first `{role}` and then the first `{location}` puts the two values in place and keeps the rest of the template |
| JobsPage.GenerateSearchUrl | app/dashboard/jobs/page.tsx:52-59 | an unknown portal gives the empty URL |
| JobsPage.SearchUrlHoldsEncodedInputs | app/dashboard/jobs/page.tsx:52-59 | for each known portal the URL is its template with the URI-encoded role and location in the placeholders |
| JobsPage.HandleSearch | app/dashboard/jobs/page.tsx:62-74 | nothing opens exactly when the role or the location is empty; otherwise the generated URL opens |
| JobsPage.RecommendedLinks | app/dashboard/jobs/page.tsx:276-287 | three links, one per first three portals, each with both placeholders replaced by nothing |
| JobsPage.RecommendedLinksDropPlaceholders | app/dashboard/jobs/page.tsx:276-287 | each recommended link is its template's text with the two placeholders removed |
| MatchPage.HandleCalculateMatch | app/dashboard/match/page.tsx:38-107 | a missing title, company or description, or no user, makes no call and keeps the match shown; otherwise the request carries them, an empty location as undefined, and an answer replaces the match while an error keeps it |
| MatchPage.BandOf | app/dashboard/match/page.tsx:231-245 | strong from 70, potential from 50 below 70, low below 50, each exactly |
| MatchPage.BandMonotone | app/dashboard/match/page.tsx:231-245 | a higher score never falls in a lower band |
| MatchPage.BadgeLabel | app/dashboard/match/page.tsx:240-244 | the label is Strong, Potential or Low Match by band |
| MatchPage.BadgeColor | app/dashboard/match/page.tsx:232-238 | the colour is green, yellow or red by band |
| MatchPage.FirstStep | app/dashboard/match/page.tsx:394 | "Tailor your resume" exactly from 50 up, "Develop missing skills" exactly below |
| MatchPage.SecondStep | app/dashboard/match/page.tsx:409-413 | one second step per band |
| MatchPage.RecommendationsAgree | app/dashboard/match/page.tsx:394-442 | tracking is offered exactly when the badge is not Low Match, exactly when the first step is tailoring and exactly when the second is to apply |
| MatchPage.SkillGap | app/dashboard/match/page.tsx:335-348 | at most three entries, the first missing skills in order, with high, medium and low priority notes in that order |
| ResumeUpload.CheckFile | components/resume-upload.tsx:37-60 | a file is accepted exactly when it is a PDF or DOCX of at most 5 MB; a wrong type reports the type error, an oversized right type the size error |
| ResumeUpload.SizeLimitInclusive | components/resume-upload.tsx:52-60 | exactly 5242880 bytes is accepted and one byte more is refused |
| ResumeUpload.TypeCheckedFirst | components/resume-upload.tsx:37-49 | a file of the wrong type is reported as such however large it is |
| ResumeUpload.Picker.constructor | components/resume-upload.tsx:16-19 | no file, not uploading, progress 0 and no error |
| ResumeUpload.Picker.HandleFileChange | components/resume-upload.tsx:32-65 | no selection changes nothing; a refused file sets its error and keeps the earlier file; an accepted file is chosen and the error cleared |
| ResumeUpload.Picker.HandleUpload | components/resume-upload.tsx:67-106 | without a file or a user nothing changes; otherwise uploading ends, the URL is handed on exactly when storage accepted the record and the upload succeeded, and a refused write sets its error |
| ProfileImporter.Rejection | components/profile-importer.tsx:23-49 | no user, then a blank URL, then a URL not starting with "http" is refused with its own message; the import goes ahead exactly when none applies |
| ProfileImporter.HandleSubmit | components/profile-importer.tsx:20-82 | a refusal makes no call and keeps the URL; otherwise the user's id and the URL as typed are sent, the field is cleared exactly on success, and the toast shows the answer's message or the failure text |
| ProfileImporter.LeadingSpaceRejected | components/profile-importer.tsx:41-49 | a URL with a space before "http" is refused as invalid and not sent |
| ProfileImporter.HttpPrefixAccepted | components/profile-importer.tsx:41-53 | any URL starting with "http" is sent as typed |
| ProfilePage.FieldOrEmpty | app/dashboard/profile/page.tsx:33-38 | a missing or falsy field shows as empty and a non-empty string shows as itself |
| ProfilePage.FormFrom | app/dashboard/profile/page.tsx:31-42 | each of the six form fields is the user's field or empty |
| ProfilePage.UpdatePayload | app/dashboard/profile/page.tsx:57-63 | exactly name, preferred_role, location, bio and skills are sent, each as the form holds it |
| ProfilePage.SaveKeepsEmailAndId | app/dashboard/profile/page.tsx:57-63 | merging the payload into the user never adds, removes or changes the email or the id |
| ProfilePage.SaveUnchangedForm | app/dashboard/profile/page.tsx:31-63 | saving the form just loaded writes back each non-empty string field unchanged |
| ProfilePage.FirstsConcat | app/dashboard/profile/page.tsx:83 | taking first characters distributes over concatenated piece lists |
| ProfilePage.GetInitials | app/dashboard/profile/page.tsx:80-86 | the upper-cased first characters of the space-separated pieces; InitialsOfWords, DoubleSpaceAddsNothing and BlankNameShowsNothing state its properties |
| ProfilePage.InitialsOfWords | app/dashboard/profile/page.tsx:80-86 | for non-empty space-free words joined by single spaces there is one initial per word, its upper-cased first letter |
| ProfilePage.DoubleSpaceAddsNothing | app/dashboard/profile/page.tsx:80-86 | a doubled space gives the same initials as a single one |
| ProfilePage.AvatarText | app/dashboard/profile/page.tsx:180 | an empty name shows "U" and any other shows its initials |
| ProfilePage.BlankNameShowsNothing | app/dashboard/profile/page.tsx:180 | a name of spaces only shows no initials at all rather than "U" |

## Left out

- External services (the language model, Supabase, Postgres, `fetch`, file storage) are not modelled. Their answers, or the messages they throw, are parameters. Prompt texts are kept only where a cache key or a reply depends on them.
- Concurrency is not modelled. Every operation runs alone, so the queue's pop and push-back and the limiter's read-then-`incr` are sequential.
- Numbers are integers. Floating point, `Date` parsing and time zones are not modelled. Instants are integer milliseconds, or seconds for the store, passed in. `DaysSinceApplication` divides whole milliseconds by the length of a day, and `FollowUpDate` models `setDate(getDate() + n)` as adding `n` days of milliseconds, so a daylight-saving shift is not accounted for.
- Ids and timestamps built from `Date.now()` and `Math.random()` take the clock value and the random part as inputs. One `nowMs` serves a whole call, so a job's `createdAt` and `updatedAt` start equal.
- The `getRedisClient` singleton and the module-level client are not modelled. The store is passed to every operation that uses it.
- Json.ToNumber: only null, booleans and numbers are converted. Strings, arrays and objects read as NaN, so a numeric string stored as a counter or timestamp is not read as a number.
- Strings are sequences of Unicode scalar values. The hash converts them to UTF-16 code units, so it is exact. The other truncations count characters, so a text holding astral characters is cut at a different place. For the same reason `getInitials` takes a whole character where `n[0]` would take half a surrogate pair.
- Json.Spread: a string spreads one property per character. JavaScript spreads one per UTF-16 code unit, so the two differ for astral characters, for the reason above.
- Strings.Upper and Strings.Lower: only ASCII letters change case. This matches every comparison the code makes against ASCII literals.
- KvStore keeps list keys and string keys in separate maps. A wrong-type command on a key of the other kind is not modelled.
- The simulated upload progress ticker (`setInterval`) is not modelled. Only the final progress value is.
- Console logging and toasts are not modelled. Where a toast's text is a decision of the code, it appears as a result.
- ErrorHandler.LogError: the call to `sendErrorToServer` appears only as a flag saying that it happens.
- Key order: the order of `localStorage` keys is modelled as insertion order, which the Web Storage standard leaves to the browser. The only assumption about browsers that the cleanup finding and `GetInterruptedUploads`' "storage order" need is that removing a key closes the gap: every later key moves one place down, and nothing else is reordered.
- A refused `localStorage.setItem` is all or nothing, a `full` storage refusing every write. Its exception text is the browser's; `FileHandler.WRITE_REFUSED` stands for it.
- DbInit.InitWithSupabaseRpc: a client that throws is not distinguished from one that reports an error.
- DbInit.InitWithPostgres: a failing `COMMIT` is not modelled.
- SQL texts, the `logError` calls inside db-init, `tableExists`, `createHelperFunctions`, `createMissingTables` and `createTablesDirectly` are not modelled. They are REST and SQL traffic whose results come in as parameters.
- DbInit.EnsureDatabaseTables: the outer `catch` is not modelled. Every probe's failure is already caught per table, so it cannot be reached.
- The storage bucket name and `getPublicUrl` are parameters of the upload.
- FollowUpPage.StatusColor: keys inherited from `Object.prototype` (`"constructor"`, `"toString"`) are treated as absent. In the source they would give a function as the class name.
- ApplicationsPage.FromRows: `date_applied` arrives as the instant it denotes. Parsing and formatting dates is not modelled.
- Mock data and fallback texts are not modelled where no decision depends on them. This covers the sample lists rendered before data arrives and the canned model answers.
- `handleAnalyzeJob` and `handleGenerateEmail` of the follow-up page only call actions and show their answers, so they are not modelled.
- The summary sentence under the match score (app/dashboard/match/page.tsx:371-375) is not modelled. It is presentation built from the same thresholds as `MatchPage.BandOf`.
- AlertsPage.HandleCreateAlert: the answer of `createJobAlert` is a list of rows. An answer that is not an array is not modelled.
- The UI that lists interrupted uploads and offers to resume them is not modelled. Only `FileHandler.GetInterruptedUploads` is.
- The `fetchChatHistory` effect of the assistant panel is not modelled. It reads the database through `app/actions/db-actions.ts`, which is not part of this model. The panel starts from the history it is given.
- Some functions of app/actions/advanced-actions.ts are not modelled, because they only forward database or model answers. They are `getIndustryBenchmarks`, `calculateJobMatchScore`, `getJobAlerts`, `deleteJobAlert`, `getFollowUps`, `markFollowUpAsSent`, `getSalaryNegotiationAdvice`, and `generateResumeScore` beyond the reply it builds.

## Findings

| source | as written | input that shows it | evidently intended | confidence | as-written member | corrected member |
|---|---|---|---|---|---|---|
| utils/file-handler.ts:140-151 | `cleanupOldUploads` walks `localStorage` by index and calls `removeItem` inside the loop, so the item that slides into a removed slot is never examined | two `upload_` items adjacent in key order, both started before the cutoff: only the first is removed | every `upload_` item older than the cutoff is removed | not executed | FileHandler.CleanupOldUploadsAsWritten (lemma FileHandler.SweepSkipsNeighbour) | FileHandler.CleanupOldUploads |
