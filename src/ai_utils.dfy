/**
 * The cache-or-generate wrapper around model calls, the two cached model
 * calls built on it, and the 32-bit string hash used in cache keys
 * (utils/ai-utils.ts).
 */
module AiUtils {
  import opened Common
  import opened Strings
  import opened Json
  import opened KvStore
  import opened RedisClient
  import opened OpenAi

  // ---------------------------------------------------------------------
  // hashString
  // ---------------------------------------------------------------------

  const TWO_32 := 0x1_0000_0000
  const TWO_31 := 0x8000_0000

  /** JavaScript's conversion of a number to a signed 32-bit integer (as `x & x` and `x << 5` apply it). */
  function ToInt32(x: int): (r: int)
    ensures -TWO_31 <= r < TWO_31
    ensures (r - x) % TWO_32 == 0
  {
    (x + TWO_31) % TWO_32 - TWO_31
  }

  /** The conversion subtracts a whole number of 2^32 steps. */
  lemma ToInt32Offset(x: int)
    ensures ToInt32(x) == x - ((x + TWO_31) / TWO_32) * TWO_32
  {
  }

  /** Adding whole multiples of 2^32 does not change the 32-bit value. */
  lemma ToInt32Shift(y: int, q: int)
    ensures ToInt32(y + q * TWO_32) == ToInt32(y)
  {
    ToInt32Offset(y);
    ToInt32Offset(y + q * TWO_32);
    var k := (y + TWO_31) / TWO_32;
    assert (y + q * TWO_32 + TWO_31) / TWO_32 == k + q;
  }

  /** One step of the loop as written: `hash = ((hash << 5) - hash + char) & ...`. */
  function HashStep(hash: int, unit: int): int
  {
    ToInt32(ToInt32(hash * 32) - hash + unit)
  }

  /** The step multiplies by 31 and adds the code unit, in 32-bit arithmetic. */
  lemma HashStepTimes31(hash: int, unit: int)
    ensures HashStep(hash, unit) == ToInt32(31 * hash + unit)
  {
    ToInt32Offset(hash * 32);
    var k := (hash * 32 + TWO_31) / TWO_32;
    assert ToInt32(hash * 32) - hash + unit == (31 * hash + unit) + (-k) * TWO_32;
    ToInt32Shift(31 * hash + unit, -k);
  }

  /** The hash value after the loop has consumed `units` (UTF-16 code units). */
  function HashValue(units: seq<int>): int
  {
    if |units| == 0 then 0 else HashStep(HashValue(units[..|units| - 1]), units[|units| - 1])
  }

  /** Reference definition: the polynomial sum of units[i] * 31^(n-1-i), without wrap-around. */
  function Polynomial(units: seq<int>): int
  {
    if |units| == 0 then 0 else 31 * Polynomial(units[..|units| - 1]) + units[|units| - 1]
  }

  /** The loop computes the polynomial hash reduced to a signed 32-bit integer. */
  lemma {:induction false} HashIsPolynomialMod32(units: seq<int>)
    ensures HashValue(units) == ToInt32(Polynomial(units))
    decreases |units|
  {
    if |units| > 0 {
      var front := units[..|units| - 1];
      var last := units[|units| - 1];
      HashIsPolynomialMod32(front);
      var p := Polynomial(front);
      HashStepTimes31(ToInt32(p), last);
      ToInt32Offset(p);
      var k := (p + TWO_31) / TWO_32;
      assert 31 * ToInt32(p) + last == (31 * p + last) + (-31 * k) * TWO_32;
      ToInt32Shift(31 * p + last, -31 * k);
    }
  }

  /** `hashString(str)`: the hash of the string's code units, in base 36. */
  function Hash(units: seq<int>): string
  {
    ToRadix(HashValue(units), 36)
  }

  /** Equal hash strings mean equal 32-bit hash values, and the reverse. */
  lemma HashStringsMatchValues(u1: seq<int>, u2: seq<int>)
    ensures Hash(u1) == Hash(u2) <==> HashValue(u1) == HashValue(u2)
  {
    RadixInjective(HashValue(u1), HashValue(u2), 36);
  }

  /** A hash string never holds a colon, so it stays one piece of a cache key. */
  lemma HashHasNoColon(units: seq<int>)
    ensures ':' !in Hash(units)
  {
    var n := HashValue(units);
    var d := Digits(if n < 0 then -n else n, 36);
    assert forall i :: 0 <= i < |d| ==> d[i] != ':' by {
      DigitsAvoidColon(if n < 0 then -n else n);
    }
    if n < 0 {
      assert Hash(units) == "-" + d;
      assert forall i :: 0 <= i < |"-" + d| ==> ("-" + d)[i] != ':' by {
        forall i | 0 <= i < |"-" + d| ensures ("-" + d)[i] != ':' {
          if i > 0 { assert ("-" + d)[i] == d[i - 1]; }
        }
      }
    }
  }

  lemma {:induction false} DigitsAvoidColon(n: nat)
    ensures forall i :: 0 <= i < |Digits(n, 36)| ==> Digits(n, 36)[i] != ':'
    decreases n
  {
    if n >= 36 {
      DivStep(n, 36);
      DigitsAvoidColon(n / 36);
    }
  }

  /** The loop of `hashString`, over the string's UTF-16 code units. */
  method HashString(units: seq<int>) returns (h: string)
    ensures h == Hash(units)
    ensures h == ToRadix(ToInt32(Polynomial(units)), 36)
  {
    var hash := 0;
    var i := 0;
    while i < |units|
      invariant 0 <= i <= |units|
      invariant hash == HashValue(units[..i])
    {
      assert units[..i + 1][..i] == units[..i];
      hash := (ToInt32(hash * 32) - hash + units[i]);
      hash := ToInt32(hash);
      i := i + 1;
    }
    assert units[..i] == units;
    HashIsPolynomialMod32(units);
    h := ToRadix(hash, 36);
  }

  /** The empty string hashes to "0". */
  lemma EmptyHash()
    ensures Hash([]) == "0"
  {
  }

  // ---------------------------------------------------------------------
  // getCachedOrGenerateAIResponse
  // ---------------------------------------------------------------------

  /**
   * Look `key` up; on a miss run the generator and cache its result for `ttl`
   * seconds. Any failure inside (the lookup, the generator, the write) falls
   * back to running the generator once more and returning whatever that gives.
   * `first` and `second` are what the generator's first and second runs
   * produce; `calls` is how many times it ran.
   */
  method GetCachedOrGenerate(store: Store, key: string, first: Result<Json>, second: Result<Json>,
                             ttl: int := CACHE_TTL_MEDIUM)
    returns (r: Result<Json>, calls: nat)
    modifies store`ops, store`values
    ensures calls <= 2
    ensures old(store.Fails(0)) ==> r == first && calls == 1 && store.values == old(store.values)
    ensures !old(store.Fails(0)) && Present(old(store.Lookup(key))) ==>
      r == Ok(old(store.Lookup(key)).value) && calls == 0 && store.values == old(store.values)
    ensures !old(store.Fails(0)) && !Present(old(store.Lookup(key))) && first.Err? ==>
      r == second && calls == 2 && store.values == old(store.values)
    ensures !old(store.Fails(0)) && !Present(old(store.Lookup(key))) && first.Ok? ==>
      if !old(store.Fails(1)) && ttl > 0 then
        r == first && calls == 1 &&
        store.values == old(store.values)[key := Entry(first.value, Some(store.now + ttl))]
      else
        r == second && calls == 2 && store.values == old(store.values)
  {
    var cached := store.Get(key);
    if cached.Err? {
      return first, 1;
    }
    if cached.value.Some? && Truthy(cached.value.value) {
      return Ok(cached.value.value), 0;
    }
    if first.Err? {
      return second, 2;
    }
    var written := store.Set(key, first.value, Some(ttl));
    if written.Err? {
      return second, 2;
    }
    r, calls := first, 1;
  }

  // ---------------------------------------------------------------------
  // optimizeResumeForJob and getCompanyInsights
  // ---------------------------------------------------------------------

  /** The first `n` UTF-16 code units of a string (`substring(0, n)` as JavaScript counts). */
  function UnitPrefix(s: string, n: nat): seq<int>
  {
    var u := Utf16(s);
    u[..Min(n, |u|)]
  }

  /** Cache key of an optimisation: the hashes of the first 100 code units of each text. */
  function ResumeOptimizeKey(resumeText: string, jobDescription: string): string
  {
    GenerateCacheKey("resume:optimize", [Hash(UnitPrefix(resumeText, 100)), Hash(UnitPrefix(jobDescription, 100))])
  }

  lemma OptimizePrefixPieces()
    ensures Split("resume:optimize", ':') == ["resume", "optimize"]
  {
    OptimizePrefixJoined();
    SplitConcat("resume", "optimize", ':');
    OptimizePrefixWords();
  }

  lemma OptimizePrefixJoined()
    ensures "resume:optimize" == "resume" + [':'] + "optimize"
  {
  }

  lemma OptimizePrefixWords()
    ensures Split("resume", ':') == ["resume"] && Split("optimize", ':') == ["optimize"]
  {
    SplitWithoutSeparator("resume", ':');
    SplitWithoutSeparator("optimize", ':');
  }

  /** The key splits into the prefix's two pieces and the two hashes, so it is never ambiguous. */
  lemma ResumeKeyPieces(resumeText: string, jobDescription: string)
    ensures Split(ResumeOptimizeKey(resumeText, jobDescription), ':') ==
      ["resume", "optimize", Hash(UnitPrefix(resumeText, 100)), Hash(UnitPrefix(jobDescription, 100))]
  {
    var args := [Hash(UnitPrefix(resumeText, 100)), Hash(UnitPrefix(jobDescription, 100))];
    HashHasNoColon(UnitPrefix(resumeText, 100));
    HashHasNoColon(UnitPrefix(jobDescription, 100));
    KeySplitsIntoArguments("resume:optimize", args);
    OptimizePrefixPieces();
  }

  /** Texts that agree on their first 100 code units share one cached optimisation. */
  lemma SharedResumePrefixSharesKey(r1: string, r2: string, j1: string, j2: string)
    requires UnitPrefix(r1, 100) == UnitPrefix(r2, 100) && UnitPrefix(j1, 100) == UnitPrefix(j2, 100)
    ensures ResumeOptimizeKey(r1, j1) == ResumeOptimizeKey(r2, j2)
  {
  }

  const RESUME_OPTIMIZER_PROMPT :=
    "You are an expert resume optimizer. Your task is to optimize the provided resume to better match the job description. "
    + "Focus on highlighting relevant skills and experiences, using keywords from the job description, and tailoring the content to the specific role. "
    + "Return ONLY the optimized resume text without any additional explanations."

  /** The request of an optimisation: both texts cut to 2000 characters. */
  function OptimizeMessages(resumeText: string, jobDescription: string): (m: seq<ChatMessage>)
    ensures |m| == 2 && m[0].role == "system" && m[1].role == "user"
  {
    [ChatMessage("system", RESUME_OPTIMIZER_PROMPT),
     ChatMessage("user", "Resume: " + Take(resumeText, 2000) + "\n\nJob Description: " + Take(jobDescription, 2000)
       + "\n\nPlease optimize this resume for the job.")]
  }

  /** What one run of the optimisation generator yields. */
  function OptimizeOutcome(c: Completion): Result<Json>
  {
    match c
    case Err(e) => Err(e)
    case Ok(content) => Ok(JStr(ContentOrEmpty(content)))
  }

  /**
   * `optimizeResumeForJob`: `complete(n, m)` is the model's answer to its
   * `n`-th request `m`. Both generator runs send the same request, but the
   * answers may differ (the model samples at temperature 0.7, and a
   * transient failure may be followed by a success).
   */
  method OptimizeResumeForJob(store: Store, resumeText: string, jobDescription: string,
                              complete: (nat, seq<ChatMessage>) -> Completion)
    returns (r: Result<Json>, calls: nat)
    modifies store`ops, store`values
    ensures calls <= 2
    ensures var key := ResumeOptimizeKey(resumeText, jobDescription);
      var first := OptimizeOutcome(complete(1, OptimizeMessages(resumeText, jobDescription)));
      var second := OptimizeOutcome(complete(2, OptimizeMessages(resumeText, jobDescription)));
      && (old(store.Fails(0)) ==> r == first && calls == 1 && store.values == old(store.values))
      && (!old(store.Fails(0)) && Present(old(store.Lookup(key))) ==>
            r == Ok(old(store.Lookup(key)).value) && calls == 0 && store.values == old(store.values))
      && (!old(store.Fails(0)) && !Present(old(store.Lookup(key))) ==>
            if first.Ok? && !old(store.Fails(1)) then
              r == first && calls == 1 &&
              store.values == old(store.values)[key := Entry(first.value, Some(store.now + CACHE_TTL_MEDIUM))]
            else
              r == second && calls == 2 && store.values == old(store.values))
  {
    var request := OptimizeMessages(resumeText, jobDescription);
    r, calls := GetCachedOrGenerate(store, ResumeOptimizeKey(resumeText, jobDescription),
                                    OptimizeOutcome(complete(1, request)), OptimizeOutcome(complete(2, request)));
  }

  const INFO_UNAVAILABLE := "Information not available"

  /** The insights reported when the model's answer is not JSON. */
  const INSIGHTS_FALLBACK := JObj(map[
    "culture" := JStr(INFO_UNAVAILABLE),
    "salaryRange" := JStr(INFO_UNAVAILABLE),
    "workLifeBalance" := JStr(INFO_UNAVAILABLE),
    "growthOpportunities" := JStr(INFO_UNAVAILABLE),
    "reviews" := JArr([JStr("No reviews available")])])

  function CompanyInsightsKey(companyName: string): string
  {
    GenerateCacheKey("company:insights", [companyName])
  }

  /** Different companies never share insights: the name is the whole rest of the key. */
  lemma CompanyKeysSeparate(a: string, b: string)
    ensures CompanyInsightsKey(a) == CompanyInsightsKey(b) <==> a == b
  {
    var n := |"company:insights:"|;
    assert CompanyInsightsKey(a) == "company:insights:" + a;
    assert CompanyInsightsKey(b) == "company:insights:" + b;
    if CompanyInsightsKey(a) == CompanyInsightsKey(b) {
      assert a == CompanyInsightsKey(a)[n..];
      assert b == CompanyInsightsKey(b)[n..];
    }
  }

  /**
   * One run of the insights generator: the content (or "{}" when empty) is
   * parsed by `parse`, JSON.parse's verdict; unparseable content gives the
   * fallback.
   */
  function InsightsOutcome(c: Completion, parse: string -> Option<Json>): (r: Result<Json>)
    ensures c.Err? <==> r.Err?
    ensures c.Ok? && parse(if ContentOrEmpty(c.value) == "" then "{}" else ContentOrEmpty(c.value)).None? ==>
      r == Ok(INSIGHTS_FALLBACK)
  {
    match c
    case Err(e) => Err(e)
    case Ok(content) =>
      var text := ContentOrEmpty(content);
      match parse(if text == "" then "{}" else text)
      case None => Ok(INSIGHTS_FALLBACK)
      case Some(v) => Ok(v)
  }

  /**
   * `getCompanyInsights`: cached for a week under `company:insights:<name>`.
   * `firstAnswer` and `secondAnswer` are the model's answers to the first and
   * the second generator run.
   */
  method GetCompanyInsights(store: Store, companyName: string, firstAnswer: Completion, secondAnswer: Completion,
                            parse: string -> Option<Json>)
    returns (r: Result<Json>, calls: nat)
    modifies store`ops, store`values
    ensures calls <= 2
    ensures var key := CompanyInsightsKey(companyName);
      var first := InsightsOutcome(firstAnswer, parse);
      var second := InsightsOutcome(secondAnswer, parse);
      && (old(store.Fails(0)) ==> r == first && calls == 1 && store.values == old(store.values))
      && (!old(store.Fails(0)) && Present(old(store.Lookup(key))) ==>
            r == Ok(old(store.Lookup(key)).value) && calls == 0 && store.values == old(store.values))
      && (!old(store.Fails(0)) && !Present(old(store.Lookup(key))) ==>
            if first.Ok? && !old(store.Fails(1)) then
              r == first && calls == 1 &&
              store.values == old(store.values)[key := Entry(first.value, Some(store.now + CACHE_TTL_WEEK))]
            else
              r == second && calls == 2 && store.values == old(store.values))
  {
    r, calls := GetCachedOrGenerate(store, CompanyInsightsKey(companyName),
                                    InsightsOutcome(firstAnswer, parse), InsightsOutcome(secondAnswer, parse), CACHE_TTL_WEEK);
  }
}
