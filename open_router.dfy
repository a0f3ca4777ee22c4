/**
 * lib/openrouter.ts: `analyzeFood` sends a food photo to a chat-completions
 * endpoint and turns the reply into a name and four macro numbers, or into
 * one of a fixed set of error messages. The endpoint is an oracle: its reply
 * is an input. The module-level `CACHE` is read on every call.
 */
module OpenRouter {
  import opened Common
  import opened JsText

  /** The analysis result. */
  datatype FoodAnalysis = FoodAnalysis(name: string, calories: real, protein: real, carbs: real, fat: real)

  /** The `error` object of a provider error nested in `metadata.raw`; `None` is an absent key. */
  datatype ProviderError = ProviderError(kind: Option<string>, message: Option<string>)

  /** `data.error.metadata.raw`: absent or empty, not JSON, or JSON whose `error` field is given. */
  datatype RawField = NoRaw | Unparsable | Parsed(providerError: Option<ProviderError>)

  /** The truthy `data.error` object. */
  datatype ApiError = ApiError(message: Option<string>, code: Option<int>, raw: RawField)

  /** What `JSON.parse(content)` gives. */
  datatype Content =
    | NotJson
    | NonObject
    | Fields(name: Option<string>, calories: Option<real>, protein: Option<real>, carbs: Option<real>, fat: Option<real>)

  /** `data.choices[0]`: the content text, the finish reason, and what the content parses to. */
  datatype Choice = Choice(content: Option<string>, finishReason: Option<string>, parsed: Content)

  /** What `response.json()` gives: a failure, a value that is not an object, or an object. */
  datatype Body =
    | Unreadable(failure: string)
    | NotAnObject
    | Data(error: Option<ApiError>, firstChoice: Option<Choice>)

  /** How the request ends: the 10 s abort fired, `fetch` failed otherwise, or an HTTP reply arrived. */
  datatype Reply =
    | Aborted
    | NetworkFailure(failure: string)
    | Http(status: int, bodyText: string, body: Body)

  /** The errors `analyzeFood` throws. */
  datatype AnalysisError =
    | MissingApiKey
    | RequestFailed(status: int, body: string)
    | InvalidResponse
    | ImageFormat
    | RateLimited
    | JpegOnly
    | TemporaryIssue
    | AnalysisFailed(detail: string)
    | Truncated
    | Incomplete
    | InvalidJson
    | TimedOut
    | Rethrown(original: string)
  {
    function Message(): string
    {
      match this
      case MissingApiKey =>
        "OpenRouter API key is not configured - please add NEXT_PUBLIC_OPENROUTER_API_KEY to your .env.local file"
      case RequestFailed(status, body) => "API request failed with status " + IntToString(status) + ": " + body
      case InvalidResponse => "OpenRouter API returned an invalid response - please try again"
      case ImageFormat => "Invalid image format - please ensure the image is a clear JPEG."
      case RateLimited => "API rate limit exceeded - please try again later"
      case JpegOnly => "Please upload a clear JPEG photo of your food (other formats not supported)"
      case TemporaryIssue => "Temporary issue with food analysis - please try again in a moment"
      case AnalysisFailed(detail) => "Food analysis failed: " + detail
      case Truncated => "Response was truncated - please try a simpler request"
      case Incomplete => "Received incomplete response from OpenRouter - please try again"
      case InvalidJson => "Claude response was not valid JSON."
      case TimedOut => "Request timed out - please try again"
      case Rethrown(original) => original
    }
  }

  type Outcome = Result<FoodAnalysis, AnalysisError>

  /** The number of payload characters the cache key keeps. */
  const KeyLength: nat := 100

  /** `base64Image.substring(0, 100)`. */
  function CacheKey(image: string): (key: string)
    ensures |key| <= KeyLength && |key| <= |image| && key == image[..|key|]
    ensures |image| <= KeyLength ==> key == image
    ensures |image| >= KeyLength ==> |key| == KeyLength
  {
    if |image| <= KeyLength then image else image[..KeyLength]
  }

  /** Two payloads that agree on their first 100 characters share a cache entry, whatever follows. */
  lemma SharedPrefixSharesKey(a: string, b: string)
    requires |a| >= KeyLength && |b| >= KeyLength && a[..KeyLength] == b[..KeyLength]
    ensures CacheKey(a) == CacheKey(b)
  {
  }

  /** The key's own key is itself: looking a key up again finds the same entry. */
  lemma CacheKeyIdempotent(image: string)
    ensures CacheKey(CacheKey(image)) == CacheKey(image)
  {
  }

  /** JavaScript `x || 0` on an optional number. */
  function OrZero(x: Option<real>): real
  {
    if x.Some? && x.value != 0.0 then x.value else 0.0
  }

  /** The returned object: falsy name and macros get their defaults, truthy values pass through. */
  function Normalize(name: Option<string>, calories: Option<real>, protein: Option<real>, carbs: Option<real>, fat: Option<real>): (f: FoodAnalysis)
    ensures f.name == if name.Some? && name.value != "" then name.value else "Unknown Food"
    ensures f.name != ""
    ensures calories.Some? ==> f.calories == calories.value
    ensures protein.Some? ==> f.protein == protein.value
    ensures carbs.Some? ==> f.carbs == carbs.value
    ensures fat.Some? ==> f.fat == fat.value
    ensures calories.None? ==> f.calories == 0.0
    ensures protein.None? ==> f.protein == 0.0
    ensures carbs.None? ==> f.carbs == 0.0
    ensures fat.None? ==> f.fat == 0.0
  {
    FoodAnalysis(if name.Some? && name.value != "" then name.value else "Unknown Food",
      OrZero(calories), OrZero(protein), OrZero(carbs), OrZero(fat))
  }

  /** Normalising what normalisation returned changes nothing. */
  lemma NormalizeIdempotent(name: Option<string>, calories: Option<real>, protein: Option<real>, carbs: Option<real>, fat: Option<real>)
    ensures var f := Normalize(name, calories, protein, carbs, fat);
      Normalize(Some(f.name), Some(f.calories), Some(f.protein), Some(f.carbs), Some(f.fat)) == f
  {
  }

  /** The first guidance check: a provider error object with both keys, of type `invalid_request_error`, mentioning "image". */
  predicate ImageFormatError(e: ApiError)
  {
    && e.raw.Parsed? && e.raw.providerError.Some?
    && var pe := e.raw.providerError.value;
    && pe.kind.Some? && pe.message.Some?
    && pe.kind.value == "invalid_request_error" && Includes(pe.message.value, "image")
  }

  /** `providerError?.message || data.error.message`, re-parsed after the first check (unparsable raw gives `null`). */
  function ErrorMessage(e: ApiError): Option<string>
  {
    if e.raw.Parsed? && e.raw.providerError.Some? && e.raw.providerError.value.message.Some?
      && e.raw.providerError.value.message.value != ""
    then e.raw.providerError.value.message
    else e.message
  }

  /** The second check: an invalid request, or a message about the image or its media type. */
  predicate JpegError(e: ApiError)
  {
    || (e.raw.Parsed? && e.raw.providerError.Some? && e.raw.providerError.value.kind == Some("invalid_request_error"))
    || (ErrorMessage(e).Some? && (Includes(ErrorMessage(e).value, "image") || Includes(ErrorMessage(e).value, "media type")))
  }

  /** The third check: the top-level message mentions the provider. */
  predicate ProviderIssue(e: ApiError)
  {
    e.message.Some? && Includes(e.message.value, "provider")
  }

  /**
   * The `data.error` branch, for a reply of HTTP status `status`: it always
   * throws. The checks run in a fixed order; the first that holds decides.
   */
  function ClassifyApiError(status: int, e: ApiError): (r: AnalysisError)
    ensures r == ImageFormat <==> ImageFormatError(e)
    ensures r == RateLimited <==> !ImageFormatError(e) && status == 429
    ensures r == JpegOnly <==> !ImageFormatError(e) && status != 429 && JpegError(e)
    ensures r == TemporaryIssue <==> !ImageFormatError(e) && status != 429 && !JpegError(e) && ProviderIssue(e)
    ensures r.AnalysisFailed? <==> !ImageFormatError(e) && status != 429 && !JpegError(e) && !ProviderIssue(e)
    ensures r.AnalysisFailed? ==>
      r.detail == if ErrorMessage(e).Some? && ErrorMessage(e).value != "" then ErrorMessage(e).value else "Unknown error"
  {
    if ImageFormatError(e) then ImageFormat
    else if status == 429 then RateLimited
    else if JpegError(e) then JpegOnly
    else if ProviderIssue(e) then TemporaryIssue
    else
      var m := ErrorMessage(e);
      AnalysisFailed(if m.Some? && m.value != "" then m.value else "Unknown error")
  }

  /** A provider error of type `invalid_request_error` mentioning "image" gets the image-format message, never the JPEG one. */
  lemma ImageFormatTakesPrecedence(status: int, e: ApiError)
    requires ImageFormatError(e)
    ensures JpegError(e) && ClassifyApiError(status, e) == ImageFormat
  {
  }

  /** The checks after the content is known to be present: it must parse to an object. */
  function ParseContent(c: Content): (r: Outcome)
    ensures r.Failure? <==> !c.Fields?
    ensures r.Failure? ==> r.error == InvalidJson
    ensures c.Fields? ==> r == Success(Normalize(c.name, c.calories, c.protein, c.carbs, c.fat))
  {
    match c
    case Fields(name, calories, protein, carbs, fat) => Success(Normalize(name, calories, protein, carbs, fat))
    case _ => Failure(InvalidJson)
  }

  predicate IsOk(status: int) { 200 <= status <= 299 }

  /** `choices[0].message.content` is present and non-empty. */
  predicate HasContent(firstChoice: Option<Choice>)
  {
    firstChoice.Some? && firstChoice.value.content.Some? && firstChoice.value.content.value != ""
  }

  /** The error for missing content: truncated when the finish reason is "length", incomplete otherwise. */
  function MissingContent(firstChoice: Option<Choice>): (e: AnalysisError)
    ensures e == Truncated <==> firstChoice.Some? && firstChoice.value.finishReason == Some("length")
    ensures e != Truncated ==> e == Incomplete
  {
    if firstChoice.Some? && firstChoice.value.finishReason == Some("length") then Truncated else Incomplete
  }

  /**
   * Everything after the cache lookup, as written: an abort becomes the
   * timeout message, every other thrown error passes through unchanged.
   */
  function Interpret(reply: Reply): (r: Outcome)
    ensures reply.Aborted? <==> r == Failure(TimedOut)
    ensures reply.NetworkFailure? ==> r == Failure(Rethrown(reply.failure))
    ensures reply.Http? && !IsOk(reply.status) ==> r == Failure(RequestFailed(reply.status, reply.bodyText))
    ensures reply.Http? && IsOk(reply.status) && reply.body.Unreadable? ==> r == Failure(Rethrown(reply.body.failure))
    ensures reply.Http? && IsOk(reply.status) && reply.body.NotAnObject? ==> r == Failure(InvalidResponse)
    ensures reply.Http? && IsOk(reply.status) && reply.body.Data? && reply.body.error.Some? ==>
      r == Failure(ClassifyApiError(reply.status, reply.body.error.value))
    ensures reply.Http? && IsOk(reply.status) && reply.body.Data? && reply.body.error.None? && !HasContent(reply.body.firstChoice) ==>
      r == Failure(MissingContent(reply.body.firstChoice))
    ensures reply.Http? && IsOk(reply.status) && reply.body.Data? && reply.body.error.None? && HasContent(reply.body.firstChoice) ==>
      r == ParseContent(reply.body.firstChoice.value.parsed)
    ensures r.Success? ==>
      && reply.Http? && reply.body.Data? && reply.body.firstChoice.Some?
      && r == ParseContent(reply.body.firstChoice.value.parsed)
  {
    match reply
    case Aborted => Failure(TimedOut)
    case NetworkFailure(failure) => Failure(Rethrown(failure))
    case Http(status, bodyText, body) =>
      if !IsOk(status) then Failure(RequestFailed(status, bodyText))
      else match body
        case Unreadable(failure) => Failure(Rethrown(failure))
        case NotAnObject => Failure(InvalidResponse)
        case Data(error, firstChoice) =>
          if error.Some? then Failure(ClassifyApiError(status, error.value))
          else if !HasContent(firstChoice) then Failure(MissingContent(firstChoice))
          else ParseContent(firstChoice.value.parsed)
  }

  /**
   * Any non-2xx reply throws before the `data.error` branch is reached, and a
   * 2xx reply never has status 429: the rate-limit message is never produced.
   */
  lemma RateLimitUnreachable(reply: Reply)
    ensures Interpret(reply) != Failure(RateLimited)
  {
  }

  /** A 429 reply gets the generic request-failure message instead. */
  lemma RateLimitReportedAsRequestFailure(bodyText: string, body: Body)
    ensures Interpret(Http(429, bodyText, body)) == Failure(RequestFailed(429, bodyText))
  {
  }

  /** Everything after the cache lookup with the 429 check moved before the generic status check. */
  function InterpretCorrected(reply: Reply): (r: Outcome)
    ensures reply.Http? && reply.status == 429 ==> r == Failure(RateLimited)
    ensures !(reply.Http? && reply.status == 429) ==> r == Interpret(reply)
  {
    if reply.Http? && reply.status == 429 then Failure(RateLimited) else Interpret(reply)
  }

  /** Missing content: "length" as the finish reason gives the truncation message, anything else the incomplete one. */
  lemma MissingContentMessages(status: int, bodyText: string, content: Option<string>, finishReason: Option<string>, parsed: Content)
    requires IsOk(status) && (content.None? || content == Some(""))
    ensures Interpret(Http(status, bodyText, Data(None, Some(Choice(content, finishReason, parsed))))) ==
      Failure(if finishReason == Some("length") then Truncated else Incomplete)
    ensures Interpret(Http(status, bodyText, Data(None, None))) == Failure(Incomplete)
  {
  }

  /** The only successful path: a 2xx object reply without `error` whose content parses to an object. */
  lemma SuccessNeedsContent(reply: Reply)
    requires Interpret(reply).Success?
    ensures reply.Http? && IsOk(reply.status) && reply.body.Data? && reply.body.error.None?
    ensures reply.body.firstChoice.Some? && reply.body.firstChoice.value.content.Some?
      && reply.body.firstChoice.value.content.value != "" && reply.body.firstChoice.value.parsed.Fields?
  {
  }

  /** The module-level cache and the calls that use it. */
  class FoodAnalyzer {
    var cache: map<string, FoodAnalysis>

    /** `new Map()` at module load. */
    constructor()
      ensures cache == map[]
    {
      cache := map[];
    }

    /**
     * `analyzeFood` as written: the key guard, then the cache lookup, then the
     * request. `requested` says whether the request was sent. The cache is
     * read but never written.
     */
    method AnalyzeFood(image: string, apiKeyConfigured: bool, reply: Reply) returns (r: Outcome, requested: bool)
      ensures !apiKeyConfigured ==> r == Failure(MissingApiKey) && !requested
      ensures apiKeyConfigured && CacheKey(image) in cache ==> r == Success(cache[CacheKey(image)]) && !requested
      ensures apiKeyConfigured && CacheKey(image) !in cache ==> requested && r == Interpret(reply)
    {
      if !apiKeyConfigured {
        return Failure(MissingApiKey), false;
      }
      var key := CacheKey(image);
      if key in cache {
        return Success(cache[key]), false;
      }
      r := Interpret(reply);
      requested := true;
    }

    /** `analyzeFood` with the result stored under its key, as the cache intends. */
    method AnalyzeFoodCaching(image: string, apiKeyConfigured: bool, reply: Reply) returns (r: Outcome, requested: bool)
      modifies this
      ensures !apiKeyConfigured ==> r == Failure(MissingApiKey) && !requested && cache == old(cache)
      ensures apiKeyConfigured && CacheKey(image) in old(cache) ==>
        r == Success(old(cache)[CacheKey(image)]) && !requested && cache == old(cache)
      ensures apiKeyConfigured && CacheKey(image) !in old(cache) ==> requested && r == Interpret(reply)
      ensures apiKeyConfigured && CacheKey(image) !in old(cache) && r.Success? ==>
        cache == old(cache)[CacheKey(image) := r.value]
      ensures r.Failure? ==> cache == old(cache)
    {
      if !apiKeyConfigured {
        return Failure(MissingApiKey), false;
      }
      var key := CacheKey(image);
      if key in cache {
        return Success(cache[key]), false;
      }
      r := Interpret(reply);
      requested := true;
      if r.Success? {
        cache := cache[key := r.value];
      }
    }
  }

  /**
   * As written, the same photo analysed twice on a fresh module sends two
   * requests: the lookup never hits.
   */
  method SamePhotoTwice(image: string, first: Reply, second: Reply) returns (sentFirst: bool, sentSecond: bool)
    ensures sentFirst && sentSecond
  {
    var analyzer := new FoodAnalyzer();
    var _, a := analyzer.AnalyzeFood(image, true, first);
    var _, b := analyzer.AnalyzeFood(image, true, second);
    sentFirst, sentSecond := a, b;
  }

  /**
   * With the store in place, a photo whose first analysis succeeded is answered
   * from the cache the second time, with the first result.
   */
  method SamePhotoTwiceCaching(image: string, first: Reply, second: Reply)
    returns (sentFirst: bool, sentSecond: bool, r1: Outcome, r2: Outcome)
    ensures sentFirst && r1 == Interpret(first)
    ensures r1.Success? ==> !sentSecond && r2 == r1
    ensures r1.Failure? ==> sentSecond && r2 == Interpret(second)
  {
    var analyzer := new FoodAnalyzer();
    r1, sentFirst := analyzer.AnalyzeFoodCaching(image, true, first);
    r2, sentSecond := analyzer.AnalyzeFoodCaching(image, true, second);
  }
}
