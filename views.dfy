/**
 * The two cached views of the translation API, `translate_text` and
 * `detect_language`, over the process-wide response cache.
 *
 * Each view is specified by a function from the cache before the request
 * to the response and the cache after it; the methods of `ResponseCache`
 * carry out the same steps on the cache they hold.
 */
module Views {
  import opened Options
  import opened Text
  import opened Languages
  import opened Errors
  import opened Validation
  import opened Strategies

  /** The raw body of a request: text that is not JSON, or the decoded JSON value. */
  datatype RequestBody = Malformed(detail: string) | Json(data: Payload)

  /** A POST request; header names are stored lower-cased. */
  datatype Request = Request(headers: map<string, string>, body: RequestBody)

  /** The body of a successful response, whose "status" field is "success". */
  datatype SuccessBody =
    | Translated(sourceLanguage: string, targetLanguage: string, targetLanguageName: string,
                 originalText: string, translatedText: string)
    | Detected(language: string, languageName: string)

  datatype Response = Success(body: SuccessBody) | Failure(error: ErrorResponse)

  /** The HTTP status of a response: 200 for a success. */
  function Status(r: Response): int {
    match r
    case Success(_) => 200
    case Failure(e) => e.status
  }

  /**
   * The key of a cache entry: "trans_<hash(message)>_<target>" for a
   * translation, "lang_detect_<hash(message)>" for a detection.
   */
  datatype CacheKey = TranslationKey(message: string, target: string) | DetectionKey(message: string)

  type Cache = map<CacheKey, SuccessBody>

  /** Each entry holds the kind of body its key names, for the message and target of the key. */
  predicate IsConsistent(cache: Cache) {
    forall k :: k in cache ==>
      match k
      case TranslationKey(m, t) => cache[k].Translated? && cache[k].originalText == m && cache[k].targetLanguage == t
      case DetectionKey(m) => cache[k].Detected?
  }

  datatype ViewResult = ViewResult(response: Response, cache: Cache)

  /** `get_error_response` turned into a response. */
  function ErrorFor(e: PyException, request: Request, adminToken: string): Response {
    Failure(GetErrorResponse(e, request.headers, adminToken))
  }

  /** The body stored and returned for a fresh translation. */
  function TranslatedBody(req: TranslateRequest, translated: string): SuccessBody {
    Translated(req.sourceLanguage, req.targetLanguage, GetLanguageDisplayName(req.targetLanguage), req.message, translated)
  }

  /**
   * The part of `translate_text` after validation: the cache lookup, the
   * time limit, and the translation, whose outcome is `outcome`.
   * `timedOut` says whether the translation outlived TRANSLATION_TIMEOUT,
   * in which case its result is not used.
   */
  function ServeTranslation(cache: Cache, request: Request, adminToken: string, req: TranslateRequest,
                            timedOut: bool, outcome: Outcome<string>): ViewResult {
    var key := TranslationKey(req.message, req.targetLanguage);
    if key in cache then ViewResult(Success(cache[key]), cache)
    else if timedOut then ViewResult(ErrorFor(TimeoutError(), request, adminToken), cache)
    else
      match outcome
      case Raised(e) => ViewResult(ErrorFor(e, request, adminToken), cache)
      case Ok(translated) =>
        var body := TranslatedBody(req, translated);
        ViewResult(Success(body), cache[key := body])
  }

  /** `translate_text`. */
  function TranslateView(cache: Cache, request: Request, adminToken: string, services: Services, timedOut: bool): ViewResult {
    match request.body
    case Malformed(detail) => ViewResult(ErrorFor(JsonDecodeError(detail), request, adminToken), cache)
    case Json(data) =>
      match ValidateRequestData(data)
      case Rejected(reason) => ViewResult(ErrorFor(ValueError(reason), request, adminToken), cache)
      case Accepted(req) =>
        ServeTranslation(cache, request, adminToken, req, timedOut,
          PerformTranslation(services, req.message, req.sourceLanguage, req.targetLanguage))
  }

  /** The body stored and returned for a fresh detection. */
  function DetectedBody(detected: string): SuccessBody {
    var code := NormalizeLanguageCode(detected);
    Detected(code, GetLanguageDisplayName(code))
  }

  /** The part of `detect_language` after validation: the cache lookup, then the detected code `detected`. */
  function ServeDetection(cache: Cache, req: DetectRequest, detected: string): ViewResult {
    var key := DetectionKey(req.message);
    if key in cache then ViewResult(Success(cache[key]), cache)
    else
      var body := DetectedBody(detected);
      ViewResult(Success(body), cache[key := body])
  }

  /** `detect_language`. `classify` stands for `langid.classify(message)[0]`. */
  function DetectView(cache: Cache, request: Request, adminToken: string, classify: string -> string): ViewResult {
    match request.body
    case Malformed(detail) => ViewResult(ErrorFor(JsonDecodeError(detail), request, adminToken), cache)
    case Json(data) =>
      match ValidateDetectData(data)
      case Rejected(reason) => ViewResult(ErrorFor(ValueError(reason), request, adminToken), cache)
      case Accepted(req) => ServeDetection(cache, req, classify(req.message))
  }

  /** The process-wide cache, as the two views use it. */
  class ResponseCache {
    var entries: Cache

    ghost predicate Valid()
      reads this
    {
      IsConsistent(entries)
    }

    constructor ()
      ensures Valid() && entries == map[]
    {
      entries := map[];
    }

    /** `translate_text`. */
    method TranslateText(request: Request, adminToken: string, services: Services, timedOut: bool)
      returns (response: Response)
      requires Valid()
      modifies this
      ensures Valid()
      ensures response == TranslateView(old(entries), request, adminToken, services, timedOut).response
      ensures entries == TranslateView(old(entries), request, adminToken, services, timedOut).cache
    {
      TranslateViewKeepsConsistency(entries, request, adminToken, services, timedOut);
      if request.body.Malformed? {
        response := ErrorFor(JsonDecodeError(request.body.detail), request, adminToken);
        return;
      }
      var checked := ValidateRequestData(request.body.data);
      if checked.Rejected? {
        response := ErrorFor(ValueError(checked.reason), request, adminToken);
        return;
      }
      var req := checked.data;
      var key := TranslationKey(req.message, req.targetLanguage);
      if key in entries {
        response := Success(entries[key]);
        return;
      }
      if timedOut {
        response := ErrorFor(TimeoutError(), request, adminToken);
        return;
      }
      var outcome := PerformTranslation(services, req.message, req.sourceLanguage, req.targetLanguage);
      if outcome.Raised? {
        response := ErrorFor(outcome.error, request, adminToken);
        return;
      }
      var body := TranslatedBody(req, outcome.value);
      entries := entries[key := body];
      response := Success(body);
    }

    /** `detect_language`. */
    method DetectLanguage(request: Request, adminToken: string, classify: string -> string)
      returns (response: Response)
      requires Valid()
      modifies this
      ensures Valid()
      ensures response == DetectView(old(entries), request, adminToken, classify).response
      ensures entries == DetectView(old(entries), request, adminToken, classify).cache
    {
      DetectViewKeepsConsistency(entries, request, adminToken, classify);
      if request.body.Malformed? {
        response := ErrorFor(JsonDecodeError(request.body.detail), request, adminToken);
        return;
      }
      var checked := ValidateDetectData(request.body.data);
      if checked.Rejected? {
        response := ErrorFor(ValueError(checked.reason), request, adminToken);
        return;
      }
      var key := DetectionKey(checked.data.message);
      if key in entries {
        response := Success(entries[key]);
        return;
      }
      var body := DetectedBody(classify(checked.data.message));
      entries := entries[key := body];
      response := Success(body);
    }
  }

  /** After validation, every entry stays consistent with its key. */
  lemma ServeTranslationKeepsConsistency(cache: Cache, request: Request, adminToken: string, req: TranslateRequest,
                                         timedOut: bool, outcome: Outcome<string>)
    requires IsConsistent(cache)
    ensures IsConsistent(ServeTranslation(cache, request, adminToken, req, timedOut, outcome).cache)
  {
    var after := ServeTranslation(cache, request, adminToken, req, timedOut, outcome).cache;
    var key := TranslationKey(req.message, req.targetLanguage);
    if after != cache {
      assert after == cache[key := after[key]];
      assert after[key].originalText == req.message && after[key].targetLanguage == req.targetLanguage;
    }
  }

  /** The translation view keeps every entry consistent with its key. */
  lemma TranslateViewKeepsConsistency(cache: Cache, request: Request, adminToken: string, services: Services, timedOut: bool)
    requires IsConsistent(cache)
    ensures IsConsistent(TranslateView(cache, request, adminToken, services, timedOut).cache)
  {
    if request.body.Json? && ValidateRequestData(request.body.data).Accepted? {
      var req := ValidateRequestData(request.body.data).data;
      ServeTranslationKeepsConsistency(cache, request, adminToken, req, timedOut,
        PerformTranslation(services, req.message, req.sourceLanguage, req.targetLanguage));
    }
  }

  /** The detection view keeps every entry consistent with its key. */
  lemma DetectViewKeepsConsistency(cache: Cache, request: Request, adminToken: string, classify: string -> string)
    requires IsConsistent(cache)
    ensures IsConsistent(DetectView(cache, request, adminToken, classify).cache)
  {
  }

  /**
   * On a hit the stored response is returned unchanged and nothing is
   * translated: the result depends neither on the time limit nor on the
   * outcome of a translation.
   */
  lemma TranslationHit(cache: Cache, request: Request, adminToken: string, req: TranslateRequest,
                       timedOut: bool, outcome: Outcome<string>)
    requires TranslationKey(req.message, req.targetLanguage) in cache
    ensures ServeTranslation(cache, request, adminToken, req, timedOut, outcome) ==
      ViewResult(Success(cache[TranslationKey(req.message, req.targetLanguage)]), cache)
  {
  }

  /**
   * On a miss, a timeout or a failed translation leaves the cache alone; a
   * translation is stored under the key of the cleaned message and target,
   * and nothing else in the cache changes.
   */
  lemma TranslationMiss(cache: Cache, request: Request, adminToken: string, req: TranslateRequest,
                        timedOut: bool, outcome: Outcome<string>)
    requires TranslationKey(req.message, req.targetLanguage) !in cache
    ensures var v := ServeTranslation(cache, request, adminToken, req, timedOut, outcome);
      && (timedOut ==> v == ViewResult(ErrorFor(TimeoutError(), request, adminToken), cache))
      && (!timedOut && outcome.Raised? ==> v == ViewResult(ErrorFor(outcome.error, request, adminToken), cache))
      && (!timedOut && outcome.Ok? ==>
            && v.response == Success(TranslatedBody(req, outcome.value))
            && v.cache == cache[TranslationKey(req.message, req.targetLanguage) := TranslatedBody(req, outcome.value)])
  {
  }

  /** Nothing is ever removed or overwritten: the cache only grows, by at most the request's key. */
  lemma TranslationCacheOnlyGrows(cache: Cache, request: Request, adminToken: string, services: Services, timedOut: bool)
    ensures var after := TranslateView(cache, request, adminToken, services, timedOut).cache;
      && (forall k :: k in cache ==> k in after && after[k] == cache[k])
      && |after.Keys - cache.Keys| <= 1
  {
    var after := TranslateView(cache, request, adminToken, services, timedOut).cache;
    if after != cache {
      var req := ValidateRequestData(request.body.data).data;
      var key := TranslationKey(req.message, req.targetLanguage);
      ServeGrowsByKey(cache, request, adminToken, req, timedOut,
        PerformTranslation(services, req.message, req.sourceLanguage, req.targetLanguage));
    }
  }

  /** After validation the cache is left alone or gains the request's key, which it did not hold. */
  lemma ServeGrowsByKey(cache: Cache, request: Request, adminToken: string, req: TranslateRequest,
                        timedOut: bool, outcome: Outcome<string>)
    ensures var after := ServeTranslation(cache, request, adminToken, req, timedOut, outcome).cache;
      var key := TranslationKey(req.message, req.targetLanguage);
      && (forall k :: k in cache ==> k in after && after[k] == cache[k])
      && (after == cache || (key !in cache && after.Keys - cache.Keys == {key}))
  {
  }

  /** Every failure leaves the cache as it was. */
  lemma FailuresAreNotCached(cache: Cache, request: Request, adminToken: string, services: Services, timedOut: bool)
    requires TranslateView(cache, request, adminToken, services, timedOut).response.Failure?
    ensures TranslateView(cache, request, adminToken, services, timedOut).cache == cache
  {
    if request.body.Json? && ValidateRequestData(request.body.data).Accepted? {
      var req := ValidateRequestData(request.body.data).data;
      ServeFailureKeepsCache(cache, request, adminToken, req, timedOut,
        PerformTranslation(services, req.message, req.sourceLanguage, req.targetLanguage));
    }
  }

  /** After validation, a failure leaves the cache as it was. */
  lemma ServeFailureKeepsCache(cache: Cache, request: Request, adminToken: string, req: TranslateRequest,
                               timedOut: bool, outcome: Outcome<string>)
    requires ServeTranslation(cache, request, adminToken, req, timedOut, outcome).response.Failure?
    ensures ServeTranslation(cache, request, adminToken, req, timedOut, outcome).cache == cache
  {
  }

  /** A request repeated after a success is answered with the same body, whatever the services do then. */
  lemma RepeatedTranslation(cache: Cache, request: Request, adminToken: string, s1: Services, t1: bool, s2: Services, t2: bool)
    requires TranslateView(cache, request, adminToken, s1, t1).response.Success?
    ensures var first := TranslateView(cache, request, adminToken, s1, t1);
      TranslateView(first.cache, request, adminToken, s2, t2) == first
  {
    var req := ValidateRequestData(request.body.data).data;
    var o1 := PerformTranslation(s1, req.message, req.sourceLanguage, req.targetLanguage);
    var o2 := PerformTranslation(s2, req.message, req.sourceLanguage, req.targetLanguage);
    RepeatedServe(cache, request, adminToken, req, t1, o1, t2, o2);
  }

  /** After a success the request's key is in the cache, so the same request is then a hit. */
  lemma RepeatedServe(cache: Cache, request: Request, adminToken: string, req: TranslateRequest,
                      t1: bool, o1: Outcome<string>, t2: bool, o2: Outcome<string>)
    requires ServeTranslation(cache, request, adminToken, req, t1, o1).response.Success?
    ensures var first := ServeTranslation(cache, request, adminToken, req, t1, o1);
      ServeTranslation(first.cache, request, adminToken, req, t2, o2) == first
  {
  }

  /**
   * The key leaves out the source language: once a translation is cached, a
   * request for the same message and target from another source language
   * receives it, source language included.
   */
  lemma SourceLanguageNotInKey(cache: Cache, fields: map<string, string>, source: string, adminToken: string,
                               headers: map<string, string>, s1: Services, t1: bool, s2: Services, t2: bool)
    requires TranslateView(cache, Request(headers, Json(Object(fields))), adminToken, s1, t1).response.Success?
    ensures var first := TranslateView(cache, Request(headers, Json(Object(fields))), adminToken, s1, t1);
      var other := Request(headers, Json(Object(fields["source_language" := source])));
      TranslateView(first.cache, other, adminToken, s2, t2).response == first.response
  {
    SourceNeverRejects(fields, source);
    var request := Request(headers, Json(Object(fields)));
    var other := Request(headers, Json(Object(fields["source_language" := source])));
    var req := ValidateRequestData(Object(fields)).data;
    var req2 := ValidateRequestData(Object(fields["source_language" := source])).data;
    var o1 := PerformTranslation(s1, req.message, req.sourceLanguage, req.targetLanguage);
    var o2 := PerformTranslation(s2, req2.message, req2.sourceLanguage, req2.targetLanguage);
    var first := ServeTranslation(cache, request, adminToken, req, t1, o1);
    SameKeyServe(first.cache, other, adminToken, req, req2, t2, o2);
    RepeatedServe(cache, request, adminToken, req, t1, o1, t2, o1);
  }

  /** Two cleaned requests with the same message and target share a cache entry. */
  lemma SameKeyServe(cache: Cache, request: Request, adminToken: string, req1: TranslateRequest, req2: TranslateRequest,
                     timedOut: bool, outcome: Outcome<string>)
    requires req1.message == req2.message && req1.targetLanguage == req2.targetLanguage
    requires TranslationKey(req1.message, req1.targetLanguage) in cache
    ensures ServeTranslation(cache, request, adminToken, req2, timedOut, outcome).response ==
      Success(cache[TranslationKey(req1.message, req1.targetLanguage)])
  {
  }

  /** The status of each outcome of the translation view. */
  lemma TranslationStatus(cache: Cache, request: Request, adminToken: string, services: Services, timedOut: bool)
    ensures var r := TranslateView(cache, request, adminToken, services, timedOut).response;
      && (request.body.Malformed? ==> Status(r) == 400)
      && (request.body.Json? && ValidateRequestData(request.body.data).Rejected? ==> Status(r) == 500)
      && Status(r) in {200, 400, 408, 500}
  {
    if request.body.Json? && ValidateRequestData(request.body.data).Accepted? {
      var req := ValidateRequestData(request.body.data).data;
      var outcome := PerformTranslation(services, req.message, req.sourceLanguage, req.targetLanguage);
      if outcome.Raised? {
        PerformTranslationErrors(services, req.message, req.sourceLanguage, req.targetLanguage);
      }
      ServeStatus(cache, request, adminToken, req, timedOut, outcome);
    }
  }

  /** After validation: 200 for a hit or a translation, 408 for a timeout, and the error's own status otherwise. */
  lemma ServeStatus(cache: Cache, request: Request, adminToken: string, req: TranslateRequest,
                    timedOut: bool, outcome: Outcome<string>)
    ensures var r := ServeTranslation(cache, request, adminToken, req, timedOut, outcome).response;
      var key := TranslationKey(req.message, req.targetLanguage);
      && (key in cache ==> Status(r) == 200)
      && (key !in cache && timedOut ==> Status(r) == 408)
      && (key !in cache && !timedOut ==> Status(r) == if outcome.Ok? then 200 else StatusCode(outcome.error))
  {
  }

  /** The detection view: a hit returns the stored body; a miss stores the normalised detected code and its name. */
  lemma DetectionCache(cache: Cache, req: DetectRequest, detected: string)
    ensures var key := DetectionKey(req.message);
      var v := ServeDetection(cache, req, detected);
      && (key in cache ==> v == ViewResult(Success(cache[key]), cache))
      && (key !in cache ==>
            var code := NormalizeLanguageCode(detected);
            v.response == Success(Detected(code, GetLanguageDisplayName(code))) && v.cache == cache[key := v.response.body])
  {
  }

  /** A detection request that fails validation gets status 500 and leaves the cache alone. */
  lemma DetectionRejected(cache: Cache, request: Request, adminToken: string, classify: string -> string)
    requires request.body.Json? && ValidateDetectData(request.body.data).Rejected?
    ensures Status(DetectView(cache, request, adminToken, classify).response) == 500
    ensures DetectView(cache, request, adminToken, classify).cache == cache
  {
  }
}
