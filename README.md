# Translation API decision layer

A Dafny model of the request-handling logic in `django_app/api/views.py` of
a Django translation site. The model covers:

- the language tables: the African languages (`AFRICAN_LANGUAGES`), the code
  aliases (`LANGUAGE_CODES`), the display names (`LANGUAGE_NAMES`) and the
  user-facing error messages (`USER_FRIENDLY_MESSAGES`);
- code normalisation, the African-language test and the display name;
- the choice between the Google strategy and the African strategy, and both
  strategies, with the remote services passed in as outcomes;
- the two request validators;
- `get_error_response`, which chooses between the administrator's detail
  and a user-friendly message and picks the HTTP status;
- the two cached views, `translate_text` and `detect_language`, over the
  process-wide response cache.

Modules:

| module | file | contents |
|---|---|---|
| `Options` | options.dfy | the `Option` type used for dictionary lookups |
| `Text` | text.dfy | Python's `str.strip` (over Python's whitespace set) and `str.lower` (ASCII letters) |
| `Languages` | languages.dfy | the tables; `normalize_language_code`, `is_african_language`, `get_language_display_name` |
| `Errors` | errors.dfy | exceptions as class name, text and `isinstance` family; `get_error_response` |
| `Validation` | validation.dfy | `validate_request_data`, `validate_detect_data` |
| `Strategies` | strategies.dfy | `get_translation_strategy`, the two strategies, `perform_translation` |
| `Views` | views.dfy | the two views as functions from the cache before a request to the response and the cache after it, and the class `ResponseCache`, whose methods run the same steps on the cache they hold |

`LANGUAGE_CODES` is a dictionary literal that ends by mapping every African
code to itself, and a later key replaces an earlier one. The model writes it
as ten group lookups searched from last to first, followed by the African
override.

Some facts of the tables as written are proved as lemmas; none of them is a
change to the program:

- "iw" and "he" normalise to each other.
- "chi" normalises to "zh", whose normal form is "zh-CN".
- "fil" normalises to "tl", which has no name, so a "fil" target is refused.
- The mixed-case African codes "bm-Nkoo" and "ber-Latn" can never be the
  result of normalisation, so they are neither recognised as African nor
  accepted as targets.

## Model

| member | source | states |
|---|---|---|
| Text.Strip | django_app/api/views.py:510 | `str.strip()`; specified by Text.StripSpec and Text.StripIdempotent |
| Text.Lower | django_app/api/views.py:510 | `str.lower()` on ASCII letters: the same length, each character lower-cased; further specified by Text.LowerIdempotent and Text.LowerStripCommute |
| Text.StripSpec | django_app/api/views.py:510 | `strip()` returns the slice of the input between a whitespace-only prefix and a whitespace-only suffix, with no whitespace at either end; it is empty exactly when the input is all whitespace |
| Text.StripIdempotent | django_app/api/views.py:510 | stripping twice is stripping once |
| Text.LowerIdempotent | django_app/api/views.py:510 | a lower-cased string has no upper-case letter and is its own lower-case form |
| Text.LowerStripCommute | django_app/api/views.py:510 | `lower().strip()` and `strip().lower()` agree, so the validator and the normaliser compute the same lookup key |
| Text.LowerStripIdempotent | django_app/api/views.py:510 | the lookup key is lower case, trimmed, and its own lookup key |
| Languages.IsAfricanCode | django_app/api/views.py:68-112 | the keys of AFRICAN_LANGUAGES; specified by Languages.AfricanCodeShape |
| Languages.AfricanLanguageName | django_app/api/views.py:68-112 | the names of AFRICAN_LANGUAGES; specified by Languages.AfricanNamesOverride and Languages.SwahiliDisplayName |
| Languages.LanguageCode | django_app/api/views.py:115-230 | LANGUAGE_CODES, later entries overriding earlier ones; specified by Languages.AliasValueShape, Languages.AfricanCodesAreFixedPoints, Languages.AfricanKeyExactly and the alias lemmas |
| Languages.LanguageName | django_app/api/views.py:234-395 | LANGUAGE_NAMES with AFRICAN_LANGUAGES merged over it; specified by Languages.AfricanNamesOverride, Languages.SwahiliDisplayName and Validation.SupportedTargetIsNamed |
| Languages.NormalizeLanguageCode | django_app/api/views.py:506-512 | `normalize_language_code`; specified by Languages.NormalizeBlank, Languages.NormalizeCanonical, Languages.NormalizeIgnoresCaseAndPadding, Languages.NormalFormsAreLowerCase and Languages.MixedCaseAfricanCodesUnreachable |
| Languages.IsAfricanLanguage | django_app/api/views.py:496-498 | `is_african_language`; characterised in both directions by Languages.IsAfricanLanguageExactly |
| Languages.GetLanguageDisplayName | django_app/api/views.py:500-504 | `get_language_display_name`; specified by Languages.DisplayNameOfEmpty, Languages.AfricanNamesOverride and Languages.DisplayNameFallback |
| Languages.LookupKeyShape | django_app/api/views.py:510 | the key looked up in LANGUAGE_CODES is lower case, trimmed, and fixed by lowering and stripping again |
| Languages.NormalizeCanonical | django_app/api/views.py:506-512 | a non-empty, lower-case, trimmed code normalises to its LANGUAGE_CODES entry, and to itself when it has none |
| Languages.NormalizeBlank | django_app/api/views.py:506-512 | the empty code normalises to "auto"; any other all-whitespace code normalises to the empty string |
| Languages.NormalizeIgnoresCaseAndPadding | django_app/api/views.py:506-512 | normalising a code is normalising its lower-cased, stripped form, when that form is not empty |
| Languages.NormalizeAlias | django_app/api/views.py:506-512 | a canonical key with an entry normalises to that entry |
| Languages.HebrewAliasCycle | django_app/api/views.py:119-230 | "iw" maps to "he" and "he" back to "iw", so normalising twice returns the original code |
| Languages.ChiNormalizesTwice | django_app/api/views.py:119-230 | the later "chi" entry wins, giving "zh", and normalising again gives "zh-CN": normalisation is not idempotent |
| Languages.AfricanCodeShape | django_app/api/views.py:68-112 | every African code is non-empty letters and hyphens with no surrounding whitespace, and is lower case except "bm-Nkoo" and "ber-Latn" |
| Languages.AfricanCodesAreFixedPoints | django_app/api/views.py:228-230 | every lower-case African code normalises to itself and is African |
| Languages.AliasValueShape | django_app/api/views.py:115-227 | every alias value is lower case (or "zh-CN"/"zh-TW"), is African only for "gav", "gax", "gaz", and is never "fil" or "ckb" |
| Languages.AlternativeIsoCodesNotAfrican | django_app/api/views.py:169-201 | no value among the alternative ISO codes is an African code |
| Languages.NormalFormsAreLowerCase | django_app/api/views.py:506-512 | every normal form has no upper-case letter, except "zh-CN" and "zh-TW" |
| Languages.MixedCaseAfricanCodesUnreachable | django_app/api/views.py:506-512 | no code normalises to "bm-Nkoo" or "ber-Latn" |
| Languages.AfricanKeyExactly | django_app/api/views.py:496-498 | a lower-case key leads to an African code exactly when it is a lower-case African code or one of "gav", "gax", "gaz" |
| Languages.IsAfricanLanguageExactly | django_app/api/views.py:496-498 | `is_african_language` holds exactly for a non-empty code whose lookup key is a recognised African key |
| Languages.MixedCaseAfricanCodesNotRecognised | django_app/api/views.py:496-498 | "bm-Nkoo" and "ber-Latn" are not African languages under the test |
| Languages.FilAndCkbUnreachable | django_app/api/views.py:119-230 | no code normalises to "fil" or "ckb", so their LANGUAGE_NAMES entries can never be shown |
| Languages.DisplayNameOfEmpty | django_app/api/views.py:500-504 | the empty code is displayed as "Auto-detect" |
| Languages.AfricanNamesOverride | django_app/api/views.py:234-395 | for a lower-case African code the name from AFRICAN_LANGUAGES replaces any other name |
| Languages.DisplayNameFallback | django_app/api/views.py:500-504 | a code whose normal form has no name is displayed as "Unknown (<code as given>)" |
| Languages.SwahiliDisplayName | django_app/api/views.py:234-395 | "sw" is listed as "Swahili (Kiswahili)" but displayed with its AFRICAN_LANGUAGES name |
| Languages.FilDisplayName | django_app/api/views.py:500-504 | "fil" has a name, but it normalises to "tl", which has none, so it is displayed as "Unknown (fil)" |
| Languages.NormalizeAuto | django_app/api/views.py:506-512 | "auto" is its own normal form and has a name |
| Languages.NormalizeUnknown | django_app/api/views.py:506-512 | "unknown" is its own normal form and has a name |
| Languages.BmNkooHasNoName | django_app/api/views.py:234-395 | the lower-cased form "bm-nkoo" has no name |
| Errors.UserFriendlyMessages | django_app/api/views.py:57-65 | USER_FRIENDLY_MESSAGES; its entries appear in Errors.ValidationFailureIsServerError, Errors.JsonDecodeErrorResponse, Errors.TimeoutErrorResponse, Errors.TranslationErrorResponse and Errors.FallbackMessage |
| Errors.FriendlyMessage | django_app/api/views.py:421 | the table entry for a class name, else the "Exception" entry; specified by Errors.FriendlyMessageFallback and Errors.ErrorBodyContents |
| Errors.StatusCode | django_app/api/views.py:423-432 | the status is 400 exactly for a JSON decoding error, 408 exactly for a timeout that is not one, 503 exactly for a request failure that is neither, and 500 otherwise |
| Errors.GetErrorResponse | django_app/api/views.py:398-434 | the status is the family's status, and the detail is shown exactly when both debugging headers match |
| Errors.ErrorBodyContents | django_app/api/views.py:404-421 | the administrator sees the exception's text and class name; anyone else sees the table message for the class name |
| Errors.FriendlyMessageFallback | django_app/api/views.py:57-65 | an unlisted class name gets the generic "Exception" message |
| Errors.AdminNeedsBothHeaders | django_app/api/views.py:403-406 | a missing token header, a missing debug header, a token other than ADMIN_TOKEN, or any debug value other than "true" (such as "True") hides the detail |
| Errors.ValidationFailureIsServerError | django_app/api/views.py:398-434 | a validation failure (`ValueError`) is answered with status 500 and the invalid-data message, or with its reason for the administrator |
| Errors.JsonDecodeErrorResponse | django_app/api/views.py:398-434 | a malformed body gets status 400 and the data-format message |
| Errors.TimeoutErrorResponse | django_app/api/views.py:398-434 | a timeout gets status 408 and the slow-service message |
| Errors.TranslationErrorResponse | django_app/api/views.py:398-434 | a failed translation gets status 500 and the translation-failed message |
| Errors.ConnectionErrorsShareMessageNotStatus | django_app/api/views.py:398-434 | the two classes named `ConnectionError` share a message, but only the one from `requests` gets 503 |
| Errors.ReadTimeoutIsRequestFailure | django_app/api/views.py:398-434 | a read timeout from `requests` gets status 503 and the generic message, not the timeout answer |
| Validation.ValidateRequestData | django_app/api/views.py:520-553 | an accepted request came from an object; its message is the stripped message, of length 1 to 5000; its target is supported |
| Validation.ValidateRequestDataAccepts | django_app/api/views.py:520-553 | a request is accepted exactly when it is an object, the stripped message has 1 to 5000 characters, the target is not blank, and the normalised target has a name |
| Validation.SupportedTargetIsNamed | django_app/api/views.py:543 | "in LANGUAGE_NAMES or in AFRICAN_LANGUAGES" is the same as "in LANGUAGE_NAMES", since the names include the African table |
| Validation.NotAnObjectRejected | django_app/api/views.py:523-524 | a value that is not a JSON object is refused as an invalid format by both validators |
| Validation.BlankMessageRejected | django_app/api/views.py:530-531 | a missing or blank message is refused as required by both validators |
| Validation.LongMessageRejected | django_app/api/views.py:533-534 | a stripped message longer than 5000 characters is refused with the maximum-length reason by both validators |
| Validation.BlankTargetRejected | django_app/api/views.py:536-537 | a missing or blank target is refused as required |
| Validation.UnsupportedTargetRejected | django_app/api/views.py:543-544 | a non-blank target whose normal form has no name is refused, naming that normal form |
| Validation.RejectionReasons | django_app/api/views.py:520-553 | every reason for refusing is one of four fixed texts, or "Unsupported target language: " followed by the normalised target of the request |
| Validation.AcceptedLanguages | django_app/api/views.py:527-541 | the accepted languages are the normal forms of the lower-cased, stripped fields; a missing source becomes "auto" |
| Validation.SourceNeverRejects | django_app/api/views.py:528-546 | the source language never causes a refusal, and does not change the accepted message or target |
| Validation.DetectAcceptsWhatTranslateAccepts | django_app/api/views.py:569-585 | whatever the translation validator accepts, the detection validator accepts with the same message |
| Validation.ValidateDetectData | django_app/api/views.py:569-588 | a request is accepted exactly when it is an object whose stripped message has 1 to 5000 characters, and then that message is the data |
| Validation.TargetOutcome | django_app/api/views.py:520-553 | with a valid message, a target is accepted as its normal form when that form has a name, and is otherwise refused as unsupported |
| Validation.AutoTargetAccepted | django_app/api/views.py:520-553 | "auto" is accepted as a target |
| Validation.UnknownTargetAccepted | django_app/api/views.py:520-553 | "unknown" is accepted as a target |
| Validation.FilTargetRejected | django_app/api/views.py:520-553 | "fil" is refused as the unsupported target "tl" |
| Validation.BmNkooTargetRejected | django_app/api/views.py:520-553 | "bm-Nkoo" is refused as the unsupported target "bm-nkoo" |
| Validation.BerLatnTargetRejected | django_app/api/views.py:520-553 | "ber-Latn" is refused as the unsupported target "ber-latn" |
| Strategies.GetTranslationStrategy | django_app/api/views.py:514-518 | `get_translation_strategy`; characterised in both directions by Strategies.StrategySelection |
| Strategies.GoogleTranslate | django_app/api/views.py:445-452 | the Google strategy; its results and errors are described by Strategies.NonAfricanTargetFallsThrough |
| Strategies.AfricanAttempt | django_app/api/views.py:457-485 | the body of the African strategy's outer `try`; specified by Strategies.OuterAfricanHandlerUnreachable |
| Strategies.AfricanTranslate | django_app/api/views.py:457-494 | the African strategy; specified by Strategies.AfricanTargetNeverRaises, Strategies.AfricanTargetIgnoresGoogle and Strategies.NonAfricanTargetFallsThrough |
| Strategies.PerformTranslation | django_app/api/views.py:555-567 | `perform_translation`; specified by Strategies.PerformTranslationErrors and Strategies.AfricanSourceFallsThroughToGoogle |
| Strategies.StrategySelection | django_app/api/views.py:514-518 | the African strategy is chosen exactly when the source or the target is non-empty and its lookup key is a recognised African key |
| Strategies.EmptySourceLeavesTargetToDecide | django_app/api/views.py:514-518 | with an empty source, the target alone decides the strategy |
| Strategies.AutoIsNotAfrican | django_app/api/views.py:496-498 | the empty code is not African, since it normalises to "auto" |
| Strategies.AfricanTargetNeverRaises | django_app/api/views.py:457-481 | for an African target the African strategy always returns: the local translation, or a bracketed error text naming the language and the cause |
| Strategies.OuterAfricanHandlerUnreachable | django_app/api/views.py:485-494 | for an African target the outer handler of the African strategy is never reached |
| Strategies.AfricanTargetIgnoresGoogle | django_app/api/views.py:457-481 | for an African target the result does not depend on Google |
| Strategies.NonAfricanTargetFallsThrough | django_app/api/views.py:445-494 | for a non-African target both strategies call Google, and they differ only in the text of the error they raise |
| Strategies.PerformTranslationErrors | django_app/api/views.py:555-567 | every failure of `perform_translation` is a `TranslationError` whose text starts "Translation failed: " |
| Strategies.AfricanSourceFallsThroughToGoogle | django_app/api/views.py:514-567 | an African source with a non-African target chooses the African strategy, which then calls Google |
| Views.ServeTranslation | django_app/api/views.py:643-668 | `translate_text` after validation; specified by Views.TranslationHit, Views.TranslationMiss, Views.ServeGrowsByKey, Views.ServeFailureKeepsCache, Views.RepeatedServe and Views.ServeStatus |
| Views.TranslateView | django_app/api/views.py:629-673 | `translate_text`; specified by Views.TranslateViewKeepsConsistency, Views.TranslationCacheOnlyGrows, Views.FailuresAreNotCached, Views.RepeatedTranslation, Views.SourceLanguageNotInKey and Views.TranslationStatus |
| Views.ServeDetection | django_app/api/views.py:607-622 | `detect_language` after validation; specified by Views.DetectionCache |
| Views.DetectView | django_app/api/views.py:592-626 | `detect_language`; specified by Views.DetectViewKeepsConsistency and Views.DetectionRejected |
| Views.ServeTranslationKeepsConsistency | django_app/api/views.py:643-668 | after validation, every cache entry still holds a translation of its key's message into its key's target |
| Views.TranslateViewKeepsConsistency | django_app/api/views.py:629-673 | the translation view keeps every cache entry consistent with its key |
| Views.DetectViewKeepsConsistency | django_app/api/views.py:592-626 | the detection view keeps every cache entry consistent with its key |
| Views.TranslationHit | django_app/api/views.py:643-646 | on a hit the stored body is returned and the cache is unchanged, whatever the time limit and the translation would give |
| Views.TranslationMiss | django_app/api/views.py:648-668 | on a miss, a timeout or a failed translation leaves the cache alone, and a translation is stored under the key of the message and target, with nothing else changed |
| Views.ServeGrowsByKey | django_app/api/views.py:643-668 | after validation, no entry is removed or changed, and the only possible new key is the request's own, which was absent |
| Views.TranslationCacheOnlyGrows | django_app/api/views.py:629-673 | the translation view never removes or overwrites an entry, and adds at most one |
| Views.ServeFailureKeepsCache | django_app/api/views.py:643-668 | after validation, a failure leaves the cache as it was |
| Views.FailuresAreNotCached | django_app/api/views.py:629-673 | every failure of the translation view leaves the cache as it was |
| Views.RepeatedServe | django_app/api/views.py:643-668 | after validation, a request repeated after a success is a hit with the same response |
| Views.RepeatedTranslation | django_app/api/views.py:629-673 | a request repeated after a success gets the same response and cache, whatever the services do the second time |
| Views.SameKeyServe | django_app/api/views.py:643 | two validated requests with the same message and target share the cache entry |
| Views.SourceLanguageNotInKey | django_app/api/views.py:643-668 | the key leaves out the source language, so a request that differs only in its source gets the cached response, source language included |
| Views.ServeStatus | django_app/api/views.py:643-668 | a hit or a translation gives 200, a timeout 408, and a failure its error's status |
| Views.TranslationStatus | django_app/api/views.py:629-673 | a malformed body gives 400, a refused request 500, and any response of the translation view has status 200, 400, 408 or 500 |
| Views.DetectionCache | django_app/api/views.py:607-622 | a detection hit returns the stored body; a miss stores and returns the normalised detected code and its display name |
| Views.DetectionRejected | django_app/api/views.py:597-604 | a detection request that fails validation gets status 500 and leaves the cache alone |
| Views.ResponseCache.TranslateText | django_app/api/views.py:629-673 | the response and the new cache are those of the translation view on the old cache, and the cache stays consistent |
| Views.ResponseCache.DetectLanguage | django_app/api/views.py:592-626 | the response and the new cache are those of the detection view on the old cache, and the cache stays consistent |
| Views.ResponseCache.constructor | django_app/api/views.py:35 | the cache starts empty and consistent |

## Left out

- Remote services: Google Translate, `LocalPageCreationService.create_page` and `LocalTranslationService.translate_url` are function parameters that return a value or an exception. Their HTTP traffic, HTML parsing and URLs are not modelled.
- `langid.classify` is the `classify` parameter of the detection view.
- The thread pool and `future.result(timeout=TRANSLATION_TIMEOUT)` are a `timedOut` flag. When it is set the translation's result is not used and the view raises `TimeoutError`. This treats `concurrent.futures.TimeoutError` as the built-in `TimeoutError`, as in Python 3.11.
- Cache expiry (`CACHE_TIMEOUT`) and eviction are not modelled: entries never expire.
- Cache keys: the model keys on the message itself rather than `hash(message)`, so hash collisions between messages are not modelled.
- `@lru_cache` on `get_language_display_name` only memoises a pure function, so it is not modelled.
- Lower-casing covers the ASCII letters only. Python's Unicode case mapping is not modelled. Stripping uses Python's whitespace set.
- JSON values are modelled as the strings `str()` makes of them; `str()` of numbers, lists and other values is not modelled.
- A request body that is not valid JSON is one `JSONDecodeError`. A body that is not UTF-8 (a `UnicodeDecodeError`) is not modelled.
- The `except Exception` branches of the two validators (views.py:551-553 and 586-588) cannot be reached once values are strings, so they are not modelled.
- The catch-all handler of each view is modelled only for the exceptions the model can raise. Errors inside `langid`, `JsonResponse` or the cache backend are not modelled.
- The views `create_page` and `create_and_translate_page` (views.py:675-743) are not part of this model.
- The traceback and timestamp of the administrator's error detail are not modelled, and neither is logging.
- `ADMIN_TOKEN` is a string parameter, and headers are a map from lower-cased header names, since Django looks headers up regardless of case.
- Views.SourceLanguageNotInKey: proved for a request whose source field is replaced; other differences in fields that validation ignores are not covered.
- The model has no lemma saying that normalising an accepted target again changes nothing. That does not hold in general ("he" and "iw" are each other's aliases), and the table-by-table version was not written.
