/**
 * The request validators of the translation API, `validate_request_data`
 * and `validate_detect_data`: an ordered chain of checks whose first
 * failure decides the error message, and, on success, the cleaned data.
 *
 * The decoded JSON body is either not an object or an object whose fields
 * are given as the text `str()` makes of them.
 */
module Validation {
  import opened Options
  import opened Text
  import opened Languages

  /** The decoded request body. */
  datatype Payload = NotAnObject | Object(fields: map<string, string>)

  /** The outcome of a validator: `(True, None, data)` or `(False, message, None)`. */
  datatype Checked<T> = Accepted(data: T) | Rejected(reason: string)

  /** The cleaned data of a translation request. */
  datatype TranslateRequest = TranslateRequest(message: string, targetLanguage: string, sourceLanguage: string)

  /** The cleaned data of a detection request. */
  datatype DetectRequest = DetectRequest(message: string)

  /** MAX_TEXT_LENGTH. */
  const MaxTextLength := 5000

  /** `data.get(name, default)` on an object. */
  function Field(fields: map<string, string>, name: string, default: string): string {
    if name in fields then fields[name] else default
  }

  /** The stripped message of an object body. */
  function CleanMessage(fields: map<string, string>): string {
    Strip(Field(fields, "message", ""))
  }

  /** The stripped, lower-cased target language, before normalisation. */
  function RawTarget(fields: map<string, string>): string {
    Lower(Strip(Field(fields, "target_language", "")))
  }

  /** The stripped, lower-cased source language, "auto" when absent, before normalisation. */
  function RawSource(fields: map<string, string>): string {
    Lower(Strip(Field(fields, "source_language", "auto")))
  }

  /** The target check: in LANGUAGE_NAMES or in AFRICAN_LANGUAGES. */
  predicate IsSupportedTarget(code: string) {
    HasLanguageName(code) || IsAfricanCode(code)
  }

  /** The check on the message shared by both validators, or `None` when it passes. */
  function MessageProblem(message: string): Option<string> {
    if message == [] then Some("Message is required")
    else if |message| > MaxTextLength then Some("Message exceeds maximum length of 5000 characters")
    else None
  }

  /** `validate_request_data`. */
  function ValidateRequestData(data: Payload): (r: Checked<TranslateRequest>)
    ensures r.Accepted? ==> data.Object?
    ensures r.Accepted? ==> r.data.message == CleanMessage(data.fields)
    ensures r.Accepted? ==> 1 <= |r.data.message| <= MaxTextLength
    ensures r.Accepted? ==> IsSupportedTarget(r.data.targetLanguage)
  {
    match data
    case NotAnObject => Rejected("Invalid request format")
    case Object(fields) =>
      var message := CleanMessage(fields);
      var target := RawTarget(fields);
      var source := RawSource(fields);
      if MessageProblem(message).Some? then Rejected(MessageProblem(message).value)
      else if target == [] then Rejected("Target language is required")
      else
        var targetLanguage := NormalizeLanguageCode(target);
        var sourceLanguage := NormalizeLanguageCode(source);
        if !IsSupportedTarget(targetLanguage) then
          Rejected("Unsupported target language: " + targetLanguage)
        else
          Accepted(TranslateRequest(message, targetLanguage, sourceLanguage))
  }

  /** `validate_detect_data`. */
  function ValidateDetectData(data: Payload): (r: Checked<DetectRequest>)
    ensures r.Accepted? <==> data.Object? && 1 <= |CleanMessage(data.fields)| <= MaxTextLength
    ensures r.Accepted? ==> r.data == DetectRequest(CleanMessage(data.fields))
  {
    match data
    case NotAnObject => Rejected("Invalid request format")
    case Object(fields) =>
      var message := CleanMessage(fields);
      if MessageProblem(message).Some? then Rejected(MessageProblem(message).value)
      else Accepted(DetectRequest(message))
  }

  /** The second half of the target check adds nothing: the African names are merged into LANGUAGE_NAMES. */
  lemma SupportedTargetIsNamed(code: string)
    ensures IsSupportedTarget(code) <==> HasLanguageName(code)
  {
  }

  /**
   * A translation request is accepted exactly when the body is an object,
   * the stripped message has 1 to 5000 characters, the target is not blank
   * and its normal form has a display name.
   */
  lemma ValidateRequestDataAccepts(data: Payload)
    ensures ValidateRequestData(data).Accepted? <==>
      && data.Object?
      && 1 <= |CleanMessage(data.fields)| <= MaxTextLength
      && !AllSpace(Field(data.fields, "target_language", ""))
      && HasLanguageName(NormalizeLanguageCode(RawTarget(data.fields)))
  {
    if data.Object? {
      var raw := Field(data.fields, "target_language", "");
      StripSpec(raw);
      assert |Lower(Strip(raw))| == |Strip(raw)|;
    }
  }

  /** The first check: a body that is not an object is refused before anything else is read. */
  lemma NotAnObjectRejected()
    ensures ValidateRequestData(NotAnObject) == Rejected("Invalid request format")
    ensures ValidateDetectData(NotAnObject) == Rejected("Invalid request format")
  {
  }

  /** The second check: a missing or blank message is refused, whatever the languages. */
  lemma BlankMessageRejected(fields: map<string, string>)
    requires AllSpace(Field(fields, "message", ""))
    ensures ValidateRequestData(Object(fields)) == Rejected("Message is required")
    ensures ValidateDetectData(Object(fields)) == Rejected("Message is required")
  {
    StripSpec(Field(fields, "message", ""));
  }

  /** The third check: a stripped message over 5000 characters is refused, whatever the languages. */
  lemma LongMessageRejected(fields: map<string, string>)
    requires |CleanMessage(fields)| > MaxTextLength
    ensures ValidateRequestData(Object(fields)) == Rejected("Message exceeds maximum length of 5000 characters")
    ensures ValidateDetectData(Object(fields)) == Rejected("Message exceeds maximum length of 5000 characters")
  {
  }

  /** The fourth check: a missing or blank target is refused once the message is good. */
  lemma BlankTargetRejected(fields: map<string, string>)
    requires 1 <= |CleanMessage(fields)| <= MaxTextLength
    requires AllSpace(Field(fields, "target_language", ""))
    ensures ValidateRequestData(Object(fields)) == Rejected("Target language is required")
  {
    StripSpec(Field(fields, "target_language", ""));
  }

  /** The fifth check: a target whose normal form has no name is refused, and the message quotes the normal form. */
  lemma UnsupportedTargetRejected(fields: map<string, string>)
    requires 1 <= |CleanMessage(fields)| <= MaxTextLength
    requires RawTarget(fields) != []
    requires !HasLanguageName(NormalizeLanguageCode(RawTarget(fields)))
    ensures ValidateRequestData(Object(fields)) ==
      Rejected("Unsupported target language: " + NormalizeLanguageCode(RawTarget(fields)))
  {
  }

  /** Every rejection carries one of the five messages of the chain. */
  lemma RejectionReasons(data: Payload)
    requires ValidateRequestData(data).Rejected?
    ensures var reason := ValidateRequestData(data).reason;
      || reason == "Invalid request format"
      || reason == "Message is required"
      || reason == "Message exceeds maximum length of 5000 characters"
      || reason == "Target language is required"
      || (&& data.Object?
          && reason == "Unsupported target language: " + NormalizeLanguageCode(RawTarget(data.fields))
          && |reason| >= 29 && reason[..29] == "Unsupported target language: ")
  {
    match data
    case NotAnObject =>
    case Object(fields) =>
      if MessageProblem(CleanMessage(fields)).None? && RawTarget(fields) != [] {
        var t := NormalizeLanguageCode(RawTarget(fields));
        assert ValidateRequestData(data).reason == "Unsupported target language: " + t;
        UnsupportedReason(t);
      }
  }

  /** The message of the fifth check starts with its fixed prefix. */
  lemma UnsupportedReason(t: string)
    ensures var reason := "Unsupported target language: " + t;
      |reason| >= 29 && reason[..29] == "Unsupported target language: "
  {
    var prefix := "Unsupported target language: ";
    assert |prefix| == 29;
    assert (prefix + t)[..|prefix|] == prefix;
  }

  /** The cleaned target and source are the normal forms of the stripped, lower-cased inputs. */
  lemma AcceptedLanguages(data: Payload)
    requires ValidateRequestData(data).Accepted?
    ensures ValidateRequestData(data).data.targetLanguage == NormalizeLanguageCode(RawTarget(data.fields))
    ensures ValidateRequestData(data).data.sourceLanguage == NormalizeLanguageCode(RawSource(data.fields))
    ensures Field(data.fields, "source_language", "auto") == "auto" ==>
      ValidateRequestData(data).data.sourceLanguage == "auto"
  {
    if Field(data.fields, "source_language", "auto") == "auto" {
      SourceAuto();
    }
    assert data.Object?;
  }

  /** "auto", the default source, is its own normal form. */
  lemma SourceAuto()
    ensures Lower(Strip("auto")) == "auto"
    ensures NormalizeLanguageCode(Lower(Strip("auto"))) == "auto"
  {
    CanonicalText("auto");
    NormalizeAuto();
  }

  /** The source language is never a reason to refuse a request, nor does it change the message or target. */
  lemma SourceNeverRejects(fields: map<string, string>, source: string)
    ensures var a := ValidateRequestData(Object(fields));
      var b := ValidateRequestData(Object(fields["source_language" := source]));
      && a.Accepted? == b.Accepted?
      && (a.Rejected? ==> a.reason == b.reason)
      && (a.Accepted? ==> a.data.message == b.data.message && a.data.targetLanguage == b.data.targetLanguage)
  {
    var g := fields["source_language" := source];
    assert Field(g, "message", "") == Field(fields, "message", "");
    assert Field(g, "target_language", "") == Field(fields, "target_language", "");
  }

  /** Every translation request that is accepted is also accepted for detection, with the same message. */
  lemma DetectAcceptsWhatTranslateAccepts(data: Payload)
    requires ValidateRequestData(data).Accepted?
    ensures ValidateDetectData(data) == Accepted(DetectRequest(ValidateRequestData(data).data.message))
  {
  }

  /** A body with a message and a target, and no source language. */
  function WithTarget(message: string, target: string): Payload {
    Object(map["message" := message, "target_language" := target])
  }

  /** The fields that the validator reads from `WithTarget(message, target)`. */
  lemma WithTargetFields(message: string, target: string)
    ensures CleanMessage(WithTarget(message, target).fields) == Strip(message)
    ensures RawTarget(WithTarget(message, target).fields) == Lower(Strip(target))
    ensures RawSource(WithTarget(message, target).fields) == Lower(Strip("auto"))
  {
  }

  /** With a good message, the outcome depends on the normal form of the stripped, lower-cased target alone. */
  lemma TargetOutcome(message: string, target: string)
    requires 1 <= |Strip(message)| <= MaxTextLength
    requires Lower(Strip(target)) != []
    ensures var n := NormalizeLanguageCode(Lower(Strip(target)));
      var r := ValidateRequestData(WithTarget(message, target));
      && (HasLanguageName(n) ==> r == Accepted(TranslateRequest(Strip(message), n, "auto")))
      && (!HasLanguageName(n) ==> r == Rejected("Unsupported target language: " + n))
  {
    WithTargetFields(message, target);
    SourceAuto();
  }

  /** The spellings of the targets below are lower case and trimmed. */
  lemma TargetSpellings()
    ensures NoUpper("auto") && IsTrimmed("auto")
    ensures NoUpper("unknown") && IsTrimmed("unknown")
    ensures NoUpper("fil") && IsTrimmed("fil")
    ensures IsTrimmed("bm-Nkoo")
    ensures IsTrimmed("ber-Latn")
  {
  }

  /** "auto" has a display name, so it is accepted as a target. */
  lemma AutoTargetAccepted(message: string)
    requires 1 <= |Strip(message)| <= MaxTextLength
    ensures ValidateRequestData(WithTarget(message, "auto")) ==
      Accepted(TranslateRequest(Strip(message), "auto", "auto"))
  {
    TargetSpellings();
    CanonicalText("auto");
    NormalizeAuto();
    TargetOutcome(message, "auto");
  }

  /** "unknown" has a display name too, so it is accepted as a target. */
  lemma UnknownTargetAccepted(message: string)
    requires 1 <= |Strip(message)| <= MaxTextLength
    ensures ValidateRequestData(WithTarget(message, "unknown")) ==
      Accepted(TranslateRequest(Strip(message), "unknown", "auto"))
  {
    TargetSpellings();
    CanonicalText("unknown");
    NormalizeUnknown();
    TargetOutcome(message, "unknown");
  }

  /** "fil" has a display name, but its normal form "tl" has none, so "fil" is refused as a target. */
  lemma FilTargetRejected(message: string)
    requires 1 <= |Strip(message)| <= MaxTextLength
    ensures ValidateRequestData(WithTarget(message, "fil")) == Rejected("Unsupported target language: " + "tl")
  {
    TargetSpellings();
    CanonicalText("fil");
    FilDisplayName();
    TargetOutcome(message, "fil");
  }

  /** "bm-Nkoo", an African code as written in the table, is refused as a target, quoted in lower case. */
  lemma BmNkooTargetRejected(message: string)
    requires 1 <= |Strip(message)| <= MaxTextLength
    ensures ValidateRequestData(WithTarget(message, "bm-Nkoo")) == Rejected("Unsupported target language: " + "bm-nkoo")
  {
    LowerCasedBmNkoo();
    TargetOutcome(message, "bm-Nkoo");
  }

  /** "bm-nkoo" is not in the tables: it is its own normal form and has no name. */
  lemma LowerCasedBmNkoo()
    ensures Lower(Strip("bm-Nkoo")) == "bm-nkoo"
    ensures NormalizeLanguageCode("bm-nkoo") == "bm-nkoo"
    ensures !HasLanguageName("bm-nkoo")
  {
    MixedCaseLookupKeys("bm-Nkoo");
    TargetSpellings();
    StripOfTrimmed("bm-Nkoo");
    BmNkooIsNotAnAlias();
    BmNkooHasNoName();
    CanonicalText("bm-nkoo");
    NormalizeCanonical("bm-nkoo");
  }

  /** "ber-Latn", an African code as written in the table, is refused as a target, quoted in lower case. */
  lemma BerLatnTargetRejected(message: string)
    requires 1 <= |Strip(message)| <= MaxTextLength
    ensures ValidateRequestData(WithTarget(message, "ber-Latn")) == Rejected("Unsupported target language: " + "ber-latn")
  {
    LowerCasedBerLatn();
    TargetOutcome(message, "ber-Latn");
  }

  /** "ber-latn" is not in the tables: it is its own normal form and has no name. */
  lemma LowerCasedBerLatn()
    ensures Lower(Strip("ber-Latn")) == "ber-latn"
    ensures NormalizeLanguageCode("ber-latn") == "ber-latn"
    ensures !HasLanguageName("ber-latn")
  {
    MixedCaseLookupKeys("ber-Latn");
    TargetSpellings();
    StripOfTrimmed("ber-Latn");
    BerLatnIsNotAnAlias();
    BerLatnHasNoName();
    CanonicalText("ber-latn");
    NormalizeCanonical("ber-latn");
  }
}
