/**
 * The choice of a translation strategy and the two strategies themselves,
 * with the remote translators given as functions from their arguments to
 * the value they return or the exception they raise.
 */
module Strategies {
  import opened Options
  import opened Text
  import opened Languages
  import opened Errors

  /** The remote services the strategies call. */
  datatype Services = Services(
    /** `GoogleTranslator(source=source, target=target).translate(text)`, given (text, source, target). */
    google: (string, string, string) -> Outcome<string>,
    /** `LocalPageCreationService.create_page(text, target)`: the address of the page. */
    createPage: (string, string) -> Outcome<string>,
    /** `LocalTranslationService.translate_url(url)`: the translated text. */
    translateUrl: string -> Outcome<string>)

  datatype Strategy = GoogleStrategy | AfricanStrategy

  /** `get_translation_strategy`. */
  function GetTranslationStrategy(source: string, target: string): Strategy {
    if IsAfricanLanguage(source) || IsAfricanLanguage(target) then AfricanStrategy else GoogleStrategy
  }

  /** `GoogleTranslationStrategy.translate`. */
  function GoogleTranslate(services: Services, text: string, source: string, target: string): Outcome<string> {
    match services.google(text, source, target)
    case Ok(translated) => Ok(translated)
    case Raised(e) => Raised(TranslationError("Google translation failed: " + e.text))
  }

  /** The text returned in place of a translation when the partner service fails. */
  function LocalFailureText(target: string, e: PyException): string
    requires IsAfricanCode(target)
  {
    "[Erreur de traduction en " + AfricanLanguageName(target) + ". Cause: " + e.text + "]"
  }

  /** The body of the outer `try` of `AfricanLanguageTranslationStrategy.translate`. */
  function AfricanAttempt(services: Services, text: string, source: string, target: string): Outcome<string> {
    if IsAfricanCode(target) then
      match services.createPage(text, target)
      case Raised(e) => Ok(LocalFailureText(target, e))
      case Ok(url) =>
        match services.translateUrl(url)
        case Raised(e) => Ok(LocalFailureText(target, e))
        case Ok(translated) => Ok(translated)
    else
      services.google(text, source, target)
  }

  /** `AfricanLanguageTranslationStrategy.translate`: the attempt, and its outer exception handler. */
  function AfricanTranslate(services: Services, text: string, source: string, target: string): Outcome<string> {
    match AfricanAttempt(services, text, source, target)
    case Ok(translated) => Ok(translated)
    case Raised(e) =>
      if IsAfricanCode(target) then
        Raised(TranslationError("La traduction en " + AfricanLanguageName(target) + " a échoué: " + e.text))
      else
        Raised(TranslationError(e.text))
  }

  /** `strategy.translate(text, source, target)`. */
  function Translate(strategy: Strategy, services: Services, text: string, source: string, target: string): Outcome<string> {
    match strategy
    case GoogleStrategy => GoogleTranslate(services, text, source, target)
    case AfricanStrategy => AfricanTranslate(services, text, source, target)
  }

  /** `perform_translation`: the chosen strategy, with any exception wrapped once more. */
  function PerformTranslation(services: Services, text: string, source: string, target: string): Outcome<string> {
    var strategy := GetTranslationStrategy(source, target);
    match Translate(strategy, services, text, source, target)
    case Ok(translated) => Ok(translated)
    case Raised(e) => Raised(TranslationError("Translation failed: " + e.text))
  }

  /**
   * The African strategy is chosen exactly when the lower-cased, stripped
   * form of the source or of the target is a lower-case African code or one
   * of the aliases "gav", "gax", "gaz".
   */
  lemma StrategySelection(source: string, target: string)
    ensures GetTranslationStrategy(source, target) == AfricanStrategy <==>
      || (source != "" && IsRecognisedAfricanKey(LookupKey(source)))
      || (target != "" && IsRecognisedAfricanKey(LookupKey(target)))
  {
    IsAfricanLanguageExactly(source);
    IsAfricanLanguageExactly(target);
  }

  /** The empty source means "auto", which is not African: only the target decides. */
  lemma EmptySourceLeavesTargetToDecide(target: string)
    ensures GetTranslationStrategy("", target) == AfricanStrategy <==> IsAfricanLanguage(target)
  {
    AutoIsNotAfrican();
  }

  lemma AutoIsNotAfrican()
    ensures !IsAfricanLanguage("")
  {
  }

  /**
   * For an African target the partner service is used, and the strategy
   * never raises: a failure of either call comes back as an explanatory text.
   */
  lemma AfricanTargetNeverRaises(services: Services, text: string, source: string, target: string)
    requires IsAfricanCode(target)
    ensures var r := AfricanTranslate(services, text, source, target);
      && r.Ok?
      && (services.createPage(text, target).Raised? ==>
            r.value == LocalFailureText(target, services.createPage(text, target).error))
      && (services.createPage(text, target).Ok? ==>
            var page := services.translateUrl(services.createPage(text, target).value);
            r.value == if page.Ok? then page.value else LocalFailureText(target, page.error))
  {
  }

  /** So the handler that names the African language in its message is never reached. */
  lemma OuterAfricanHandlerUnreachable(services: Services, text: string, source: string, target: string)
    requires IsAfricanCode(target)
    ensures AfricanAttempt(services, text, source, target).Ok?
  {
  }

  /** For an African target the general translator is not consulted. */
  lemma AfricanTargetIgnoresGoogle(s1: Services, s2: Services, text: string, source: string, target: string)
    requires IsAfricanCode(target)
    requires s1.createPage == s2.createPage && s1.translateUrl == s2.translateUrl
    ensures AfricanTranslate(s1, text, source, target) == AfricanTranslate(s2, text, source, target)
  {
  }

  /**
   * For a target that is not African, the African strategy falls through to
   * the general translator: the same translation, but a failure keeps the
   * translator's own text, without the "Google translation failed: " prefix.
   */
  lemma NonAfricanTargetFallsThrough(services: Services, text: string, source: string, target: string)
    requires !IsAfricanCode(target)
    ensures var a := AfricanTranslate(services, text, source, target);
      var g := GoogleTranslate(services, text, source, target);
      && a.Ok? == g.Ok?
      && (a.Ok? ==> a.value == g.value)
      && (a.Raised? ==> a.error == TranslationError(services.google(text, source, target).error.text))
      && (g.Raised? ==> g.error == TranslationError("Google translation failed: " + services.google(text, source, target).error.text))
  {
  }

  /** A failed translation always surfaces as a `TranslationError` whose text starts "Translation failed: ". */
  lemma PerformTranslationErrors(services: Services, text: string, source: string, target: string)
    requires PerformTranslation(services, text, source, target).Raised?
    ensures var e := PerformTranslation(services, text, source, target).error;
      && e.typeName == "TranslationError" && e.kinds == {}
      && |e.text| >= 20 && e.text[..20] == "Translation failed: "
  {
    var strategy := GetTranslationStrategy(source, target);
    var inner := Translate(strategy, services, text, source, target).error;
    var prefix := "Translation failed: ";
    assert |prefix| == 20;
    assert (prefix + inner.text)[..|prefix|] == prefix;
  }

  /**
   * A request between an African source and a non-African target takes the
   * African strategy, which hands it to the general translator unchanged.
   */
  lemma AfricanSourceFallsThroughToGoogle(services: Services, text: string, source: string, target: string)
    requires IsAfricanLanguage(source) && !IsAfricanCode(target)
    ensures GetTranslationStrategy(source, target) == AfricanStrategy
    ensures var r := PerformTranslation(services, text, source, target);
      var g := services.google(text, source, target);
      && r.Ok? == g.Ok?
      && (r.Ok? ==> r.value == g.value)
      && (r.Raised? ==> r.error == TranslationError("Translation failed: " + g.error.text))
  {
  }
}
