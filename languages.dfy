/**
 * Language codes of the translation API: the static alias table, the
 * display-name table and the dictionary of African languages served by the
 * partner service, and the three operations over them: normalisation of a
 * code, the African-language test and the display name of a code.
 *
 * Each dictionary is a lookup function: `Some(v)` when the key is present
 * with value `v`, `None` when it is absent.
 */
module Languages {
  import opened Options
  import opened Text

  /** `code in AFRICAN_LANGUAGES`. */
  predicate IsAfricanCode(code: string) {
    match code
    case "fon" | "wo" | "aa" | "bci" | "bem" | "luo" | "bm-Nkoo" | "so" | "sus" | "ss" | "run" |
      "tiv" | "tum" | "gaa" | "ach" | "alz" | "am" | "bm" | "ny" | "dyu" | "ee" | "kr" | "kg" |
      "rw" | "ktu" | "kri" | "ln" | "lg" | "nus" | "om" | "ff" | "sg" | "st" | "sn" | "sw" |
      "ber-Latn" | "ber" | "ti" | "ts" | "tn" | "ve" | "xh" | "zu" => true
    case _ => false
  }

  /** The display name of an African code in AFRICAN_LANGUAGES. */
  function AfricanLanguageName(code: string): string
    requires IsAfricanCode(code)
  {
    match code
    case "fon" => "Fon (Bénin)"
    case "wo" => "Wolof (Sénégal)"
    case "aa" => "Afar (Éthiopie)"
    case "bci" => "Baoulé (Côte d'Ivoire)"
    case "bem" => "Bemba (Zambie)"
    case "luo" => "Luo (Tanzanie)"
    case "bm-Nkoo" => "N'Ko (Mali)"
    case "so" => "Somali (Somalie)"
    case "sus" => "Soussou (Sierra Leone)"
    case "ss" => "Swati (Eswatini)"
    case "run" => "Kirundi (Burundi)"
    case "tiv" => "Tiv (Nigeria)"
    case "tum" => "Tumbuka (Malawi)"
    case "gaa" => "Ga (Ghana)"
    case "ach" => "Acholi (Ouganda, Soudan du Sud)"
    case "alz" => "Alur (Ouganda, République démocratique du Congo)"
    case "am" => "Amharique (Éthiopie)"
    case "bm" => "Bambara (Mali)"
    case "ny" => "Chichewa (Malawi, Zambie, Mozambique)"
    case "dyu" => "Dioula (Côte d’Ivoire, Burkina Faso, Mali)"
    case "ee" => "Ewe (Togo, Ghana)"
    case "kr" => "Kanuri (Nigeria, Niger, Tchad, Cameroun)"
    case "kg" => "Kikongo (République démocratique du Congo, Congo-Brazzaville, Angola)"
    case "rw" => "Kinyarwanda (Rwanda)"
    case "ktu" => "Kituba (République démocratique du Congo, Congo-Brazzaville)"
    case "kri" => "Krio (Sierra Leone)"
    case "ln" => "Lingala (République démocratique du Congo, Congo-Brazzaville)"
    case "lg" => "Luganda (Ouganda)"
    case "nus" => "Nuer (Soudan du Sud, Éthiopie)"
    case "om" => "Oromo (Éthiopie, Kenya)"
    case "ff" => "Peul (Afrique de l’Ouest et du Centre)"
    case "sg" => "Sango (République centrafricaine)"
    case "st" => "Sesotho (Lesotho, Afrique du Sud)"
    case "sn" => "Shona (Zimbabwe)"
    case "sw" => "Swahili (Kenya, Tanzanie, Ouganda, etc.)"
    case "ber-Latn" => "Tamazight (Berbère, Afrique du Nord, alphabet latin)"
    case "ber" => "Tamazight (Berbère, Afrique du Nord, Tifinagh)"
    case "ti" => "Tigrigna (Érythrée, Éthiopie)"
    case "ts" => "Tsonga (Mozambique, Afrique du Sud)"
    case "tn" => "Tswana (Botswana, Afrique du Sud)"
    case "ve" => "Venda (Afrique du Sud, Zimbabwe)"
    case "xh" => "Xhosa (Afrique du Sud)"
    case "zu" => "Zoulou (Afrique du Sud)"
    case _ => assert false; ""
  }

  /** "auto" stays "auto". */
  function GeneralCodes(key: string): Option<string> {
    match key
    case "auto" => Some("auto")
    case _ => None
  }

  /** Chinese variants, including the first "chi" entry. */
  function ChineseVariants(key: string): Option<string> {
    match key
    case "zh" => Some("zh-CN")
    case "zh-hans" => Some("zh-CN")
    case "zh-hant" => Some("zh-TW")
    case "zh-cn" => Some("zh-CN")
    case "zh-tw" => Some("zh-TW")
    case "zh-hk" => Some("zh-TW")
    case "chi" => Some("zh-CN")
    case _ => None
  }

  /** Common alternative codes, including the second "chi" entry. */
  function CommonAlternatives(key: string): Option<string> {
    match key
    case "iw" => Some("he")
    case "jw" => Some("jv")
    case "nb" => Some("no")
    case "nn" => Some("no")
    case "baq" => Some("eu")
    case "chi" => Some("zh")
    case "cze" => Some("cs")
    case "dut" => Some("nl")
    case "ger" => Some("de")
    case "gre" => Some("el")
    case "arm" => Some("hy")
    case "ice" => Some("is")
    case "per" => Some("fa")
    case "rum" => Some("ro")
    case _ => None
  }

  /** Regional variants. */
  function RegionalVariants(key: string): Option<string> {
    match key
    case "en-us" => Some("en")
    case "en-gb" => Some("en")
    case "fr-ca" => Some("fr")
    case "fr-fr" => Some("fr")
    case "pt-br" => Some("pt")
    case "pt-pt" => Some("pt")
    case "es-es" => Some("es")
    case "es-mx" => Some("es")
    case _ => None
  }

  /** Common corrections, including the reverse Hebrew alias. */
  function CommonCorrections(key: string): Option<string> {
    match key
    case "fil" => Some("tl")
    case "he" => Some("iw")
    case "ji" => Some("yi")
    case "in" => Some("id")
    case "gav" => Some("sw")
    case _ => None
  }

  /** Dialects of Chinese. */
  function DialectVariants(key: string): Option<string> {
    match key
    case "cmn" => Some("zh")
    case "yue" => Some("zh")
    case "wuu" => Some("zh")
    case "hsn" => Some("zh")
    case "hak" => Some("zh")
    case "nan" => Some("zh")
    case _ => None
  }

  /** Alternative ISO codes. */
  function AlternativeIsoCodes(key: string): Option<string> {
    match key
    case "ara" => Some("ar")
    case "ben" => Some("bn")
    case "bul" => Some("bg")
    case "cat" => Some("ca")
    case "dan" => Some("da")
    case "est" => Some("et")
    case "fin" => Some("fi")
    case "fra" => Some("fr")
    case "geo" => Some("ka")
    case "hun" => Some("hu")
    case "ind" => Some("id")
    case "ita" => Some("it")
    case "jpn" => Some("ja")
    case "kor" => Some("ko")
    case "lat" => Some("la")
    case "lav" => Some("lv")
    case "lit" => Some("lt")
    case "mac" => Some("mk")
    case "may" => Some("ms")
    case "mlt" => Some("mt")
    case "nor" => Some("no")
    case "pol" => Some("pl")
    case "por" => Some("pt")
    case "rus" => Some("ru")
    case "slo" => Some("sk")
    case "slv" => Some("sl")
    case "spa" => Some("es")
    case "swe" => Some("sv")
    case "tha" => Some("th")
    case "tur" => Some("tr")
    case "ukr" => Some("uk")
    case "vie" => Some("vi")
    case _ => None
  }

  /** Less common languages mapped to a related one. */
  function LessCommonLanguages(key: string): Option<string> {
    match key
    case "ace" => Some("id")
    case "ami" => Some("zh")
    case "ban" => Some("id")
    case "bug" => Some("id")
    case "min" => Some("id")
    case "bjn" => Some("id")
    case "mad" => Some("id")
    case "niu" => Some("en")
    case "tpi" => Some("en")
    case _ => None
  }

  /** Obsolete codes. */
  function ObsoleteCodes(key: string): Option<string> {
    match key
    case "ins" => Some("id")
    case "gax" => Some("om")
    case "gaz" => Some("om")
    case "mol" => Some("ro")
    case "scr" => Some("hr")
    case _ => None
  }

  /** Spelling variants. */
  function SpellingVariants(key: string): Option<string> {
    match key
    case "sr-latn" => Some("sr")
    case "sr-cyrl" => Some("sr")
    case "uz-latn" => Some("uz")
    case "uz-cyrl" => Some("uz")
    case "kmr" => Some("ku")
    case "ckb" => Some("ku")
    case _ => None
  }

  /**
   * The alias entries of LANGUAGE_CODES, in the order the dictionary literal
   * lists their groups. A later entry replaces an earlier one with the same
   * key, so the later groups are consulted first: "chi" appears in two
   * groups and takes the value of the later one, "zh".
   */
  function BaseLanguageCode(key: string): Option<string> {
    SpellingVariants(key)
      .OrElse(ObsoleteCodes(key))
      .OrElse(LessCommonLanguages(key))
      .OrElse(AlternativeIsoCodes(key))
      .OrElse(DialectVariants(key))
      .OrElse(CommonCorrections(key))
      .OrElse(RegionalVariants(key))
      .OrElse(CommonAlternatives(key))
      .OrElse(ChineseVariants(key))
      .OrElse(GeneralCodes(key))
  }

  /** LANGUAGE_CODES: the aliases above, then every African code mapped to itself (merged last, so it wins). */
  function LanguageCode(key: string): Option<string> {
    if IsAfricanCode(key) then Some(key) else BaseLanguageCode(key)
  }

  /** The keys of LANGUAGE_NAMES as written, before the African names are merged in. */
  predicate HasBaseLanguageName(code: string) {
    match code
    case "auto" | "af" | "sq" | "am" | "ar" | "hy" | "as" | "ay" | "az" | "bm" | "eu" | "be" |
      "bn" | "bho" | "bs" | "bg" | "ca" | "ceb" | "ny" | "zh" | "zh-CN" | "zh-TW" | "co" | "hr" |
      "cs" | "da" | "dv" | "doi" | "nl" | "en" | "eo" | "et" | "ee" | "fil" | "fi" | "fr" | "fy" |
      "gl" | "ka" | "de" | "el" | "gn" | "gu" | "ht" | "ha" | "haw" | "he" | "iw" | "hi" | "hmn" |
      "hu" | "is" | "ig" | "ilo" | "id" | "ga" | "it" | "ja" | "jv" | "kn" | "kk" | "km" | "rw" |
      "gom" | "ko" | "kri" | "ku" | "ckb" | "ky" | "lo" | "la" | "lv" | "ln" | "lt" | "lg" | "lb" |
      "mk" | "mai" | "mg" | "ms" | "ml" | "mt" | "mi" | "mr" | "mni-Mtei" | "lus" | "mn" | "my" |
      "ne" | "no" | "or" | "om" | "ps" | "fa" | "pl" | "pt" | "pa" | "qu" | "ro" | "ru" | "sm" |
      "sa" | "gd" | "nso" | "sr" | "st" | "sn" | "sd" | "si" | "sk" | "sl" | "so" | "es" | "su" |
      "sw" | "sv" | "tg" | "ta" | "tt" | "te" | "th" | "ti" | "ts" | "tr" | "tk" | "ak" | "uk" |
      "ur" | "ug" | "uz" | "vi" | "cy" | "xh" | "yi" | "yo" | "zu" | "pt-BR" | "pt-PT" | "es-ES" |
      "es-MX" | "en-US" | "en-GB" | "fr-CA" | "fr-FR" | "sr-Latn" | "sr-Cyrl" | "zh-Hans" |
      "zh-Hant" | "uz-Latn" | "uz-Cyrl" | "unknown" => true
    case _ => false
  }

  /** The name of a code in LANGUAGE_NAMES as written. */
  function BaseLanguageName(code: string): string
    requires HasBaseLanguageName(code)
  {
    match code
    case "auto" => "Auto-detect"
    case "af" => "Afrikaans"
    case "sq" => "Albanian (Shqip)"
    case "am" => "Amharic (አማርኛ)"
    case "ar" => "Arabic (العربية)"
    case "hy" => "Armenian (Հայերեն)"
    case "as" => "Assamese (অসমীয়া)"
    case "ay" => "Aymara (Aymar)"
    case "az" => "Azerbaijani (Azərbaycan)"
    case "bm" => "Bambara (Bamanankan)"
    case "eu" => "Basque (Euskara)"
    case "be" => "Belarusian (Беларуская)"
    case "bn" => "Bengali (বাংলা)"
    case "bho" => "Bhojpuri (भोजपुरी)"
    case "bs" => "Bosnian (Bosanski)"
    case "bg" => "Bulgarian (Български)"
    case "ca" => "Catalan (Català)"
    case "ceb" => "Cebuano"
    case "ny" => "Chichewa"
    case "zh" => "Chinese (中文)"
    case "zh-CN" => "Chinese Simplified (简体中文)"
    case "zh-TW" => "Chinese Traditional (繁體中文)"
    case "co" => "Corsican (Corsu)"
    case "hr" => "Croatian (Hrvatski)"
    case "cs" => "Czech (Čeština)"
    case "da" => "Danish (Dansk)"
    case "dv" => "Dhivehi (ދިވެހި)"
    case "doi" => "Dogri (डोगरी)"
    case "nl" => "Dutch (Nederlands)"
    case "en" => "English"
    case "eo" => "Esperanto"
    case "et" => "Estonian (Eesti)"
    case "ee" => "Ewe (Eʋegbe)"
    case "fil" => "Filipino (Tagalog)"
    case "fi" => "Finnish (Suomi)"
    case "fr" => "French (Français)"
    case "fy" => "Frisian (Frysk)"
    case "gl" => "Galician (Galego)"
    case "ka" => "Georgian (ქართული)"
    case "de" => "German (Deutsch)"
    case "el" => "Greek (Ελληνικά)"
    case "gn" => "Guarani (Avañe'ẽ)"
    case "gu" => "Gujarati (ગુજરાતી)"
    case "ht" => "Haitian Creole (Kreyòl ayisyen)"
    case "ha" => "Hausa (Hausa)"
    case "haw" => "Hawaiian (ʻŌlelo Hawaiʻi)"
    case "he" => "Hebrew (עברית)"
    case "iw" => "Hebrew (עברית)"
    case "hi" => "Hindi (हिन्दी)"
    case "hmn" => "Hmong (Hmoob)"
    case "hu" => "Hungarian (Magyar)"
    case "is" => "Icelandic (Íslenska)"
    case "ig" => "Igbo"
    case "ilo" => "Ilocano"
    case "id" => "Indonesian (Bahasa Indonesia)"
    case "ga" => "Irish (Gaeilge)"
    case "it" => "Italian (Italiano)"
    case "ja" => "Japanese (日本語)"
    case "jv" => "Javanese (Basa Jawa)"
    case "kn" => "Kannada (ಕನ್ನಡ)"
    case "kk" => "Kazakh (Қазақ)"
    case "km" => "Khmer (ខ្មែរ)"
    case "rw" => "Kinyarwanda"
    case "gom" => "Konkani (कोंकणी)"
    case "ko" => "Korean (한국어)"
    case "kri" => "Krio"
    case "ku" => "Kurdish (Kurdî)"
    case "ckb" => "Kurdish Sorani (سۆرانی)"
    case "ky" => "Kyrgyz (Кыргызча)"
    case "lo" => "Lao (ລາວ)"
    case "la" => "Latin (Latina)"
    case "lv" => "Latvian (Latviešu)"
    case "ln" => "Lingala (Lingála)"
    case "lt" => "Lithuanian (Lietuvių)"
    case "lg" => "Luganda"
    case "lb" => "Luxembourgish (Lëtzebuergesch)"
    case "mk" => "Macedonian (Македонски)"
    case "mai" => "Maithili (मैथिली)"
    case "mg" => "Malagasy"
    case "ms" => "Malay (Bahasa Melayu)"
    case "ml" => "Malayalam (മലയാളം)"
    case "mt" => "Maltese (Malti)"
    case "mi" => "Maori (Te Reo Māori)"
    case "mr" => "Marathi (मराठी)"
    case "mni-Mtei" => "Meiteilon (Manipuri)"
    case "lus" => "Mizo"
    case "mn" => "Mongolian (Монгол)"
    case "my" => "Myanmar (Burmese) (မြန်မာ)"
    case "ne" => "Nepali (नेपाली)"
    case "no" => "Norwegian (Norsk)"
    case "or" => "Odia (Oriya) (ଓଡ଼ିଆ)"
    case "om" => "Oromo (Afaan Oromoo)"
    case "ps" => "Pashto (پښتو)"
    case "fa" => "Persian (فارسی)"
    case "pl" => "Polish (Polski)"
    case "pt" => "Portuguese (Português)"
    case "pa" => "Punjabi (ਪੰਜਾਬੀ)"
    case "qu" => "Quechua (Runa Simi)"
    case "ro" => "Romanian (Română)"
    case "ru" => "Russian (Русский)"
    case "sm" => "Samoan (Gagana Samoa)"
    case "sa" => "Sanskrit (संस्कृत)"
    case "gd" => "Scots Gaelic (Gàidhlig)"
    case "nso" => "Sepedi"
    case "sr" => "Serbian (Српски)"
    case "st" => "Sesotho"
    case "sn" => "Shona (ChiShona)"
    case "sd" => "Sindhi (سنڌي)"
    case "si" => "Sinhala (සිංහල)"
    case "sk" => "Slovak (Slovenčina)"
    case "sl" => "Slovenian (Slovenščina)"
    case "so" => "Somali (Soomaali)"
    case "es" => "Spanish (Español)"
    case "su" => "Sundanese (Basa Sunda)"
    case "sw" => "Swahili (Kiswahili)"
    case "sv" => "Swedish (Svenska)"
    case "tg" => "Tajik (Тоҷикӣ)"
    case "ta" => "Tamil (தமிழ்)"
    case "tt" => "Tatar (Татар)"
    case "te" => "Telugu (తెలుగు)"
    case "th" => "Thai (ไทย)"
    case "ti" => "Tigrinya (ትግርኛ)"
    case "ts" => "Tsonga"
    case "tr" => "Turkish (Türkçe)"
    case "tk" => "Turkmen (Türkmen)"
    case "ak" => "Twi (Akan)"
    case "uk" => "Ukrainian (Українська)"
    case "ur" => "Urdu (اردو)"
    case "ug" => "Uyghur (ئۇيغۇرچە)"
    case "uz" => "Uzbek (O'zbek)"
    case "vi" => "Vietnamese (Tiếng Việt)"
    case "cy" => "Welsh (Cymraeg)"
    case "xh" => "Xhosa (isiXhosa)"
    case "yi" => "Yiddish (ייִדיש)"
    case "yo" => "Yoruba (Èdè Yorùbá)"
    case "zu" => "Zulu (isiZulu)"
    case "pt-BR" => "Brazilian Portuguese (Português do Brasil)"
    case "pt-PT" => "European Portuguese (Português de Portugal)"
    case "es-ES" => "Spanish (Spain)"
    case "es-MX" => "Spanish (Mexico)"
    case "en-US" => "English (US)"
    case "en-GB" => "English (UK)"
    case "fr-CA" => "French (Canada)"
    case "fr-FR" => "French (France)"
    case "sr-Latn" => "Serbian (Latin)"
    case "sr-Cyrl" => "Serbian (Cyrillic)"
    case "zh-Hans" => "Chinese Simplified"
    case "zh-Hant" => "Chinese Traditional"
    case "uz-Latn" => "Uzbek (Latin)"
    case "uz-Cyrl" => "Uzbek (Cyrillic)"
    case "unknown" => "Unknown Language"
    case _ => assert false; ""
  }

  /** LANGUAGE_NAMES: the names above, then the African names (merged last, so they win). */
  function LanguageName(code: string): Option<string> {
    if IsAfricanCode(code) then Some(AfricanLanguageName(code))
    else if HasBaseLanguageName(code) then Some(BaseLanguageName(code))
    else None
  }

  /** `code in LANGUAGE_NAMES`. */
  predicate HasLanguageName(code: string) {
    IsAfricanCode(code) || HasBaseLanguageName(code)
  }

  /** The lookup key of a non-empty code: lower-cased, then stripped. */
  function LookupKey(code: string): string {
    Strip(Lower(code))
  }

  /** `normalize_language_code`. */
  function NormalizeLanguageCode(code: string): string {
    if code == "" then "auto"
    else
      var key := LookupKey(code);
      LanguageCode(key).GetOr(key)
  }

  /** `is_african_language`. */
  predicate IsAfricanLanguage(code: string) {
    IsAfricanCode(NormalizeLanguageCode(code))
  }

  /** `get_language_display_name`: the fallback quotes the code as given, not its normal form. */
  function GetLanguageDisplayName(code: string): string {
    LanguageName(NormalizeLanguageCode(code)).GetOr("Unknown (" + code + ")")
  }

  /** The African codes that some input normalises to: all but the two mixed-case ones, plus three aliases. */
  predicate IsRecognisedAfricanKey(key: string) {
    (IsAfricanCode(key) && key != "bm-Nkoo" && key != "ber-Latn") || key in {"gav", "gax", "gaz"}
  }

  /** A lookup key is lower case, trimmed, and its own lookup key. */
  lemma LookupKeyShape(code: string)
    ensures NoUpper(LookupKey(code)) && IsTrimmed(LookupKey(code))
    ensures LookupKey(LookupKey(code)) == LookupKey(code)
  {
    LowerStripIdempotent(code);
  }

  /** A lower-case code without surrounding whitespace is its own lookup key. */
  lemma LookupKeyOfCanonical(k: string)
    requires NoUpper(k) && IsTrimmed(k)
    ensures LookupKey(k) == k
  {
    LowerOfNoUpper(k);
    StripOfTrimmed(k);
  }

  /** A non-empty lower-case code without surrounding whitespace is looked up as it is. */
  lemma NormalizeCanonical(k: string)
    requires k != "" && NoUpper(k) && IsTrimmed(k)
    ensures NormalizeLanguageCode(k) == LanguageCode(k).GetOr(k)
  {
    LookupKeyOfCanonical(k);
  }

  /**
   * The empty code becomes "auto", but a code made only of whitespace is not
   * empty: it is stripped to "" and, "" not being an alias, normalises to "".
   */
  lemma NormalizeBlank(code: string)
    requires AllSpace(code)
    ensures NormalizeLanguageCode(code) == if code == "" then "auto" else ""
  {
    assert AllSpace(Lower(code));
    StripSpec(Lower(code));
  }

  /** Normalisation of a non-empty code depends only on its lower-cased, stripped form. */
  lemma NormalizeIgnoresCaseAndPadding(code: string)
    requires LookupKey(code) != ""
    ensures NormalizeLanguageCode(code) == NormalizeLanguageCode(LookupKey(code))
  {
    LookupKeyShape(code);
  }

  /** A lookup key listed in LANGUAGE_CODES normalises to its value. */
  lemma NormalizeAlias(k: string, v: string)
    requires k != "" && NoUpper(k) && IsTrimmed(k) && LanguageCode(k) == Some(v)
    ensures NormalizeLanguageCode(k) == v
  {
    NormalizeCanonical(k);
  }

  /** The entries of LANGUAGE_CODES for the Hebrew and Chinese aliases. */
  lemma AliasIw()
    ensures LanguageCode("iw") == Some("he")
  {
  }

  lemma AliasHe()
    ensures LanguageCode("he") == Some("iw")
  {
  }

  lemma AliasChi()
    ensures LanguageCode("chi") == Some("zh")
  {
  }

  lemma AliasZh()
    ensures LanguageCode("zh") == Some("zh-CN")
  {
  }

  /** "iw", the obsolete code for Hebrew, is an alias of "he". */
  lemma NormalizeIw()
    ensures NormalizeLanguageCode("iw") == "he"
  {
    AliasIw();
    NormalizeAlias("iw", "he");
  }

  /** "he" is itself listed as an alias, of "iw". */
  lemma NormalizeHe()
    ensures NormalizeLanguageCode("he") == "iw"
  {
    AliasHe();
    NormalizeAlias("he", "iw");
  }

  /** Normalisation is not idempotent: the two aliases for Hebrew form a cycle. */
  lemma HebrewAliasCycle()
    ensures NormalizeLanguageCode(NormalizeLanguageCode("iw")) == "iw"
    ensures NormalizeLanguageCode(NormalizeLanguageCode("he")) == "he"
  {
    NormalizeIw();
    NormalizeHe();
  }

  /** "chi" is listed twice; the later entry, "zh", is the one kept. */
  lemma NormalizeChi()
    ensures NormalizeLanguageCode("chi") == "zh"
  {
    AliasChi();
    NormalizeAlias("chi", "zh");
  }

  /** "zh" is itself an alias, of "zh-CN". */
  lemma NormalizeZh()
    ensures NormalizeLanguageCode("zh") == "zh-CN"
  {
    AliasZh();
    NormalizeAlias("zh", "zh-CN");
  }

  /** Normalising "chi" twice goes on to "zh-CN". */
  lemma ChiNormalizesTwice()
    ensures NormalizeLanguageCode(NormalizeLanguageCode("chi")) == "zh-CN"
    ensures NormalizeLanguageCode(NormalizeLanguageCode("chi")) != NormalizeLanguageCode("chi")
  {
    NormalizeChi();
    NormalizeZh();
  }

  /** Every African code is a non-empty word of letters and hyphens. */
  lemma AfricanCodeText(k: string)
    requires IsAfricanCode(k)
    ensures k != [] && IsCodeText(k)
  {
  }

  /** Only two African codes contain upper-case letters. */
  lemma AfricanCodeCase(k: string)
    requires IsAfricanCode(k)
    ensures k in {"bm-Nkoo", "ber-Latn"} || NoUpper(k)
  {
  }

  /** The shape of the African codes: letters and hyphens, trimmed, lower case but for two. */
  lemma AfricanCodeShape(k: string)
    requires IsAfricanCode(k)
    ensures k != [] && IsCodeText(k) && IsTrimmed(k)
    ensures k in {"bm-Nkoo", "ber-Latn"} || NoUpper(k)
  {
    AfricanCodeText(k);
    AfricanCodeCase(k);
    CodeTextIsTrimmed(k);
  }

  /** Every African code written in lower case is a fixed point of normalisation, hence recognised. */
  lemma AfricanCodesAreFixedPoints(k: string)
    requires IsAfricanCode(k) && k != "bm-Nkoo" && k != "ber-Latn"
    ensures NormalizeLanguageCode(k) == k
    ensures IsAfricanLanguage(k)
  {
    AfricanCodeShape(k);
    NormalizeCanonical(k);
  }

  /**
   * What an alias of `key` may map to: a lower-case code, except the two
   * Chinese script variants; an African code only for "gav", "gax", "gaz";
   * never "fil" or "ckb", which are themselves aliases.
   */
  predicate IsAliasValue(key: string, v: string) {
    && (NoUpper(v) || v in {"zh-CN", "zh-TW"})
    && (IsAfricanCode(v) ==> key in {"gav", "gax", "gaz"})
    && v != "fil" && v != "ckb"
  }

  lemma GeneralCodesValue(key: string)
    requires GeneralCodes(key).Some?
    ensures IsAliasValue(key, GeneralCodes(key).value)
  {
  }

  lemma ChineseVariantsValue(key: string)
    requires ChineseVariants(key).Some?
    ensures IsAliasValue(key, ChineseVariants(key).value)
  {
  }

  lemma CommonAlternativesValue(key: string)
    requires CommonAlternatives(key).Some?
    ensures IsAliasValue(key, CommonAlternatives(key).value)
  {
  }

  lemma RegionalVariantsValue(key: string)
    requires RegionalVariants(key).Some?
    ensures IsAliasValue(key, RegionalVariants(key).value)
  {
  }

  lemma CommonCorrectionsValue(key: string)
    requires CommonCorrections(key).Some?
    ensures IsAliasValue(key, CommonCorrections(key).value)
  {
  }

  lemma DialectVariantsValue(key: string)
    requires DialectVariants(key).Some?
    ensures IsAliasValue(key, DialectVariants(key).value)
  {
  }

  /** The values of AlternativeIsoCodes are lower case. */
  lemma AlternativeIsoCodesCase(key: string)
    requires AlternativeIsoCodes(key).Some?
    ensures NoUpper(AlternativeIsoCodes(key).value)
  {
  }

  /** No value of AlternativeIsoCodes is "fil" or "ckb". */
  lemma AlternativeIsoCodesNotFilOrCkb(key: string)
    requires AlternativeIsoCodes(key).Some?
    ensures AlternativeIsoCodes(key).value != "fil" && AlternativeIsoCodes(key).value != "ckb"
  {
  }

  /** No value of AlternativeIsoCodes is an African code. */
  lemma AlternativeIsoCodesNotAfrican(key: string)
    requires AlternativeIsoCodes(key).Some?
    ensures !IsAfricanCode(AlternativeIsoCodes(key).value)
  {
  }

  lemma AlternativeIsoCodesValue(key: string)
    requires AlternativeIsoCodes(key).Some?
    ensures IsAliasValue(key, AlternativeIsoCodes(key).value)
  {
    AlternativeIsoCodesCase(key);
    AlternativeIsoCodesNotFilOrCkb(key);
    AlternativeIsoCodesNotAfrican(key);
  }

  lemma LessCommonLanguagesValue(key: string)
    requires LessCommonLanguages(key).Some?
    ensures IsAliasValue(key, LessCommonLanguages(key).value)
  {
  }

  lemma ObsoleteCodesValue(key: string)
    requires ObsoleteCodes(key).Some?
    ensures IsAliasValue(key, ObsoleteCodes(key).value)
  {
  }

  lemma SpellingVariantsValue(key: string)
    requires SpellingVariants(key).Some?
    ensures IsAliasValue(key, SpellingVariants(key).value)
  {
  }

  /** Every value of the alias table is an alias value of its key. */
  lemma AliasValueShape(key: string)
    requires BaseLanguageCode(key).Some?
    ensures IsAliasValue(key, BaseLanguageCode(key).value)
  {
    if GeneralCodes(key).Some? { GeneralCodesValue(key); }
    if ChineseVariants(key).Some? { ChineseVariantsValue(key); }
    if CommonAlternatives(key).Some? { CommonAlternativesValue(key); }
    if RegionalVariants(key).Some? { RegionalVariantsValue(key); }
    if CommonCorrections(key).Some? { CommonCorrectionsValue(key); }
    if DialectVariants(key).Some? { DialectVariantsValue(key); }
    if AlternativeIsoCodes(key).Some? { AlternativeIsoCodesValue(key); }
    if LessCommonLanguages(key).Some? { LessCommonLanguagesValue(key); }
    if ObsoleteCodes(key).Some? { ObsoleteCodesValue(key); }
    if SpellingVariants(key).Some? { SpellingVariantsValue(key); }
  }

  /** A normal form has no upper-case letter, unless it is "zh-CN" or "zh-TW". */
  lemma NormalFormsAreLowerCase(code: string)
    ensures NoUpper(NormalizeLanguageCode(code)) || NormalizeLanguageCode(code) in {"zh-CN", "zh-TW"}
  {
    if code != "" {
      var key := LookupKey(code);
      LookupKeyShape(code);
      if !IsAfricanCode(key) && BaseLanguageCode(key).Some? {
        AliasValueShape(key);
      }
    }
  }

  /** The two mixed-case African codes do contain an upper-case letter. */
  lemma MixedCaseAfricanCodes()
    ensures !NoUpper("bm-Nkoo") && !NoUpper("ber-Latn")
  {
    assert IsUpper("bm-Nkoo"[3]);
    assert IsUpper("ber-Latn"[4]);
  }

  /** No input normalises to either of the two mixed-case African codes. */
  lemma MixedCaseAfricanCodesUnreachable(code: string)
    ensures NormalizeLanguageCode(code) != "bm-Nkoo" && NormalizeLanguageCode(code) != "ber-Latn"
  {
    NormalFormsAreLowerCase(code);
    MixedCaseAfricanCodes();
  }

  /** "gav" is an alias of Swahili. */
  lemma AliasGav()
    ensures LanguageCode("gav") == Some("sw")
  {
  }

  /** "gax" is an alias of Oromo. */
  lemma AliasGax()
    ensures LanguageCode("gax") == Some("om")
  {
  }

  /** "gaz" is an alias of Oromo. */
  lemma AliasGaz()
    ensures LanguageCode("gaz") == Some("om")
  {
  }

  /** A lookup key normalises to an African code exactly when it is a recognised African key. */
  lemma AfricanKeyExactly(key: string)
    requires NoUpper(key)
    ensures IsAfricanCode(LanguageCode(key).GetOr(key)) <==> IsRecognisedAfricanKey(key)
  {
    if IsAfricanCode(key) {
      MixedCaseAfricanCodes();
    } else if BaseLanguageCode(key).Some? {
      AliasValueShape(key);
      if key == "gav" { AliasGav(); }
      if key == "gax" { AliasGax(); }
      if key == "gaz" { AliasGaz(); }
    } else {
      AliasGav();
      AliasGax();
      AliasGaz();
    }
  }

  /**
   * The African-language test, stated without normalisation: a code is
   * African exactly when it is non-empty and its lower-cased, stripped form
   * is a lower-case African code or one of the aliases "gav", "gax", "gaz".
   */
  lemma IsAfricanLanguageExactly(code: string)
    ensures IsAfricanLanguage(code) <==> code != "" && IsRecognisedAfricanKey(LookupKey(code))
  {
    if code != "" {
      LookupKeyShape(code);
      AfricanKeyExactly(LookupKey(code));
    }
  }

  /** The two mixed-case African codes are looked up in lower case. */
  lemma MixedCaseLookupKeys(code: string)
    requires code == "bm-Nkoo" || code == "ber-Latn"
    ensures LookupKey(code) in {"bm-nkoo", "ber-latn"}
  {
    if code == "bm-Nkoo" {
      assert Lower(code) == "bm-nkoo";
      StripOfTrimmed("bm-nkoo");
    } else {
      assert Lower(code) == "ber-latn";
      StripOfTrimmed("ber-latn");
    }
  }

  /** A code looked up as "bm-nkoo" or "ber-latn" is not African. */
  lemma LowerCasedMixedCodesNotAfrican(code: string)
    requires LookupKey(code) in {"bm-nkoo", "ber-latn"}
    ensures !IsAfricanLanguage(code)
  {
    IsAfricanLanguageExactly(code);
  }

  /** Written as in the table, the two mixed-case African codes are not recognised as African. */
  lemma MixedCaseAfricanCodesNotRecognised()
    ensures !IsAfricanLanguage("bm-Nkoo") && !IsAfricanLanguage("ber-Latn")
  {
    MixedCaseLookupKeys("bm-Nkoo");
    MixedCaseLookupKeys("ber-Latn");
    LowerCasedMixedCodesNotAfrican("bm-Nkoo");
    LowerCasedMixedCodesNotAfrican("ber-Latn");
  }

  /** "fil" and "ckb" are aliases, of "tl" and "ku". */
  lemma AliasFil()
    ensures LanguageCode("fil") == Some("tl")
  {
  }

  lemma AliasCkb()
    ensures LanguageCode("ckb") == Some("ku")
  {
  }

  /**
   * LANGUAGE_NAMES has entries for "fil" and "ckb", but both are aliases and
   * no alias maps to them, so no code normalises to either.
   */
  lemma FilAndCkbUnreachable(code: string)
    ensures NormalizeLanguageCode(code) != "fil" && NormalizeLanguageCode(code) != "ckb"
  {
    if code != "" {
      var key := LookupKey(code);
      if !IsAfricanCode(key) {
        if BaseLanguageCode(key).Some? {
          AliasValueShape(key);
        } else {
          AliasFil();
          AliasCkb();
        }
      }
    }
  }

  /** The empty code is shown as the name of "auto". */
  lemma DisplayNameOfEmpty()
    ensures GetLanguageDisplayName("") == "Auto-detect"
  {
  }

  /** A lower-case African code is shown with its African name, which overrides any other entry. */
  lemma AfricanNamesOverride(k: string)
    requires IsAfricanCode(k) && k != "bm-Nkoo" && k != "ber-Latn"
    ensures GetLanguageDisplayName(k) == AfricanLanguageName(k)
  {
    AfricanCodesAreFixedPoints(k);
  }

  /** A code whose normal form has no name is shown by the fallback, which quotes the code as given. */
  lemma DisplayNameFallback(code: string)
    requires !HasLanguageName(NormalizeLanguageCode(code))
    ensures GetLanguageDisplayName(code) == "Unknown (" + code + ")"
  {
  }

  /** The two names of "sw". */
  lemma SwahiliNames()
    ensures HasBaseLanguageName("sw") && BaseLanguageName("sw") == "Swahili (Kiswahili)"
    ensures IsAfricanCode("sw") && AfricanLanguageName("sw") == "Swahili (Kenya, Tanzanie, Ouganda, etc.)"
  {
  }

  /** Swahili is listed in both tables; the African name is the one shown. */
  lemma SwahiliDisplayName()
    ensures HasBaseLanguageName("sw") && BaseLanguageName("sw") == "Swahili (Kiswahili)"
    ensures GetLanguageDisplayName("sw") == "Swahili (Kenya, Tanzanie, Ouganda, etc.)"
  {
    SwahiliNames();
    AfricanNamesOverride("sw");
  }

  /** "fil" has a name of its own, but "tl" has none. */
  lemma FilNames()
    ensures HasBaseLanguageName("fil") && !HasLanguageName("tl")
  {
  }

  /** Normalisation sends "fil" to "tl", which has no name, so the fallback quotes "fil" as given. */
  lemma FilDisplayName()
    ensures HasBaseLanguageName("fil")
    ensures NormalizeLanguageCode("fil") == "tl" && !HasLanguageName("tl")
    ensures GetLanguageDisplayName("fil") == "Unknown (fil)"
  {
    AliasFil();
    NormalizeAlias("fil", "tl");
    FilNames();
    DisplayNameFallback("fil");
  }

  /** "auto" is listed as an alias of itself. */
  lemma AliasAuto()
    ensures LanguageCode("auto") == Some("auto")
  {
  }

  /** "auto", the default source language, is its own normal form and has a name. */
  lemma NormalizeAuto()
    ensures NormalizeLanguageCode("auto") == "auto"
    ensures HasLanguageName("auto")
  {
    AliasAuto();
    NormalizeAlias("auto", "auto");
  }

  /** "unknown" is not an alias, but has a name. */
  lemma UnknownEntries()
    ensures LanguageCode("unknown") == None
    ensures HasBaseLanguageName("unknown")
  {
  }

  /** "unknown" is its own normal form and has a name. */
  lemma NormalizeUnknown()
    ensures NormalizeLanguageCode("unknown") == "unknown"
    ensures HasLanguageName("unknown")
  {
    UnknownEntries();
    NormalizeCanonical("unknown");
  }

  /** "bm-nkoo", the lower-cased N'Ko code, is not an alias. */
  lemma BmNkooIsNotAnAlias()
    ensures LanguageCode("bm-nkoo") == None
  {
  }

  /** "bm-nkoo" has no name. */
  lemma BmNkooHasNoName()
    ensures !HasLanguageName("bm-nkoo")
  {
  }

  /** "ber-latn", the lower-cased Latin-script Berber code, is not an alias. */
  lemma BerLatnIsNotAnAlias()
    ensures LanguageCode("ber-latn") == None
  {
  }

  /** "ber-latn" has no name. */
  lemma BerLatnHasNoName()
    ensures !HasLanguageName("ber-latn")
  {
  }
}
