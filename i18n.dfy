/**
 * Locale resolution and the translation table (src/i18n/index.tsx). The
 * device's locale list, or the exception reading it raises, is an input;
 * a translation table is named by its language (the string tables
 * themselves are not part of this model).
 */
module I18n {
  import opened Wrappers

  /** One entry of the device's preferred-locale list; `languageCode` may be null. */
  datatype Locale = Locale(languageCode: Option<string>)

  /** What `getLocales()` gives: the list, or an exception. */
  datatype LocaleSource = Locales(list: seq<Locale>) | Throws

  /** SupportedLanguage. */
  const SupportedLanguages: set<string> := {"en", "fr", "es", "de", "it", "pt"}

  /** The languages detection may pick besides the fallback. */
  const DetectedLanguages: seq<string> := ["fr", "es", "de", "it", "pt"]

  /** The string tables en, fr, es, de, it and pt. */
  datatype Table = En | Fr | Es | De | It | Pt

  /** `locales[0]?.languageCode ?? "en"`. */
  function FirstLanguageCode(list: seq<Locale>): string {
    if list == [] || list[0].languageCode.None? then "en" else list[0].languageCode.value
  }

  /** `resolveLocale`: the first locale's language if it is one of the five translated ones, else English. */
  function ResolveLocale(source: LocaleSource): (lang: string)
    ensures lang in SupportedLanguages
  {
    match source
    case Throws => "en"
    case Locales(list) =>
      var lang := FirstLanguageCode(list);
      if lang in DetectedLanguages then lang else "en"
  }

  /**
   * A French, Spanish, German, Italian or Portuguese first locale is kept;
   * anything else (no locale, no code, another or an unknown language, an
   * exception) gives English.
   */
  lemma ResolveLocaleCases(source: LocaleSource)
    ensures source.Throws? ==> ResolveLocale(source) == "en"
    ensures source.Locales? && source.list == [] ==> ResolveLocale(source) == "en"
    ensures source.Locales? && source.list != [] && source.list[0].languageCode.None? ==>
      ResolveLocale(source) == "en"
    ensures source.Locales? && source.list != [] && source.list[0].languageCode.Some? ==>
      var code := source.list[0].languageCode.value;
      ResolveLocale(source) == if code in SupportedLanguages then code else "en"
    ensures ResolveLocale(source) != "en" <==>
      source.Locales? && source.list != [] && source.list[0].languageCode.Some?
      && source.list[0].languageCode.value in SupportedLanguages - {"en"}
  {
  }

  /** Only the first locale counts: later preferences never change the result. */
  lemma OnlyFirstLocaleCounts(first: Locale, rest1: seq<Locale>, rest2: seq<Locale>)
    ensures ResolveLocale(Locales([first] + rest1)) == ResolveLocale(Locales([first] + rest2))
  {
  }

  /** `translations`: one table per supported language. */
  function Translations(): (m: map<string, Table>)
    ensures m.Keys == SupportedLanguages
  {
    map["en" := En, "fr" := Fr, "es" := Es, "de" := De, "it" := It, "pt" := Pt]
  }

  /** Different languages get different tables, so each supported language is shown in its own strings. */
  lemma TranslationsDistinct(a: string, b: string)
    requires a in Translations() && b in Translations() && a != b
    ensures Translations()[a] != Translations()[b]
  {
  }

  /** `activeTranslations`: the table of the resolved language, always present. */
  function ActiveTranslations(source: LocaleSource): (t: Table)
    ensures t == En <==> ResolveLocale(source) == "en"
  {
    Translations()[ResolveLocale(source)]
  }
}
