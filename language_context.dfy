/** The language provider: the current language, restored from storage only
    when the saved value is a supported code, changed by `setLanguage`, and
    the `t` lookup over the provider's own tables. */
module LanguageContext {
  import opened Wrappers
  import opened Translations

  /** The provider's own tables, smaller than the translation module's and
      with a "language.switch" entry. */
  const ContextEnglish: map<string, string> := map[
    "dashboard" := "Dashboard",
    "health_records" := "Health Records",
    "reports" := "Reports",
    "articles" := "Health Articles",
    "health_progress" := "Health Progress",
    "health_alerts" := "Health Alerts",
    "chatbot" := "AI Assistant",
    "profile" := "Profile",
    "nav.sign_out" := "Sign Out",
    "language.switch" := "Language"
  ]

  const ContextHindi: map<string, string> := map[
    "dashboard" := "डैशबोर्ड",
    "health_records" := "स्वास्थ्य रिकॉर्ड",
    "reports" := "रिपोर्ट",
    "articles" := "स्वास्थ्य लेख",
    "health_progress" := "स्वास्थ्य प्रगति",
    "health_alerts" := "स्वास्थ्य चेतावनी",
    "chatbot" := "AI सहायक",
    "profile" := "प्रोफ़ाइल",
    "nav.sign_out" := "साइन आउट",
    "language.switch" := "भाषा"
  ]

  function ContextTable(lang: Language): map<string, string> {
    match lang
    case En => ContextEnglish
    case Hi => ContextHindi
  }

  /** The storage key the provider uses. */
  const StorageKey := "healthguard-language"

  /** The language a saved value selects, if it is exactly a supported code. */
  function Parse(saved: Option<string>): (r: Option<Language>)
    ensures r.Some? <==> saved == Some("en") || saved == Some("hi")
    ensures r.Some? ==> saved == Some(r.value.Code())
  {
    if saved == Some("en") then Some(En)
    else if saved == Some("hi") then Some(Hi)
    else None
  }

  /** Every language's code is parsed back to it. */
  lemma ParseCode(lang: Language)
    ensures Parse(Some(lang.Code())) == Some(lang)
  {
  }

  /** `LanguageProvider`, with the browser's storage as a map. */
  class LanguageProvider {
    var language: Language
    var storage: map<string, string>

    constructor(storage: map<string, string>)
      ensures language == En && this.storage == storage
    {
      language := En;
      this.storage := storage;
    }

    /** The mount effect: adopt the saved language when it is "en" or "hi". */
    method RestoreSaved()
      modifies this
      ensures storage == old(storage)
      ensures var saved := if StorageKey in storage then Some(storage[StorageKey]) else None;
        language == if Parse(saved).Some? then Parse(saved).value else old(language)
    {
      if StorageKey in storage {
        var saved := storage[StorageKey];
        if saved == "en" || saved == "hi" {
          language := if saved == "en" then En else Hi;
        }
      }
    }

    /** `setLanguage`: the state and the stored value both take the argument. */
    method SetLanguage(lang: Language)
      modifies this
      ensures language == lang
      ensures storage == old(storage)[StorageKey := lang.Code()]
    {
      language := lang;
      storage := storage[StorageKey := lang.Code()];
    }

    /** `t`: the segment-by-segment lookup in the current language's table. */
    method T(key: string) returns (r: string)
      ensures r == Resolve(key, ContextTable(language))
    {
      r := ResolveKey(key, ContextTable(language));
    }
  }

  /** A fresh provider over the storage `setLanguage` left behind restores
      the language that was set. */
  method Reload(lang: Language, storage: map<string, string>) returns (p: LanguageProvider)
    ensures fresh(p) && p.language == lang
  {
    var before := new LanguageProvider(storage);
    before.SetLanguage(lang);
    p := new LanguageProvider(before.storage);
    p.RestoreSaved();
  }

  /** `t` on a key of the provider's tables gives the current language's
      string; switching the language changes only the table read. */
  lemma TranslatesTableKeys(key: string, lang: Language)
    requires key in ContextTable(lang) && '.' !in key
    ensures Resolve(key, ContextTable(lang)) == ContextTable(lang)[key]
  {
    assert ContextTable(lang)[key] != "";
    UndottedKey(key, ContextTable(lang));
  }

  /** The provider's dotted keys never resolve, in either language. */
  lemma DottedContextKeys(lang: Language)
    ensures "nav.sign_out" in ContextTable(lang) && Resolve("nav.sign_out", ContextTable(lang)) == "nav.sign_out"
    ensures "language.switch" in ContextTable(lang) && Resolve("language.switch", ContextTable(lang)) == "language.switch"
  {
    assert "nav.sign_out"[3] == '.';
    assert "language.switch"[8] == '.';
    DottedKeyUnchanged("nav.sign_out", ContextTable(lang));
    DottedKeyUnchanged("language.switch", ContextTable(lang));
  }

  const OutsideProvider := "useLanguage must be used within LanguageProvider"

  /** `useLanguage`: the provider's value, or the error it throws outside one. */
  function UseLanguage<C>(context: Option<C>): Result<C>
  {
    match context
    case None => Failure(OutsideProvider)
    case Some(c) => Success(c)
  }

  /** The hook hands back exactly the provider's value: dropping the error
      from its result gives the context it read, and the only error is the
      outside-provider one. */
  lemma UseLanguageRoundTrip<C>(context: Option<C>)
    ensures UseLanguage(context).ToOption() == context
    ensures UseLanguage(context).Failure? ==> UseLanguage(context).error == OutsideProvider
  {
  }
}
