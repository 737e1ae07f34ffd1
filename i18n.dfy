/** Language handling of the menu page: the two languages, the UI string
    tables, `t`, `asText`, validation of a stored language, and the provider
    whose `lang` state is mirrored into localStorage and `<html lang>`. */
module I18n {
  import opened Text
  import opened Browser

  datatype Lang = De | En

  /** The storage and attribute spelling of a language. */
  function LangCode(l: Lang): (code: string)
    ensures code == "de" || code == "en"
  {
    match l
    case De => "de"
    case En => "en"
  }

  /** The initial language: a stored value counts only when it is exactly
      "de" or "en"; anything else, absence included, gives German. */
  function ParseLang(raw: Option<string>): (l: Lang)
    ensures l == En <==> raw == Some("en")
    ensures raw.Some? && (raw.value == "de" || raw.value == "en") ==> LangCode(l) == raw.value
  {
    if raw == Some("en") then En else De
  }

  /** What a language is stored as is read back as the same language. */
  lemma ParseLangRoundTrip(l: Lang)
    ensures ParseLang(Some(LangCode(l))) == l
  {
  }

  /** A text in the menu data: a plain string, or a record with one string per
      language (either field may be missing at run time). */
  datatype Localized = Plain(text: string) | PerLang(de: Option<string>, en: Option<string>)

  /** `asText(val)` in the current language; `None` stands for null/undefined. */
  function AsText(val: Option<Localized>, lang: Lang): (s: string)
    ensures val.None? ==> s == ""
    ensures val.Some? && val.value.Plain? ==> s == val.value.text
    ensures val.Some? && val.value.PerLang? ==>
      var field := if lang == De then val.value.de else val.value.en;
      s == if field.Some? then field.value else ""
  {
    match val
    case None => ""
    case Some(Plain(text)) => text
    case Some(PerLang(de, en)) =>
      var field := if lang == De then de else en;
      if field.Some? then field.value else ""
  }

  /** A plain string reads the same in every language. */
  lemma AsTextPlainIgnoresLanguage(text: string, a: Lang, b: Lang)
    ensures AsText(Some(Plain(text)), a) == AsText(Some(Plain(text)), b) == text
  {
  }

  /** The keys of the UI string tables (`StringKey`). */
  const STRING_KEYS: set<string> :=
    {"language", "appearance", "darkMode", "information", "extras", "allergens", "close", "popular"}

  const STRINGS_DE: map<string, string> := map[
    "language" := "Sprache",
    "appearance" := "Darstellung",
    "darkMode" := "Dunkles Design",
    "information" := "Information",
    "extras" := "Extras",
    "allergens" := "Allergene",
    "close" := "Schließen",
    "popular" := "Beliebt"
  ]

  const STRINGS_EN: map<string, string> := map[
    "language" := "Language",
    "appearance" := "Appearance",
    "darkMode" := "Dark mode",
    "information" := "Information",
    "extras" := "Extras",
    "allergens" := "Allergens",
    "close" := "Close",
    "popular" := "Popular"
  ]

  /** The string table of a language. */
  function Strings(lang: Lang): (table: map<string, string>) {
    if lang == De then STRINGS_DE else STRINGS_EN
  }

  /** `t(key)`: the current language's string, falling back to the key. */
  function T(key: string, lang: Lang): (s: string)
    ensures key in Strings(lang) ==> s == Strings(lang)[key]
    ensures key !in Strings(lang) ==> s == key
  {
    if key in Strings(lang) then Strings(lang)[key] else key
  }

  /** Both tables define exactly the string keys, so `t` of a string key never
      falls back to the key in either language. */
  lemma StringTablesComplete(lang: Lang, key: string)
    requires key in STRING_KEYS
    ensures Strings(lang).Keys == STRING_KEYS
    ensures T(key, lang) == Strings(lang)[key] && T(key, lang) != key
  {
  }

  /** The context value a component obtains from `useI18n`. */
  datatype Ctx = Ctx(lang: Lang)

  const NO_PROVIDER_ERROR := "useI18n must be used within I18nProvider"

  /** `useI18n()`: the provider's context, or the error it throws without one. */
  function UseI18n(ctx: Option<Ctx>): (r: Result<Ctx, string>)
    ensures r.Failure? <==> ctx.None?
    ensures r.Failure? ==> r.error == NO_PROVIDER_ERROR
    ensures r.Success? ==> r.value == ctx.value
  {
    if ctx.None? then Failure(NO_PROVIDER_ERROR) else Success(ctx.value)
  }

  /** `I18nProvider`: the `lang` state and the effects that mirror it into the
      document. */
  class Provider {
    const doc: Document
    var lang: Lang

    /** After every language change the stored "lang" and `<html lang>` agree
        with the current language. */
    ghost predicate Synced()
      reads this, doc
    {
      && "lang" in doc.storage
      && doc.storage["lang"] == LangCode(lang)
      && doc.htmlLang == LangCode(lang)
    }

    /** Mounting: `lang` starts as "de"; the first effect reads the stored
        language, validates it, sets `<html lang>` and schedules `setLang`; the
        second effect writes the (still German) state to storage; if the stored
        language differs, the re-render writes it again. */
    constructor (doc: Document)
      modifies doc
      ensures this.doc == doc
      ensures lang == ParseLang(old(doc.GetItem("lang")))
      ensures Synced()
      ensures doc.storage == old(doc.storage)["lang" := LangCode(lang)]
      ensures doc.dataTheme == old(doc.dataTheme) && doc.rootOverflow == old(doc.rootOverflow)
    {
      this.doc := doc;
      lang := De;
      new;
      var raw := doc.GetItem("lang");
      var initial := ParseLang(raw);
      doc.htmlLang := LangCode(initial);
      // the [lang] effect of the first render
      doc.storage := doc.storage["lang" := LangCode(lang)];
      doc.htmlLang := LangCode(lang);
      if initial != lang {
        SetLang(initial);
      }
    }

    /** `setLang(l)` followed by the `[lang]` effect. */
    method SetLang(l: Lang)
      modifies this, doc
      ensures lang == l && Synced()
      ensures doc.storage == old(doc.storage)["lang" := LangCode(l)]
      ensures doc.dataTheme == old(doc.dataTheme) && doc.rootOverflow == old(doc.rootOverflow)
    {
      lang := l;
      doc.storage := doc.storage["lang" := LangCode(lang)];
      doc.htmlLang := LangCode(lang);
    }

    /** The value handed to consumers. */
    function Context(): (c: Ctx)
      reads this
      ensures c.lang == lang
    {
      Ctx(lang)
    }
  }
}
