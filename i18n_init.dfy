/**
 * Start-up language choice and language switching (`js/i18n-init.js`):
 * normalising a language code, choosing the initial language, and the effect
 * of switching on the stored preference and on the `I18n` dictionary.
 */
module LanguageInit {
  import opened Wrappers
  import JsText
  import opened I18nDictionary

  /** The languages that have a translation pack. Korean is the base language and is not listed. */
  const SupportedLanguages: seq<string> := ["en", "zh", "ja", "ru", "es", "fr", "it", "de", "th", "pt", "nl"]
  const DefaultLanguage: string := "ko"
  /** The preference-store key the chosen language is kept under. */
  const PreferredLanguageKey: string := "preferredLanguage"

  /** JavaScript truthiness of an optional string: present and non-empty. */
  predicate Truthy(s: Option<string>)
  {
    s.Some? && s.value != ""
  }

  /**
   * `normalizeLanguage(lang)`: the lower-cased code if it is supported, else
   * its base subtag (before the first '-') if that is supported, else Korean.
   * A missing or empty code is Korean.
   */
  function NormalizeLanguage(lang: Option<string>): (r: string)
    ensures r in SupportedLanguages || r == DefaultLanguage
    ensures !Truthy(lang) ==> r == DefaultLanguage
  {
    if !Truthy(lang) then DefaultLanguage
    else
      var lower := JsText.ToLower(lang.value);
      var base := JsText.Split(lower, '-')[0];
      if lower in SupportedLanguages then lower
      else if base in SupportedLanguages then base
      else DefaultLanguage
  }

  /** A code that lower-cases to a supported code normalises to that code. */
  lemma NormalizeSupported(lang: string)
    requires JsText.ToLower(lang) in SupportedLanguages
    ensures NormalizeLanguage(Some(lang)) == JsText.ToLower(lang)
  {
  }

  /** A locale form whose base subtag is supported normalises to the base subtag. */
  lemma NormalizeBaseSubtag(lang: string, i: nat)
    requires i < |lang| && lang[i] == '-' && '-' !in lang[..i]
    requires JsText.ToLower(lang) !in SupportedLanguages
    requires JsText.ToLower(lang[..i]) in SupportedLanguages
    ensures NormalizeLanguage(Some(lang)) == JsText.ToLower(lang[..i])
  {
    var lower := JsText.ToLower(lang);
    assert lower[i] == '-';
    assert '-' in lower;
    var j := JsText.IndexOf(lower, '-');
    assert j == i;
    JsText.SplitHead(lower, '-');
    assert lower[..i] == JsText.ToLower(lang[..i]);
  }

  /** Every code that is neither supported nor has a supported base subtag normalises to Korean. */
  lemma NormalizeOtherwiseKorean(lang: string)
    requires JsText.ToLower(lang) !in SupportedLanguages
    requires JsText.Split(JsText.ToLower(lang), '-')[0] !in SupportedLanguages
    ensures NormalizeLanguage(Some(lang)) == DefaultLanguage
  {
  }

  /** The supported codes and Korean are lower-case and contain no '-'. */
  lemma {:induction false} CanonicalCodes(code: string)
    requires code in SupportedLanguages || code == DefaultLanguage
    ensures JsText.ToLower(code) == code
    ensures '-' !in code
  {
    JsText.ToLowerOfLower(code);
  }

  /** Normalising twice is normalising once. */
  lemma {:induction false} NormalizeIdempotent(lang: Option<string>)
    ensures NormalizeLanguage(Some(NormalizeLanguage(lang))) == NormalizeLanguage(lang)
  {
    var r := NormalizeLanguage(lang);
    CanonicalCodes(r);
    if r == DefaultLanguage {
      assert JsText.Split(r, '-') == [r];
      assert r !in SupportedLanguages;
    }
  }

  /** `en-US` is English; `ko-KR` is Korean, since Korean is not in the supported list. */
  lemma {:induction false} NormalizeExamples()
    ensures NormalizeLanguage(Some("en-US")) == "en"
    ensures NormalizeLanguage(Some("ko-KR")) == "ko"
  {
    assert "en-US"[..2] == "en";
    JsText.ToLowerOfLower("en");
    assert JsText.ToLower("en-US") == "en-us";
    NormalizeBaseSubtag("en-US", 2);
    var lower := JsText.ToLower("ko-KR");
    assert lower == "ko-kr";
    assert JsText.IndexOf(lower, '-') == 2;
    JsText.SplitHead(lower, '-');
    assert lower[..2] == "ko";
  }

  /**
   * The initial language of `initI18n`: a stored preference, when present, is
   * the only source consulted; otherwise the browser language
   * (`navigator.language || navigator.userLanguage`), when present. The
   * chosen code must be supported, else Korean.
   */
  function InitialLanguage(stored: Option<string>, navigatorLanguage: Option<string>, userLanguage: Option<string>): (r: string)
    ensures r in SupportedLanguages || r == DefaultLanguage
    ensures !Truthy(stored) && !Truthy(navigatorLanguage) && !Truthy(userLanguage) ==> r == DefaultLanguage
    ensures Truthy(stored) && NormalizeLanguage(stored) !in SupportedLanguages ==> r == DefaultLanguage
  {
    if Truthy(stored) then
      var n := NormalizeLanguage(stored);
      if n in SupportedLanguages then n else DefaultLanguage
    else if Truthy(navigatorLanguage) || Truthy(userLanguage) then
      var n := NormalizeLanguage(if Truthy(navigatorLanguage) then navigatorLanguage else userLanguage);
      if n in SupportedLanguages then n else DefaultLanguage
    else DefaultLanguage
  }

  /** A stored preference decides alone: the browser language is not consulted. */
  lemma StoredPreferenceWins(stored: string, nav1: Option<string>, user1: Option<string>, nav2: Option<string>, user2: Option<string>)
    requires stored != ""
    ensures InitialLanguage(Some(stored), nav1, user1) == InitialLanguage(Some(stored), nav2, user2)
    ensures InitialLanguage(Some(stored), nav1, user1) == NormalizeLanguage(Some(stored))
  {
  }

  /** Without a stored preference the browser language decides, normalised. */
  lemma BrowserLanguageWhenNothingStored(navigatorLanguage: Option<string>, userLanguage: Option<string>)
    ensures InitialLanguage(None, navigatorLanguage, userLanguage)
         == NormalizeLanguage(if Truthy(navigatorLanguage) then navigatorLanguage else userLanguage)
  {
  }

  /** The key-value preference store (`localStorage`), as a map. */
  class PreferenceStore {
    var entries: map<string, string>

    constructor (initial: map<string, string>)
      ensures entries == initial
    {
      entries := initial;
    }

    /** `localStorage.getItem(key)`: the stored string, or None (null). */
    function Get(key: string): (r: Option<string>)
      reads this
      ensures r.Some? <==> key in entries
      ensures r.Some? ==> r.value == entries[key]
    {
      if key in entries then Some(entries[key]) else None
    }
  }

  /**
   * `applyLanguage(lang)`. `i18n` is null when the `I18n` object is absent;
   * `response` is what fetching the language's document yields. Switching to
   * Korean removes the stored preference (the page reload that follows is not
   * modelled); any other language is loaded into `i18n` and stored.
   */
  method ApplyLanguage(store: PreferenceStore, i18n: I18n?, lang: Option<string>, response: Option<Json>)
    modifies store, i18n
    ensures i18n == null ==> store.entries == old(store.entries)
    ensures i18n != null && NormalizeLanguage(lang) == DefaultLanguage ==>
      store.entries == old(store.entries) - {PreferredLanguageKey} && unchanged(i18n)
    ensures i18n != null && NormalizeLanguage(lang) != DefaultLanguage ==>
      && store.entries == old(store.entries)[PreferredLanguageKey := NormalizeLanguage(lang)]
      && i18n.currentLang == NormalizeLanguage(lang)
      && i18n.dictionary == (if response.None? then Empty else response.value)
  {
    var normalized := NormalizeLanguage(lang);
    if i18n == null {
      return;
    }
    if normalized == DefaultLanguage {
      store.entries := store.entries - {PreferredLanguageKey};
      return;
    }
    i18n.Load(normalized, response);
    store.entries := store.entries[PreferredLanguageKey := normalized];
  }

  /**
   * `initI18n()`: choose the initial language from the store and the browser
   * language, and apply it unless it is Korean.
   */
  method InitI18n(store: PreferenceStore, i18n: I18n?, navigatorLanguage: Option<string>, userLanguage: Option<string>, response: Option<Json>)
    returns (initialLang: string)
    modifies store, i18n
    ensures initialLang == InitialLanguage(old(store.Get(PreferredLanguageKey)), navigatorLanguage, userLanguage)
    ensures initialLang == DefaultLanguage || i18n == null ==> store.entries == old(store.entries)
    ensures initialLang != DefaultLanguage && i18n != null ==>
      && store.entries == old(store.entries)[PreferredLanguageKey := initialLang]
      && i18n.currentLang == initialLang
      && i18n.dictionary == (if response.None? then Empty else response.value)
    ensures initialLang == DefaultLanguage && i18n != null ==> unchanged(i18n)
  {
    var stored := store.Get(PreferredLanguageKey);
    initialLang := DefaultLanguage;
    if Truthy(stored) {
      var normalizedStored := NormalizeLanguage(stored);
      if normalizedStored in SupportedLanguages {
        initialLang := normalizedStored;
      }
    } else if Truthy(navigatorLanguage) || Truthy(userLanguage) {
      var browserLang := NormalizeLanguage(if Truthy(navigatorLanguage) then navigatorLanguage else userLanguage);
      if browserLang in SupportedLanguages {
        initialLang := browserLang;
      }
    }
    if initialLang != DefaultLanguage {
      CanonicalCodes(initialLang);
      NormalizeSupported(initialLang);
      ApplyLanguage(store, i18n, Some(initialLang), response);
    }
  }
}
