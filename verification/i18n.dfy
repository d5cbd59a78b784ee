/**
 * The interface-language choice of src/app/i18n.ts: which locales are supported, which one
 * is picked at start from the stored choice and the browser language, and the guard that
 * keeps `setLocale` from accepting anything else.
 */
module I18n {
  import opened Wrappers
  import opened JsText
  import opened Json
  import opened Host

  /** The values of `SUPPORTED_LOCALES`, in their order. */
  const SUPPORTED: seq<string> := ["en", "fr"]

  const LOCALE_STORAGE_KEY := "mako-editor:locale"

  const FALLBACK_LOCALE := "en"

  /** What reading a browser value gave: the value, or an exception. */
  datatype Reading<T> = Read(value: T) | Threw

  /** `isSupported(value)`: a non-empty value equal to one of the supported locales. */
  predicate IsSupported(value: Option<string>) {
    value.Some? && value.value != "" && value.value in SUPPORTED
  }

  /** `locales.find((loc) => text.startsWith(loc))` */
  function FirstPrefixOf(locales: seq<string>, text: string): (r: Option<string>)
    ensures r.None? <==> forall i :: 0 <= i < |locales| ==> !StartsWith(text, locales[i])
    ensures r.Some? ==> exists i :: 0 <= i < |locales| && locales[i] == r.value && StartsWith(text, r.value)
                                    && forall j :: 0 <= j < i ==> !StartsWith(text, locales[j])
  {
    if locales == [] then None
    else if StartsWith(text, locales[0]) then Some(locales[0])
    else
      var rest := FirstPrefixOf(locales[1..], text);
      assert rest.Some? ==> exists i :: 1 <= i < |locales| && locales[i] == rest.value && StartsWith(text, rest.value)
                                        && forall j :: 0 <= j < i ==> !StartsWith(text, locales[j]) by {
        if rest.Some? {
          var i :| 0 <= i < |locales[1..]| && locales[1..][i] == rest.value && StartsWith(text, rest.value)
                   && forall j :: 0 <= j < i ==> !StartsWith(text, locales[1..][j]);
          assert forall j :: 0 <= j < i + 1 ==> !StartsWith(text, locales[j]) by {
            forall j | 0 <= j < i + 1 ensures !StartsWith(text, locales[j]) {
              if j > 0 {
                assert locales[j] == locales[1..][j - 1];
              }
            }
          }
        }
      }
      assert rest.None? ==> forall i :: 0 <= i < |locales| ==> !StartsWith(text, locales[i]) by {
        if rest.None? {
          forall i | 0 <= i < |locales| ensures !StartsWith(text, locales[i]) {
            if i > 0 {
              assert locales[i] == locales[1..][i - 1];
            }
          }
        }
      }
      rest
  }

  /**
   * `detectLocale()`, given what reading the stored choice gave and the browser language
   * (`navigator.language ?? navigator.languages?.[0]`, `None` when undefined).
   */
  function DetectLocale(stored: Reading<Option<string>>, language: Option<string>): (r: string)
    ensures IsSupported(Some(r))
    ensures stored.Threw? ==> r == FALLBACK_LOCALE
    ensures stored.Read? && IsSupported(stored.value) ==> r == stored.value.value
    ensures stored.Read? && !IsSupported(stored.value) && (language.None? || language.value == "") ==> r == FALLBACK_LOCALE
  {
    match stored
    case Threw => FALLBACK_LOCALE
    case Read(s) =>
      if IsSupported(s) then s.value
      else if language.None? || language.value == "" then FALLBACK_LOCALE
      else
        var lowerNav := ToLower(language.value);
        if lowerNav in SUPPORTED then lowerNav
        else
          var partial := FirstPrefixOf(SUPPORTED, lowerNav);
          if partial.Some? then partial.value else FALLBACK_LOCALE
  }

  /** Without a supported stored choice, a language that lower-cases to a locale selects it. */
  lemma ExactLanguageWins(stored: Option<string>, language: string)
    requires !IsSupported(stored) && language != ""
    requires ToLower(language) in SUPPORTED
    ensures DetectLocale(Read(stored), Some(language)) == ToLower(language)
  {
  }

  /**
   * Otherwise the first supported locale that begins the lower-cased language is taken
   * ("fr-CA" gives "fr"), and with none the fallback "en".
   */
  lemma PrefixOrFallback(stored: Option<string>, language: string)
    requires !IsSupported(stored) && language != ""
    requires ToLower(language) !in SUPPORTED
    ensures StartsWith(ToLower(language), "en") ==> DetectLocale(Read(stored), Some(language)) == "en"
    ensures !StartsWith(ToLower(language), "en") && StartsWith(ToLower(language), "fr") ==>
      DetectLocale(Read(stored), Some(language)) == "fr"
    ensures !StartsWith(ToLower(language), "en") && !StartsWith(ToLower(language), "fr") ==>
      DetectLocale(Read(stored), Some(language)) == FALLBACK_LOCALE
  {
    var lowerNav := ToLower(language);
    assert SUPPORTED[1..] == ["fr"] && ["fr"][1..] == [];
    if !StartsWith(lowerNav, "en") {
      assert FirstPrefixOf(SUPPORTED, lowerNav) == FirstPrefixOf(["fr"], lowerNav);
    }
  }

  /** A worked case: a Canadian French browser with nothing stored gets French. */
  lemma CanadianFrench()
    ensures DetectLocale(Read(None), Some("fr-CA")) == "fr"
  {
    assert ToLower("fr-CA") == "fr-ca";
    assert StartsWith("fr-ca", "fr");
  }

  /** The active locale, and the storage that remembers it. */
  class Localizer {
    var locale: string
    const storage: LocalStorage

    /** `createI18n({ locale: detectLocale() })`, reading the stored choice from storage. */
    constructor (storage: LocalStorage, language: Option<string>)
      ensures this.storage == storage
      ensures locale == DetectLocale(Read(RawText(Lookup(storage.items, LOCALE_STORAGE_KEY))), language)
      ensures IsSupported(Some(locale))
    {
      this.storage := storage;
      var stored := storage.GetItem(LOCALE_STORAGE_KEY);
      locale := DetectLocale(Read(RawText(stored)), language);
    }

    /** `setLocale(locale)`: an unsupported locale changes nothing; a supported one is applied and stored. */
    method SetLocale(locale: string)
      modifies this, storage
      ensures IsSupported(Some(old(this.locale))) ==> IsSupported(Some(this.locale))
      ensures !IsSupported(Some(locale)) ==> this.locale == old(this.locale) && storage.items == old(storage.items)
      ensures IsSupported(Some(locale)) ==>
        this.locale == locale && storage.items == old(storage.items)[LOCALE_STORAGE_KEY := Raw(locale)]
    {
      if !IsSupported(Some(locale)) {
        return;
      }
      this.locale := locale;
      storage.SetItem(LOCALE_STORAGE_KEY, Raw(locale));
    }
  }

  /** Round trip: a locale `setLocale` stored is what the next start detects, whatever the browser language. */
  lemma StoredLocaleIsDetected(items: map<string, Stored>, locale: string, language: Option<string>)
    requires IsSupported(Some(locale))
    ensures DetectLocale(Read(RawText(Lookup(items[LOCALE_STORAGE_KEY := Raw(locale)], LOCALE_STORAGE_KEY))), language) == locale
  {
    assert RawText(Lookup(items[LOCALE_STORAGE_KEY := Raw(locale)], LOCALE_STORAGE_KEY)) == Some(locale);
  }
}
