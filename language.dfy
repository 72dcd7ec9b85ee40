/**
 * The site-wide language: the chosen language code (absent until the first
 * effect runs), the language-picker modal flag and the browser's
 * key/value preference store, plus the translation lookup.
 */
module Language {
  import opened Wrappers

  /** The store key under which the chosen language is kept. */
  const PreferenceKey := "preferredLanguage"

  /** The language the toggle switches to: Polish from Ukrainian, Ukrainian from anything else. */
  function Toggled(language: Option<string>): (r: string)
    ensures r == "ua" || r == "pl"
    ensures r == "pl" <==> language == Some("ua")
  {
    if language == Some("ua") then "pl" else "ua"
  }

  /** Toggling twice from either supported language restores it. */
  lemma ToggleTwice(l: string)
    requires l == "ua" || l == "pl"
    ensures Toggled(Some(Toggled(Some(l)))) == l
  {
    assert "ua" != "pl";
  }

  /**
   * `translations[language] || translations.ua`: the table of the current
   * language when there is one, and the Ukrainian table for no language or an
   * unknown one.
   */
  function Translate<V(==)>(translations: map<string, V>, language: Option<string>): (t: V)
    requires "ua" in translations
    ensures t in translations.Values
    ensures language.Some? && language.value in translations ==> t == translations[language.value]
    ensures language.None? || language.value !in translations ==> t == translations["ua"]
  {
    if language.Some? && language.value in translations then translations[language.value]
    else translations["ua"]
  }

  /** With the two tables the site ships, each supported code finds its own table and any other finds Ukrainian. */
  lemma TranslateShippedTables<V>(translations: map<string, V>, language: Option<string>)
    requires translations.Keys == {"ua", "pl"}
    ensures language == Some("pl") ==> Translate(translations, language) == translations["pl"]
    ensures language != Some("pl") ==> Translate(translations, language) == translations["ua"]
  {
  }

  class LanguageProvider {
    var language: Option<string>
    var showModal: bool
    var store: map<string, string>

    /** The modal flag starts false and is only ever set to false. */
    ghost predicate Valid()
      reads this
    {
      !showModal
    }

    /** The stored preference is the current language. */
    ghost predicate Persisted()
      reads this
    {
      language.Some? && PreferenceKey in store && store[PreferenceKey] == language.value
    }

    /** Before the first effect: no language yet, modal closed, the store as the browser left it. */
    constructor (saved: map<string, string>)
      ensures Valid()
      ensures language == None && store == saved
    {
      language := None;
      showModal := false;
      store := saved;
    }

    /**
     * The mount effect. A saved, non-empty preference becomes the language
     * and the store is left alone; otherwise the language defaults to Polish
     * and Polish is saved.
     */
    method Init()
      requires Valid()
      modifies this`language, this`store
      ensures Valid() && Persisted()
      ensures PreferenceKey in old(store) && old(store)[PreferenceKey] != "" ==>
        language == Some(old(store)[PreferenceKey]) && store == old(store)
      ensures PreferenceKey !in old(store) || old(store)[PreferenceKey] == "" ==>
        language == Some("pl") && store == old(store)[PreferenceKey := "pl"]
    {
      if PreferenceKey in store && store[PreferenceKey] != "" {
        language := Some(store[PreferenceKey]);
      } else {
        language := Some("pl");
        store := store[PreferenceKey := "pl"];
      }
    }

    /** `selectLanguage(l)`: the language becomes `l`, `l` is saved and the modal is closed. */
    method SelectLanguage(l: string)
      requires Valid()
      modifies this`language, this`store, this`showModal
      ensures Valid() && Persisted()
      ensures language == Some(l) && store == old(store)[PreferenceKey := l]
    {
      language := Some(l);
      store := store[PreferenceKey := l];
      showModal := false;
    }

    /** `toggleLanguage`: selects the toggled language. */
    method ToggleLanguage()
      requires Valid()
      modifies this`language, this`store, this`showModal
      ensures Valid() && Persisted()
      ensures language == Some(Toggled(old(language)))
      ensures store == old(store)[PreferenceKey := Toggled(old(language))]
    {
      var newLanguage := if language == Some("ua") then "pl" else "ua";
      SelectLanguage(newLanguage);
    }
  }
}
