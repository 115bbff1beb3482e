/** Translation lookup (src/context/LanguageContext.jsx). The translation
    tables are a parameter: language code to (key to text). */
module Language {
  import opened TextUtil

  type Translations = map<string, map<string, string>>

  const DefaultLanguage: string := "en"

  /** The starting language: the stored one when there is a non-empty
      stored value, otherwise English. */
  function InitialLanguage(stored: Option<string>): (r: string)
    ensures r != ""
    ensures stored.Some? && stored.value != "" ==> r == stored.value
  {
    if stored.Some? && stored.value != "" then stored.value else DefaultLanguage
  }

  /** The text `t` starts from: the translation when it is present and
      non-empty, the key itself otherwise. */
  function Entry(table: map<string, string>, key: string): (r: string)
    ensures key in table && table[key] != "" ==> r == table[key]
    ensures key !in table || table[key] == "" ==> r == key
  {
    if key in table && table[key] != "" then table[key] else key
  }

  /** `t(key)`; `None` when the current language has no table, where the
      code throws. Underscores become spaces. */
  function T(translations: Translations, language: string, key: string): (r: Option<string>)
    ensures r.Some? <==> language in translations
    ensures r.Some? ==> '_' !in r.value
    ensures r.Some? ==> |r.value| == |Entry(translations[language], key)|
  {
    if language !in translations then None
    else Some(ReplaceAll(Entry(translations[language], key), '_', ' '))
  }

  /** A key without a translation comes back with underscores as spaces;
      a key without underscores comes back unchanged. */
  lemma MissingKeyShown(translations: Translations, language: string, key: string)
    requires language in translations
    requires key !in translations[language] || translations[language][key] == ""
    ensures T(translations, language, key) == Some(ReplaceAll(key, '_', ' '))
    ensures '_' !in key ==> T(translations, language, key) == Some(key)
  {
    if '_' !in key {
      assert ReplaceAll(key, '_', ' ') == key;
    }
  }

  /** Looking up a displayed text again as a key, in a table without it,
      gives it back: `t` is idempotent on its fallbacks. */
  lemma FallbackIdempotent(translations: Translations, language: string, key: string)
    requires language in translations
    requires var shown := T(translations, language, key).value;
             shown !in translations[language] || translations[language][shown] == ""
    ensures var shown := T(translations, language, key).value;
            T(translations, language, shown) == Some(shown)
  {
    var shown := T(translations, language, key).value;
    MissingKeyShown(translations, language, shown);
  }

  /** The language chosen and persisted is the one restored next time. */
  lemma PersistedLanguageRestored(language: string)
    requires language != ""
    ensures InitialLanguage(Some(language)) == language
  {
  }
}
