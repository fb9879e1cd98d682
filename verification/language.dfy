/** The language context: the translation lookup `t`, the initial language and `setLanguage`.
    The translation tables are a parameter and the browser's storage is a plain map. */
module Language {
  import opened Wrappers

  /** Language code to (key to text). */
  type Translations = map<string, map<string, string>>

  const DefaultLanguage := "sv"
  const FallbackLanguage := "en"
  const StorageKey := "hemfix-lang"

  /** `table[language]?.[key]`. */
  function Entry(table: Translations, language: string, key: string): (r: Option<string>)
    ensures r.Some? <==> language in table && key in table[language]
    ensures r.Some? ==> r.value == table[language][key]
  {
    if language in table && key in table[language] then Some(table[language][key]) else None
  }

  /** `t(key)`: the current language's text, else the English text, else the key itself. */
  function T(table: Translations, language: string, key: string): (r: string)
    ensures Entry(table, language, key).Some? ==> r == table[language][key]
    ensures Entry(table, language, key).None? && Entry(table, FallbackLanguage, key).Some? ==>
      r == table[FallbackLanguage][key]
    ensures Entry(table, language, key).None? && Entry(table, FallbackLanguage, key).None? ==> r == key
  {
    Entry(table, language, key).GetOr(Entry(table, FallbackLanguage, key).GetOr(key))
  }

  /** A language the tables do not know reads exactly like English. */
  lemma UnknownLanguageReadsEnglish(table: Translations, language: string, key: string)
    requires language !in table
    ensures T(table, language, key) == T(table, FallbackLanguage, key)
  {
  }

  /** The initial language: the saved code when it is non-empty, otherwise Swedish. */
  function InitialLanguage(saved: Option<string>): (r: string)
    ensures saved.Some? && saved.value != "" ==> r == saved.value
    ensures saved.None? || saved == Some("") ==> r == DefaultLanguage
    ensures r != ""
  {
    if saved.Some? && saved.value != "" then saved.value else DefaultLanguage
  }

  /** The provider's state: the current language and the browser storage. */
  datatype State = State(language: string, storage: map<string, string>)

  /** `setLanguage`: the state and the persisted value become the same code; other stored keys stay. */
  function SetLanguage(s: State, lang: string): (r: State)
    ensures r.language == lang
    ensures StorageKey in r.storage && r.storage[StorageKey] == lang
    ensures forall k :: k in s.storage && k != StorageKey ==> k in r.storage && r.storage[k] == s.storage[k]
    ensures r.storage.Keys == s.storage.Keys + {StorageKey}
  {
    State(lang, s.storage[StorageKey := lang])
  }

  /** The storage read back on the next start, as `localStorage.getItem` returns it. */
  function Saved(storage: map<string, string>): Option<string> {
    if StorageKey in storage then Some(storage[StorageKey]) else None
  }

  /** A chosen (non-empty) language survives a restart: the next start begins in it. */
  lemma ChosenLanguagePersists(s: State, lang: string)
    requires lang != ""
    ensures InitialLanguage(Saved(SetLanguage(s, lang).storage)) == lang
  {
  }
}
