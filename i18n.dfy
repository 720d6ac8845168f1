/**
 * The translation lookup `t(key, lang)`: the requested language's entry,
 * else the zh-CN entry, else the key itself.  JavaScript's `||` treats an
 * empty string as missing, so an empty entry or an empty language name falls
 * through to the next step exactly as an absent one does.
 */
module I18n {
  import opened Wrappers

  type Table = map<string, string>

  /** The language every lookup falls back to, and the stored default. */
  const DefaultLanguage := "zh-CN"

  /** A present, non-empty value (JavaScript truthiness of a string). */
  function Truthy(s: Option<string>): (r: Option<string>)
    ensures r.Some? <==> s.Some? && s.value != ""
    ensures r.Some? ==> r == s
  {
    if s.Some? && s.value != "" then s else None
  }

  /** `table[key]`, with a missing key and an empty entry alike reported as absent. */
  function Entry(table: Table, key: string): (r: Option<string>)
    ensures r.Some? <==> key in table && table[key] != ""
    ensures r.Some? ==> r.value == table[key]
  {
    if key in table then Truthy(Some(table[key])) else None
  }

  /**
   * `getLanguage()`: the stored language, or zh-CN when nothing (or an empty
   * string) is stored or the storage read fails; `stored` is the read's
   * outcome, `None` for a failed read or a missing entry.
   */
  function StoredLanguage(stored: Option<string>): (r: string)
    ensures r != ""
    ensures stored.Some? && stored.value != "" ==> r == stored.value
    ensures stored.None? || stored.value == "" ==> r == DefaultLanguage
  {
    Truthy(stored).GetOr(DefaultLanguage)
  }

  /** `lang || getLanguage()`. */
  function CurrentLanguage(lang: Option<string>, stored: Option<string>): (r: string)
    ensures r != ""
    ensures lang.Some? && lang.value != "" ==> r == lang.value
    ensures lang.None? || lang.value == "" ==> r == StoredLanguage(stored)
  {
    Truthy(lang).GetOr(StoredLanguage(stored))
  }

  /**
   * `t(key, lang)` over the translation tables.  The tables always hold a
   * zh-CN table (the source indexes it without a check).
   */
  function T(tables: map<string, Table>, key: string, lang: Option<string>,
             stored: Option<string>): (r: string)
    requires DefaultLanguage in tables
    ensures var l := CurrentLanguage(lang, stored);
      l in tables && Entry(tables[l], key).Some? ==> r == tables[l][key]
    ensures var l := CurrentLanguage(lang, stored);
      (l !in tables || Entry(tables[l], key).None?) && Entry(tables[DefaultLanguage], key).Some? ==>
        r == tables[DefaultLanguage][key]
    ensures var l := CurrentLanguage(lang, stored);
      (l !in tables || Entry(tables[l], key).None?) && Entry(tables[DefaultLanguage], key).None? ==>
        r == key
  {
    var currentLang := CurrentLanguage(lang, stored);
    var fallback := Entry(tables[DefaultLanguage], key).GetOr(key);
    if currentLang !in tables then fallback
    else Entry(tables[currentLang], key).GetOr(fallback)
  }

  /** The lookup is total and never yields an empty text for a non-empty key. */
  lemma TranslationIsNeverEmpty(tables: map<string, Table>, key: string, lang: Option<string>,
                                stored: Option<string>)
    requires DefaultLanguage in tables
    requires key != ""
    ensures T(tables, key, lang, stored) != ""
  {
  }

  /**
   * Every result is one of three things: an entry of the language asked
   * for, an entry of the zh-CN table, or the key.
   */
  lemma TranslationComesFromATable(tables: map<string, Table>, key: string, lang: Option<string>,
                                   stored: Option<string>)
    requires DefaultLanguage in tables
    ensures var r, l := T(tables, key, lang, stored), CurrentLanguage(lang, stored);
      || r == key
      || (key in tables[DefaultLanguage] && r == tables[DefaultLanguage][key])
      || (l in tables && key in tables[l] && r == tables[l][key])
  {
  }

  /** An unknown language translates exactly as zh-CN does. */
  lemma UnknownLanguageActsAsDefault(tables: map<string, Table>, key: string, lang: string,
                                     stored: Option<string>)
    requires DefaultLanguage in tables
    requires lang != "" && lang !in tables
    ensures T(tables, key, Some(lang), stored) == T(tables, key, Some(DefaultLanguage), stored)
  {
  }

  /** Omitting the language with nothing stored is asking for zh-CN. */
  lemma OmittedLanguageDefaultsToChinese(tables: map<string, Table>, key: string)
    requires DefaultLanguage in tables
    ensures T(tables, key, None, None) == T(tables, key, Some(DefaultLanguage), None)
    ensures T(tables, key, Some(""), Some("")) == T(tables, key, Some(DefaultLanguage), None)
  {
  }

  /** Omitting the language means the stored one. */
  lemma OmittedLanguageMeansStored(tables: map<string, Table>, key: string, stored: string)
    requires DefaultLanguage in tables
    requires stored != ""
    ensures T(tables, key, None, Some(stored)) == T(tables, key, Some(stored), None)
  {
  }
}
