/**
 * The i18n provider (src/lib/i18n.tsx): the current language code, the
 * three-level translation lookup `t`, and `setLang`, which persists the
 * choice in local storage.
 *
 * The lookup is stated for any `Catalog` of three tables, and the app's own
 * tables are plugged in as `AppCatalog`; the facts that depend on the
 * tables' contents are proved once about `AppCatalog` (`AppCatalogConsistent`).
 */
module I18n {
  import opened Wrappers
  import Translations
  import opened Storage

  /** The language codes the app offers (`Language`). */
  datatype Language = En | Tw | Ee

  function Code(l: Language): string
  {
    match l
    case En => "en"
    case Tw => "tw"
    case Ee => "ee"
  }

  /** Translation tables (message key to text) for the three offered languages. */
  datatype Catalog = Catalog(en: map<string, string>, tw: map<string, string>, ee: map<string, string>)

  /** `translations`: the app's three tables. */
  const AppCatalog := Catalog(Translations.En, Translations.Tw, Translations.Ee)

  function TableOf(c: Catalog, l: Language): map<string, string>
  {
    match l
    case En => c.en
    case Tw => c.tw
    case Ee => c.ee
  }

  /**
   * `translations[lang]`: the table for a code. Exactly the three offered
   * codes have one; any other stored code has none.
   */
  function Table(c: Catalog, lang: string): (r: Option<map<string, string>>)
    ensures r.Some? <==> lang in {"en", "tw", "ee"}
    ensures forall l: Language :: lang == Code(l) ==> r == Some(TableOf(c, l))
  {
    if lang == "en" then Some(c.en)
    else if lang == "tw" then Some(c.tw)
    else if lang == "ee" then Some(c.ee)
    else None
  }

  /** `key` has an entry in the table of `lang`. */
  predicate DefinedIn(c: Catalog, lang: string, key: string)
  {
    Table(c, lang).Some? && key in Table(c, lang).value
  }

  /**
   * `t(key)` under language `lang`: the entry of the current language when it
   * has one, otherwise the English entry when there is one, otherwise the key.
   */
  function Translate(c: Catalog, lang: string, key: string): (r: string)
    ensures DefinedIn(c, lang, key) ==> r == Table(c, lang).value[key]
    ensures !DefinedIn(c, lang, key) && key in c.en ==> r == c.en[key]
    ensures !DefinedIn(c, lang, key) && key !in c.en ==> r == key
  {
    var own := Table(c, lang);
    var entry := if own.Some? && key in own.value then Some(own.value[key]) else None;
    var english := if key in c.en then Some(c.en[key]) else None;
    entry.GetOr(english.GetOr(key))
  }

  /** The "tw" and "ee" tables define exactly the keys of the "en" table. */
  predicate Consistent(c: Catalog)
  {
    c.tw.Keys == c.en.Keys && c.ee.Keys == c.en.Keys
  }

  /** The app's tables are consistent. */
  lemma {:induction false} AppCatalogConsistent()
    ensures Consistent(AppCatalog)
  {
    Translations.KeysAgree();
  }

  /**
   * In a consistent catalog, a key of the English table is answered by the
   * current language's own table: the English fallback is never reached.
   */
  lemma {:induction false} KnownKeysNeverFallBack(c: Catalog, l: Language, key: string)
    requires Consistent(c) && key in c.en
    ensures key in TableOf(c, l)
    ensures Translate(c, Code(l), key) == TableOf(c, l)[key]
  {
    assert DefinedIn(c, Code(l), key);
  }

  /** In a consistent catalog, a key the English table lacks is shown as the key itself, in every language. */
  lemma {:induction false} UnknownKeyShownVerbatim(c: Catalog, lang: string, key: string)
    requires Consistent(c) && key !in c.en
    ensures Translate(c, lang, key) == key
  {
    assert !DefinedIn(c, lang, key);
  }

  /** With the app's own tables, a key the English table lacks is shown as the key itself. */
  lemma AppUnknownKeyShownVerbatim(lang: string, key: string)
    requires key !in AppCatalog.en
    ensures Translate(AppCatalog, lang, key) == key
  {
    AppCatalogConsistent();
    UnknownKeyShownVerbatim(AppCatalog, lang, key);
  }

  /** A code without a table (any stored code other than the offered ones) behaves exactly as "en". */
  lemma UnknownLanguageActsAsEnglish(c: Catalog, lang: string, key: string)
    requires lang !in {"en", "tw", "ee"}
    ensures Translate(c, lang, key) == Translate(c, "en", key)
  {
  }

  /**
   * The initial language: the stored code when it is a non-empty string,
   * otherwise "en". A stored history list found under the language key (the
   * app never writes one there) is read as "en" as well.
   */
  function InitialLanguage(stored: Option<StoredValue>): (r: string)
    ensures r != ""
    ensures stored.Some? && stored.value.Text? && stored.value.text != "" ==> r == stored.value.text
    ensures !(stored.Some? && stored.value.Text? && stored.value.text != "") ==> r == "en"
  {
    match stored
    case Some(Text(code)) => if code != "" then code else "en"
    case _ => "en"
  }

  /** The provider's state: the current language code, and the storage it persists to. */
  class I18nProvider {
    var lang: string
    const storage: LocalStorage

    /** Mounting the provider reads the stored language code. */
    constructor (storage: LocalStorage)
      ensures this.storage == storage
      ensures lang == InitialLanguage(storage.GetItem(LangKey))
    {
      this.storage := storage;
      lang := InitialLanguage(storage.GetItem(LangKey));
    }

    /** `setLang(l)`: `l` becomes current and its code is written under the language key. */
    method SetLang(l: Language)
      modifies this, storage
      ensures lang == Code(l)
      ensures storage.items == old(storage.items)[LangKey := Text(Code(l))]
    {
      lang := Code(l);
      storage.SetItem(LangKey, Text(Code(l)));
    }
  }
}
