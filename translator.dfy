/** The translation cache of translations/translator_service.py. The cache is a class-level
    dict, so every TranslatorService shares it: here it is one `LanguageCache` object that
    every service refers to. Reading `<lang>.json` is the function `load`, fixed for the life
    of a service. */
module Translator {

  /** What a language file holds: its version, when it was last updated, and the
      translations by key. */
  datatype LanguageFile = LanguageFile(version: string, lastUpdated: string, translations: map<string, string>)

  /** The dict `get_language_version` returns. */
  datatype Version = Version(version: string, lastUpdated: string)

  /** The cache after `_load_language(lang)`: the file is read only when the language is not
      cached yet, and nothing already cached is read again or replaced. */
  function WithLanguage(cache: map<string, LanguageFile>, lang: string, load: string -> LanguageFile): (r: map<string, LanguageFile>)
    ensures r.Keys == cache.Keys + {lang}
    ensures forall l :: l in cache ==> r[l] == cache[l]
    ensures lang !in cache ==> r[lang] == load(lang)
  {
    if lang in cache then cache else cache[lang := load(lang)]
  }

  /** `translations.get(key, key)`: the translation, or the key itself when there is none. */
  function Lookup(file: LanguageFile, key: string): (s: string)
    ensures key in file.translations ==> s == file.translations[key]
    ensures key !in file.translations ==> s == key
  {
    if key in file.translations then file.translations[key] else key
  }

  /** Loading a language twice is the same as loading it once. */
  lemma WithLanguageIdempotent(cache: map<string, LanguageFile>, lang: string, load: string -> LanguageFile)
    ensures WithLanguage(WithLanguage(cache, lang, load), lang, load) == WithLanguage(cache, lang, load)
  {
  }

  /** A cached language is never refreshed from its file; after the cache is emptied the next
      load reads the file again. */
  lemma CachedLanguageIsStale(cache: map<string, LanguageFile>, lang: string, load: string -> LanguageFile)
    ensures lang in cache ==> WithLanguage(cache, lang, load)[lang] == cache[lang]
    ensures WithLanguage(map[], lang, load)[lang] == load(lang)
  {
  }

  /** The cache after the constructor has loaded en, ru and uz into `cache`. */
  function WithStartupLanguages(cache: map<string, LanguageFile>, load: string -> LanguageFile): (r: map<string, LanguageFile>)
    ensures r.Keys == cache.Keys + {"en", "ru", "uz"}
    ensures forall l :: l in cache ==> r[l] == cache[l]
  {
    WithLanguage(WithLanguage(WithLanguage(cache, "en", load), "ru", load), "uz", load)
  }

  /** `TranslatorService._cache`, the dict from language to its loaded file. It is a class
      attribute, so there is one of it however many services exist: every service refers to
      the same `LanguageCache` object, and what one service loads or clears, all see. */
  class LanguageCache {
    var entries: map<string, LanguageFile>

    /** The empty dict of the class body. */
    constructor ()
      ensures entries == map[]
    {
      entries := map[];
    }
  }

  class TranslatorService {
    /** The class-level cache this service reads and fills. */
    const store: LanguageCache
    /** Reading `<lang>.json` from the locales directory. */
    const load: string -> LanguageFile

    /** `TranslatorService()`: en, ru and uz are loaded into the shared cache, each only if it
        is not cached yet. */
    constructor (load: string -> LanguageFile, store: LanguageCache)
      modifies store
      ensures this.load == load && this.store == store
      ensures store.entries == WithStartupLanguages(old(store.entries), load)
    {
      this.load := load;
      this.store := store;
      new;
      LoadLanguage("en");
      LoadLanguage("ru");
      LoadLanguage("uz");
    }

    /** `_load_language(lang)` */
    method LoadLanguage(lang: string)
      modifies store
      ensures store.entries == WithLanguage(old(store.entries), lang, load)
    {
      if lang !in store.entries {
        store.entries := store.entries[lang := load(lang)];
      }
    }

    /** `get_language_translations(lang)`: the whole loaded file of the language. */
    method GetLanguageTranslations(lang: string) returns (file: LanguageFile)
      modifies store
      ensures store.entries == WithLanguage(old(store.entries), lang, load)
      ensures file == store.entries[lang]
      ensures lang !in old(store.entries) ==> file == load(lang)
    {
      LoadLanguage(lang);
      file := store.entries[lang];
    }

    /** `get_language_version(lang)`: exactly the version and date of the loaded file. */
    method GetLanguageVersion(lang: string) returns (v: Version)
      modifies store
      ensures store.entries == WithLanguage(old(store.entries), lang, load)
      ensures v == Version(store.entries[lang].version, store.entries[lang].lastUpdated)
    {
      LoadLanguage(lang);
      v := Version(store.entries[lang].version, store.entries[lang].lastUpdated);
    }

    /** `get(key, lang)`: a lookup that never loads, so the language must be cached already
        (otherwise the source raises KeyError). */
    function Get(key: string, lang: string): (s: string)
      reads this, store
      requires lang in store.entries
      ensures key in store.entries[lang].translations ==> s == store.entries[lang].translations[key]
      ensures key !in store.entries[lang].translations ==> s == key
    {
      Lookup(store.entries[lang], key)
    }

    /** `clear_cache()`: empties the shared cache, for every service. */
    method ClearCache()
      modifies store
      ensures store.entries == map[]
    {
      store.entries := map[];
    }
  }

  /** Two services over the one class-level cache: a language loaded through the first can be
      looked up through the second, and clearing through the second empties it for the first. */
  method SharedCache(a: TranslatorService, b: TranslatorService, lang: string, key: string) returns (s: string)
    requires a.store == b.store
    modifies a.store
    ensures lang !in old(a.store.entries) ==> s == Lookup(a.load(lang), key)
    ensures lang in old(a.store.entries) ==> s == Lookup(old(a.store.entries)[lang], key)
    ensures a.store.entries == map[]
  {
    a.LoadLanguage(lang);
    s := b.Get(key, lang);
    b.ClearCache();
  }

  /** After construction every startup language can be looked up; languages that were
      cached before keep their old files. */
  lemma StartupLanguagesReady(cache: map<string, LanguageFile>, load: string -> LanguageFile)
    ensures var c := WithStartupLanguages(cache, load);
      "en" in c && "ru" in c && "uz" in c
      && ("en" !in cache ==> c["en"] == load("en"))
      && ("ru" !in cache ==> c["ru"] == load("ru"))
      && ("uz" !in cache ==> c["uz"] == load("uz"))
  {
  }
}
