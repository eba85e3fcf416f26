/**
 * The `I18N` class: translation tables read from `<dir>/<language>.json`, cached per
 * language the first time they are needed, with a default language for lookups
 * that name none. The directory's contents are given as a map from file path to the
 * parsed table; a path missing from it is a file that does not exist.
 */
module LibI18n {
  import opened Wrappers
  import opened Text

  /** `LOGGER_LANGUAGE_ID`. */
  const LOGGER_LANGUAGE_ID: string := "en_US"

  /** `translationFileDir / f"{language}.json"`. */
  function TranslationFilePath(dir: string, language: string): string {
    JoinPath(dir, language + ".json")
  }

  class I18N {
    const translationFileDir: string
    const files: map<string, map<string, string>>
    var translations: map<string, map<string, string>>
    var defaultLanguage: string
    var translationFile: string

    /** Every cached table is the content of that language's file. */
    predicate Valid()
      reads this
    {
      forall l :: l in translations ==>
        TranslationFilePath(translationFileDir, l) in files
        && translations[l] == files[TranslationFilePath(translationFileDir, l)]
    }

    /** `__init__` up to the call of `setDefaultLanguage`, which `Create` makes next. */
    constructor Empty(dir: string, files: map<string, map<string, string>>)
      ensures Valid()
      ensures translationFileDir == dir && this.files == files
      ensures translations == map[] && defaultLanguage == "" && translationFile == ""
    {
      translationFileDir := dir;
      this.files := files;
      translations := map[];
      defaultLanguage := "";
      translationFile := "";
    }

    /** `loadTranslation(language)`: on a missing file the cache is left as it was. */
    method LoadTranslation(language: string) returns (r: Result<(), string>)
      requires Valid()
      modifies this
      ensures Valid()
      ensures defaultLanguage == old(defaultLanguage)
      ensures translationFile == TranslationFilePath(translationFileDir, language)
      ensures translationFile in files ==>
        r.Ok? && translations == old(translations)[language := files[translationFile]]
      ensures translationFile !in files ==>
        r == Err("Translation file " + translationFile + " not found.") && translations == old(translations)
    {
      translationFile := TranslationFilePath(translationFileDir, language);
      if translationFile !in files {
        return Err("Translation file " + translationFile + " not found.");
      }
      translations := translations[language := files[translationFile]];
      r := Ok(());
    }

    /** `setDefaultLanguage(language)`: the default changes even when loading then fails. */
    method SetDefaultLanguage(language: string) returns (r: Result<(), string>)
      requires Valid()
      modifies this
      ensures Valid()
      ensures defaultLanguage == language
      ensures language in old(translations) ==> r.Ok? && translations == old(translations)
      ensures language !in old(translations) ==>
        var path := TranslationFilePath(translationFileDir, language);
        if path in files then r.Ok? && translations == old(translations)[language := files[path]]
        else r.Err? && translations == old(translations)
      ensures r.Ok? <==> language in translations
    {
      defaultLanguage := language;
      r := Ok(());
      if language !in translations {
        r := LoadTranslation(language);
      }
    }

    /** `translate(key, language)`: "" means the default language; a missing key is returned as it is. */
    method Translate(key: string, language: string) returns (r: Result<string, string>)
      requires Valid()
      modifies this
      ensures Valid()
      ensures defaultLanguage == old(defaultLanguage)
      ensures var lang := if language == "" then defaultLanguage else language;
        var path := TranslationFilePath(translationFileDir, lang);
        (lang in old(translations) ==> translations == old(translations))
        && (lang !in old(translations) && path in files ==> translations == old(translations)[lang := files[path]])
        && (lang !in old(translations) && path !in files ==> translations == old(translations) && r.Err?)
        && (r.Ok? <==> lang in translations)
        && (r.Ok? ==> r.value == Lookup(translations[lang], key))
    {
      var lang := if language == "" then defaultLanguage else language;
      if lang !in translations {
        var loaded := LoadTranslation(lang);
        if loaded.Err? {
          return Err(loaded.error);
        }
      }
      r := Ok(Lookup(translations[lang], key));
    }
  }

  /** `table.get(key, key)`. */
  function Lookup(table: map<string, string>, key: string): (r: string)
    ensures key !in table ==> r == key
    ensures key in table ==> r == table[key]
  {
    if key in table then table[key] else key
  }

  /** `I18N(translationFileDir, logger)`: starts with an empty cache and loads LOGGER_LANGUAGE_ID. */
  method Create(dir: string, files: map<string, map<string, string>>) returns (i: I18N, r: Result<(), string>)
    ensures fresh(i) && i.Valid()
    ensures i.translationFileDir == dir && i.files == files
    ensures i.defaultLanguage == LOGGER_LANGUAGE_ID
    ensures TranslationFilePath(dir, LOGGER_LANGUAGE_ID) in files ==>
      r.Ok? && i.translations == map[LOGGER_LANGUAGE_ID := files[TranslationFilePath(dir, LOGGER_LANGUAGE_ID)]]
    ensures TranslationFilePath(dir, LOGGER_LANGUAGE_ID) !in files ==> r.Err? && i.translations == map[]
  {
    i := new I18N.Empty(dir, files);
    r := i.SetDefaultLanguage(LOGGER_LANGUAGE_ID);
  }
}
