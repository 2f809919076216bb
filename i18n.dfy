/*
 * The bot's locale catalogue (src/i18n/loader.py): the module-level table
 * of locales, filled from the locales directory on first use, and the
 * get_text lookup with its language and key fallbacks.
 */
module I18n {
  import opened Common

  /** One YAML file of the locales directory: its stem and what yaml.safe_load returned (None for an empty file). */
  datatype LocaleFile = LocaleFile(stem: string, content: Option<map<string, string>>)

  /** The table after loading `files` in order over `m`: each file's mapping, or {} for an empty one, under its stem. */
  function Loaded(m: map<string, map<string, string>>, files: seq<LocaleFile>): map<string, map<string, string>>
  {
    if files == [] then m
    else
      var f := files[|files| - 1];
      Loaded(m, files[..|files| - 1])[f.stem := if f.content.Some? then f.content.value else map[]]
  }

  /** Every file's stem is a language afterwards, and the last file with a stem wins. */
  lemma {:induction false} LoadedLanguages(m: map<string, map<string, string>>, files: seq<LocaleFile>, lang: string)
    ensures lang in Loaded(m, files) <==> lang in m || exists i :: 0 <= i < |files| && files[i].stem == lang
  {
    if files != [] {
      var init := files[..|files| - 1];
      LoadedLanguages(m, init, lang);
      if exists i :: 0 <= i < |files| && files[i].stem == lang {
        var i :| 0 <= i < |files| && files[i].stem == lang;
        if i < |files| - 1 {
          assert init[i].stem == lang;
        }
      }
      if exists i :: 0 <= i < |init| && init[i].stem == lang {
        var i :| 0 <= i < |init| && init[i].stem == lang;
        assert files[i].stem == lang;
      }
    }
  }

  /** The locale a language reads from: its own, else "en", else an empty one. */
  function LocaleFor(locales: map<string, map<string, string>>, lang: string): map<string, string> {
    if lang in locales then locales[lang]
    else if "en" in locales then locales["en"]
    else map[]
  }

  /**
   * get_text over a loaded table: the key's text in the language's locale,
   * or the key itself; formatted only when keyword arguments are given; a
   * KeyError keeps the unformatted text and any other formatting error
   * propagates (None).
   */
  function Translate(locales: map<string, map<string, string>>, key: string, lang: string,
                     kwargs: map<string, string>): (r: Option<string>)
    ensures kwargs == map[] ==> r.Some?
  {
    var locale := LocaleFor(locales, lang);
    var text := if key in locale then locale[key] else key;
    if kwargs == map[] then Some(text)
    else
      match Format(text, kwargs)
      case Formatted(s) => Some(s)
      case MissingKey(_) => Some(text)
      case Malformed => None
  }

  /** A language with no locale reads the English one. */
  lemma UnknownLanguageUsesEnglish(locales: map<string, map<string, string>>, key: string, lang: string)
    requires lang !in locales && "en" in locales && key in locales["en"]
    ensures Translate(locales, key, lang, map[]) == Some(locales["en"][key])
  {
  }

  /** A key missing from the locale comes back as the key itself, when it holds no braces or nothing is formatted. */
  lemma MissingKeyGivesKey(locales: map<string, map<string, string>>, key: string, lang: string,
                           kwargs: map<string, string>)
    requires key !in LocaleFor(locales, lang)
    requires kwargs == map[] || forall i :: 0 <= i < |key| ==> key[i] != '{' && key[i] != '}'
    ensures Translate(locales, key, lang, kwargs) == Some(key)
  {
  }

  /** A template naming a field the keyword arguments lack is returned unformatted. */
  lemma KeyErrorKeepsText(locales: map<string, map<string, string>>, key: string, lang: string,
                          field: string, kwargs: map<string, string>)
    requires kwargs != map[]
    requires PlainFieldName(field) && '}' !in field && field !in kwargs
    requires key in LocaleFor(locales, lang) && LocaleFor(locales, lang)[key] == "{" + field + "}"
    ensures Translate(locales, key, lang, kwargs) == Some("{" + field + "}")
  {
    FormatMissingKey(field, kwargs);
  }

  /** The module's global locale table together with the files the locales directory holds. */
  class Catalog {
    var locales: map<string, map<string, string>>
    const files: seq<LocaleFile>

    constructor (files: seq<LocaleFile>)
      ensures this.files == files && locales == map[]
    {
      this.files := files;
      locales := map[];
    }

    /** load_locales: every file's content goes in under its stem, in directory order. */
    method LoadLocales()
      modifies this
      ensures locales == Loaded(old(locales), files)
    {
      var i := 0;
      while i < |files|
        invariant 0 <= i <= |files|
        invariant locales == Loaded(old(locales), files[..i])
      {
        var f := files[i];
        assert files[..i + 1][..i] == files[..i];
        locales := locales[f.stem := if f.content.Some? then f.content.value else map[]];
        i := i + 1;
      }
      assert files[..i] == files;
    }

    /** get_text: the table is loaded first when it is empty, then read by Translate. */
    method GetText(key: string, lang: string, kwargs: map<string, string>) returns (r: Option<string>)
      modifies this
      ensures old(locales) != map[] ==> locales == old(locales)
      ensures old(locales) == map[] ==> locales == Loaded(map[], files)
      ensures r == Translate(locales, key, lang, kwargs)
    {
      if locales == map[] {
        LoadLocales();
      }
      r := Translate(locales, key, lang, kwargs);
    }
  }
}
