/**
 * The built-in message catalogue: a table per language, a current language that is
 * detected from the locale when not given, `_` (lookup with fallback to the key) and
 * `ngettext` (Chinese has no plural; otherwise the singular only for n == 1).
 */
module I18n {
  import opened Wrappers
  import opened Text

  const DEFAULT_LANGUAGE: string := "en_US"

  /** `TRANSLATIONS`: zh_CN has a table, en_US an empty one. */
  const TRANSLATIONS: map<string, map<string, string>> := map[
    "zh_CN" := map[
      "Data folder path: \"{0}\"" := "数据文件夹路径：\"{0}\"",
      "Client ID: {0}" := "客户端ID：{0}",
      "Initialized." := "已初始化。",
      "Compile {0}." := "编译{0}。",
      "Compile finished." := "编译完成。",
      "{0} compilation failed: {1}" := "{0}编译失败：{1}",
      "{0} compiled successfully." := "{0}编译成功。",
      "{0}: Generate input." := "{0}：生成输入。",
      "{0}: Generate answer." := "{0}：生成答案。",
      "{0}: Run source code." := "{0}：运行源代码。",
      "{0}: Accepted." := "{0}：通过。",
      "Generating data {0}." := "正在生成数据{0}。",
      "Generating answer for data {0}." := "正在为数据{0}生成答案。",
      "Run source code for data {0}." := "为数据{0}运行源代码。",
      "Input generation failed: {0}" := "输入生成失败：{0}",
      "Answer generation failed: {0}" := "答案生成失败：{0}",
      "Memory limit exceeded for data {0}." := "数据{0}内存超限。",
      "Time limit exceeded for data {0}." := "数据{0}时间超限。",
      "Runtime error for data {0} with return code {1}." := "数据{0}运行时错误，返回码{1}。",
      "Wrong answer for data {0}. Checker output: {1}" := "数据{0}答案错误。检查器输出：{1}",
      "Finished. {0} data generated, {1} error data found." := "完成。生成了{0}个数据，发现{1}个错误数据。",
      "Memory limit exceeded for data {0}. Hack data saved to {1}." := "数据{0}内存超限。破解数据已保存到{1}。",
      "Time limit exceeded for data {0}. Hack data saved to {1}." := "数据{0}时间超限。破解数据已保存到{1}。",
      "Runtime error for data {0} with return code {1}. Hack data saved to {2}." := "数据{0}运行时错误，返回码{1}。破解数据已保存到{2}。",
      "Wrong answer for data {0}. Hack data saved to {1}. Checker output: {2}" := "数据{0}答案错误。破解数据已保存到{1}。检查器输出：{2}",
      "Config file path: \"{0}\"" := "配置文件路径：\"{0}\"",
      "Config file created." := "配置文件已创建。",
      "Config file updated." := "配置文件已更新。",
      "Config file loaded." := "配置文件已加载。",
      "Get config entry: \"{0}\" = \"{1}\"" := "获取配置项：\"{0}\" = \"{1}\"",
      "Modify entry: \"{0}\" = \"{1}\"" := "修改配置项：\"{0}\" = \"{1}\"",
      "Log file: \"{0}\"" := "日志文件：\"{0}\"",
      "Log level: {0}" := "日志级别：{0}",
      "Logger initialized." := "日志记录器已初始化。",
      "No differences found." := "未发现差异。",
      "Difference found at line {0}, column {1}." := "在第{0}行第{1}列发现差异。"
    ],
    "en_US" := map[]
  ]

  /**
   * The language auto-detection settles on: the locale's language when it reports
   * a non-empty one, "en_US" when it reports nothing (or fails).
   */
  function DetectLanguage(detected: Option<string>): (lang: string)
    ensures lang != ""
    ensures detected.Some? && detected.value != "" ==> lang == detected.value
  {
    if detected.Some? && detected.value != "" then detected.value else DEFAULT_LANGUAGE
  }

  /** The language `setup_i18n(language)` selects. */
  function SetupLanguage(language: Option<string>, detected: Option<string>): (lang: string)
    ensures language.Some? ==> lang == language.value
    ensures language.None? ==> lang == DetectLanguage(detected)
  {
    if language.Some? then language.value else DetectLanguage(detected)
  }

  /** `_(message)` once the current language is `lang`. */
  function Lookup(lang: string, message: string): string {
    if lang in TRANSLATIONS && message in TRANSLATIONS[lang] then TRANSLATIONS[lang][message] else message
  }

  /** `ngettext(singular, plural, n)` once the current language is `lang`. */
  function Plural(lang: string, singular: string, plural: string, n: int): string {
    if lang != "" && StartsWith(lang, "zh") then Lookup(lang, singular)
    else if n == 1 then Lookup(lang, singular)
    else Lookup(lang, plural)
  }

  /** A language without a table returns every message unchanged. */
  lemma UnknownLanguageIsIdentity(lang: string, message: string)
    requires lang !in TRANSLATIONS
    ensures Lookup(lang, message) == message
  {
  }

  /** en_US has an empty table, so `_` is the identity there. */
  lemma EnglishIsIdentity(message: string)
    ensures Lookup(DEFAULT_LANGUAGE, message) == message
  {
    assert TRANSLATIONS[DEFAULT_LANGUAGE] == map[];
  }

  /** A message without a zh_CN entry comes back unchanged. */
  lemma ChineseFallback(message: string)
    requires message !in TRANSLATIONS["zh_CN"]
    ensures Lookup("zh_CN", message) == message
  {
  }

  /** Every message the zh_CN table has is translated by that table. */
  lemma ChineseLookup(message: string)
    requires message in TRANSLATIONS["zh_CN"]
    ensures Lookup("zh_CN", message) == TRANSLATIONS["zh_CN"][message]
  {
  }

  /** One entry of the zh_CN table, as the lookup returns it. */
  lemma ChineseExample()
    ensures Lookup("zh_CN", "Compile finished.") == "编译完成。"
  {
  }

  /** For a "zh" language the count is ignored and the singular is used. */
  lemma ChineseIgnoresCount(lang: string, singular: string, plural: string, n: int)
    requires StartsWith(lang, "zh")
    ensures Plural(lang, singular, plural, n) == Lookup(lang, singular)
  {
  }

  /** Elsewhere the singular is used for n == 1 and the plural for every other n. */
  lemma OtherPluralRule(lang: string, singular: string, plural: string, n: int)
    requires !StartsWith(lang, "zh")
    ensures n == 1 ==> Plural(lang, singular, plural, n) == Lookup(lang, singular)
    ensures n != 1 ==> Plural(lang, singular, plural, n) == Lookup(lang, plural)
  {
  }

  /**
   * The module-level `_current_language`, None until `setup_i18n` runs. The locale
   * the operating system reports is passed in as `detected`.
   */
  class Translator {
    var current: Option<string>

    /** Importing the module runs `setup_i18n()`. */
    constructor Import(detected: Option<string>)
      ensures current == Some(DetectLanguage(detected))
    {
      current := Some(DetectLanguage(detected));
    }

    /** `setup_i18n(language)`. */
    method SetupI18n(language: Option<string>, detected: Option<string>)
      modifies this
      ensures current == Some(SetupLanguage(language, detected))
    {
      var lang := language;
      if lang.None? {
        lang := Some(DetectLanguage(detected));
      }
      current := lang;
    }

    /** `_(message)`: sets the language up first if that never happened. */
    method Gettext(message: string, detected: Option<string>) returns (r: string)
      modifies this
      ensures current == if old(current).None? then Some(DetectLanguage(detected)) else old(current)
      ensures r == Lookup(current.value, message)
    {
      if current.None? {
        SetupI18n(None, detected);
      }
      var lang := current.value;
      if lang in TRANSLATIONS {
        r := if message in TRANSLATIONS[lang] then TRANSLATIONS[lang][message] else message;
      } else {
        r := message;
      }
    }

    /**
     * `ngettext(singular, plural, n)`. The "zh" test looks at the language before `_`
     * may set it up, so an unset language takes the English rule.
     */
    method NGettext(singular: string, plural: string, n: int, detected: Option<string>) returns (r: string)
      modifies this
      ensures current == if old(current).None? then Some(DetectLanguage(detected)) else old(current)
      ensures old(current).Some? ==> r == Plural(current.value, singular, plural, n)
      ensures old(current).None? ==> r == Lookup(current.value, if n == 1 then singular else plural)
    {
      if current.Some? && current.value != "" && StartsWith(current.value, "zh") {
        r := Gettext(singular, detected);
        return;
      }
      var s := Gettext(singular, detected);
      var p := Gettext(plural, detected);
      r := if n == 1 then s else p;
    }
  }
}
