/** The editor's two interface languages. The language is detected once from
    the editor's settings; here it is an explicit argument. */
module Language {
  datatype Lang = Chinese | English

  /** LanguageManager.GetText: the Chinese or the English text. */
  function GetText(lang: Lang, chineseText: string, englishText: string): (r: string)
    ensures r == chineseText || r == englishText
  {
    if lang == Chinese then chineseText else englishText
  }
}
