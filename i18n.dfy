/** The language provider (src/app/i18n-context.tsx): the translation
    tables, the rule that picks the initial language, `setLanguage`, `t` and
    `availableLanguages`. */
module I18n {

  import Types
  import Browser

  type Language = Types.Language

  /** A value of the `Translations` interface: a string, or a nested group of strings. */
  datatype Entry = Text(text: string) | Group(entries: seq<(string, string)>)

  const LanguageStorageKey: string := "cors-validator-language"

  /** The keys of the `Translations` interface. */
  datatype TranslationKey =
    Title | Description | TestConfig | ApiUrl | ApiUrlPlaceholder | HttpMethod | RequestBody
    | RequestBodyPlaceholder | StartTest | Testing | TestResult | TestSuccess | RequestMethod
    | StatusCode | ContentType | ResponseData | RequestFailed | StatusText | ErrorDetails
    | CorsError | NetworkError | JsonFormatError | CorsErrorExplanation | UsageInstructions
    | Instructions | EmptyResponse | UnableToParseResponse | NoErrorDetails
    | UnableToGetErrorDetails | NotSpecified

  /** The property name of a key. */
  function KeyName(k: TranslationKey): string
  {
    match k
    case Title => "title"
    case Description => "description"
    case TestConfig => "testConfig"
    case ApiUrl => "apiUrl"
    case ApiUrlPlaceholder => "apiUrlPlaceholder"
    case HttpMethod => "httpMethod"
    case RequestBody => "requestBody"
    case RequestBodyPlaceholder => "requestBodyPlaceholder"
    case StartTest => "startTest"
    case Testing => "testing"
    case TestResult => "testResult"
    case TestSuccess => "testSuccess"
    case RequestMethod => "requestMethod"
    case StatusCode => "statusCode"
    case ContentType => "contentType"
    case ResponseData => "responseData"
    case RequestFailed => "requestFailed"
    case StatusText => "statusText"
    case ErrorDetails => "errorDetails"
    case CorsError => "corsError"
    case NetworkError => "networkError"
    case JsonFormatError => "jsonFormatError"
    case CorsErrorExplanation => "corsErrorExplanation"
    case UsageInstructions => "usageInstructions"
    case Instructions => "instructions"
    case EmptyResponse => "emptyResponse"
    case UnableToParseResponse => "unableToParseResponse"
    case NoErrorDetails => "noErrorDetails"
    case UnableToGetErrorDetails => "unableToGetErrorDetails"
    case NotSpecified => "notSpecified"
  }

  /** The string-valued entries of `zhTranslations`. */
  function ZhText(k: TranslationKey): string
    requires GroupShape(k).None?
  {
    match k
    case Title => "CORS Validator"
    case Description => "专业的跨域资源共享(CORS)配置验证工具"
    case TestConfig => "测试配置"
    case ApiUrl => "API地址:"
    case ApiUrlPlaceholder => "请输入要测试的API地址"
    case HttpMethod => "请求方法:"
    case RequestBody => "请求体 (JSON格式):"
    case RequestBodyPlaceholder => "例如: {\"key\": \"value\"}"
    case StartTest => "开始测试"
    case Testing => "测试中..."
    case TestResult => "测试结果"
    case TestSuccess => "CORS测试成功！"
    case RequestMethod => "请求方法"
    case StatusCode => "状态码"
    case ContentType => "内容类型"
    case ResponseData => "响应数据"
    case RequestFailed => "请求失败"
    case StatusText => "状态文本"
    case ErrorDetails => "错误详情"
    case CorsError => "CORS错误"
    case NetworkError => "网络错误"
    case JsonFormatError => "请求体JSON格式错误"
    case UsageInstructions => "使用说明"
    case EmptyResponse => "(空响应)"
    case UnableToParseResponse => "(无法解析响应内容)"
    case NoErrorDetails => "(无错误详情)"
    case UnableToGetErrorDetails => "(无法获取错误详情)"
    case NotSpecified => "未指定"
  }

  /** The string-valued entries of `enTranslations`. */
  function EnText(k: TranslationKey): string
    requires GroupShape(k).None?
  {
    match k
    case Title => "CORS Validator"
    case Description => "Professional Cross-Origin Resource Sharing (CORS) Configuration Validation Tool"
    case TestConfig => "Test Configuration"
    case ApiUrl => "API URL:"
    case ApiUrlPlaceholder => "Enter the API endpoint to test"
    case HttpMethod => "HTTP Method:"
    case RequestBody => "Request Body (JSON format):"
    case RequestBodyPlaceholder => "e.g: {\"key\": \"value\"}"
    case StartTest => "Start Test"
    case Testing => "Testing..."
    case TestResult => "Test Result"
    case TestSuccess => "CORS test successful!"
    case RequestMethod => "Request Method"
    case StatusCode => "Status Code"
    case ContentType => "Content Type"
    case ResponseData => "Response Data"
    case RequestFailed => "Request Failed"
    case StatusText => "Status Text"
    case ErrorDetails => "Error Details"
    case CorsError => "CORS Error"
    case NetworkError => "Network Error"
    case JsonFormatError => "Request body JSON format error"
    case UsageInstructions => "Usage Instructions"
    case EmptyResponse => "(Empty Response)"
    case UnableToParseResponse => "(Unable to parse response content)"
    case NoErrorDetails => "(No error details)"
    case UnableToGetErrorDetails => "(Unable to get error details)"
    case NotSpecified => "Not specified"
  }

  /** The property names of the `corsErrorExplanation` and `instructions` groups. */
  const LineNames: seq<string> := ["line1", "line2", "line3"]
  const ItemNames: seq<string> := ["item1", "item2", "item3", "item4", "item5", "item6", "item7", "item8"]

  /** A group's entries: each property name paired with its text, in declaration order. */
  function Zip(names: seq<string>, texts: seq<string>): (r: seq<(string, string)>)
    requires |names| == |texts|
    ensures |r| == |names| && forall i :: 0 <= i < |r| ==> r[i] == (names[i], texts[i])
  {
    if names == [] then [] else [(names[0], texts[0])] + Zip(names[1..], texts[1..])
  }

  const ZhLines: seq<string> := [
      "1. 目标服务器未正确配置CORS头",
      "2. 服务器不允许来自当前域的请求方法",
      "3. 服务器未运行在指定地址"]

  const ZhItems: seq<string> := [
      "• 确保目标API服务器正在运行",
      "• 支持 GET、POST、PUT、DELETE、OPTIONS 五种HTTP请求方法",
      "• POST、PUT、DELETE 方法可以发送JSON格式的请求体",
      "• 如果测试失败，检查服务器是否配置了正确的CORS头",
      "• 常见的CORS头包括: Access-Control-Allow-Origin, Access-Control-Allow-Methods, Access-Control-Allow-Headers等",
      "• 对于非简单请求，浏览器会先发送OPTIONS预检请求",
      "• 开发环境中可以使用 '*' 作为 Access-Control-Allow-Origin 的值进行测试",
      "• 右上角可以切换浅色、深色、蓝色三种主题风格和中英文语言"]

  const EnLines: seq<string> := [
      "1. Target server has not properly configured CORS headers",
      "2. Server does not allow the request method from current domain",
      "3. Server is not running at the specified address"]

  const EnItems: seq<string> := [
      "• Ensure the target API server is running",
      "• Supports five HTTP request methods: GET, POST, PUT, DELETE, OPTIONS",
      "• POST, PUT, DELETE methods can send JSON format request body",
      "• If test fails, check if server has configured correct CORS headers",
      "• Common CORS headers include: Access-Control-Allow-Origin, Access-Control-Allow-Methods, Access-Control-Allow-Headers, etc.",
      "• For non-simple requests, browser will send OPTIONS preflight request first",
      "• In development environment, you can use '*' as the value for Access-Control-Allow-Origin for testing",
      "• Top right corner allows switching between light, dark, blue themes and Chinese/English languages"]

  /** The grouped keys of `Translations` and the property names inside each group. */
  function GroupShape(k: TranslationKey): Types.Option<seq<string>>
  {
    match k
    case CorsErrorExplanation => Types.Some(LineNames)
    case Instructions => Types.Some(ItemNames)
    case _ => Types.None
  }

  /** The property names of a group, in declaration order. */
  function Names(entries: seq<(string, string)>): (r: seq<string>)
    ensures |r| == |entries| && forall i :: 0 <= i < |r| ==> r[i] == entries[i].0
  {
    if entries == [] then [] else [entries[0].0] + Names(entries[1..])
  }

  /** `translations`: the table of each language key, in declaration order. */
  const LanguageOrder: seq<string> := ["zh", "en"]

  /** `translations[savedLanguage]` is defined. */
  predicate IsTranslationsKey(s: string)
  {
    s in LanguageOrder
  }

  /** The texts of a group in a language, in declaration order. */
  function GroupTexts(l: Language, k: TranslationKey): (r: seq<string>)
    requires GroupShape(k).Some?
    ensures |r| == |GroupShape(k).value|
  {
    if k == CorsErrorExplanation then (if l == Types.Zh then ZhLines else EnLines)
    else if l == Types.Zh then ZhItems else EnItems
  }

  /** `translations[l][key]`: a group pairs its property names with the
      language's texts; every other key has a string. */
  function T(l: Language, key: TranslationKey): (e: Entry)
    ensures e.Group? <==> GroupShape(key).Some?
  {
    match GroupShape(key)
    case Some(names) => Group(Zip(names, GroupTexts(l, key)))
    case None => Text(if l == Types.Zh then ZhText(key) else EnText(key))
  }

  /** Both languages give each grouped key the same property names, the ones
      the interface declares, in the same order. */
  lemma GroupsConform(l: Language, key: TranslationKey)
    requires GroupShape(key).Some?
    ensures Names(T(l, key).entries) == GroupShape(key).value
  {
    ZipNames(GroupShape(key).value, GroupTexts(l, key));
  }

  /** The names of a zipped group are the names it was built from. */
  lemma ZipNames(names: seq<string>, texts: seq<string>)
    requires |names| == |texts|
    ensures Names(Zip(names, texts)) == names
  {
    var r := Names(Zip(names, texts));
    assert forall i :: 0 <= i < |r| ==> r[i] == names[i];
  }

  /** `availableLanguages`: the keys of `translations` in declaration order,
      so every language is listed, once. */
  function AvailableLanguages(): (r: seq<Language>)
    ensures |r| == |LanguageOrder| && forall i :: 0 <= i < |r| ==> Types.LanguageKey(r[i]) == LanguageOrder[i]
    ensures Types.Zh in r && Types.En in r
    ensures forall i, j :: 0 <= i < j < |r| ==> r[i] != r[j]
  {
    [Types.Zh, Types.En]
  }

  /** `toLowerCase` on the ASCII letters; no other character lowers to `z` or `h`. */
  function AsciiLower(s: string): (r: string)
    ensures |r| == |s|
    ensures forall i :: 0 <= i < |s| ==> r[i] == if 'A' <= s[i] <= 'Z' then (s[i] as int + 32) as char else s[i]
  {
    seq(|s|, i requires 0 <= i < |s| => if 'A' <= s[i] <= 'Z' then (s[i] as int + 32) as char else s[i])
  }

  /** The browser-language test: the lower-cased tag mentions `zh`. */
  predicate BrowserPrefersChinese(browserLanguage: string)
  {
    Types.Contains(AsciiLower(browserLanguage), "zh")
  }

  /** The test holds exactly when some `z` is followed by an `h`, in either case. */
  lemma BrowserPrefersChineseIff(s: string)
    ensures BrowserPrefersChinese(s) <==>
      exists i :: 0 <= i < |s| - 1 && s[i] in "zZ" && s[i + 1] in "hH"
  {
    var low := AsciiLower(s);
    if BrowserPrefersChinese(s) {
      var i :| 0 <= i <= |low| - 2 && Types.OccursAt("zh", low, i);
      assert low[i] == low[i..i + 2][0] && low[i + 1] == low[i..i + 2][1];
      assert s[i] in "zZ" && s[i + 1] in "hH";
    }
    if exists i :: 0 <= i < |s| - 1 && s[i] in "zZ" && s[i + 1] in "hH" {
      var i :| 0 <= i < |s| - 1 && s[i] in "zZ" && s[i + 1] in "hH";
      assert low[i..i + 2] == "zh";
      assert Types.OccursAt("zh", low, i);
    }
  }

  /** The language chosen when the provider loads: a saved value that names a
      table, else Chinese when the browser language mentions `zh`, else English.
      `saved` is `None` when nothing is stored. */
  function ResolveLanguage(saved: Types.Option<string>, browserLanguage: string): (l: Language)
    ensures saved.Some? && IsTranslationsKey(saved.value) ==> Types.LanguageKey(l) == saved.value
    ensures !(saved.Some? && IsTranslationsKey(saved.value)) ==>
      (l == Types.Zh <==> exists i :: 0 <= i < |browserLanguage| - 1 && browserLanguage[i] in "zZ" && browserLanguage[i + 1] in "hH")
  {
    BrowserPrefersChineseIff(browserLanguage);
    if saved.Some? && saved.value != "" && IsTranslationsKey(saved.value) then
      (if saved.value == "zh" then Types.Zh else Types.En)
    else if BrowserPrefersChinese(browserLanguage) then Types.Zh
    else Types.En
  }

  /** A language that was set and stored is the one the next load adopts. */
  lemma StoredLanguageIsReloaded(l: Language, browserLanguage: string)
    ensures ResolveLanguage(Types.Some(Types.LanguageKey(l)), browserLanguage) == l
  {
  }

  /** The provider's state cell, with the storage and root element it writes. */
  class I18nProvider {
    var language: Language
    const storage: Browser.Storage
    const root: Browser.DocumentElement

    /** Before the load effect runs the language is Chinese. */
    constructor (storage: Browser.Storage, root: Browser.DocumentElement)
      ensures language == Types.Zh && this.storage == storage && this.root == root
    {
      language := Types.Zh;
      this.storage := storage;
      this.root := root;
    }

    /** The load effect: adopt the saved language or fall back to the browser's. */
    method LoadSavedLanguage(browserLanguage: string)
      modifies this
      ensures language == ResolveLanguage(old(storage.GetItem(LanguageStorageKey)), browserLanguage)
    {
      var saved := storage.GetItem(LanguageStorageKey);
      language := ResolveLanguage(saved, browserLanguage);
    }

    /** `setLanguage`: update the cell, store the choice, set the root's `lang`. */
    method SetLanguage(l: Language)
      modifies this, storage, root
      ensures language == l
      ensures storage.items == old(storage.items)[LanguageStorageKey := Types.LanguageKey(l)]
      ensures root.lang == Types.HtmlLang(l) && root.className == old(root.className) && root.style == old(root.style)
    {
      language := l;
      storage.SetItem(LanguageStorageKey, Types.LanguageKey(l));
      root.lang := Types.HtmlLang(l);
    }

    /** `t(key)` in the current language. */
    function Translate(key: TranslationKey): (e: Entry)
      reads this
      ensures e == T(language, key)
    {
      T(language, key)
    }
  }
}
