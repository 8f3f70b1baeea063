# CORS validator state rules in Dafny

This project models the logic underneath a small Next.js application. The application tests CORS requests against an API, edits rich text and uploads images. The model covers six parts:

- **The CORS-test cells** (`CorsTest`). These are the stored `apiUrl`, `httpMethod` and `requestBody` cells, plus the transient `isLoading` and `testResult` cells. The module also has:
  - the derived `canStartTest` and `showRequestBody` predicates, with the `String.prototype.trim` whitespace set written out;
  - the reset action;
  - the execute action, split at the network call. The request it builds is returned, and the call's result comes in as an abstract outcome.
- **The global preference store** (`GlobalStore`). It holds theme, language and preferences. It has one setter per field, and two of the setters write the root element's class or `lang`. It also has the partial merge of `updatePreferences` and the persisted projection.
- **The rich-text editor's "submit JSON" handler** (`EditorJson`). A parsed JSON value is turned into HTML by a `forEach`-style loop, which is proved against a specification function. The page and editor state then change.
   - JavaScript property reads are modelled as the page performs them: `null` throws, a string inherits the `bold` method, and truthiness is JavaScript's.
- **The upload endpoint** (`Upload`, with `Base64`). The guards run in a fixed order: missing file, MIME allow-list, the 10 MiB ceiling. Success gives a `data:` URL of section 3 of RFC 2397. Any failure to read the body or the file gives status 500.
   - Base64 is implemented as specified in section 4 of RFC 4648. Both directions of its round trip are proved, and so is a parser for the data URL.
- **The language provider** (`I18n`). It has the two translation tables, keyed by a datatype of the `Translations` interface's keys. It also has:
  - the rule that picks the initial language from storage or the browser language;
  - `setLanguage`, `t` and `availableLanguages`.
- **The theme provider** (`ThemeContext`). It has the `themeConfigs` table and the load effect. The apply effect is a loop that writes one `--color-*` property per colour and then the root class; it is proved against a specification function. The module also has `setTheme` and `availableThemes`.

Shared types are in `Types`: `Theme`, `Language`, the seven `HttpMethod`s, `UserPreferences`, an `Option` and a `Result`. `Browser` models `localStorage` as a class over a `map` and `document.documentElement` as a class with `className`, `lang` and a style `map`. State that the source mutates in place is a Dafny `class` whose methods declare what they modify. Pure rules are functions, and the properties relating several calls are lemmas.

## Model

| member | source | states |
|---|---|---|
| Types.HtmlLang | src/stores/globalStore.ts:46 | the `lang` value is the language key, `-`, and the region: `zh-CN` for `zh` and `en-US` for `en` |
| Types.ThemeFromKey | src/app/theme-context.tsx:101 | a name is found in the theme table exactly when it is `light`, `dark` or `blue`, and the theme found has that name |
| Types.LanguageFromKey | src/app/i18n-context.tsx:200 | a name is found in the translation table exactly when it is `zh` or `en`, and the language found has that name |
| Types.ThemeKeyRoundTrip | src/types/state.ts:2 | looking a theme's name back up gives that theme |
| Types.LanguageKeyRoundTrip | src/types/state.ts:5 | looking a language's name back up gives that language |
| Types.NatToDecimal | src/atoms/corsTestAtoms.ts:82 | the decimal rendering of a status code is non-empty, consists of digits only, and starts with `0` only for zero, so there are no leading zeros |
| Types.DecimalRoundTrip | src/atoms/corsTestAtoms.ts:82 | reading a rendered number back gives the number |
| Types.IntToDecimal | src/app/wangeditor-test/page.tsx:152 | a number interpolated as text is its digits, with a leading `-` exactly when it is negative |
| Browser.Storage.GetItem | src/app/i18n-context.tsx:199 | `getItem` finds a value exactly when the key is stored, and then it is the stored value |
| Browser.Storage.SetItem | src/app/i18n-context.tsx:216 | `setItem` binds the key and leaves every other key as it was |
| Browser.DocumentElement.SetProperty | src/app/theme-context.tsx:113 | `style.setProperty` binds one property and leaves the class and `lang` alone |
| Base64.CharValue | src/app/api/upload/route.ts:35 | every alphabet character has a position below 64 that maps back to it |
| Base64.AlphabetValue | src/app/api/upload/route.ts:35 | every position below 64 maps to an alphabet character whose position is that number |
| Base64.Encode | src/app/api/upload/route.ts:35 | the Base64 text has length 4·⌈n/3⌉, which is always a multiple of four |
| Base64.EncodeFinal | src/app/api/upload/route.ts:35 | the one or two trailing bytes give one group of four characters. The last character is `=`, and the third is `=` exactly when one byte is left |
| Base64.DecodeGroup | src/app/api/upload/route.ts:35 | a four-character group decodes to one to three bytes; only the last group may be shorter than three |
| Base64.GroupRoundTrip | src/app/api/upload/route.ts:35 | decoding the encoding of three bytes gives them back |
| Base64.Recombine | src/app/api/upload/route.ts:35 | the four 6-bit values cut from three bytes put back together give the three bytes |
| Base64.DecodeFull | src/app/api/upload/route.ts:35 | four alphabet characters decode to the three bytes their 6-bit values spell, whether or not the group is the last |
| Base64.DecodePadded | src/app/api/upload/route.ts:35 | a last group with one `=` and zero padding bits decodes to the two bytes its values spell |
| Base64.OneByteRoundTrip | src/app/api/upload/route.ts:35 | decoding the encoding of one byte gives it back |
| Base64.TwoBytesRoundTrip | src/app/api/upload/route.ts:35 | decoding the encoding of two bytes gives them back |
| Base64.ThreeBytesRoundTrip | src/app/api/upload/route.ts:35 | decoding the encoding of three bytes, a single unpadded group, gives them back |
| Base64.ShortRoundTrip | src/app/api/upload/route.ts:35 | decoding the encoding of one to three bytes gives them back |
| Base64.FullGroupRoundTrip | src/app/api/upload/route.ts:35 | a full group in front of a byte sequence that round-trips keeps the round trip |
| Base64.EncodeCons | src/app/api/upload/route.ts:35 | three leading bytes are encoded as one group in front of the encoding of the rest |
| Base64.DecodeEncode | src/app/api/upload/route.ts:35 | decoding the encoding of any byte sequence gives it back |
| Base64.DecodeGroupEncodes | src/app/api/upload/route.ts:35 | a decodable group is the encoding of the bytes it decodes to |
| Base64.EncodeDecode | src/app/api/upload/route.ts:35 | every accepted text is the encoding of what it decodes to, so each byte sequence has exactly one Base64 text |
| Upload.FormGet | src/app/api/upload/route.ts:6 | `formData.get` finds nothing exactly when no entry has the name, and otherwise finds an entry with that name |
| Upload.FormGetIsFirst | src/app/api/upload/route.ts:6 | when several entries share the name, the earliest one is returned |
| Upload.BadRequest | src/app/api/upload/route.ts:9-12 | a rejection has status 400 and errno 1 |
| Upload.Post | src/app/api/upload/route.ts:3-58 | the status is 200, 400 or 500. It is 200 exactly for a success body (errno 0) and failures carry errno 1. It is 500 exactly when the body cannot be read, or the file passes every guard but its bytes cannot be read |
| Upload.MissingFileRejected | src/app/api/upload/route.ts:8-13 | an absent or empty `file` field is answered 400 with the "no file" message |
| Upload.WrongTypeRejectedBeforeSize | src/app/api/upload/route.ts:16-31 | a type outside the four image types is answered 400 with the type message whatever the size, because the type guard precedes the size guard |
| Upload.TextFieldRejectedAsType | src/app/api/upload/route.ts:17 | a non-empty string in the `file` field has no type and meets the type guard |
| Upload.OversizeRejected | src/app/api/upload/route.ts:25-31 | an allowed file larger than 10·1024·1024 bytes is answered 400 with the size message |
| Upload.AcceptedUpload | src/app/api/upload/route.ts:33-49 | an allowed, readable file of at most 10 MiB gets status 200 and errno 0, and its bytes number at most 10 MiB. `alt` is the file name, `url` and `href` are both the data URL, and that URL parses back to the type and bytes |
| Upload.ExactlyMaxSizeAccepted | src/app/api/upload/route.ts:25-26 | a file of exactly 10 MiB passes the size guard |
| Upload.IsMissing | src/app/api/upload/route.ts:8 | the `!file` guard: the field is absent or the empty string; `MissingFileRejected` proves such a field is answered 400 |
| Upload.TypeAllowed | src/app/api/upload/route.ts:17 | `allowedTypes.includes(file.type)`: a file entry whose type is one of the four image types; `TextFieldRejectedAsType` and `WrongTypeRejectedBeforeSize` prove the other entries are answered 400 |
| Upload.DataUrl | src/app/api/upload/route.ts:38 | `data:<type>;base64,<Base64 of the bytes>`; `DataUrlRoundTrip` proves it parses back to the type and bytes |
| Upload.IndexOfChar | src/app/api/upload/route.ts:38 | the position found is the first occurrence of the character, or the end |
| Upload.ParseDataUrl | src/app/api/upload/route.ts:38 | whatever the parser accepts is the data URL of the type and bytes it returns |
| Upload.DataUrlRoundTrip | src/app/api/upload/route.ts:38 | a media type without `;` and any bytes survive the trip through a data URL |
| Upload.IndexOfFirst | src/app/api/upload/route.ts:38 | a `;` that follows a `;`-free prefix is found right after it |
| Upload.AllowedTypesHaveNoSemicolon | src/app/api/upload/route.ts:16 | none of the allowed media types contains `;` |
| CorsTest.SkipLeading | src/atoms/corsTestAtoms.ts:31 | the scan from a position stops at the first character that is not whitespace, or at the end |
| CorsTest.SkipTrailing | src/atoms/corsTestAtoms.ts:31 | the backward scan stops just after the last character that is not whitespace, or at the lower bound |
| CorsTest.Trim | src/atoms/corsTestAtoms.ts:31 | the trimmed URL is the input with exactly its leading and trailing whitespace removed: it sits in the input at the end of the leading whitespace, only whitespace follows it, and it neither starts nor ends with whitespace. It is empty exactly when the input is all whitespace |
| CorsTest.CanStartTest | src/atoms/corsTestAtoms.ts:28-32 | a test may start exactly when nothing is loading and the URL has a non-whitespace character |
| CorsTest.ShowRequestBody | src/atoms/corsTestAtoms.ts:35-38 | the body field shows exactly for POST, PUT and DELETE, and is hidden exactly for GET, PATCH, HEAD and OPTIONS |
| CorsTest.BuildRequest | src/atoms/corsTestAtoms.ts:66-76 | the request goes to the URL with the method's name and a JSON content type. A body is attached exactly for POST/PUT/DELETE with a non-empty request body, and it is that body |
| CorsTest.ResultText | src/atoms/corsTestAtoms.ts:82-89 | the text recorded for an outcome: `状态码: <status>\n响应内容: <body>`, `错误: <message>` or `未知错误`; its properties are `ResultTextKind` and `ResultTextInjective` |
| CorsTest.NatToDecimalInjective | src/atoms/corsTestAtoms.ts:82 | different status codes render differently |
| CorsTest.ResultTextInjective | src/atoms/corsTestAtoms.ts:82-89 | different outcomes leave different result texts: status, response text and error message can be read back |
| CorsTest.RespondedInjective | src/atoms/corsTestAtoms.ts:82 | two response texts that are equal come from the same status and the same body |
| CorsTest.DigitsThenBody | src/atoms/corsTestAtoms.ts:82 | a digit string followed by the body label splits at the label in only one way |
| CorsTest.ResultTextKind | src/atoms/corsTestAtoms.ts:82-89 | a result starts with `状态码: ` exactly for a response, and is `未知错误` exactly for a non-`Error` throw |
| CorsTest.Cells.constructor | src/atoms/corsTestAtoms.ts:6-25 | the cells start at the default URL, GET, empty body, not loading and empty result |
| CorsTest.Cells.SetApiUrl | src/atoms/corsTestAtoms.ts:6-9 | writing the URL cell changes that cell only |
| CorsTest.Cells.SetHttpMethod | src/atoms/corsTestAtoms.ts:12-15 | writing the method cell changes that cell only |
| CorsTest.Cells.SetRequestBody | src/atoms/corsTestAtoms.ts:18-21 | writing the body cell changes that cell only |
| CorsTest.Cells.Reset | src/atoms/corsTestAtoms.ts:41-51 | every cell is back at its default, whatever the state before, so a second reset changes nothing |
| CorsTest.Cells.BeginExecute | src/atoms/corsTestAtoms.ts:57-76 | the request is built from the configuration read before the writes. Loading is on, the result is cleared, nothing else changes, and no test can start meanwhile |
| CorsTest.Cells.FinishExecute | src/atoms/corsTestAtoms.ts:81-93 | the outcome's text is recorded and loading is off; nothing else changes |
| CorsTest.Cells.Execute | src/atoms/corsTestAtoms.ts:54-95 | the configuration cells are unchanged, and whatever the outcome loading ends off with the outcome's text as the result |
| GlobalStore.Fields | src/stores/globalStore.ts:27-30 | a preferences record has exactly the two preference fields |
| GlobalStore.FromFields | src/stores/globalStore.ts:53 | an object with both fields is read back as the record with those values |
| GlobalStore.MergePreferences | src/stores/globalStore.ts:51-55 | each field named in the partial takes its new value, and each field not named keeps the old one |
| GlobalStore.MergeEmpty | src/stores/globalStore.ts:52-54 | an empty partial leaves the preferences unchanged |
| GlobalStore.MergeIdempotent | src/stores/globalStore.ts:52-54 | applying the same partial twice equals applying it once |
| GlobalStore.MergeSequence | src/stores/globalStore.ts:52-54 | two updates in a row equal one update with the later values winning |
| GlobalStore.MergeFull | src/stores/globalStore.ts:52-54 | a partial naming every field replaces the record |
| GlobalStore.Store.constructor | src/stores/globalStore.ts:25-30 | the store starts light, `zh`, auto-save on, advanced options hidden |
| GlobalStore.Store.Partialize | src/stores/globalStore.ts:61-65 | the snapshot holds exactly the theme, language and preferences |
| GlobalStore.Store.SetTheme | src/stores/globalStore.ts:33-39 | only the theme changes. When there is a document its class becomes `theme-<theme>` and its `lang` and style are kept |
| GlobalStore.Store.SetLanguage | src/stores/globalStore.ts:42-48 | only the language changes. When there is a document its `lang` becomes `zh-CN`/`en-US` and its class and style are kept |
| GlobalStore.Store.UpdatePreferences | src/stores/globalStore.ts:51-55 | the preferences become the merge of the old ones and the partial; theme and language stay |
| GlobalStore.Store.Rehydrate | src/stores/globalStore.ts:57-65 | restoring a snapshot makes `partialize` return that snapshot again |
| EditorJson.GetProp | src/app/wangeditor-test/page.tsx:150-156 | a property read finds a value exactly for an own field of an object, and then it is that field's value; it finds a method exactly for an HTML method name on a string |
| EditorJson.JsToString | src/app/wangeditor-test/page.tsx:152 | the text a value interpolates as: `null`, `true`/`false`, the number's digits, the string itself, an array's elements joined by `,` with `null` elements empty, and `[object Object]` |
| EditorJson.TextOf | src/app/wangeditor-test/page.tsx:152 | `child.text \|\| ''`: the interpolated `text` property when it is truthy, otherwise empty; the same read serves the blockquote at line 164 |
| EditorJson.TagsFor | src/app/wangeditor-test/page.tsx:153-156 | the four marks put at most four tags around a child |
| EditorJson.WrapOpenClose | src/app/wangeditor-test/page.tsx:152-156 | wrapping in one more tag adds it outermost |
| EditorJson.MarkUpNesting | src/app/wangeditor-test/page.tsx:152-157 | the four `if` rewrites leave the opening tags of the marks that are set (code, u, em, strong, outermost first), the text verbatim, and the closing tags in reverse |
| EditorJson.LeafHtmlNesting | src/app/wangeditor-test/page.tsx:152-156 | a child renders as the opening tags of its marks (code, u, em, strong, outermost first), its text verbatim, and the closing tags in reverse |
| EditorJson.RenderChildren | src/app/wangeditor-test/page.tsx:150-151 | rendering children fails exactly when one of them is `null`, with the message of reading `text` of `null` |
| EditorJson.ConvertBlocks | src/app/wangeditor-test/page.tsx:145-168 | the loop's HTML, or its first error, is the in-order conversion of the block list |
| EditorJson.ThenAssociative | src/app/wangeditor-test/page.tsx:146-168 | accumulating fragments with `+=` does not depend on how the list is grouped: the first error wins either way |
| EditorJson.ThenEmpty | src/app/wangeditor-test/page.tsx:146 | the empty start value of `htmlContent` adds nothing on either side |
| EditorJson.ErrorPersists | src/app/wangeditor-test/page.tsx:146-168 | once a prefix of the blocks fails, the whole list fails with the same message |
| EditorJson.BlockHtml | src/app/wangeditor-test/page.tsx:148-167 | one block's fragment. Reading `type` of `null` fails with the `TypeError` message, and a non-empty fragment comes only from a `paragraph` or `blockquote` block |
| EditorJson.BlocksHtml | src/app/wangeditor-test/page.tsx:146-168 | the `forEach` accumulation of the block fragments in order, stopping at the first error; `BlocksHtmlFirstError`, `BlocksHtmlCons` and `BlocksHtmlAppend` state its properties |
| EditorJson.BlocksHtmlFirstError | src/app/wangeditor-test/page.tsx:146-168 | the conversion succeeds exactly when every block converts, and otherwise fails with the error of the first block that fails |
| EditorJson.ParagraphHtml | src/app/wangeditor-test/page.tsx:148-160 | a paragraph renders as `<p>` + its children's renderings in order + `</p>`, or `<p>&nbsp;</p>` when that is empty |
| EditorJson.ParagraphWithoutChildren | src/app/wangeditor-test/page.tsx:150-160 | a paragraph with no children array renders as `<p>&nbsp;</p>` |
| EditorJson.BlockquoteHtml | src/app/wangeditor-test/page.tsx:161-166 | a blockquote renders as `<blockquote><p>` + the children's texts with marks ignored + `</p></blockquote>`, with no placeholder |
| EditorJson.OtherBlocksIgnored | src/app/wangeditor-test/page.tsx:146-168 | a block of any other type contributes nothing |
| EditorJson.BlocksHtmlAppend | src/app/wangeditor-test/page.tsx:145-168 | converting two lists one after the other gives the two HTMLs concatenated, the first error winning |
| EditorJson.BlocksHtmlCons | src/app/wangeditor-test/page.tsx:146-168 | the output is the first block's fragment followed by the rest's |
| EditorJson.EditorPage.constructor | src/app/wangeditor-test/page.tsx:26-30 | the page starts with `<p>hello&nbsp;world</p>`, an empty JSON object and the dialog closed |
| EditorJson.EditorPage.SubmitJson | src/app/wangeditor-test/page.tsx:131-184 | In four cases the handler only alerts and changes no content or state: no editor, a parse error, a non-array value, or a block the converter cannot read. Otherwise the editor gets the converted HTML (`<p></p>` when it is empty) and the parsed blocks; the page HTML and JSON follow, and the dialog closes |
| I18n.Names | src/app/i18n-context.tsx:40-56 | the names listed are the group's property names, in order |
| I18n.Zip | src/app/i18n-context.tsx:93-109 | a group lists each property name with its text, in declaration order |
| I18n.ZipNames | src/app/i18n-context.tsx:39-56 | the property names of a group built from names and texts are those names |
| I18n.GroupTexts | src/app/i18n-context.tsx:93-161 | each language gives a group exactly as many texts as the interface declares names for it |
| I18n.T | src/app/i18n-context.tsx:223-225 | `t` is defined for every key in both languages, and gives a nested group exactly for the two grouped keys |
| I18n.GroupsConform | src/app/i18n-context.tsx:67-168 | in both tables each grouped key lists exactly the interface's property names, in order |
| I18n.AvailableLanguages | src/app/i18n-context.tsx:171-174 | the available languages are the table's keys `zh`, `en` in order, each listed once |
| I18n.AsciiLower | src/app/i18n-context.tsx:204 | lower-casing keeps the length and maps `A`-`Z` to `a`-`z`, leaving other characters alone |
| I18n.BrowserPrefersChinese | src/app/i18n-context.tsx:204-205 | `navigator.language.toLowerCase().includes('zh')`; `BrowserPrefersChineseIff` proves it holds exactly when a `z` is followed by an `h`, in either case |
| I18n.BrowserPrefersChineseIff | src/app/i18n-context.tsx:204-205 | the browser test holds exactly when a `z` is followed by an `h`, in either case |
| I18n.ResolveLanguage | src/app/i18n-context.tsx:198-211 | a saved table key is adopted. Otherwise the language is `zh` exactly when the browser language contains `zh` in any case, else `en` |
| I18n.StoredLanguageIsReloaded | src/app/i18n-context.tsx:199-216 | a language stored by `setLanguage` is the one the next load adopts |
| I18n.I18nProvider.constructor | src/app/i18n-context.tsx:195 | the language is `zh` before loading |
| I18n.I18nProvider.LoadSavedLanguage | src/app/i18n-context.tsx:198-211 | the load effect sets the language the resolution rule picks from the stored value and the browser language |
| I18n.I18nProvider.SetLanguage | src/app/i18n-context.tsx:214-220 | the language is set and stored under `cors-validator-language`. `lang` becomes `zh-CN`/`en-US`, and the class and style are kept |
| I18n.I18nProvider.Translate | src/app/i18n-context.tsx:223-225 | `t(key)` is the current language's entry for the key |
| ThemeContext.Config | src/app/theme-context.tsx:109 | `themeConfigs[theme]`: the configuration for each theme; `ConfigShape` proves it is named after the theme and lists the ten colours |
| ThemeContext.ColorKeysDistinct | src/app/theme-context.tsx:12-23 | the ten colour names are pairwise distinct |
| ThemeContext.ConfigShape | src/app/theme-context.tsx:27-76 | each configuration's `name` is its key, and it lists exactly the ten colour names in order, each once |
| ThemeContext.AvailableThemes | src/app/theme-context.tsx:130 | the available themes are `light`, `dark`, `blue` in order, each once |
| ThemeContext.LoadedTheme | src/app/theme-context.tsx:99-104 | a saved name of a configuration is adopted; anything else leaves the theme as it was |
| ThemeContext.StoredThemeIsReloaded | src/app/theme-context.tsx:99-124 | a theme stored by `setTheme` is the one the next load adopts |
| ThemeContext.ColorPropertyDistinct | src/app/theme-context.tsx:113 | different colour names give different `--color-*` properties |
| ThemeContext.ApplyColors | src/app/theme-context.tsx:112-114 | the style map after `setProperty` of each colour in order; `ApplyColorsSpec` states its result |
| ThemeContext.ApplyColorsSpec | src/app/theme-context.tsx:112-114 | after the `forEach`, each colour's property holds its value. Every other property is kept and no other property is added |
| ThemeContext.ThemeProvider.constructor | src/app/theme-context.tsx:96 | the theme is `light` before loading |
| ThemeContext.ThemeProvider.LoadSavedTheme | src/app/theme-context.tsx:99-104 | the load effect applies the load rule to the value stored under `cors-validator-theme` |
| ThemeContext.ThemeProvider.ApplyTheme | src/app/theme-context.tsx:107-118 | each `--color-<name>` holds the current theme's value and other properties are kept. The class becomes `theme-<theme>` and `lang` is kept |
| ThemeContext.ThemeProvider.SetTheme | src/app/theme-context.tsx:121-124 | the theme is set and stored under `cors-validator-theme` |
| ThemeContext.ThemeProvider.CurrentConfig | src/app/theme-context.tsx:128 | the context's configuration is `themeConfigs[theme]`, the one named after the current theme, with all ten colours |

## Left out

- The network round trip of the CORS test (`fetch`, `response.text()`) is not modelled: its result is a parameter of `Execute`. Overlapping executions are concurrency and are not modelled either.
- `atomWithStorage` and the Zustand `persist` middleware are not modelled: no serialisation, no storage events, no loading of stored values at start-up. `Rehydrate` stands for restoring a snapshot.
- `JSON.parse` is replaced by its outcome, a parsed value or a syntax-error message. JSON numbers are integers, so fractional and exponent forms are not modelled. Nor is the way JavaScript writes large numbers: it uses exponent form when the magnitude is at least 1e21, and it rounds integers above 2^53.
- EditorJson.JsToString: renders integers only, and an object always as `[object Object]`.
- The editor library (`setHtml`, `getHtml`, normalisation of the HTML and of `children`) is reduced to two stored fields. `getHtml` is modelled as returning what was stored.
- EditorJson.NullReadMessage: fixes one engine's wording of the `TypeError` for reading a property of `null`.
- EditorJson.GetProp: inherited properties are modelled only for the names the converter reads. A string inherits `bold` (so a string child renders as `<strong></strong>`); `text`, `type`, `children` and the other marks are never inherited.
- `request.formData()`, `File.arrayBuffer()` and `NextResponse` are replaced by a request datatype. That datatype gives either an unreadable body or the form's entries; a file's bytes may be unreadable.
- The upload endpoint's `console.error` logging is not modelled, only the response.
- Types.ThemeFromKey: tests a saved theme name by key membership. In JavaScript the lookup also accepts names inherited from `Object.prototype`, such as `constructor`.
- Types.LanguageFromKey: key membership, for the same reason.
- I18n.ResolveLanguage: a saved value is adopted only when it is `zh` or `en`. JavaScript's `translations[savedLanguage]` would also accept an inherited name such as `constructor`.
- ThemeContext.LoadedTheme: a saved value is adopted only when it names a configuration. `themeConfigs[savedTheme]` would also accept an inherited name.
- I18n.AsciiLower: lower-cases ASCII letters only, not the full Unicode case mapping. Some non-ASCII characters lower-case to other ASCII letters, such as `K` (U+212A) to `k`, so the function differs from `toLowerCase()` on them. Only `z`, `Z`, `h` and `H` lower-case to text containing `z` or `h`, and no character lower-cases to the empty string. So `BrowserPrefersChinese` agrees with `toLowerCase().includes('zh')` on every string.
- `navigator.language` is a parameter and `document` a `Browser.DocumentElement`. Server-side rendering is reduced to a `null` root in `GlobalStore.Store`, where `document` is undefined.
- GlobalStore.MergePreferences: a partial whose field is present but `undefined` is not modelled, because the partial's values are booleans here. In JavaScript such a field would overwrite with `undefined`.
- The React rendering, the `useTheme`/`useI18n` hooks and their "outside provider" errors, and the React effect scheduling are not modelled. The effects are methods the caller invokes.
- The `translations` object in the i18n context value is not modelled separately from `t`.
