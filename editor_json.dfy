/** The "submit JSON" action of the rich-text editor demo
    (src/app/wangeditor-test/page.tsx): a parsed JSON array of editor blocks
    is turned into HTML and loaded into the editor. */
module EditorJson {

  import opened Types

  /** A value `JSON.parse` can produce. Numbers are integers here. */
  datatype Json =
    | JNull
    | JBool(b: bool)
    | JNumber(n: int)
    | JString(s: string)
    | JArray(items: seq<Json>)
    | JObject(fields: map<string, Json>)

  // ---------------------------------------------------------------------------
  // JavaScript semantics of the expressions the converter evaluates

  /** What reading a property of a non-null value yields: nothing, a JSON
      value, or a method inherited from the value's prototype. */
  datatype Prop = Undefined | Present(value: Json) | InheritedMethod

  /** The legacy HTML methods of `String.prototype` (`"x".bold` is a function). */
  const StringHtmlMethods: set<string> :=
    {"anchor", "big", "blink", "bold", "fixed", "fontcolor", "fontsize",
     "italics", "link", "small", "strike", "sub", "sup"}

  /** `v[name]` for a value that is not `null`. Only objects have own fields;
      among the names the converter reads, only `bold` is inherited, by strings. */
  function GetProp(v: Json, name: string): (p: Prop)
    requires v != JNull
    ensures p.Present? <==> v.JObject? && name in v.fields
    ensures p.Present? ==> p.value == v.fields[name]
    ensures p.InheritedMethod? <==> v.JString? && name in StringHtmlMethods
  {
    match v
    case JObject(fields) => if name in fields then Present(fields[name]) else Undefined
    case JString(_) => if name in StringHtmlMethods then InheritedMethod else Undefined
    case _ => Undefined
  }

  /** JavaScript truthiness of a JSON value. */
  predicate JsTruthy(v: Json)
  {
    match v
    case JNull => false
    case JBool(b) => b
    case JNumber(n) => n != 0
    case JString(s) => s != ""
    case JArray(_) => true
    case JObject(_) => true
  }

  predicate PropTruthy(p: Prop)
  {
    match p
    case Undefined => false
    case Present(v) => JsTruthy(v)
    case InheritedMethod => true
  }

  /** Joins strings with a separator, as `Array.prototype.join(sep)`. */
  function Join(parts: seq<string>, sep: string): string
  {
    if parts == [] then ""
    else if |parts| == 1 then parts[0]
    else Join(parts[..|parts| - 1], sep) + sep + parts[|parts| - 1]
  }

  /** `String(v)`, as a template literal converts a value. An array is its
      elements joined with commas, `null` elements becoming empty. */
  function JsToString(v: Json): string
    decreases v
  {
    match v
    case JNull => "null"
    case JBool(b) => if b then "true" else "false"
    case JNumber(n) => IntToDecimal(n)
    case JString(s) => s
    case JArray(items) =>
      Join(seq(|items|, i requires 0 <= i < |items| => if items[i] == JNull then "" else JsToString(items[i])), ",")
    case JObject(_) => "[object Object]"
  }

  /** The message of the `TypeError` raised by reading a property of `null`. */
  function NullReadMessage(name: string): string
  {
    "Cannot read properties of null (reading '" + name + "')"
  }

  // ---------------------------------------------------------------------------
  // Rendering one child (a text leaf)

  /** `child.text || ''`, as it is interpolated. */
  function TextOf(child: Json): string
    requires child != JNull
  {
    match GetProp(child, "text")
    case Present(v) => if JsTruthy(v) then JsToString(v) else ""
    case _ => ""
  }

  function Wrap(tag: string, inner: string): string
  {
    "<" + tag + ">" + inner + "</" + tag + ">"
  }

  /** The marks applied to a text one after the other, in the order bold,
      italic, underline, code, so that code ends up outermost. */
  function MarkUp(text: string, bold: bool, italic: bool, underline: bool, code: bool): string
  {
    var text := if bold then Wrap("strong", text) else text;
    var text := if italic then Wrap("em", text) else text;
    var text := if underline then Wrap("u", text) else text;
    if code then Wrap("code", text) else text
  }

  /** One paragraph child: its text with its truthy marks applied. */
  function LeafHtml(child: Json): string
    requires child != JNull
  {
    MarkUp(TextOf(child), PropTruthy(GetProp(child, "bold")), PropTruthy(GetProp(child, "italic")),
           PropTruthy(GetProp(child, "underline")), PropTruthy(GetProp(child, "code")))
  }

  /** The tags a set of marks puts around a text, outermost first. */
  function TagsFor(bold: bool, italic: bool, underline: bool, code: bool): (tags: seq<string>)
    ensures |tags| <= 4
  {
    (if code then ["code"] else [])
    + ((if underline then ["u"] else []) + ((if italic then ["em"] else []) + (if bold then ["strong"] else [])))
  }

  /** The tags a child's marks put around its text, outermost first. */
  function MarkTags(child: Json): seq<string>
    requires child != JNull
  {
    TagsFor(PropTruthy(GetProp(child, "bold")), PropTruthy(GetProp(child, "italic")),
            PropTruthy(GetProp(child, "underline")), PropTruthy(GetProp(child, "code")))
  }

  /** Opening tags, outermost first. */
  function OpenTags(tags: seq<string>): string
  {
    if tags == [] then "" else "<" + tags[0] + ">" + OpenTags(tags[1..])
  }

  /** Closing tags, innermost first. */
  function CloseTags(tags: seq<string>): string
  {
    if tags == [] then "" else CloseTags(tags[1..]) + "</" + tags[0] + ">"
  }

  /** A text between the opening and closing tags of a tag list. */
  function Enclose(tags: seq<string>, text: string): string
  {
    OpenTags(tags) + text + CloseTags(tags)
  }

  /** Wrapping an enclosed text in one more tag, when `wrap` holds, puts that tag outermost. */
  lemma WrapOpenClose(wrap: bool, tag: string, tags: seq<string>, text: string)
    ensures (if wrap then Wrap(tag, Enclose(tags, text)) else Enclose(tags, text))
         == Enclose((if wrap then [tag] else []) + tags, text)
  {
    if wrap {
      assert ([tag] + tags)[1..] == tags;
    } else {
      assert [] + tags == tags;
    }
  }

  /** The marks nest in a fixed order: the marked-up text is the opening tags
      (code, u, em, strong, outermost first), the text verbatim, then the
      closing tags in reverse order. */
  lemma MarkUpNesting(text: string, bold: bool, italic: bool, underline: bool, code: bool)
    ensures MarkUp(text, bold, italic, underline, code)
         == OpenTags(TagsFor(bold, italic, underline, code)) + text + CloseTags(TagsFor(bold, italic, underline, code))
  {
    var t1: seq<string> := if bold then ["strong"] else [];
    var t2: seq<string> := (if italic then ["em"] else []) + t1;
    var t3: seq<string> := (if underline then ["u"] else []) + t2;
    var t4: seq<string> := (if code then ["code"] else []) + t3;
    var h0 := Enclose([], text);
    assert h0 == text;
    WrapOpenClose(bold, "strong", [], text);
    assert t1 == (if bold then ["strong"] else []) + [];
    var h1 := if bold then Wrap("strong", h0) else h0;
    WrapOpenClose(italic, "em", t1, text);
    var h2 := if italic then Wrap("em", h1) else h1;
    WrapOpenClose(underline, "u", t2, text);
    var h3 := if underline then Wrap("u", h2) else h2;
    WrapOpenClose(code, "code", t3, text);
    var h4 := if code then Wrap("code", h3) else h3;
    assert h4 == Enclose(t4, text);
    assert MarkUp(text, bold, italic, underline, code) == h4;
  }

  /** A rendered child is its text verbatim between the tags of its marks. */
  lemma LeafHtmlNesting(child: Json)
    requires child != JNull
    ensures LeafHtml(child) == OpenTags(MarkTags(child)) + TextOf(child) + CloseTags(MarkTags(child))
  {
    MarkUpNesting(TextOf(child), PropTruthy(GetProp(child, "bold")), PropTruthy(GetProp(child, "italic")),
                  PropTruthy(GetProp(child, "underline")), PropTruthy(GetProp(child, "code")));
  }

  // ---------------------------------------------------------------------------
  // Rendering one block

  predicate NoNulls(items: seq<Json>)
  {
    forall i :: 0 <= i < |items| ==> items[i] != JNull
  }

  /** The paragraph children rendered and concatenated, in order. */
  function LeavesHtml(children: seq<Json>): string
    requires NoNulls(children)
  {
    if children == [] then ""
    else LeavesHtml(children[..|children| - 1]) + LeafHtml(children[|children| - 1])
  }

  /** The blockquote children's texts concatenated, in order; marks play no part. */
  function QuoteText(children: seq<Json>): string
    requires NoNulls(children)
  {
    if children == [] then ""
    else QuoteText(children[..|children| - 1]) + TextOf(children[|children| - 1])
  }

  /** `children.map(render).join('')`; the map stops at the first `null`
      child, whose `text` cannot be read. */
  function RenderChildren(children: seq<Json>, quote: bool): (r: Result<string>)
    ensures r.Err? <==> !NoNulls(children)
    ensures r.Err? ==> r.message == NullReadMessage("text")
  {
    if !NoNulls(children) then Err(NullReadMessage("text"))
    else if quote then Ok(QuoteText(children))
    else Ok(LeavesHtml(children))
  }

  const Nbsp: string := "&nbsp;"

  /** The HTML one block contributes: a paragraph, a blockquote, or nothing. */
  function BlockHtml(block: Json): (r: Result<string>)
    ensures block == JNull ==> r == Err(NullReadMessage("type"))
    ensures r.Ok? && r.value != "" ==>
      block != JNull && GetProp(block, "type") in {Present(JString("paragraph")), Present(JString("blockquote"))}
  {
    if block == JNull then Err(NullReadMessage("type"))
    else
      var kind := GetProp(block, "type");
      var children := GetProp(block, "children");
      if kind == Present(JString("paragraph")) then
        var content := if children.Present? && children.value.JArray? then RenderChildren(children.value.items, false) else Ok("");
        if content.Err? then content
        else Ok("<p>" + (if content.value == "" then Nbsp else content.value) + "</p>")
      else if kind == Present(JString("blockquote")) then
        var content := if children.Present? && children.value.JArray? then RenderChildren(children.value.items, true) else Ok("");
        if content.Err? then content
        else Ok("<blockquote><p>" + content.value + "</p></blockquote>")
      else Ok("")
  }

  /** Two conversions one after the other: the first error wins, otherwise
      the two HTML strings are concatenated. */
  function Then(first: Result<string>, second: Result<string>): Result<string>
  {
    match first
    case Err(e) => Err(e)
    case Ok(x) =>
      match second
      case Err(e) => Err(e)
      case Ok(y) => Ok(x + y)
  }

  lemma ThenAssociative(x: Result<string>, y: Result<string>, z: Result<string>)
    ensures Then(Then(x, y), z) == Then(x, Then(y, z))
  {
    if x.Ok? && y.Ok? && z.Ok? {
      assert x.value + (y.value + z.value) == (x.value + y.value) + z.value;
    }
  }

  /** The empty conversion is a unit on both sides. */
  lemma ThenEmpty(x: Result<string>)
    ensures Then(Ok(""), x) == x && Then(x, Ok("")) == x
  {
    if x.Ok? {
      assert "" + x.value == x.value && x.value + "" == x.value;
    }
  }

  /** The HTML of a whole block list: the fragments in order; the first error
      ends the conversion. */
  function BlocksHtml(blocks: seq<Json>): Result<string>
  {
    if blocks == [] then Ok("")
    else Then(BlocksHtml(blocks[..|blocks| - 1]), BlockHtml(blocks[|blocks| - 1]))
  }

  /** The conversion succeeds exactly when every block converts, and a
      failure is the failure of the first block that does not. */
  lemma {:induction false} BlocksHtmlFirstError(blocks: seq<Json>)
    ensures BlocksHtml(blocks).Ok? <==> forall i :: 0 <= i < |blocks| ==> BlockHtml(blocks[i]).Ok?
    ensures BlocksHtml(blocks).Err? ==> exists i :: FirstFailure(blocks, i) && BlockHtml(blocks[i]) == BlocksHtml(blocks)
  {
    if blocks != [] {
      var n := |blocks| - 1;
      var init := blocks[..n];
      BlocksHtmlFirstError(init);
      assert forall j :: 0 <= j < n ==> init[j] == blocks[j];
      assert BlocksHtml(blocks) == Then(BlocksHtml(init), BlockHtml(blocks[n]));
      ThenError(BlocksHtml(init), BlockHtml(blocks[n]));
      if BlocksHtml(init).Err? {
        var i :| FirstFailure(init, i) && BlockHtml(init[i]) == BlocksHtml(init);
        assert FirstFailure(blocks, i);
      } else if BlockHtml(blocks[n]).Err? {
        assert FirstFailure(blocks, n);
      }
    }
  }

  /** A sequenced conversion succeeds when both parts do, and otherwise
      fails with the first part's error, or else the second's. */
  lemma ThenError(x: Result<string>, y: Result<string>)
    ensures Then(x, y).Ok? <==> x.Ok? && y.Ok?
    ensures Then(x, y).Err? ==> Then(x, y) == if x.Err? then x else y
  {
  }

  /** Block `i` is the first one that does not convert. */
  predicate FirstFailure(blocks: seq<Json>, i: int)
  {
    0 <= i < |blocks| && BlockHtml(blocks[i]).Err? && forall j :: 0 <= j < i ==> BlockHtml(blocks[j]).Ok?
  }

  /** The `forEach` loop that appends each block's fragment with `+=`. */
  method ConvertBlocks(blocks: seq<Json>) returns (r: Result<string>)
    ensures r == BlocksHtml(blocks)
  {
    var htmlContent := "";
    var i := 0;
    while i < |blocks|
      invariant 0 <= i <= |blocks|
      invariant BlocksHtml(blocks[..i]) == Ok(htmlContent)
    {
      assert blocks[..i + 1][..i] == blocks[..i];
      var fragment := BlockHtml(blocks[i]);
      if fragment.Err? {
        assert BlocksHtml(blocks[..i + 1]).Err?;
        ErrorPersists(blocks, i + 1);
        return Err(fragment.message);
      }
      htmlContent := htmlContent + fragment.value;
      i := i + 1;
    }
    assert blocks[..i] == blocks;
    r := Ok(htmlContent);
  }

  /** Once a prefix fails, the whole list fails with the same message. */
  lemma {:induction false} ErrorPersists(blocks: seq<Json>, k: nat)
    requires k <= |blocks| && BlocksHtml(blocks[..k]).Err?
    ensures BlocksHtml(blocks) == BlocksHtml(blocks[..k])
    decreases |blocks| - k
  {
    if k < |blocks| {
      assert blocks[..k + 1][..k] == blocks[..k];
      ErrorPersists(blocks, k + 1);
    } else {
      assert blocks[..k] == blocks;
    }
  }

  // ---------------------------------------------------------------------------
  // Properties of the conversion

  /** A paragraph whose children are all non-null renders as `<p>`, the
      children's renderings in order, and `</p>`; with nothing to show it
      renders as `<p>&nbsp;</p>`. */
  lemma ParagraphHtml(fields: map<string, Json>, children: seq<Json>)
    requires "type" in fields && "children" in fields
    requires fields["type"] == JString("paragraph") && fields["children"] == JArray(children)
    requires NoNulls(children)
    ensures var content := LeavesHtml(children);
      BlockHtml(JObject(fields)) == Ok(if content == "" then "<p>&nbsp;</p>" else "<p>" + content + "</p>")
  {
    var block := JObject(fields);
    assert GetProp(block, "type") == Present(JString("paragraph"));
    assert GetProp(block, "children") == Present(JArray(children));
    assert RenderChildren(children, false) == Ok(LeavesHtml(children));
    assert "<p>" + Nbsp + "</p>" == "<p>&nbsp;</p>";
  }

  /** A paragraph with no children array (absent, or any other value) is the placeholder paragraph. */
  lemma ParagraphWithoutChildren(fields: map<string, Json>)
    requires "type" in fields && fields["type"] == JString("paragraph")
    requires "children" !in fields || !fields["children"].JArray?
    ensures BlockHtml(JObject(fields)) == Ok("<p>&nbsp;</p>")
  {
    assert "<p>" + Nbsp + "</p>" == "<p>&nbsp;</p>";
  }

  /** A blockquote shows its children's texts only, marks ignored, and has no placeholder. */
  lemma BlockquoteHtml(fields: map<string, Json>, children: seq<Json>)
    requires "type" in fields && fields["type"] == JString("blockquote")
    requires "children" in fields && fields["children"] == JArray(children)
    requires NoNulls(children)
    ensures BlockHtml(JObject(fields))
         == Ok("<blockquote><p>" + QuoteText(children) + "</p></blockquote>")
  {
  }

  /** A block of any other type, or a non-object block, contributes nothing. */
  lemma OtherBlocksIgnored(block: Json)
    requires block != JNull
    requires GetProp(block, "type") != Present(JString("paragraph"))
    requires GetProp(block, "type") != Present(JString("blockquote"))
    ensures BlockHtml(block) == Ok("")
  {
  }

  /** The HTML of two lists one after the other is the two HTMLs concatenated,
      the first error winning. */
  lemma {:induction false} BlocksHtmlAppend(a: seq<Json>, b: seq<Json>)
    ensures BlocksHtml(a + b) == Then(BlocksHtml(a), BlocksHtml(b))
    decreases |b|
  {
    if b == [] {
      assert a + b == a;
      ThenEmpty(BlocksHtml(a));
    } else {
      var n := |b| - 1;
      assert (a + b)[..|a + b| - 1] == a + b[..n];
      assert (a + b)[|a + b| - 1] == b[n];
      BlocksHtmlAppend(a, b[..n]);
      ThenAssociative(BlocksHtml(a), BlocksHtml(b[..n]), BlockHtml(b[n]));
    }
  }

  /** The output is the first block's fragment followed by the rest's. */
  lemma BlocksHtmlCons(block: Json, rest: seq<Json>)
    ensures BlocksHtml([block] + rest) == Then(BlockHtml(block), BlocksHtml(rest))
  {
    assert [block][..0] == [];
    ThenEmpty(BlockHtml(block));
    BlocksHtmlAppend([block], rest);
  }

  // ---------------------------------------------------------------------------
  // The page state the handler changes

  /** The editor instance, reduced to its HTML and its block tree. */
  class Editor {
    var html: string
    var children: seq<Json>

    constructor (html: string, children: seq<Json>)
      ensures this.html == html && this.children == children
    {
      this.html := html;
      this.children := children;
    }
  }

  /** `JSON.parse(jsonInput)`: a value, or the `SyntaxError` message. */
  datatype ParseOutcome = Parsed(value: Json) | SyntaxError(message: string)

  const NotReadyAlert: string := "编辑器未就绪，请稍后重试"
  const NotArrayAlert: string := "JSON 必须是数组格式"
  const SuccessAlert: string := "已成功设置 JSON 内容"
  const FormatErrorPrefix: string := "JSON 格式错误: "
  const EmptyDocumentHtml: string := "<p></p>"

  class EditorPage {
    var editor: Editor?
    var html: string
    var jsonContent: Json
    var showJsonModal: bool
    /** The messages shown with `alert`, oldest first. */
    var alerts: seq<string>

    constructor (editor: Editor?)
      ensures this.editor == editor && html == "<p>hello&nbsp;world</p>"
      ensures jsonContent == JObject(map[]) && !showJsonModal && alerts == []
    {
      this.editor := editor;
      html := "<p>hello&nbsp;world</p>";
      jsonContent := JObject(map[]);
      showJsonModal := false;
      alerts := [];
    }

    /** `handleSubmitJson`. Without an editor, with a parse error, with a
        non-array value or with a block the converter cannot read, it only
        alerts. Otherwise the editor gets the converted HTML (`<p></p>` when
        there is none) and the parsed blocks, the page state follows, and the
        dialog closes. */
    method SubmitJson(input: ParseOutcome)
      modifies this, editor
      ensures editor == old(editor)
      ensures
        var kept := html == old(html) && jsonContent == old(jsonContent)
          && showJsonModal == old(showJsonModal)
          && (editor != null ==> editor.html == old(editor.html) && editor.children == old(editor.children));
        if editor == null then kept && alerts == old(alerts) + [NotReadyAlert]
        else match input
          case SyntaxError(m) => kept && alerts == old(alerts) + [FormatErrorPrefix + m]
          case Parsed(v) =>
            if !v.JArray? then kept && alerts == old(alerts) + [NotArrayAlert]
            else match BlocksHtml(v.items)
              case Err(m) => kept && alerts == old(alerts) + [FormatErrorPrefix + m]
              case Ok(h) =>
                && editor.html == (if h == "" then EmptyDocumentHtml else h)
                && editor.children == v.items
                && html == editor.html && jsonContent == v && !showJsonModal
                && alerts == old(alerts) + [SuccessAlert]
    {
      if editor == null {
        alerts := alerts + [NotReadyAlert];
        return;
      }
      match input {
        case SyntaxError(m) =>
          alerts := alerts + [FormatErrorPrefix + m];
        case Parsed(v) =>
          if !v.JArray? {
            alerts := alerts + [NotArrayAlert];
            return;
          }
          var converted := ConvertBlocks(v.items);
          match converted {
            case Err(m) =>
              alerts := alerts + [FormatErrorPrefix + m];
            case Ok(htmlContent) =>
              editor.html := if htmlContent == "" then EmptyDocumentHtml else htmlContent;
              editor.children := v.items;
              html := editor.html;
              jsonContent := v;
              showJsonModal := false;
              alerts := alerts + [SuccessAlert];
          }
      }
    }
  }
}
