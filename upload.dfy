/** The image-upload endpoint (`POST /api/upload`): an ordered chain of
    guards over the submitted form, then a `data:` URL built from the file. */
module Upload {

  import opened Types
  import Base64

  /** A file part of a multipart form. `content` is `None` when reading the
      file's bytes fails (`arrayBuffer()` rejects). */
  datatype FilePart = File(name: string, mimeType: string, size: nat, content: Option<seq<byte>>)

  /** `File.size` is the number of bytes `arrayBuffer()` yields. */
  type File = f: FilePart | f.content.Some? ==> |f.content.value| == f.size
    witness File("", "", 0, None)

  /** A form value: `FormData.get` yields either a string or a `File`. */
  datatype FormEntry = TextEntry(text: string) | FileEntry(file: File)

  /** The request as the handler sees it: a body `formData()` cannot parse
      (it rejects), or the parsed form's entries in order. */
  datatype UploadRequest = UnreadableBody | Form(entries: seq<(string, FormEntry)>)

  datatype ResponseBody =
    | Failure(errno: int, message: string)
    | Uploaded(errno: int, url: string, alt: string, href: string)

  datatype Response = Response(status: nat, body: ResponseBody)

  const AllowedTypes: seq<string> := ["image/jpeg", "image/png", "image/gif", "image/webp"]

  /** 10 MiB. */
  const MaxSize: nat := 10 * 1024 * 1024

  const MissingFileMessage: string := "没有找到上传的文件"
  const BadTypeMessage: string := "不支持的文件类型，仅支持 JPG、PNG、GIF、WebP"
  const TooLargeMessage: string := "文件大小不能超过 10MB"
  const FailedMessage: string := "上传失败，请重试"

  /** `FormData.get(name)`: the first entry with that name, or `null`. */
  function FormGet(entries: seq<(string, FormEntry)>, name: string): (r: Option<FormEntry>)
    ensures r.None? <==> forall i :: 0 <= i < |entries| ==> entries[i].0 != name
    ensures r.Some? ==> (name, r.value) in entries
  {
    if entries == [] then None
    else if entries[0].0 == name then Some(entries[0].1)
    else FormGet(entries[1..], name)
  }

  /** When several entries share the name, `FormGet` yields the earliest. */
  lemma {:induction false} FormGetIsFirst(entries: seq<(string, FormEntry)>, name: string, i: nat)
    requires i < |entries| && entries[i].0 == name
    requires forall j :: 0 <= j < i ==> entries[j].0 != name
    ensures FormGet(entries, name) == Some(entries[i].1)
  {
    if i > 0 {
      FormGetIsFirst(entries[1..], name, i - 1);
    }
  }

  /** JavaScript truthiness of the looked-up field: `null` and `""` are falsy. */
  predicate IsMissing(field: Option<FormEntry>)
  {
    field.None? || field.value == TextEntry("")
  }

  /** `file.type`: a string entry has no `type` (it is `undefined`). */
  function TypeOf(entry: FormEntry): Option<string>
  {
    match entry
    case TextEntry(_) => None
    case FileEntry(f) => Some(f.mimeType)
  }

  /** `allowedTypes.includes(file.type)`. */
  predicate TypeAllowed(entry: FormEntry)
  {
    TypeOf(entry).Some? && TypeOf(entry).value in AllowedTypes
  }

  /** The `data:` URL of section 3 of RFC 2397 with a Base64 payload. */
  function DataUrl(mimeType: string, bytes: seq<byte>): string
  {
    "data:" + mimeType + ";base64," + Base64.Encode(bytes)
  }

  function BadRequest(message: string): (r: Response)
    ensures r.status == 400 && r.body == Failure(1, message)
  {
    Response(400, Failure(1, message))
  }

  /** The handler: guards in the order missing file, type, size; then the
      success payload. Any rejection along the way (unparsable body, unreadable
      file) is caught and answered with status 500. */
  function Post(req: UploadRequest): (r: Response)
    ensures r.status in {200, 400, 500}
    ensures r.status == 200 <==> r.body.Uploaded?
    ensures r.body.Failure? ==> r.body.errno == 1
    ensures r.body.Uploaded? ==> r.body.errno == 0
    ensures r.status == 500 <==>
      (req.UnreadableBody? ||
       (var field := FormGet(req.entries, "file");
        !IsMissing(field) && TypeAllowed(field.value) && field.value.file.size <= MaxSize
        && field.value.file.content.None?))
  {
    match req
    case UnreadableBody => Response(500, Failure(1, FailedMessage))
    case Form(entries) =>
      var field := FormGet(entries, "file");
      if IsMissing(field) then BadRequest(MissingFileMessage)
      else if !TypeAllowed(field.value) then BadRequest(BadTypeMessage)
      else
        var file := field.value.file;
        if file.size > MaxSize then BadRequest(TooLargeMessage)
        else match file.content
          case None => Response(500, Failure(1, FailedMessage))
          case Some(bytes) =>
            var url := DataUrl(file.mimeType, bytes);
            Response(200, Uploaded(0, url, file.name, url))
  }

  /** A form whose `file` field is absent or the empty string is answered 400 "no file". */
  lemma MissingFileRejected(entries: seq<(string, FormEntry)>)
    requires IsMissing(FormGet(entries, "file"))
    ensures Post(Form(entries)) == Response(400, Failure(1, MissingFileMessage))
  {
  }

  /** A field whose type is not one of the four image types is answered 400
      "unsupported type" whatever its size: the type guard comes before the size guard. */
  lemma WrongTypeRejectedBeforeSize(entries: seq<(string, FormEntry)>)
    requires var field := FormGet(entries, "file"); !IsMissing(field) && !TypeAllowed(field.value)
    ensures Post(Form(entries)) == Response(400, Failure(1, BadTypeMessage))
  {
  }

  /** A string in the `file` field has no MIME type, so it meets the type guard. */
  lemma TextFieldRejectedAsType(entries: seq<(string, FormEntry)>, text: string)
    requires FormGet(entries, "file") == Some(TextEntry(text)) && text != ""
    ensures Post(Form(entries)).body == Failure(1, BadTypeMessage)
  {
  }

  /** An allowed file strictly larger than 10 MiB is answered 400 "too large". */
  lemma OversizeRejected(entries: seq<(string, FormEntry)>, f: File)
    requires FormGet(entries, "file") == Some(FileEntry(f))
    requires f.mimeType in AllowedTypes && f.size > MaxSize
    ensures Post(Form(entries)) == Response(400, Failure(1, TooLargeMessage))
  {
  }

  /** An allowed, readable file of at most 10 MiB -- exactly 10 MiB included --
      is answered with errno 0 and a data URL of its own bytes. */
  lemma AcceptedUpload(entries: seq<(string, FormEntry)>, f: File, bytes: seq<byte>)
    requires FormGet(entries, "file") == Some(FileEntry(f))
    requires f.mimeType in AllowedTypes && f.size <= MaxSize && f.content == Some(bytes)
    ensures var r := Post(Form(entries));
      r.status == 200 && r.body.errno == 0 && r.body.alt == f.name && |bytes| <= MaxSize
      && r.body.url == r.body.href == DataUrl(f.mimeType, bytes)
      && ParseDataUrl(r.body.url) == Some((f.mimeType, bytes))
  {
    var url := DataUrl(f.mimeType, bytes);
    assert Post(Form(entries)) == Response(200, Uploaded(0, url, f.name, url));
    AllowedTypesHaveNoSemicolon(f.mimeType);
    DataUrlRoundTrip(f.mimeType, bytes);
  }

  /** The boundary: a file of exactly 10 MiB passes the size guard. */
  lemma ExactlyMaxSizeAccepted(f: File)
    requires f.mimeType in AllowedTypes && f.size == 10485760 && f.content.Some?
    ensures Post(Form([("file", FileEntry(f))])).status == 200
  {
  }

  /** Position of the first `c` in `s`, or `|s|` when there is none. */
  function IndexOfChar(s: string, c: char): (k: nat)
    ensures k <= |s| && (k < |s| ==> s[k] == c)
    ensures forall i :: 0 <= i < k ==> s[i] != c
  {
    if s == [] then 0 else if s[0] == c then 0 else 1 + IndexOfChar(s[1..], c)
  }

  /** Reads a `data:<type>;base64,<payload>` URL back into its media type and bytes. */
  function ParseDataUrl(url: string): (r: Option<(string, seq<byte>)>)
    ensures r.Some? ==> DataUrl(r.value.0, r.value.1) == url
  {
    if |url| < 5 || url[..5] != "data:" then None
    else
      var k := 5 + IndexOfChar(url[5..], ';');
      if |url| < k + 8 || url[k..k + 8] != ";base64," then None
      else match Base64.Decode(url[k + 8..])
        case None => None
        case Some(bytes) =>
          Base64.EncodeDecode(url[k + 8..]);
          Rejoin(url, k);
          Some((url[5..k], bytes))
  }

  /** A URL is its scheme, media type, marker and payload put back together. */
  lemma Rejoin(url: string, k: nat)
    requires 5 <= k && k + 8 <= |url| && url[..5] == "data:" && url[k..k + 8] == ";base64,"
    ensures url == "data:" + url[5..k] + ";base64," + url[k + 8..]
  {
    assert url == url[..5] + url[5..k] + url[k..k + 8] + url[k + 8..];
  }

  /** A media type without `;` survives the trip through a data URL, and so do the bytes. */
  lemma DataUrlRoundTrip(mimeType: string, bytes: seq<byte>)
    requires forall i :: 0 <= i < |mimeType| ==> mimeType[i] != ';'
    ensures ParseDataUrl(DataUrl(mimeType, bytes)) == Some((mimeType, bytes))
  {
    var url := DataUrl(mimeType, bytes);
    var payload := Base64.Encode(bytes);
    var k := 5 + |mimeType|;
    assert url[5..] == mimeType + ";base64," + payload;
    IndexOfFirst(url[5..], mimeType, ';');
    assert url[k..k + 8] == ";base64," && url[k + 8..] == payload && url[5..k] == mimeType;
    Base64.DecodeEncode(bytes);
  }

  lemma {:induction false} IndexOfFirst(s: string, prefix: string, c: char)
    requires |prefix| < |s| && s[..|prefix|] == prefix && s[|prefix|] == c
    requires forall i :: 0 <= i < |prefix| ==> prefix[i] != c
    ensures IndexOfChar(s, c) == |prefix|
  {
    if |prefix| > 0 {
      assert s[0] == prefix[0];
      assert s[1..][..|prefix| - 1] == prefix[1..];
      IndexOfFirst(s[1..], prefix[1..], c);
    }
  }

  /** Every allowed media type is free of `;`, so success URLs always parse back. */
  lemma AllowedTypesHaveNoSemicolon(t: string)
    requires t in AllowedTypes
    ensures forall i :: 0 <= i < |t| ==> t[i] != ';'
  {
  }
}
