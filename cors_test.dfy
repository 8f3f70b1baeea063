/** The CORS tester's state cells (src/atoms/corsTestAtoms.ts): three stored
    configuration cells, two transient test-state cells, two derived
    predicates, and the reset and execute actions. */
module CorsTest {

  import opened Types

  const DefaultApiUrl: string := "http://localhost:8002/api/v1/settings"

  /** The values of the five cells. */
  datatype TestCells = TestCells(
    apiUrl: string, httpMethod: HttpMethod, requestBody: string,
    isLoading: bool, testResult: string)

  /** The cells' initial values, which are also what reset restores. */
  const Defaults: TestCells := TestCells(DefaultApiUrl, GET, "", false, "")

  // ---------------------------------------------------------------------------
  // `String.prototype.trim`

  /** The characters `trim` removes: ECMAScript WhiteSpace and LineTerminator. */
  const JsWhitespace: set<char> :=
    {'\t', '\n', '\U{000B}', '\U{000C}', '\r', ' ', '\U{00A0}', '\U{1680}',
     '\U{2000}', '\U{2001}', '\U{2002}', '\U{2003}', '\U{2004}', '\U{2005}',
     '\U{2006}', '\U{2007}', '\U{2008}', '\U{2009}', '\U{200A}',
     '\U{2028}', '\U{2029}', '\U{202F}', '\U{205F}', '\U{3000}', '\U{FEFF}'}

  predicate IsJsWhitespace(c: char)
  {
    c in JsWhitespace
  }

  predicate AllWhitespace(s: string)
  {
    forall i :: 0 <= i < |s| ==> IsJsWhitespace(s[i])
  }

  /** The end of the run of whitespace that starts at `i`. */
  function SkipLeading(s: string, i: nat): (k: nat)
    requires i <= |s|
    ensures i <= k <= |s|
    ensures forall j :: i <= j < k ==> IsJsWhitespace(s[j])
    ensures k < |s| ==> !IsJsWhitespace(s[k])
    decreases |s| - i
  {
    if i < |s| && IsJsWhitespace(s[i]) then SkipLeading(s, i + 1) else i
  }

  /** The start of the run of whitespace that ends at `j`, not going below `lo`. */
  function SkipTrailing(s: string, lo: nat, j: nat): (k: nat)
    requires lo <= j <= |s|
    ensures lo <= k <= j
    ensures forall i :: k <= i < j ==> IsJsWhitespace(s[i])
    ensures k > lo ==> !IsJsWhitespace(s[k - 1])
    decreases j
  {
    if j > lo && IsJsWhitespace(s[j - 1]) then SkipTrailing(s, lo, j - 1) else j
  }

  /** `s.trim()`: the slice of `s` between its leading and its trailing
      whitespace. Only whitespace lies outside it, and it neither starts nor
      ends with whitespace; so it is empty exactly when `s` is all whitespace. */
  function Trim(s: string): (r: string)
    ensures var k := SkipLeading(s, 0);
      OccursAt(r, s, k)
      && (forall i :: 0 <= i < k ==> IsJsWhitespace(s[i]))
      && (forall i :: k + |r| <= i < |s| ==> IsJsWhitespace(s[i]))
    ensures r != [] ==> !IsJsWhitespace(r[0]) && !IsJsWhitespace(r[|r| - 1])
    ensures r == [] <==> AllWhitespace(s)
  {
    var k := SkipLeading(s, 0);
    var e := SkipTrailing(s, k, |s|);
    assert k < e ==> s[k..e][0] == s[k] && s[k..e][e - k - 1] == s[e - 1];
    s[k..e]
  }

  // ---------------------------------------------------------------------------
  // Derived cells

  /** `canStartTestAtom`: a non-blank URL and no test in flight. */
  function CanStartTest(apiUrl: string, isLoading: bool): (r: bool)
    ensures r <==> !isLoading && exists i :: 0 <= i < |apiUrl| && !IsJsWhitespace(apiUrl[i])
  {
    Trim(apiUrl) != "" && !isLoading
  }

  /** `showRequestBodyAtom`: the methods whose requests may carry a body. */
  function ShowRequestBody(m: HttpMethod): (r: bool)
    ensures r <==> m in {POST, PUT, DELETE}
    ensures !r <==> m in {GET, PATCH, HEAD, OPTIONS}
  {
    match m
    case POST | PUT | DELETE => true
    case GET | PATCH | HEAD | OPTIONS => false
  }

  // ---------------------------------------------------------------------------
  // The request and the outcome of sending it

  /** The method name as it appears on the wire. */
  function MethodName(m: HttpMethod): string
  {
    match m
    case GET => "GET" case POST => "POST" case PUT => "PUT" case DELETE => "DELETE"
    case PATCH => "PATCH" case HEAD => "HEAD" case OPTIONS => "OPTIONS"
  }

  datatype Request = Request(url: string, verb: string, headers: seq<(string, string)>, body: Option<string>)

  /** The `fetch` options built by execute. A body is attached only for a
      body-carrying method and a non-empty (truthy) request body. */
  function BuildRequest(apiUrl: string, m: HttpMethod, requestBody: string): (r: Request)
    ensures r.url == apiUrl && r.verb == MethodName(m)
    ensures r.headers == [("Content-Type", "application/json")]
    ensures r.body.Some? <==> m in {POST, PUT, DELETE} && requestBody != ""
    ensures r.body.Some? ==> r.body.value == requestBody
  {
    Request(apiUrl, MethodName(m), [("Content-Type", "application/json")],
            if ShowRequestBody(m) && requestBody != "" then Some(requestBody) else None)
  }

  /** What a thrown value is: an `Error` with its message, or anything else. */
  datatype Thrown = ErrorObject(message: string) | NonError

  /** How sending the request ends: a response whose text was read, or a
      throw from `fetch` or from `response.text()`. */
  datatype FetchOutcome = Responded(status: nat, text: string) | Threw(thrown: Thrown)

  const StatusLabel: string := "状态码: "
  const BodyLabel: string := "\n响应内容: "
  const ErrorLabel: string := "错误: "
  const UnknownError: string := "未知错误"

  /** The text execute stores in `testResult` for an outcome. */
  function ResultText(o: FetchOutcome): string
  {
    match o
    case Responded(status, text) => StatusLabel + NatToDecimal(status) + BodyLabel + text
    case Threw(ErrorObject(message)) => ErrorLabel + message
    case Threw(NonError) => UnknownError
  }

  lemma NatToDecimalInjective(m: nat, n: nat)
    requires NatToDecimal(m) == NatToDecimal(n)
    ensures m == n
  {
    DecimalRoundTrip(m);
    DecimalRoundTrip(n);
  }

  /** Different outcomes leave different texts: the status, the response
      text, the error message and the kind of outcome can all be read back. */
  lemma ResultTextInjective(o1: FetchOutcome, o2: FetchOutcome)
    requires ResultText(o1) == ResultText(o2)
    ensures o1 == o2
  {
    ResultTextKind(o1);
    ResultTextKind(o2);
    if o1.Responded? {
      RespondedInjective(o1.status, o1.text, o2.status, o2.text);
    } else if o1.thrown.ErrorObject? && o2.thrown.ErrorObject? {
      DropPrefix(ErrorLabel, o1.thrown.message, o2.thrown.message);
    }
  }

  /** The status and the response text can be read back from a response's result text. */
  lemma RespondedInjective(s1: nat, t1: string, s2: nat, t2: string)
    requires ResultText(Responded(s1, t1)) == ResultText(Responded(s2, t2))
    ensures s1 == s2 && t1 == t2
  {
    var d1, d2 := NatToDecimal(s1), NatToDecimal(s2);
    var x1, x2 := d1 + BodyLabel + t1, d2 + BodyLabel + t2;
    assert ResultText(Responded(s1, t1)) == StatusLabel + x1;
    assert ResultText(Responded(s2, t2)) == StatusLabel + x2;
    DropPrefix(StatusLabel, x1, x2);
    DigitsThenBody(d1, t1, d2, t2);
    NatToDecimalInjective(s1, s2);
  }

  lemma DropPrefix(p: string, x: string, y: string)
    requires p + x == p + y
    ensures x == y
  {
    assert x == (p + x)[|p|..];
    assert y == (p + y)[|p|..];
  }

  /** A run of digits ends where the body label begins. */
  lemma DigitsThenBody(d1: string, t1: string, d2: string, t2: string)
    requires forall i :: 0 <= i < |d1| ==> '0' <= d1[i] <= '9'
    requires forall i :: 0 <= i < |d2| ==> '0' <= d2[i] <= '9'
    requires d1 + BodyLabel + t1 == d2 + BodyLabel + t2
    ensures d1 == d2 && t1 == t2
  {
    var s := d1 + BodyLabel + t1;
    assert s[|d1|] == '\n' && s[|d2|] == '\n';
    assert d1 == s[..|d1|] && d2 == s[..|d2|];
    assert t1 == s[|d1| + |BodyLabel|..] && t2 == s[|d2| + |BodyLabel|..];
  }

  /** The three kinds of outcome leave texts with distinct openings. */
  lemma ResultTextKind(o: FetchOutcome)
    ensures o.Responded? <==> |ResultText(o)| >= |StatusLabel| && ResultText(o)[..|StatusLabel|] == StatusLabel
    ensures o == Threw(NonError) <==> ResultText(o) == UnknownError
  {
    var s := ResultText(o);
    if o.Threw? && |s| >= |StatusLabel| {
      assert s[0] != StatusLabel[0];
    }
    if o != Threw(NonError) {
      assert s[0] != UnknownError[0];
    }
  }

  // ---------------------------------------------------------------------------
  // The cells as mutable state

  class Cells {
    var apiUrl: string
    var httpMethod: HttpMethod
    var requestBody: string
    var isLoading: bool
    var testResult: string

    function Values(): TestCells
      reads this
    {
      TestCells(apiUrl, httpMethod, requestBody, isLoading, testResult)
    }

    /** Every cell starts at its declared default. */
    constructor ()
      ensures Values() == Defaults
    {
      apiUrl, httpMethod, requestBody := DefaultApiUrl, GET, "";
      isLoading, testResult := false, "";
    }

    method SetApiUrl(url: string)
      modifies this
      ensures Values() == old(Values()).(apiUrl := url)
    {
      apiUrl := url;
    }

    method SetHttpMethod(m: HttpMethod)
      modifies this
      ensures Values() == old(Values()).(httpMethod := m)
    {
      httpMethod := m;
    }

    method SetRequestBody(body: string)
      modifies this
      ensures Values() == old(Values()).(requestBody := body)
    {
      requestBody := body;
    }

    /** `resetTestConfigAtom`: every cell back to its default, so resetting twice
        is the same as resetting once, and a reset store looks like a new one. */
    method Reset()
      modifies this
      ensures Values() == Defaults
    {
      apiUrl := DefaultApiUrl;
      httpMethod := GET;
      requestBody := "";
      testResult := "";
      isLoading := false;
    }

    /** The first half of `executeTestAtom`, up to the `fetch`: the request is
        built from the configuration cells, the test is marked in flight and
        the old result cleared. While in flight no new test may start. */
    method BeginExecute() returns (req: Request)
      modifies this
      ensures req == BuildRequest(old(apiUrl), old(httpMethod), old(requestBody))
      ensures Values() == old(Values()).(isLoading := true, testResult := "")
      ensures !CanStartTest(apiUrl, isLoading)
    {
      var url, m, body := apiUrl, httpMethod, requestBody;
      isLoading := true;
      testResult := "";
      req := BuildRequest(url, m, body);
    }

    /** The second half: record the outcome (try/catch) and clear the loading
        flag (finally). */
    method FinishExecute(outcome: FetchOutcome)
      modifies this
      ensures Values() == old(Values()).(isLoading := false, testResult := ResultText(outcome))
    {
      testResult := ResultText(outcome);
      isLoading := false;
    }

    /** `executeTestAtom` with the network round trip replaced by its outcome.
        The configuration cells are only read; whatever the outcome, the
        test ends not loading, with the outcome's text as the result. */
    method Execute(outcome: FetchOutcome) returns (req: Request)
      modifies this
      ensures req == BuildRequest(old(apiUrl), old(httpMethod), old(requestBody))
      ensures apiUrl == old(apiUrl) && httpMethod == old(httpMethod) && requestBody == old(requestBody)
      ensures !isLoading && testResult == ResultText(outcome)
    {
      req := BeginExecute();
      FinishExecute(outcome);
    }
  }
}
