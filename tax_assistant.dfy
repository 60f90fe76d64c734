/**
 * The tax-code search form of the front end: it checks the query length,
 * posts the trimmed query to the search endpoint, and turns the outcome
 * into a result or an error message with a hint. Values that come back
 * from the server are JavaScript values decoded from JSON.
 */
module TaxAssistant {
  import opened Text
  import TaxServer

  /**
   * JavaScript values as JSON decoding produces them, plus `undefined`.
   * Numbers are integers here; object members are listed in JavaScript's
   * property order.
   */
  datatype JsValue =
    | JsUndefined
    | JsNull
    | JsBool(b: bool)
    | JsNumber(n: int)
    | JsString(s: string)
    | JsArray(items: seq<JsValue>)
    | JsObject(members: seq<(string, JsValue)>)

  /** JavaScript truthiness (no NaN among the numbers modelled). */
  predicate Truthy(v: JsValue) {
    match v
    case JsUndefined => false
    case JsNull => false
    case JsBool(b) => b
    case JsNumber(n) => n != 0
    case JsString(s) => s != []
    case JsArray(_) => true
    case JsObject(_) => true
  }

  /** `a || b`. */
  function Or(a: JsValue, b: JsValue): (r: JsValue)
    ensures Truthy(a) ==> r == a
    ensures !Truthy(a) ==> r == b
  {
    if Truthy(a) then a else b
  }

  /** The value of the last member named `key` (JSON decoding keeps the last duplicate). */
  function Lookup(members: seq<(string, JsValue)>, key: string): (r: JsValue)
    ensures r != JsUndefined ==> exists i :: 0 <= i < |members| && members[i] == (key, r)
    ensures (forall i :: 0 <= i < |members| ==> members[i].0 != key) ==> r == JsUndefined
  {
    if members == [] then JsUndefined
    else if members[|members| - 1].0 == key then members[|members| - 1].1
    else Lookup(members[..|members| - 1], key)
  }

  /** Looking up either member of a two-member object. */
  lemma LookupPair(ka: string, a: JsValue, kb: string, b: JsValue)
    requires ka != kb
    ensures Lookup([(ka, a), (kb, b)], ka) == a
    ensures Lookup([(ka, a), (kb, b)], kb) == b
  {
    var m := [(ka, a), (kb, b)];
    assert m[..1] == [(ka, a)];
    assert m[..1][..0] == [];
  }

  /**
   * `v.key` on a value that is neither null nor undefined, for the keys
   * this form reads ("error", "detail", "hint"), which no built-in
   * prototype defines.
   */
  function Get(v: JsValue, key: string): JsValue {
    if v.JsObject? then Lookup(v.members, key) else JsUndefined
  }

  /** `v?.key`. */
  function OptGet(v: JsValue, key: string): JsValue {
    if v.JsNull? || v.JsUndefined? then JsUndefined else Get(v, key)
  }

  /** `JSON.stringify` escaping of one character. */
  function EscapeChar(c: char): string {
    if c == '"' then "\\\""
    else if c == '\\' then "\\\\"
    else if c == '\U{0008}' then "\\b"
    else if c == '\U{000C}' then "\\f"
    else if c == '\n' then "\\n"
    else if c == '\r' then "\\r"
    else if c == '\t' then "\\t"
    else if c as int < 0x20 then "\\u00" + [HexDigit(c as int / 16), HexDigit(c as int % 16)]
    else [c]
  }

  function HexDigit(n: int): char
    requires 0 <= n < 16
  {
    "0123456789abcdef"[n]
  }

  function Escape(s: string): string {
    if s == [] then [] else EscapeChar(s[0]) + Escape(s[1..])
  }

  function NatText(n: nat): string {
    if n < 10 then ["0123456789"[n]] else NatText(n / 10) + ["0123456789"[n % 10]]
  }

  function IntText(n: int): string {
    if n < 0 then "-" + NatText(-n) else NatText(n)
  }

  /** The members `JSON.stringify` writes: those whose value is not undefined. */
  function Defined(members: seq<(string, JsValue)>): (r: seq<(string, JsValue)>)
    ensures forall m :: m in r ==> m in members && m.1 != JsUndefined
  {
    if members == [] then []
    else if members[0].1 == JsUndefined then Defined(members[1..])
    else [members[0]] + Defined(members[1..])
  }

  /** `JSON.stringify(v)`; undefined is written as in an array, "null". */
  function Stringify(v: JsValue): string
    decreases v, 0
  {
    match v
    case JsUndefined => "null"
    case JsNull => "null"
    case JsBool(b) => if b then "true" else "false"
    case JsNumber(n) => IntText(n)
    case JsString(s) => "\"" + Escape(s) + "\""
    case JsArray(items) =>
      "[" + Join(seq(|items|, i requires 0 <= i < |items| => Stringify(items[i])), ",") + "]"
    case JsObject(members) =>
      var kept := Defined(members);
      "{" + Join(seq(|kept|, i requires 0 <= i < |kept| => MemberText(kept[i].0, kept[i].1)), ",") + "}"
  }

  function MemberText(key: string, value: JsValue): string
    decreases value, 1
  {
    "\"" + Escape(key) + "\":" + Stringify(value)
  }

  /** Text that JSON decoding could possibly accept: its first non-blank character can open a JSON value. */
  predicate JsonStart(s: string) {
    var k := LeadingSpaces(JavaScript, s);
    k < |s| && (s[k] in "{[\"-tfn" || '0' <= s[k] <= '9')
  }

  /** What an exception carries here: its message, and `JSON.parse(message)` when that succeeds. */
  datatype Failure = Failure(message: string, parsed: Option<JsValue>)

  predicate WellFormed(f: Failure) {
    f.parsed.Some? ==> JsonStart(f.message)
  }

  /** `response.json()`: the decoded body, or the exception it raised. */
  datatype BodyOutcome = Json(data: JsValue) | BodyFailed(failure: Failure)

  /** The `fetch` call: it rejected, or a response came with its `ok` flag. */
  datatype FetchOutcome = FetchFailed(failure: Failure) | Responded(ok: bool, body: BodyOutcome)

  /** The error box: a message and an optional hint (undefined when absent). */
  datatype ErrorResponse = ErrorResponse(error: JsValue, hint: JsValue)

  /** The JSON body posted to the search endpoint. */
  datatype SearchBody = SearchBody(query: string, limit: int)

  datatype FormState = FormState(
    query: string,
    loading: bool,
    result: JsValue,
    error: Option<ErrorResponse>,
    isFirstRequest: bool)

  const MinQueryUnits := 3
  const SearchLimit := 5
  const ShortQuery := "Please enter at least 3 characters"
  const SearchFailed := "Search failed"
  const UnknownError := "Unknown error"
  const BackendHint := "Backend not running on port 8000"
  const ColdStartHint := "First request may take 10-30s due to cold start. Retry."
  const RetryHint := "Please try again"
  const ConsoleHint := "Check console for details"
  /** The message of the TypeError raised by reading a property of `null`. */
  const NullReadMessage := "Cannot read properties of null (reading 'error')"

  /** The trimmed query, and whether it is too short (JavaScript `.length` counts UTF-16 units). */
  predicate TooShort(query: string) {
    Utf16Length(Strip(JavaScript, query)) < MinQueryUnits
  }

  /** The search button is disabled while loading or while the query is too short. */
  predicate ButtonDisabled(st: FormState) {
    st.loading || TooShort(st.query)
  }

  /** Enter in the text box starts a search only when nothing is loading. */
  predicate EnterSearches(key: string, st: FormState) {
    key == "Enter" && !st.loading
  }

  /** The error text for a non-ok response: `data.error || data.detail?.error || data.detail || 'Search failed'`. */
  function ErrorText(data: JsValue): (r: JsValue)
    requires !data.JsNull? && !data.JsUndefined?
    ensures Truthy(r)
    ensures Truthy(Get(data, "error")) ==> r == Get(data, "error")
    ensures (!Truthy(Get(data, "error")) && Truthy(OptGet(Get(data, "detail"), "error")))
      ==> r == OptGet(Get(data, "detail"), "error")
    ensures (!Truthy(Get(data, "error")) && !Truthy(OptGet(Get(data, "detail"), "error"))
      && Truthy(Get(data, "detail"))) ==> r == Get(data, "detail")
    ensures (!Truthy(Get(data, "error")) && !Truthy(OptGet(Get(data, "detail"), "error"))
      && !Truthy(Get(data, "detail"))) ==> r == JsString(SearchFailed)
  {
    Or(Get(data, "error"), Or(OptGet(Get(data, "detail"), "error"), Or(Get(data, "detail"), JsString(SearchFailed))))
  }

  /** The hint for a non-ok response: `data.hint || data.detail?.hint`. */
  function HintText(data: JsValue): (r: JsValue)
    requires !data.JsNull? && !data.JsUndefined?
    ensures Truthy(r) <==> Truthy(Get(data, "hint")) || Truthy(OptGet(Get(data, "detail"), "hint"))
    ensures Truthy(Get(data, "hint")) ==> r == Get(data, "hint")
    ensures !Truthy(Get(data, "hint")) ==> r == OptGet(Get(data, "detail"), "hint")
  {
    Or(Get(data, "hint"), OptGet(Get(data, "detail"), "hint"))
  }

  /**
   * The exception `handleSearch` ends up handling for an outcome, or None
   * when the search succeeded. A non-ok response throws an Error whose
   * message is the JSON text of `{error, hint}`; that text decodes back to
   * the same object.
   */
  function Thrown(o: FetchOutcome): Option<Failure> {
    match o
    case FetchFailed(f) => Some(f)
    case Responded(_, BodyFailed(f)) => Some(f)
    case Responded(ok, Json(data)) =>
      if ok then None
      else if data.JsNull? || data.JsUndefined? then Some(Failure(NullReadMessage, None))
      else
        var e := JsObject([("error", ErrorText(data)), ("hint", HintText(data))]);
        Some(Failure(Stringify(e), Some(e)))
  }

  /** The hint used when the error carries none. */
  function FallbackHint(message: string, isFirstRequest: bool): (r: string)
    ensures Contains(message, "fetch", false) ==> r == BackendHint
    ensures !Contains(message, "fetch", false) ==> (r == ColdStartHint <==> isFirstRequest)
    ensures !Contains(message, "fetch", false) && !isFirstRequest ==> r == RetryHint
  {
    if Contains(message, "fetch", false) then BackendHint
    else if isFirstRequest then ColdStartHint
    else RetryHint
  }

  /**
   * The `catch` block: decode the message as JSON and take its `error` and
   * `hint` with fallbacks; when decoding fails (or the decoded value is
   * null), show the raw message with the console hint.
   */
  function Caught(f: Failure, isFirstRequest: bool): (r: ErrorResponse)
    ensures f.parsed.None? ==> r == ErrorResponse(JsString(f.message), JsString(ConsoleHint))
    ensures Truthy(r.hint)
  {
    match f.parsed
    case None => ErrorResponse(JsString(f.message), JsString(ConsoleHint))
    case Some(p) =>
      if p.JsNull? || p.JsUndefined? then ErrorResponse(JsString(f.message), JsString(ConsoleHint))
      else ErrorResponse(Or(Get(p, "error"), JsString(UnknownError)),
                         Or(Get(p, "hint"), JsString(FallbackHint(f.message, isFirstRequest))))
  }

  /** The first half of `handleSearch`, up to the request: the state it leaves and the body it posts, if any. */
  function Started(st: FormState): (FormState, Option<SearchBody>) {
    if TooShort(st.query) then (st.(error := Some(ErrorResponse(JsString(ShortQuery), JsUndefined))), None)
    else (st.(loading := true, error := None, result := JsNull),
          Some(SearchBody(Strip(JavaScript, st.query), SearchLimit)))
  }

  /** The second half of `handleSearch`, once the outcome is known (the `finally` clears `loading`). */
  function Settled(st: FormState, o: FetchOutcome): FormState {
    match Thrown(o)
    case None => st.(result := o.body.data, isFirstRequest := false, loading := false)
    case Some(f) => st.(error := Some(Caught(f, st.isFirstRequest)), loading := false)
  }

  /**
   * A too-short query only sets the short-query error: no request, and
   * `loading` and `result` untouched. Any other query posts its trimmed
   * text with limit 5, sets `loading` and clears error and result.
   */
  lemma StartGuards(st: FormState)
    ensures TooShort(st.query) ==>
      (Started(st).1 == None && Started(st).0 == st.(error := Some(ErrorResponse(JsString(ShortQuery), JsUndefined))))
    ensures !TooShort(st.query) ==>
      (Started(st).1 == Some(SearchBody(Strip(JavaScript, st.query), 5))
       && Started(st).0.loading && Started(st).0.error.None? && Started(st).0.result == JsNull
       && Started(st).0.query == st.query && Started(st).0.isFirstRequest == st.isFirstRequest)
    ensures Started(st).1.Some? ==>
      (NoEdgeSpace(JavaScript, Started(st).1.value.query) && Utf16Length(Started(st).1.value.query) >= 3)
  {
  }

  /** An enabled button always leads to a request. */
  lemma EnabledButtonPosts(st: FormState)
    requires !ButtonDisabled(st)
    ensures Started(st).1.Some?
  {
  }

  /**
   * Whatever the outcome, `loading` ends false and `isFirstRequest` never
   * goes from false back to true; success sets the result and clears
   * `isFirstRequest`, failure sets an error with a non-empty hint.
   */
  lemma SettleShape(st: FormState, o: FetchOutcome)
    ensures var r := Settled(st, o);
      && !r.loading
      && (r.isFirstRequest ==> st.isFirstRequest)
      && r.query == st.query
      && (o.Responded? && o.ok && o.body.Json? ==>
            r.result == o.body.data && !r.isFirstRequest && r.error == st.error)
      && (!(o.Responded? && o.ok && o.body.Json?) ==>
            r.error.Some? && Truthy(r.error.value.hint) && r.result == st.result
            && r.isFirstRequest == st.isFirstRequest)
  {
  }

  /**
   * A non-ok response with an object body: the message shown is the first
   * truthy of `error`, `detail.error`, `detail`, 'Search failed'; the hint
   * is the body's hint when it has one, else the fallback chosen from the
   * thrown message.
   */
  lemma ServerErrorShown(st: FormState, data: JsValue)
    requires data.JsObject?
    ensures var e := JsObject([("error", ErrorText(data)), ("hint", HintText(data))]);
      Settled(st, Responded(false, Json(data))).error
        == Some(ErrorResponse(ErrorText(data),
             if Truthy(HintText(data)) then HintText(data)
             else JsString(FallbackHint(Stringify(e), st.isFirstRequest))))
  {
    var e := JsObject([("error", ErrorText(data)), ("hint", HintText(data))]);
    LookupPair("error", ErrorText(data), "hint", HintText(data));
    assert Get(e, "error") == ErrorText(data);
    assert Get(e, "hint") == HintText(data);
    assert Thrown(Responded(false, Json(data))) == Some(Failure(Stringify(e), Some(e)));
  }

  /** A server reply body as JavaScript sees it after decoding. */
  function FromServer(v: TaxServer.Value): JsValue {
    match v
    case VStr(s) => JsString(s)
    case VInt(n) => JsNumber(n)
  }

  function BodyFromServer(body: seq<(string, TaxServer.Value)>): (r: JsValue)
    ensures r.JsObject? && |r.members| == |body|
    ensures forall i :: 0 <= i < |body| ==> r.members[i] == (body[i].0, FromServer(body[i].1))
  {
    JsObject(seq(|body|, i requires 0 <= i < |body| => (body[i].0, FromServer(body[i].1))))
  }

  /**
   * The server's own error replies (`{"error": …, "hint": …}` with
   * non-empty texts, which every service-failure reply of the search
   * endpoint is) reach the user as exactly that error and that hint.
   */
  lemma ServerDetailShown(st: FormState, error: string, hint: string)
    requires error != [] && hint != []
    ensures var data := BodyFromServer(TaxServer.ErrorBody(TaxServer.ErrorDetail(error, hint)));
      Settled(st, Responded(false, Json(data))).error == Some(ErrorResponse(JsString(error), JsString(hint)))
  {
    var data := BodyFromServer(TaxServer.ErrorBody(TaxServer.ErrorDetail(error, hint)));
    ServerBodyMembers(error, hint);
    LookupPair("error", JsString(error), "hint", JsString(hint));
    assert ErrorText(data) == JsString(error);
    assert HintText(data) == JsString(hint);
    ServerErrorShown(st, data);
  }

  lemma ServerBodyMembers(error: string, hint: string)
    ensures BodyFromServer(TaxServer.ErrorBody(TaxServer.ErrorDetail(error, hint))).members
      == [("error", JsString(error)), ("hint", JsString(hint))]
  {
  }

  /**
   * The form counts UTF-16 units and the server counts characters: a query
   * of one emoji and one letter passes the form's length check, is posted,
   * and is refused by the server's request validation as too short.
   */
  lemma AstralQueryRefusedByServer(st: FormState)
    requires st.query == "\U{1F600}a"
    ensures !TooShort(st.query)
    ensures Started(st).1 == Some(SearchBody(st.query, 5))
    ensures TaxServer.ValidateRequest(Started(st).1.value.query, Some(5)).Rejected?
  {
    var q := st.query;
    assert !IsJsSpace(q[0]) && !IsJsSpace(q[1]);
    assert LeadingSpaces(JavaScript, q) == 0;
    assert q[1..] == "a";
    assert TrailingSpaces(JavaScript, q) == 0;
    assert Strip(JavaScript, q) == q;
    assert Utf16Length(q[1..]) == 1;
  }

  /**
   * As written, a rejected `fetch` (the backend is down) whose message is
   * not JSON shows the raw message with the console hint, never the
   * "Backend not running" hint meant for it.
   */
  lemma NetworkFailureGetsConsoleHint(st: FormState, message: string)
    requires WellFormed(Failure(message, None))
    ensures Settled(st, FetchFailed(Failure(message, None))).error
      == Some(ErrorResponse(JsString(message), JsString(ConsoleHint)))
  {
  }

  /** The browser's message for a refused connection cannot be decoded as JSON. */
  lemma FailedToFetchIsNotJson(parsed: Option<JsValue>)
    requires WellFormed(Failure("Failed to fetch", parsed))
    ensures parsed.None?
    ensures Settled(FormState([], true, JsNull, None, true), FetchFailed(Failure("Failed to fetch", parsed))).error.value.hint
      == JsString(ConsoleHint)
  {
    var s := "Failed to fetch";
    assert !IsJsSpace(s[0]);
    assert LeadingSpaces(JavaScript, s) == 0;
  }

  /** The catch block as evidently intended: an undecodable message that mentions `fetch` gets the backend hint. */
  function CaughtFixed(f: Failure, isFirstRequest: bool): (r: ErrorResponse)
    ensures f.parsed.None? && Contains(f.message, "fetch", false) ==> r.hint == JsString(BackendHint)
    ensures f.parsed.None? && !Contains(f.message, "fetch", false) ==> r.hint == JsString(ConsoleHint)
    ensures f.parsed.Some? ==> r == Caught(f, isFirstRequest)
  {
    if f.parsed.None? then
      ErrorResponse(JsString(f.message), JsString(if Contains(f.message, "fetch", false) then BackendHint else ConsoleHint))
    else Caught(f, isFirstRequest)
  }

  function SettledFixed(st: FormState, o: FetchOutcome): FormState {
    match Thrown(o)
    case None => st.(result := o.body.data, isFirstRequest := false, loading := false)
    case Some(f) => st.(error := Some(CaughtFixed(f, st.isFirstRequest)), loading := false)
  }

  /** Corrected: a refused connection ("Failed to fetch") gets the backend hint. */
  lemma FixedNetworkFailureHint(st: FormState)
    ensures SettledFixed(st, FetchFailed(Failure("Failed to fetch", None))).error.value.hint == JsString(BackendHint)
  {
    var s := "Failed to fetch";
    assert StartsWith(s[10..], "fetch", false);
  }

  /** The component: its state hooks as fields, `handleSearch` split at the `await`. */
  class Form {
    var query: string
    var loading: bool
    var result: JsValue
    var error: Option<ErrorResponse>
    var isFirstRequest: bool

    function State(): FormState
      reads this
    {
      FormState(query, loading, result, error, isFirstRequest)
    }

    constructor()
      ensures State() == FormState([], false, JsNull, None, true)
    {
      query := [];
      loading := false;
      result := JsNull;
      error := None;
      isFirstRequest := true;
    }

    /** The text box's change handler. */
    method SetQuery(text: string)
      modifies this
      ensures State() == old(State()).(query := text)
    {
      query := text;
    }

    /** `handleSearch` up to the request: returns the body it posts, if any. */
    method StartSearch() returns (request: Option<SearchBody>)
      modifies this
      ensures (State(), request) == Started(old(State()))
    {
      var trimmed := Strip(JavaScript, query);
      if Utf16Length(trimmed) < 3 {
        error := Some(ErrorResponse(JsString(ShortQuery), JsUndefined));
        return None;
      }
      loading := true;
      error := None;
      result := JsNull;
      request := Some(SearchBody(trimmed, 5));
    }

    /** `handleSearch` after the request, given what `fetch` and `response.json()` did. */
    method Settle(o: FetchOutcome)
      modifies this
      ensures State() == Settled(old(State()), o)
    {
      var thrown := Thrown(o);
      if thrown.None? {
        result := o.body.data;
        isFirstRequest := false;
      } else {
        error := Some(Caught(thrown.value, isFirstRequest));
      }
      loading := false;
    }

    /** The button: a click on a disabled button does nothing. */
    method ClickSearch() returns (request: Option<SearchBody>)
      modifies this
      ensures ButtonDisabled(old(State())) ==> State() == old(State()) && request.None?
      ensures !ButtonDisabled(old(State())) ==> (State(), request) == Started(old(State())) && request.Some?
    {
      if loading || TooShort(query) {
        return None;
      }
      request := StartSearch();
    }

    /** A key press in the text box. */
    method KeyPress(key: string) returns (request: Option<SearchBody>)
      modifies this
      ensures EnterSearches(key, old(State())) ==> (State(), request) == Started(old(State()))
      ensures !EnterSearches(key, old(State())) ==> State() == old(State()) && request.None?
    {
      if key == "Enter" && !loading {
        request := StartSearch();
      } else {
        request := None;
      }
    }
  }
}
