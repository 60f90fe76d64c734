/**
 * The tax-search backend: request validation, the search pipeline of
 * `search_tax_code` (vector search, context packing under a character
 * budget, the language-model call, the sources list) with its mapping from
 * failures to HTTP errors, the health projection and the HTTPException
 * handler. The vector search and the language model are remote services;
 * their outcomes are inputs here.
 */
module TaxServer {
  import opened Text

  // ---------------------------------------------------------------- request

  /** A validated `TaxSearchRequest`. */
  datatype SearchRequest = SearchRequest(query: string, limit: int)

  datatype FieldError = QueryTooShort | QueryTooLong | QueryEmpty | LimitTooSmall | LimitTooLarge

  datatype Validated = Accepted(request: SearchRequest) | Rejected(errors: seq<FieldError>)

  const MinQueryLength: nat := 3
  const MaxQueryLength: nat := 500
  const DefaultLimit: int := 5

  /** The error for the `query` field, if any: the length bounds on the raw string first, then the blank check. */
  function QueryError(query: string): Option<FieldError> {
    if |query| < MinQueryLength then Some(QueryTooShort)
    else if |query| > MaxQueryLength then Some(QueryTooLong)
    else if IsBlank(Python, query) then Some(QueryEmpty)
    else None
  }

  function LimitError(limit: int): Option<FieldError> {
    if limit < 1 then Some(LimitTooSmall)
    else if limit > 10 then Some(LimitTooLarge)
    else None
  }

  function Errors(e: Option<FieldError>): seq<FieldError> {
    if e.Some? then [e.value] else []
  }

  /**
   * `TaxSearchRequest`: the query must be 3 to 500 characters long as sent
   * and not blank, and is stored stripped; the limit defaults to 5 and must
   * lie in 1..10. Every failing field is reported.
   */
  function ValidateRequest(query: string, limit: Option<int>): (v: Validated)
    ensures var l := if limit.Some? then limit.value else DefaultLimit;
      v.Accepted? <==> MinQueryLength <= |query| <= MaxQueryLength && !IsBlank(Python, query) && 1 <= l <= 10
    ensures v.Accepted? ==> (v.request.query == Strip(Python, query)
                             && v.request.limit == (if limit.Some? then limit.value else DefaultLimit))
    ensures v.Accepted? ==> 1 <= |v.request.query| <= MaxQueryLength && NoEdgeSpace(Python, v.request.query)
    ensures v.Rejected? ==> 1 <= |v.errors| <= 2
    ensures var l := if limit.Some? then limit.value else DefaultLimit;
      v.Rejected? ==>
        (QueryTooShort in v.errors <==> |query| < MinQueryLength)
        && (QueryTooLong in v.errors <==> |query| > MaxQueryLength)
        && (QueryEmpty in v.errors <==> MinQueryLength <= |query| <= MaxQueryLength && IsBlank(Python, query))
        && (LimitTooSmall in v.errors <==> l < 1)
        && (LimitTooLarge in v.errors <==> l > 10)
  {
    var l := if limit.Some? then limit.value else DefaultLimit;
    var errors := Errors(QueryError(query)) + Errors(LimitError(l));
    if errors == [] then Accepted(SearchRequest(Strip(Python, query), l))
    else Rejected(errors)
  }

  /** The length bound applies before stripping: a padded one-letter query is accepted and stored as one letter. */
  lemma PaddedLetterAccepted()
    ensures ValidateRequest("  a  ", None) == Accepted(SearchRequest("a", 5))
  {
    PaddedLetterStrips("  a  ");
  }

  lemma PaddedLetterStrips(q: string)
    requires q == "  a  "
    ensures !IsBlank(Python, q) && Strip(Python, q) == "a"
  {
    assert !IsPySpace(q[2]);
    assert IsPySpace(q[0]) && IsPySpace(q[1]) && IsPySpace(q[3]) && IsPySpace(q[4]);
    var k := LeadingSpaces(Python, q);
    assert k <= 2;
    assert k == 2 by {
      assert k < |q| ==> !IsSpace(Python, q[k]);
    }
    var r := Strip(Python, q);
    assert r[0] == q[2];
    assert |r| <= 3;
    assert |r| != 2 && |r| != 3 by {
      assert r[|r| - 1] == q[2 + |r| - 1];
    }
  }

  // ---------------------------------------------------------------- context

  /** A vector-search hit; a field the service did not send is `None`. */
  datatype Doc = Doc(article: Option<string>, docType: Option<string>, content: Option<string>)

  function Or(o: Option<string>, default: string): string {
    if o.Some? then o.value else default
  }

  function ArticleOf(d: Doc): string { Or(d.article, "N/A") }
  function TypeOf(d: Doc): string { Or(d.docType, "unknown") }
  function ContentOf(d: Doc): string { Or(d.content, "") }

  /** The context part of one hit: a header line naming article and type, then the content. */
  function Part(d: Doc): string {
    "[Article: " + ArticleOf(d) + ", Type: " + TypeOf(d) + "]\n" + ContentOf(d)
  }

  const MaxContextLength: nat := 2000

  lemma {:induction false} TotalLengthCons(x: string, rest: seq<string>)
    ensures TotalLength([x] + rest) == |x| + TotalLength(rest)
    decreases |rest|
  {
    if rest != [] {
      var init := rest[..|rest| - 1];
      assert ([x] + rest)[..|rest|] == [x] + init;
      TotalLengthCons(x, init);
    } else {
      assert [x][..0] == [];
    }
  }

  /** The parts packed greedily from `docs` when `used` characters are already taken. */
  function Fit(docs: seq<Doc>, used: nat): seq<string>
    decreases |docs|
  {
    if docs == [] then []
    else
      var p := Part(docs[0]);
      if used + |p| > MaxContextLength then []
      else [p] + Fit(docs[1..], used + |p|)
  }

  /**
   * Greedy packing takes a prefix of the parts, keeps within the budget and
   * stops only at a part that would overflow it.
   */
  lemma FitShape(docs: seq<Doc>, used: nat)
    ensures var parts := Fit(docs, used);
      |parts| <= |docs|
      && (forall i :: 0 <= i < |parts| ==> parts[i] == Part(docs[i]))
      && (used <= MaxContextLength ==> used + TotalLength(parts) <= MaxContextLength)
      && (|parts| < |docs| ==> used + TotalLength(parts) + |Part(docs[|parts|])| > MaxContextLength)
  {
    FitPrefix(docs, used);
    if used <= MaxContextLength {
      FitBudget(docs, used);
    }
    FitStopsAtOverflow(docs, used);
  }

  /** The packed parts are the parts of a prefix of the hits. */
  lemma {:induction false} FitPrefix(docs: seq<Doc>, used: nat)
    ensures var parts := Fit(docs, used);
      |parts| <= |docs| && forall i :: 0 <= i < |parts| ==> parts[i] == Part(docs[i])
    decreases |docs|
  {
    if docs != [] && used + |Part(docs[0])| <= MaxContextLength {
      FitPrefix(docs[1..], used + |Part(docs[0])|);
    }
  }

  /** The packed parts stay within the budget. */
  lemma {:induction false} FitBudget(docs: seq<Doc>, used: nat)
    requires used <= MaxContextLength
    ensures used + TotalLength(Fit(docs, used)) <= MaxContextLength
    decreases |docs|
  {
    if docs != [] {
      var p := Part(docs[0]);
      if used + |p| <= MaxContextLength {
        FitBudget(docs[1..], used + |p|);
        TotalLengthCons(p, Fit(docs[1..], used + |p|));
      }
    }
  }

  /** Packing stops only at a part that would overflow the budget. */
  lemma {:induction false} FitStopsAtOverflow(docs: seq<Doc>, used: nat)
    ensures var parts := Fit(docs, used);
      |parts| < |docs| ==> used + TotalLength(parts) + |Part(docs[|parts|])| > MaxContextLength
    decreases |docs|
  {
    if docs != [] {
      var p := Part(docs[0]);
      if used + |p| <= MaxContextLength {
        var rest := Fit(docs[1..], used + |p|);
        FitStopsAtOverflow(docs[1..], used + |p|);
        TotalLengthCons(p, rest);
        assert |rest| < |docs| - 1 ==> docs[1..][|rest|] == docs[|rest| + 1];
      }
    }
  }

  /**
   * The context parts `search_tax_code` builds: the parts of the first hits,
   * in order, as long as their total length stays within 2000 characters;
   * packing stops at the first part that does not fit and never skips ahead.
   */
  function FittingParts(docs: seq<Doc>): (parts: seq<string>)
    ensures |parts| <= |docs|
    ensures forall i :: 0 <= i < |parts| ==> parts[i] == Part(docs[i])
    ensures TotalLength(parts) <= MaxContextLength
    ensures |parts| < |docs| ==> TotalLength(parts) + |Part(docs[|parts|])| > MaxContextLength
    ensures parts == [] <==> docs == [] || |Part(docs[0])| > MaxContextLength
  {
    FitShape(docs, 0);
    Fit(docs, 0)
  }

  /** The loop of `search_tax_code` that fills `context_parts`. */
  method BuildContext(docs: seq<Doc>) returns (parts: seq<string>)
    ensures parts == FittingParts(docs)
  {
    parts := [];
    var currentLength: nat := 0;
    var i := 0;
    assert docs[0..] == docs;
    while i < |docs|
      invariant 0 <= i <= |docs| && currentLength <= MaxContextLength
      invariant Fit(docs, 0) == parts + Fit(docs[i..], currentLength)
      decreases |docs| - i
    {
      var part := Part(docs[i]);
      if currentLength + |part| > MaxContextLength {
        break;
      }
      FitTakes(docs, parts, i, currentLength);
      parts := parts + [part];
      currentLength := currentLength + |part|;
      i := i + 1;
    }
    FitStops(docs, i, currentLength);
    assert parts + [] == parts;
  }

  /** One round of the packing loop: the part at `i` fits and is appended. */
  lemma FitTakes(docs: seq<Doc>, parts: seq<string>, i: nat, used: nat)
    requires i < |docs| && used + |Part(docs[i])| <= MaxContextLength
    ensures parts + Fit(docs[i..], used) == (parts + [Part(docs[i])]) + Fit(docs[i + 1..], used + |Part(docs[i])|)
  {
    assert docs[i..][0] == docs[i];
    assert docs[i..][1..] == docs[i + 1..];
    assert Fit(docs[i..], used) == [Part(docs[i])] + Fit(docs[i + 1..], used + |Part(docs[i])|);
  }

  lemma FitStops(docs: seq<Doc>, i: nat, used: nat)
    requires i <= |docs|
    requires i == |docs| || used + |Part(docs[i])| > MaxContextLength
    ensures Fit(docs[i..], used) == []
  {
    if i < |docs| {
      assert docs[i..][0] == docs[i];
    }
  }

  /**
   * The joined context adds two characters for every separator, so it can
   * exceed the 2000-character budget by 2 for each part after the first.
   */
  lemma ContextLength(docs: seq<Doc>)
    requires FittingParts(docs) != []
    ensures var parts := FittingParts(docs);
      |Join(parts, "\n\n")| == TotalLength(parts) + 2 * (|parts| - 1)
      && |Join(parts, "\n\n")| <= MaxContextLength + 2 * (|parts| - 1)
  {
    JoinLength(FittingParts(docs), "\n\n");
  }

  // ---------------------------------------------------------------- sources

  /** A `TaxSource` without its score. */
  datatype Source = Source(article: string, docType: string, content: string)

  /** `s` cut to its first `n` characters plus "..." when it is longer than `n`. */
  function Truncate(s: string, n: nat): (r: string)
    ensures |s| <= n ==> r == s
    ensures |s| > n ==> |r| == n + 3 && r[..n] == s[..n] && r[n..] == "..."
  {
    if |s| > n then s[..n] + "..." else s
  }

  /** Cutting a cut preview again changes nothing. */
  lemma TruncateIdempotent(s: string, n: nat)
    requires n >= 3
    ensures Truncate(Truncate(s, n), n) == Truncate(s, n)
  {
    if |s| > n {
      var r := Truncate(s, n);
      assert r[..n] == s[..n];
    }
  }

  function SourceOf(d: Doc): Source {
    Source(ArticleOf(d), TypeOf(d), Truncate(ContentOf(d), 200))
  }

  function Min(a: int, b: int): int { if a < b then a else b }

  /** The loop that fills `sources`: the first three hits at most, in order, each content cut at 200 characters. */
  method FormatSources(docs: seq<Doc>) returns (sources: seq<Source>)
    ensures |sources| == Min(3, |docs|)
    ensures forall i :: 0 <= i < |sources| ==> sources[i] == SourceOf(docs[i])
    ensures forall i :: 0 <= i < |sources| ==> |sources[i].content| <= 203
  {
    var top := if |docs| > 3 then docs[..3] else docs;
    sources := [];
    for i := 0 to |top|
      invariant |sources| == i
      invariant forall j :: 0 <= j < i ==> sources[j] == SourceOf(docs[j])
      invariant forall j :: 0 <= j < i ==> |sources[j].content| <= 203
    {
      var r := top[i];
      sources := sources + [Source(ArticleOf(r), TypeOf(r), Truncate(ContentOf(r), 200))];
    }
  }

  // ---------------------------------------------------------------- search

  datatype Value = VStr(s: string) | VInt(n: int)

  /** The `detail` of an HTTPException: a dictionary, or a plain text. */
  datatype Detail = DetailText(text: string) | DetailObject(fields: seq<(string, Value)>)

  datatype SearchResponse = SearchResponse(query: string, answer: string, sources: seq<Source>)

  datatype Reply = Ok(response: SearchResponse) | HttpError(status: int, detail: Detail)

  /** What the vector search did: timed out, answered, or raised some other exception. */
  datatype RagOutcome = RagTimeout | RagResults(docs: seq<Doc>) | RagRaised(errorType: string, message: string)

  /**
   * What the language-model call did: answered with an HTTP status and, for
   * status 200, the content of the first choice if there is one; failed at the
   * connection level; timed out; or raised some other exception.
   */
  datatype LlmOutcome =
    | LlmReplied(status: int, answer: Option<string>)
    | LlmClientError
    | LlmTimeout
    | LlmRaised(errorType: string, message: string)

  function ErrorDetail(error: string, hint: string): Detail {
    DetailObject([("error", VStr(error)), ("hint", VStr(hint))])
  }

  function InternalError(errorType: string, message: string): Detail {
    DetailObject([("error", VStr("Internal server error")), ("type", VStr(errorType)), ("message", VStr(message))])
  }

  const RagUnavailable: Detail := ErrorDetail("Tax RAG service not available", "Modal connection failed. Run: modal token new")
  const RagTimedOut: Detail := ErrorDetail("Request timeout", "Modal services are warming up (cold start). This is normal for the first request. Please try again in 10-15 seconds.")
  const NoContext: Detail := ErrorDetail("Failed to build context", "RAG service returned unexpected format")
  const LlmUnreachable: Detail := ErrorDetail("Failed to connect to LLM service", "Check internet connection and LLM URL")
  const LlmTimedOut: Detail := ErrorDetail("Request timeout", "Services may be cold starting. Wait 10s and retry.")

  function NotFound(query: string): Detail {
    DetailObject([("error", VStr("No relevant tax articles found")), ("query", VStr(query)), ("hint", VStr("Try rephrasing your question"))])
  }

  function LlmFailed(status: int): Detail {
    DetailObject([("error", VStr("LLM service error")), ("status", VInt(status)), ("hint", VStr("Check LLM service URL in .env"))])
  }

  /** The user message sent to the language model. */
  function UserPrompt(query: string, context: string): string {
    "Question: " + query + "\n\nRelevant Tax Code Documents:\n" + context
    + "\n\nBased on the documents above, provide a complete and accurate answer in Tajik language."
  }

  /** The prompt for `query` over the hits `docs`. */
  function PromptFor(query: string, docs: seq<Doc>): string {
    UserPrompt(query, Join(FittingParts(docs), "\n\n"))
  }

  /**
   * What the code after the language-model call makes of its outcome `o`:
   * a non-200 status is passed on with "LLM service error"; a 200 without an
   * answer is a 500 ValueError; a connection error or a timeout is a 504;
   * any other exception is a 500; only a 200 with an answer succeeds, and
   * then the reply holds the query, the answer and the sources of `docs`.
   */
  predicate Answers(query: string, docs: seq<Doc>, o: LlmOutcome, reply: Reply) {
    (o.LlmReplied? && o.status != 200 ==> reply == HttpError(o.status, LlmFailed(o.status)))
    && (o.LlmReplied? && o.status == 200 && o.answer.None? ==> reply == HttpError(500, InternalError("ValueError", "No answer in LLM response")))
    && (o.LlmClientError? ==> reply == HttpError(504, LlmUnreachable))
    && (o.LlmTimeout? ==> reply == HttpError(504, LlmTimedOut))
    && (o.LlmRaised? ==> reply == HttpError(500, InternalError(o.errorType, o.message)))
    && (reply.Ok? <==> o.LlmReplied? && o.status == 200 && o.answer.Some?)
    && (reply.Ok? ==> (reply.response.query == query && reply.response.answer == o.answer.value
                       && |reply.response.sources| == Min(3, |docs|)
                       && forall i :: 0 <= i < |reply.response.sources| ==> reply.response.sources[i] == SourceOf(docs[i])))
  }

  /** Error replies carry a dictionary whose first entry is "error". */
  predicate ErrorShaped(reply: Reply) {
    reply.HttpError? ==> reply.detail.DetailObject? && |reply.detail.fields| >= 2 && reply.detail.fields[0].0 == "error"
  }

  /**
   * The part of `search_tax_code` after the language-model call: its
   * outcome `o` mapped to the reply, with the sources taken from `docs`.
   */
  method Answer(query: string, docs: seq<Doc>, o: LlmOutcome) returns (reply: Reply)
    ensures Answers(query, docs, o, reply)
    ensures ErrorShaped(reply)
  {
    match o
    case LlmClientError =>
      reply := HttpError(504, LlmUnreachable);
    case LlmTimeout =>
      reply := HttpError(504, LlmTimedOut);
    case LlmRaised(t, m) =>
      reply := HttpError(500, InternalError(t, m));
    case LlmReplied(status, answer) =>
      if status != 200 {
        reply := HttpError(status, LlmFailed(status));
      } else if answer.None? {
        reply := HttpError(500, InternalError("ValueError", "No answer in LLM response"));
      } else {
        var sources := FormatSources(docs);
        reply := Ok(SearchResponse(query, answer.value, sources));
      }
  }

  /**
   * `search_tax_code` from the vector-search hits on: 404 when there are
   * none, 500 when not even the first fits the context budget, otherwise the
   * language model is asked with the prompt built from the packed context.
   */
  method SearchDocs(query: string, docs: seq<Doc>, llm: string -> LlmOutcome) returns (reply: Reply)
    ensures docs == [] ==> reply == HttpError(404, NotFound(query))
    ensures docs != [] && FittingParts(docs) == [] ==> reply == HttpError(500, NoContext)
    ensures FittingParts(docs) != [] ==> Answers(query, docs, llm(PromptFor(query, docs)), reply)
    ensures reply.Ok? ==> FittingParts(docs) != []
    ensures ErrorShaped(reply)
  {
    if docs == [] {
      return HttpError(404, NotFound(query));
    }
    var parts := BuildContext(docs);
    if parts == [] {
      return HttpError(500, NoContext);
    }
    var context := Join(parts, "\n\n");
    reply := Answer(query, docs, llm(UserPrompt(query, context)));
  }

  /**
   * `search_tax_code`. `connected` says whether the vector-search class was
   * found at startup, `rag` is what the search did, and `llm` gives what the
   * language model does with a user prompt.
   */
  method Search(connected: bool, request: SearchRequest, rag: RagOutcome, llm: string -> LlmOutcome) returns (reply: Reply)
    ensures !connected ==> reply == HttpError(503, RagUnavailable)
    ensures connected && rag.RagTimeout? ==> reply == HttpError(504, RagTimedOut)
    ensures connected && rag.RagRaised? ==> reply == HttpError(500, InternalError(rag.errorType, rag.message))
    ensures connected && rag.RagResults? && rag.docs == [] ==> reply == HttpError(404, NotFound(request.query))
    ensures connected && rag.RagResults? && rag.docs != [] && FittingParts(rag.docs) == [] ==> reply == HttpError(500, NoContext)
    ensures connected && rag.RagResults? && FittingParts(rag.docs) != [] ==>
      Answers(request.query, rag.docs, llm(PromptFor(request.query, rag.docs)), reply)
    ensures reply.Ok? ==> connected && rag.RagResults? && FittingParts(rag.docs) != []
    ensures ErrorShaped(reply)
  {
    if !connected {
      return HttpError(503, RagUnavailable);
    }
    match rag
    case RagTimeout =>
      reply := HttpError(504, RagTimedOut);
    case RagRaised(t, m) =>
      reply := HttpError(500, InternalError(t, m));
    case RagResults(docs) =>
      reply := SearchDocs(request.query, docs, llm);
  }

  /** `http_exception_handler`: a dictionary detail is the body as it is; any other detail is wrapped under "error". */
  function ErrorBody(detail: Detail): (body: seq<(string, Value)>)
    ensures detail.DetailObject? ==> body == detail.fields
    ensures detail.DetailText? ==> body == [("error", VStr(detail.text))]
  {
    match detail
    case DetailObject(fields) => fields
    case DetailText(text) => [("error", VStr(text))]
  }

  /** Every error the search raises reaches the client as its own dictionary, starting with the "error" entry. */
  lemma SearchErrorBody(reply: Reply)
    requires reply.HttpError? && reply.detail.DetailObject? && |reply.detail.fields| >= 2 && reply.detail.fields[0].0 == "error"
    ensures ErrorBody(reply.detail) == reply.detail.fields && ErrorBody(reply.detail)[0].0 == "error"
  {
  }

  // ---------------------------------------------------------------- health

  /**
   * The language-model URL as configured at startup: the environment value
   * stripped; the server refuses to start (None) when that is empty.
   */
  function ConfiguredUrl(env: Option<string>): (url: Option<string>)
    ensures url.Some? ==> url.value == Strip(Python, Or(env, ""))
    ensures url.Some? ==> url.value != [] && NoEdgeSpace(Python, url.value)
    ensures url.None? <==> IsBlank(Python, Or(env, ""))
  {
    var u := Strip(Python, Or(env, ""));
    if u == [] then None else Some(u)
  }

  datatype Health = Health(status: string, ragConnected: bool, llmConfigured: bool, llmUrl: string, appName: string, className: string)

  /** `health_check`: "ok" exactly when the vector search is connected; the URL shown cut to 50 characters plus "...". */
  function HealthCheck(connected: bool, llmUrl: string, appName: string, className: string): (h: Health)
    ensures h.status == "ok" <==> connected
    ensures !connected ==> h.status == "degraded"
    ensures h.ragConnected == connected && h.llmConfigured == (llmUrl != [])
    ensures |llmUrl| <= 50 ==> h.llmUrl == llmUrl
    ensures |llmUrl| > 50 ==> h.llmUrl == llmUrl[..50] + "..."
    ensures h.appName == appName && h.className == className
  {
    Health(if connected then "ok" else "degraded", connected, llmUrl != [], Truncate(llmUrl, 50), appName, className)
  }

  /** A running server always reports its language model as configured. */
  lemma RunningServerConfigured(env: Option<string>, connected: bool, appName: string, className: string)
    requires ConfiguredUrl(env).Some?
    ensures HealthCheck(connected, ConfiguredUrl(env).value, appName, className).llmConfigured
  {
  }
}
