/** Optional values and results with an error, for absent fields and rejected inputs. */
module Results {

  datatype Option<+T> = None | Some(value: T)

  datatype Result<+T, +E> = Success(value: T) | Failure(error: E) {
    predicate IsFailure() {
      Failure?
    }

    function PropagateFailure<U>(): Result<U, E>
      requires Failure?
    {
      Failure(error)
    }

    function Extract(): T
      requires Success?
    {
      value
    }
  }
}

/**
 * The request and response records of the Code Whisperer API and the checks
 * their validation applies: required fields, optional fields, defaults, the
 * six query types and the [0, 1] range of every confidence.
 *
 * Records that arrive as request bodies (`QueryRequest`, `IngestRequest`) are
 * decoded from a JSON object; response records are built from values by a
 * constructor function that applies the same range checks.
 */
module Schema {
  import opened Results

  /** A JSON value as it reaches the service before validation. */
  datatype Json =
    | JNull
    | JBool(b: bool)
    | JInt(i: int)
    | JNum(r: real)
    | JStr(s: string)
    | JArr(items: seq<Json>)
    | JObj(fields: map<string, Json>)

  /** Why validation rejected an input; each names the offending field. */
  datatype ValidationError =
    | Missing(field: string)
    | WrongType(field: string)
    | NotAQueryType(field: string)
    | OutOfRange(field: string)

  /** The kinds of query the assistant answers. */
  datatype QueryType = Explain | Optimize | Debug | Refactor | Generate | Review

  /** The string value each query type has on the wire. */
  function Value(t: QueryType): string {
    match t
    case Explain => "explain"
    case Optimize => "optimize"
    case Debug => "debug"
    case Refactor => "refactor"
    case Generate => "generate"
    case Review => "review"
  }

  const QueryTypeValues: set<string> := {"explain", "optimize", "debug", "refactor", "generate", "review"}

  /** Look a wire string up among the query types; anything else is not a query type. */
  function ParseQueryType(s: string): (r: Option<QueryType>)
    ensures r.Some? <==> s in QueryTypeValues
    ensures r.Some? ==> Value(r.value) == s
  {
    if s == "explain" then Some(Explain)
    else if s == "optimize" then Some(Optimize)
    else if s == "debug" then Some(Debug)
    else if s == "refactor" then Some(Refactor)
    else if s == "generate" then Some(Generate)
    else if s == "review" then Some(Review)
    else None
  }

  /** Every query type survives the trip to its wire value and back, and there are exactly six. */
  lemma QueryTypeRoundTrip(t: QueryType)
    ensures ParseQueryType(Value(t)) == Some(t)
    ensures Value(t) in QueryTypeValues && |QueryTypeValues| == 6
  {
    assert QueryTypeValues == {"explain"} + {"optimize"} + {"debug"} + {"refactor"} + {"generate"} + {"review"};
  }

  /** Which code a query is about. */
  datatype CodeContext = CodeContext(
    filePath: string,
    language: string,
    selectedCode: string,
    fullFileContent: Option<string> := None,
    cursorPosition: Option<map<string, int>> := None)

  /** A code analysis query. */
  datatype QueryRequest = QueryRequest(
    queryType: QueryType,
    queryText: string,
    codeContext: CodeContext,
    includeExamples: bool := true,
    maxResponseLength: int := 1000)

  /** One suggestion in an answer. */
  datatype CodeSuggestion = CodeSuggestion(
    title: string,
    description: string,
    codeSnippet: Option<string> := None,
    confidence: real)

  /** The answer to a query. */
  datatype QueryResponse = QueryResponse(
    queryId: string,
    queryType: QueryType,
    explanation: string,
    suggestions: seq<CodeSuggestion> := [],
    codeExamples: seq<string> := [],
    confidence: real,
    processingTimeMs: int)

  /** A file to add to the knowledge base. */
  datatype IngestRequest = IngestRequest(
    filePath: string,
    content: string,
    language: string,
    projectId: Option<string> := None,
    metadata: map<string, Json> := map[])

  /** The outcome of an ingestion. */
  datatype IngestResponse = IngestResponse(
    ingestId: string,
    status: string,
    chunksCreated: int,
    embeddingsGenerated: int,
    processingTimeMs: int,
    message: string)

  /** The answer to a health probe. */
  datatype HealthResponse = HealthResponse(
    status: string,
    service: string,
    version: string,
    timestamp: Option<string> := None,
    dependencies: map<string, string> := map[])

  /** The body of every error reply. */
  datatype ErrorResponse = ErrorResponse(
    error: string,
    message: string,
    details: Option<map<string, Json>> := None,
    requestId: Option<string> := None)

  /** Service-wide counters. */
  datatype StatusResponse = StatusResponse(
    serviceStatus: string,
    apiVersion: string,
    activeConnections: int,
    totalQueries: int,
    totalIngestions: int,
    knowledgeBaseSize: int,
    lastUpdated: Option<string> := None)

  /** The range every confidence field is constrained to. */
  predicate InUnitRange(c: real) {
    0.0 <= c <= 1.0
  }

  /** What validation guarantees of a suggestion that exists. */
  predicate ValidSuggestion(s: CodeSuggestion) {
    InUnitRange(s.confidence)
  }

  /** What validation guarantees of a response that exists: its own and each suggestion's confidence are in range. */
  predicate ValidResponse(r: QueryResponse) {
    InUnitRange(r.confidence) && forall k :: 0 <= k < |r.suggestions| ==> ValidSuggestion(r.suggestions[k])
  }

  /** Building a suggestion: rejected exactly when its confidence is outside [0, 1]. */
  function NewCodeSuggestion(title: string, description: string, confidence: real, codeSnippet: Option<string> := None)
    : (r: Result<CodeSuggestion, ValidationError>)
    ensures r.Success? <==> 0.0 <= confidence <= 1.0
    ensures r.Failure? ==> r.error == OutOfRange("confidence")
    ensures r.Success? ==> ValidSuggestion(r.value) && r.value.confidence == confidence
    ensures r.Success? ==> r.value.title == title && r.value.description == description && r.value.codeSnippet == codeSnippet
  {
    if 0.0 <= confidence <= 1.0 then Success(CodeSuggestion(title, description, codeSnippet, confidence))
    else Failure(OutOfRange("confidence"))
  }

  /**
   * Building a response: rejected exactly when its confidence is outside [0, 1];
   * the suggestion and example lists default to empty, never to an absent value.
   */
  function NewQueryResponse(
    queryId: string, queryType: QueryType, explanation: string, confidence: real, processingTimeMs: int,
    suggestions: seq<CodeSuggestion> := [], codeExamples: seq<string> := [])
    : (r: Result<QueryResponse, ValidationError>)
    ensures r.Success? <==> 0.0 <= confidence <= 1.0
    ensures r.Failure? ==> r.error == OutOfRange("confidence")
    ensures r.Success? ==> r.value.queryType == queryType && r.value.explanation == explanation
    ensures r.Success? ==> r.value.suggestions == suggestions && r.value.codeExamples == codeExamples
    ensures r.Success? ==> r.value.confidence == confidence && r.value.queryId == queryId
    ensures r.Success? ==> r.value.processingTimeMs == processingTimeMs
    ensures r.Success? && (forall k :: 0 <= k < |suggestions| ==> ValidSuggestion(suggestions[k])) ==> ValidResponse(r.value)
  {
    if 0.0 <= confidence <= 1.0 then
      Success(QueryResponse(queryId, queryType, explanation, suggestions, codeExamples, confidence, processingTimeMs))
    else Failure(OutOfRange("confidence"))
  }

  /** A response built without lists holds empty lists. */
  lemma ResponseListsDefaultToEmpty(queryId: string, queryType: QueryType, explanation: string, confidence: real, ms: int)
    requires 0.0 <= confidence <= 1.0
    ensures NewQueryResponse(queryId, queryType, explanation, confidence, ms).Success?
    ensures NewQueryResponse(queryId, queryType, explanation, confidence, ms).value.suggestions == []
    ensures NewQueryResponse(queryId, queryType, explanation, confidence, ms).value.codeExamples == []
    ensures ValidResponse(NewQueryResponse(queryId, queryType, explanation, confidence, ms).value)
  {
  }

  // ---------------------------------------------------------------------------
  // Decoding request bodies

  /** A field that must be present and hold a string. */
  function RequiredStr(o: map<string, Json>, key: string): (r: Result<string, ValidationError>)
    ensures r.Success? <==> key in o && o[key].JStr?
    ensures r.Success? ==> o[key] == JStr(r.value)
    ensures key !in o ==> r == Failure(Missing(key))
  {
    if key !in o then Failure(Missing(key))
    else if o[key].JStr? then Success(o[key].s)
    else Failure(WrongType(key))
  }

  /** A field that may be absent or null (read as absent) or hold a string. */
  function OptionalStr(o: map<string, Json>, key: string): (r: Result<Option<string>, ValidationError>)
    ensures r.Success? <==> key !in o || o[key].JNull? || o[key].JStr?
    ensures r.Success? && r.value.None? <==> key !in o || o[key].JNull?
    ensures r.Success? && r.value.Some? ==> o[key] == JStr(r.value.value)
  {
    if key !in o || o[key].JNull? then Success(None)
    else if o[key].JStr? then Success(Some(o[key].s))
    else Failure(WrongType(key))
  }

  predicate AllInts(fields: map<string, Json>) {
    forall k :: k in fields ==> fields[k].JInt?
  }

  /** A field that is present and holds a string. */
  predicate HasStr(o: map<string, Json>, key: string) {
    key in o && o[key].JStr?
  }

  /** A field that an optional string accepts: absent, null or a string. */
  predicate NullableStr(o: map<string, Json>, key: string) {
    key !in o || o[key].JNull? || o[key].JStr?
  }

  /** A field that an optional map of integers accepts: absent, null or an object of integers. */
  predicate NullableIntMap(o: map<string, Json>, key: string) {
    key !in o || o[key].JNull? || (o[key].JObj? && AllInts(o[key].fields))
  }

  /** `m` holds exactly the integers of the JSON object `fields`. */
  predicate IntsOf(m: map<string, int>, fields: map<string, Json>) {
    m.Keys == fields.Keys && forall k :: k in m ==> fields[k] == JInt(m[k])
  }

  /** A field that may be absent or null or hold an object of integers. */
  function OptionalIntMap(o: map<string, Json>, key: string): (r: Result<Option<map<string, int>>, ValidationError>)
    ensures r.Success? <==> NullableIntMap(o, key)
    ensures r.Success? && r.value.None? <==> key !in o || o[key].JNull?
    ensures r.Success? && r.value.Some? ==> o[key].JObj? && IntsOf(r.value.value, o[key].fields)
  {
    if key !in o || o[key].JNull? then Success(None)
    else if o[key].JObj? && AllInts(o[key].fields) then
      var f := o[key].fields;
      Success(Some(map k | k in f :: f[k].i))
    else Failure(WrongType(key))
  }

  /** A boolean field with a default: absent gives the default, null is rejected. */
  function BoolOr(o: map<string, Json>, key: string, default: bool): (r: Result<bool, ValidationError>)
    ensures key !in o ==> r == Success(default)
    ensures key in o ==> (r.Success? <==> o[key].JBool?)
    ensures key in o && r.Success? ==> o[key] == JBool(r.value)
  {
    if key !in o then Success(default)
    else if o[key].JBool? then Success(o[key].b)
    else Failure(WrongType(key))
  }

  /** An integer field with a default: absent gives the default, null is rejected. */
  function IntOr(o: map<string, Json>, key: string, default: int): (r: Result<int, ValidationError>)
    ensures key !in o ==> r == Success(default)
    ensures key in o ==> (r.Success? <==> o[key].JInt?)
    ensures key in o && r.Success? ==> o[key] == JInt(r.value)
  {
    if key !in o then Success(default)
    else if o[key].JInt? then Success(o[key].i)
    else Failure(WrongType(key))
  }

  /** A JSON-object field with a default: absent gives the default, null is rejected. */
  function ObjectOr(o: map<string, Json>, key: string, default: map<string, Json>): (r: Result<map<string, Json>, ValidationError>)
    ensures key !in o ==> r == Success(default)
    ensures key in o ==> (r.Success? <==> o[key].JObj?)
    ensures key in o && r.Success? ==> o[key] == JObj(r.value)
  {
    if key !in o then Success(default)
    else if o[key].JObj? then Success(o[key].fields)
    else Failure(WrongType(key))
  }

  /** A code context: `file_path`, `language` and `selected_code` required, the rest optional. */
  function DecodeCodeContext(j: Json): (r: Result<CodeContext, ValidationError>)
    ensures !j.JObj? ==> r.Failure?
    ensures j.JObj? && !("file_path" in j.fields && "language" in j.fields && "selected_code" in j.fields) ==> r.Failure?
    ensures r.Success? ==> (j.JObj? && j.fields["file_path"] == JStr(r.value.filePath)
      && j.fields["language"] == JStr(r.value.language) && j.fields["selected_code"] == JStr(r.value.selectedCode))
    ensures r.Success? ==> (r.value.fullFileContent.None? <==> "full_file_content" !in j.fields || j.fields["full_file_content"].JNull?)
    ensures r.Success? ==> (r.value.cursorPosition.None? <==> "cursor_position" !in j.fields || j.fields["cursor_position"].JNull?)
    ensures r.Success? && r.value.fullFileContent.Some? ==>
      j.fields["full_file_content"] == JStr(r.value.fullFileContent.value)
    ensures r.Success? && r.value.cursorPosition.Some? ==>
      j.fields["cursor_position"].JObj? && IntsOf(r.value.cursorPosition.value, j.fields["cursor_position"].fields)
    ensures (j.JObj? && HasStr(j.fields, "file_path") && HasStr(j.fields, "language") && HasStr(j.fields, "selected_code")
             && NullableStr(j.fields, "full_file_content") && NullableIntMap(j.fields, "cursor_position"))
      ==> r.Success?
  {
    if !j.JObj? then Failure(WrongType("code_context"))
    else
      var o := j.fields;
      var filePath :- RequiredStr(o, "file_path");
      var language :- RequiredStr(o, "language");
      var selectedCode :- RequiredStr(o, "selected_code");
      var fullFileContent :- OptionalStr(o, "full_file_content");
      var cursorPosition :- OptionalIntMap(o, "cursor_position");
      Success(CodeContext(filePath, language, selectedCode, fullFileContent, cursorPosition))
  }

  /**
   * A query: `query_type` (one of the six values), `query_text` and `code_context`
   * required; `include_examples` defaults to true and `max_response_length` to 1000.
   */
  function DecodeQueryRequest(j: Json): (r: Result<QueryRequest, ValidationError>)
    ensures !j.JObj? ==> r.Failure?
    ensures j.JObj? && !("query_type" in j.fields && "query_text" in j.fields && "code_context" in j.fields) ==> r.Failure?
    ensures r.Success? ==> (j.JObj? && j.fields["query_type"] == JStr(Value(r.value.queryType))
      && j.fields["query_text"] == JStr(r.value.queryText)
      && DecodeCodeContext(j.fields["code_context"]) == Success(r.value.codeContext))
    ensures r.Success? && "include_examples" !in j.fields ==> r.value.includeExamples
    ensures r.Success? && "max_response_length" !in j.fields ==> r.value.maxResponseLength == 1000
    ensures r.Success? && "include_examples" in j.fields ==> j.fields["include_examples"] == JBool(r.value.includeExamples)
    ensures r.Success? && "max_response_length" in j.fields ==> j.fields["max_response_length"] == JInt(r.value.maxResponseLength)
    ensures (j.JObj? && HasStr(j.fields, "query_type") && j.fields["query_type"].s in QueryTypeValues
             && HasStr(j.fields, "query_text")
             && "code_context" in j.fields && DecodeCodeContext(j.fields["code_context"]).Success?
             && ("include_examples" !in j.fields || j.fields["include_examples"].JBool?)
             && ("max_response_length" !in j.fields || j.fields["max_response_length"].JInt?))
      ==> r.Success?
    ensures j.JObj? && "query_type" in j.fields && !(j.fields["query_type"].JStr? && j.fields["query_type"].s in QueryTypeValues)
      ==> r == Failure(NotAQueryType("query_type"))
  {
    if !j.JObj? then Failure(WrongType("body"))
    else
      var o := j.fields;
      if "query_type" !in o then Failure(Missing("query_type"))
      else if !(o["query_type"].JStr? && ParseQueryType(o["query_type"].s).Some?) then Failure(NotAQueryType("query_type"))
      else
        var queryType := ParseQueryType(o["query_type"].s).value;
        var queryText :- RequiredStr(o, "query_text");
        var codeContext :- if "code_context" in o then DecodeCodeContext(o["code_context"]) else Failure(Missing("code_context"));
        var includeExamples :- BoolOr(o, "include_examples", true);
        var maxResponseLength :- IntOr(o, "max_response_length", 1000);
        Success(QueryRequest(queryType, queryText, codeContext, includeExamples, maxResponseLength))
  }

  /**
   * An ingestion request: `file_path`, `content` and `language` required;
   * `project_id` optional and `metadata` defaulting to an empty object.
   */
  function DecodeIngestRequest(j: Json): (r: Result<IngestRequest, ValidationError>)
    ensures !j.JObj? ==> r.Failure?
    ensures j.JObj? && !("file_path" in j.fields && "content" in j.fields && "language" in j.fields) ==> r.Failure?
    ensures r.Success? ==> (j.JObj? && j.fields["file_path"] == JStr(r.value.filePath)
      && j.fields["content"] == JStr(r.value.content) && j.fields["language"] == JStr(r.value.language))
    ensures r.Success? ==> (r.value.projectId.None? <==> "project_id" !in j.fields || j.fields["project_id"].JNull?)
    ensures r.Success? && "metadata" !in j.fields ==> r.value.metadata == map[]
    ensures r.Success? && r.value.projectId.Some? ==> j.fields["project_id"] == JStr(r.value.projectId.value)
    ensures r.Success? && "metadata" in j.fields ==> j.fields["metadata"] == JObj(r.value.metadata)
    ensures (j.JObj? && HasStr(j.fields, "file_path") && HasStr(j.fields, "content") && HasStr(j.fields, "language")
             && NullableStr(j.fields, "project_id") && ("metadata" !in j.fields || j.fields["metadata"].JObj?))
      ==> r.Success?
  {
    if !j.JObj? then Failure(WrongType("body"))
    else
      var o := j.fields;
      var filePath :- RequiredStr(o, "file_path");
      var content :- RequiredStr(o, "content");
      var language :- RequiredStr(o, "language");
      var projectId :- OptionalStr(o, "project_id");
      var metadata :- ObjectOr(o, "metadata", map[]);
      Success(IngestRequest(filePath, content, language, projectId, metadata))
  }

  // ---------------------------------------------------------------------------
  // Encoding, the partner of decoding: every field is written, absent ones as null.

  function OptStrJson(v: Option<string>): Json {
    match v
    case None => JNull
    case Some(s) => JStr(s)
  }

  function EncodeCodeContext(c: CodeContext): Json {
    JObj(map[
      "file_path" := JStr(c.filePath),
      "language" := JStr(c.language),
      "selected_code" := JStr(c.selectedCode),
      "full_file_content" := OptStrJson(c.fullFileContent),
      "cursor_position" := match c.cursorPosition
        case None => JNull
        case Some(m) => JObj(map k | k in m :: JInt(m[k]))])
  }

  function EncodeQueryRequest(q: QueryRequest): Json {
    JObj(map[
      "query_type" := JStr(Value(q.queryType)),
      "query_text" := JStr(q.queryText),
      "code_context" := EncodeCodeContext(q.codeContext),
      "include_examples" := JBool(q.includeExamples),
      "max_response_length" := JInt(q.maxResponseLength)])
  }

  function EncodeIngestRequest(q: IngestRequest): Json {
    JObj(map[
      "file_path" := JStr(q.filePath),
      "content" := JStr(q.content),
      "language" := JStr(q.language),
      "project_id" := OptStrJson(q.projectId),
      "metadata" := JObj(q.metadata)])
  }

  lemma CodeContextRoundTrip(c: CodeContext)
    ensures DecodeCodeContext(EncodeCodeContext(c)) == Success(c)
  {
    var o := EncodeCodeContext(c).fields;
    match c.cursorPosition {
      case None =>
      case Some(m) =>
        var f := o["cursor_position"].fields;
        assert AllInts(f);
        assert (map k | k in f :: f[k].i) == m;
    }
  }

  /** A query request survives encoding and decoding unchanged; in particular its query type does. */
  lemma QueryRequestRoundTrip(q: QueryRequest)
    ensures DecodeQueryRequest(EncodeQueryRequest(q)) == Success(q)
  {
    CodeContextRoundTrip(q.codeContext);
    QueryTypeRoundTrip(q.queryType);
  }

  /** A code context sent with only its required fields gets no full content and no cursor position. */
  lemma CodeContextOptionalFieldsMayBeOmitted(filePath: string, language: string, selectedCode: string)
    ensures DecodeCodeContext(JObj(map["file_path" := JStr(filePath), "language" := JStr(language),
                                       "selected_code" := JStr(selectedCode)]))
         == Success(CodeContext(filePath, language, selectedCode, None, None))
  {
  }

  /** A query sent with only its required fields includes examples and allows 1000 characters. */
  lemma QueryRequestDefaultsFillOmittedFields(queryType: QueryType, queryText: string, ctx: CodeContext)
    ensures DecodeQueryRequest(JObj(map["query_type" := JStr(Value(queryType)), "query_text" := JStr(queryText),
                                        "code_context" := EncodeCodeContext(ctx)]))
         == Success(QueryRequest(queryType, queryText, ctx, true, 1000))
  {
    CodeContextRoundTrip(ctx);
    QueryTypeRoundTrip(queryType);
  }

  /** An ingestion request sent with only its required fields has no project and empty metadata. */
  lemma IngestRequestDefaultsFillOmittedFields(filePath: string, content: string, language: string)
    ensures DecodeIngestRequest(JObj(map["file_path" := JStr(filePath), "content" := JStr(content),
                                         "language" := JStr(language)]))
         == Success(IngestRequest(filePath, content, language, None, map[]))
  {
  }

  lemma IngestRequestRoundTrip(q: IngestRequest)
    ensures DecodeIngestRequest(EncodeIngestRequest(q)) == Success(q)
  {
  }
}
