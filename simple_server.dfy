/**
 * The standalone server's query endpoint: the prompt it sends to the model,
 * the post-processing of the model's reply into an explanation, suggestions
 * and code examples, and the three ways a query is answered (by the model,
 * by a fixed mock answer when no API key is configured, or by an error
 * answer when the call fails).
 */
module SimpleServer {
  import opened Results
  import opened PyStr
  import opened Schema
  import opened Suggestions
  import opened Fences
  import opened Llm

  // ---------------------------------------------------------------- prompts

  const ExplainLiterals := [
    "\nAs a senior software engineer, explain this ",
    " code clearly and concisely:\n\nFile: ",
    "\nCode:\n```",
    "\n",
    "\n```\n\nUser Question: ",
    "\n\nPlease provide:\n1. What the code does\n2. Key concepts used\n3. Any notable features or potential issues\n\nKeep it practical and helpful.\n"]

  const OptimizeLiterals := [
    "\nAs a performance expert, analyze this ",
    " code for optimization:\n\nFile: ",
    "\nCode:\n```",
    "\n",
    "\n```\n\nUser Question: ",
    "\n\nPlease provide specific optimization suggestions with examples.\n"]

  const DebugLiterals := [
    "\nAs a debugging specialist, help find issues in this ",
    " code:\n\nFile: ",
    "\nCode:\n```",
    "\n",
    "\n```\n\nUser Question: ",
    "\n\nPlease identify potential bugs and suggest fixes.\n"]

  const RefactorLiterals := [
    "\nAs a code quality expert, suggest improvements for this ",
    " code:\n\nFile: ",
    "\nCode:\n```",
    "\n",
    "\n```\n\nUser Question: ",
    "\n\nPlease provide refactoring suggestions for better code quality.\n"]

  const ReviewLiterals := [
    "\nAs a code reviewer, provide feedback on this ",
    " code:\n\nFile: ",
    "\nCode:\n```",
    "\n",
    "\n```\n\nUser Question: ",
    "\n\nPlease provide constructive code review feedback.\n"]

  /** The generate template puts the question before the reference code. */
  const GenerateLiterals := [
    "\nAs a code generation assistant, help create ",
    " code:\n\nContext: ",
    "\nRequest: ",
    "\n\nReference code (if provided):\n```",
    "\n",
    "\n```\n\nPlease generate appropriate code with explanations.\n"]

  /** The six prompt templates, keyed by query type value, filled in for one query. */
  function Prompts(queryText: string, ctx: CodeContext): map<string, string> {
    var fields := [ctx.language, ctx.filePath, ctx.language, ctx.selectedCode, queryText];
    map[
      "explain" := Interpolate(ExplainLiterals, fields),
      "optimize" := Interpolate(OptimizeLiterals, fields),
      "debug" := Interpolate(DebugLiterals, fields),
      "refactor" := Interpolate(RefactorLiterals, fields),
      "review" := Interpolate(ReviewLiterals, fields),
      "generate" := Interpolate(GenerateLiterals,
                                [ctx.language, ctx.filePath, queryText, ctx.language, ctx.selectedCode])]
  }

  /** `build_prompt`: the template of the query type, or the explain template for any other string. */
  function BuildPrompt(queryType: string, queryText: string, ctx: CodeContext): (p: string)
    ensures p in Prompts(queryText, ctx).Values
    ensures queryType in QueryTypeValues ==> p == Prompts(queryText, ctx)[queryType]
    ensures queryType !in QueryTypeValues ==> p == Prompts(queryText, ctx)["explain"]
  {
    var prompts := Prompts(queryText, ctx);
    if queryType in prompts then prompts[queryType] else prompts["explain"]
  }

  /** Every query type value has its own template; no other string has one. */
  lemma PromptKeys(queryText: string, ctx: CodeContext)
    ensures Prompts(queryText, ctx).Keys == QueryTypeValues
  {
  }

  /** Whatever the query type, the prompt carries the language, the file path, the selected code and the question. */
  lemma PromptCarriesContext(queryType: string, queryText: string, ctx: CodeContext)
    ensures var p := BuildPrompt(queryType, queryText, ctx);
      Contains(p, ctx.language) && Contains(p, ctx.filePath) && Contains(p, ctx.selectedCode) && Contains(p, queryText)
  {
    var fields := [ctx.language, ctx.filePath, ctx.language, ctx.selectedCode, queryText];
    var generate := [ctx.language, ctx.filePath, queryText, ctx.language, ctx.selectedCode];
    var p := BuildPrompt(queryType, queryText, ctx);
    if queryType == "generate" {
      assert p == Interpolate(GenerateLiterals, generate);
      InterpolateContains(GenerateLiterals, generate, 0);
      InterpolateContains(GenerateLiterals, generate, 1);
      InterpolateContains(GenerateLiterals, generate, 2);
      InterpolateContains(GenerateLiterals, generate, 4);
    } else {
      var literals :=
        if queryType == "optimize" then OptimizeLiterals
        else if queryType == "debug" then DebugLiterals
        else if queryType == "refactor" then RefactorLiterals
        else if queryType == "review" then ReviewLiterals
        else ExplainLiterals;
      assert p == Interpolate(literals, fields);
      InterpolateContains(literals, fields, 0);
      InterpolateContains(literals, fields, 1);
      InterpolateContains(literals, fields, 3);
      InterpolateContains(literals, fields, 4);
    }
  }

  /** A string that is not a query type value gets the explain prompt. */
  lemma UnknownTypeGetsExplainPrompt(queryType: string, queryText: string, ctx: CodeContext)
    requires queryType !in QueryTypeValues
    ensures BuildPrompt(queryType, queryText, ctx) == BuildPrompt("explain", queryText, ctx)
  {
  }

  /** The first literal of the template of a query type. */
  function Opening(t: QueryType): string {
    match t
    case Explain => ExplainLiterals[0]
    case Optimize => OptimizeLiterals[0]
    case Debug => DebugLiterals[0]
    case Refactor => RefactorLiterals[0]
    case Review => ReviewLiterals[0]
    case Generate => GenerateLiterals[0]
  }

  /** The prompt of a query type starts with the opening of its own template. */
  lemma PromptOpening(t: QueryType, queryText: string, ctx: CodeContext)
    ensures StartsWith(BuildPrompt(Value(t), queryText, ctx), Opening(t))
  {
    var fields := [ctx.language, ctx.filePath, ctx.language, ctx.selectedCode, queryText];
    var generate := [ctx.language, ctx.filePath, queryText, ctx.language, ctx.selectedCode];
    match t
    case Explain => InterpolateStartsWith(ExplainLiterals, fields);
    case Optimize => InterpolateStartsWith(OptimizeLiterals, fields);
    case Debug => InterpolateStartsWith(DebugLiterals, fields);
    case Refactor => InterpolateStartsWith(RefactorLiterals, fields);
    case Review => InterpolateStartsWith(ReviewLiterals, fields);
    case Generate => InterpolateStartsWith(GenerateLiterals, generate);
  }

  // ------------------------------------------------------- post-processing

  /** `extract_suggestions`: the first four list items longer than ten characters. */
  method ExtractSuggestions(response: string) returns (suggestions: seq<CodeSuggestion>)
    ensures suggestions == Take(Candidates(SimpleServerDialect, Split(response)), 4)
  {
    var d := SimpleServerDialect;
    var lines := Split(response);
    var found: seq<CodeSuggestion> := [];
    for i := 0 to |lines|
      invariant found == Candidates(d, lines[..i])
    {
      CandidatesExtend(d, lines, i);
      var line := Strip(lines[i]);
      if line != [] && StartsWithAny(line, d.markers) {
        var cleanLine := Strip(LStrip(line, d.stripChars));
        if |cleanLine| > 10 {
          var title := if |cleanLine| > 60 then cleanLine[..60] + "..." else cleanLine;
          found := found + [CodeSuggestion(title, cleanLine, None, 0.85)];
        }
      }
    }
    assert lines[..|lines|] == lines;
    suggestions := Take(found, 4);
  }

  /** `extract_code_examples`: the first two fenced code blocks. */
  method ExtractCodeExamples(response: string) returns (examples: seq<string>)
    ensures examples == Take(CodeBlocks(Split(response)), 2)
  {
    var all := ScanCodeBlocks(Split(response));
    examples := Take(all, 2);
  }

  /** Every suggestion the server returns is a valid record, and there are at most four. */
  lemma ExtractedSuggestionsValid(response: string)
    ensures var s := Take(Candidates(SimpleServerDialect, Split(response)), 4);
      |s| <= 4 && forall k :: 0 <= k < |s| ==> ValidSuggestion(s[k]) && s[k].confidence == 0.85
  {
  }

  // ------------------------------------------------------------ answering

  /** The literal parts of the mock answer given when no API key is configured. */
  const MockLiterals := [
    "\nThis ",
    " code in ",
    " appears to implement the following functionality:\n\n",
    "\n\nThe selected code shows a ",
    " scenario that could benefit from:\n1. Adding proper error handling\n2. Improving code documentation\n3. Following best practices for ",
    "\n\nThis is a mock response since Gemini API is not configured.\n"]

  /** The mock answer's explanation for a request. */
  function MockExplanation(request: QueryRequest): (r: string)
    ensures |MockLiterals[5]| <= |r| && r[|r| - |MockLiterals[5]|..] == MockLiterals[5]
  {
    var ctx := request.codeContext;
    var values := [ctx.language, ctx.filePath, request.queryText, Value(request.queryType), ctx.language];
    var head := Interpolate(MockLiterals[..5], values[..4]);
    assert Interpolate(MockLiterals, values) == head + values[4] + MockLiterals[5];
    Interpolate(MockLiterals, values)
  }

  /** The two fixed suggestions of the mock answer. */
  const MockSuggestions := [
    CodeSuggestion("Add error handling", "Consider adding try-catch blocks for robust error handling", None, 0.8),
    CodeSuggestion("Improve documentation", "Add comments and docstrings to explain the code functionality", None, 0.9)]

  /** The mock explanation echoes the question, the query type and the file. */
  lemma MockEchoesRequest(request: QueryRequest)
    ensures Contains(MockExplanation(request), request.queryText)
    ensures Contains(MockExplanation(request), Value(request.queryType))
    ensures Contains(MockExplanation(request), request.codeContext.filePath)
  {
    var ctx := request.codeContext;
    var values := [ctx.language, ctx.filePath, request.queryText, Value(request.queryType), ctx.language];
    InterpolateContains(MockLiterals, values, 1);
    InterpolateContains(MockLiterals, values, 2);
    InterpolateContains(MockLiterals, values, 3);
  }

  /** The confidence of a live answer: higher for a reply longer than 200 characters. */
  function LiveConfidence(explanation: string): (c: real)
    ensures c == 0.9 <==> |explanation| > 200
    ensures c == 0.7 <==> |explanation| <= 200
  {
    if |explanation| > 200 then 0.9 else 0.7
  }

  /** The answer given when processing raised `message`. */
  function ErrorAnswer(queryId: string, queryType: QueryType, message: string, elapsedMs: int): (r: QueryResponse)
    ensures ValidResponse(r) && r.suggestions == [] && r.codeExamples == [] && r.confidence == 0.0
    ensures StartsWith(r.explanation, "Error processing request: ")
    ensures r.explanation == "Error processing request: " + message
    ensures r.queryId == queryId && r.queryType == queryType && r.processingTimeMs == elapsedMs
  {
    QueryResponse(queryId, queryType, "Error processing request: " + message, confidence := 0.0,
                  processingTimeMs := elapsedMs)
  }

  /**
   * `query_code`. `model` is the configured client (`None` without an API key);
   * the query id and the elapsed time are given, as they come from `uuid4` and the clock.
   */
  method QueryCode(request: QueryRequest, model: Option<string -> Reply>, queryId: string, elapsedMs: int)
    returns (r: QueryResponse)
    ensures r.queryId == queryId && r.queryType == request.queryType && r.processingTimeMs == elapsedMs
    ensures ValidResponse(r)
    ensures model.None? ==>
      && r.explanation == MockExplanation(request)
      && r.suggestions == MockSuggestions
      && r.codeExamples == ["# Example " + request.codeContext.language + " improvement"]
      && r.confidence == 0.75
    ensures model.Some? ==>
      match model.value(BuildPrompt(Value(request.queryType), request.queryText, request.codeContext))
      case Text(text) =>
        && r.explanation == Strip(text)
        && r.suggestions == Take(Candidates(SimpleServerDialect, Split(Strip(text))), 4)
        && r.codeExamples == Take(CodeBlocks(Split(Strip(text))), 2)
        && r.confidence == LiveConfidence(Strip(text))
      case NoText => r == ErrorAnswer(queryId, request.queryType, NoneStripMessage, elapsedMs)
      case Raised(message) => r == ErrorAnswer(queryId, request.queryType, message, elapsedMs)
  {
    if model.Some? {
      var prompt := BuildPrompt(Value(request.queryType), request.queryText, request.codeContext);
      var reply := model.value(prompt);
      match reply
      case Text(text) =>
        var aiResponse := Strip(text);
        var suggestions := ExtractSuggestions(aiResponse);
        ExtractedSuggestionsValid(aiResponse);
        var codeExamples := ExtractCodeExamples(aiResponse);
        var confidence := if |aiResponse| > 200 then 0.9 else 0.7;
        r := QueryResponse(queryId, request.queryType, aiResponse, suggestions, codeExamples, confidence, elapsedMs);
      case NoText =>
        r := ErrorAnswer(queryId, request.queryType, NoneStripMessage, elapsedMs);
      case Raised(message) =>
        r := ErrorAnswer(queryId, request.queryType, message, elapsedMs);
    } else {
      var codeExamples := ["# Example " + request.codeContext.language + " improvement"];
      r := QueryResponse(queryId, request.queryType, MockExplanation(request), MockSuggestions, codeExamples, 0.75, elapsedMs);
    }
  }
}
