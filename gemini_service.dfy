/**
 * The Gemini service of the backend: the prompt it builds from a query and a
 * loosely typed code context, the structured analysis it makes of the model's
 * reply (explanation, suggestions, code examples and a confidence score), the
 * error record it returns when the call fails, and its health check.
 */
module GeminiService {
  import opened Results
  import opened PyStr
  import opened Schema
  import opened Suggestions
  import opened Fences
  import opened Llm

  /** The model every request goes to. */
  const ModelName := "gemini-1.5-flash"

  /** The code context as the service receives it: a dictionary keyed by field name. */
  type Context = map<string, string>

  /** `ctx.get(key, default)` */
  function Get(ctx: Context, key: string, default: string): (v: string)
    ensures key in ctx ==> v == ctx[key]
    ensures key !in ctx ==> v == default
  {
    if key in ctx then ctx[key] else default
  }

  // ---------------------------------------------------------------- prompts

  const ExplainLiterals := [
    "\nAs a senior software engineer, please explain this ",
    " code:\n\nFile: ",
    "\nCode:\n```",
    "\n",
    "\n```\n\nQuestion: ",
    "\n\nPlease provide:\n1. A clear explanation of what the code does\n2. Key concepts and patterns used\n3. Any notable features or potential issues\n\nKeep the explanation concise but thorough.\n"]

  const OptimizeLiterals := [
    "\nAs a performance expert, analyze this ",
    " code for optimization opportunities:\n\nFile: ",
    "\nCode:\n```",
    "\n",
    "\n```\n\nQuestion: ",
    "\n\nPlease provide:\n1. Performance analysis\n2. Specific optimization suggestions\n3. Improved code examples where applicable\n4. Trade-offs to consider\n\nFocus on practical improvements.\n"]

  const DebugLiterals := [
    "\nAs a debugging specialist, help identify issues in this ",
    " code:\n\nFile: ",
    "\nCode:\n```",
    "\n",
    "\n```\n\nQuestion: ",
    "\n\nPlease provide:\n1. Potential bugs or issues\n2. Common pitfalls in this code pattern\n3. Debugging suggestions\n4. Best practices to prevent similar issues\n\nBe specific about line numbers when possible.\n"]

  /** The values substituted into every template, with the dictionary defaults for missing fields. */
  function Fields(queryText: string, ctx: Context): seq<string> {
    var language := Get(ctx, "language", "unknown");
    [language, Get(ctx, "file_path", "unknown"), language, Get(ctx, "selected_code", ""), queryText]
  }

  /** The three templates, keyed by query type value, filled in for one query. */
  function Prompts(queryText: string, ctx: Context): map<string, string> {
    var fields := Fields(queryText, ctx);
    map[
      "explain" := Interpolate(ExplainLiterals, fields),
      "optimize" := Interpolate(OptimizeLiterals, fields),
      "debug" := Interpolate(DebugLiterals, fields)]
  }

  /** `_build_prompt`: the template of the query type, or the explain template when it has none. */
  function BuildPrompt(queryType: string, queryText: string, ctx: Context): (p: string)
    ensures p in Prompts(queryText, ctx).Values
    ensures queryType in {"explain", "optimize", "debug"} ==> p == Prompts(queryText, ctx)[queryType]
    ensures queryType !in {"explain", "optimize", "debug"} ==> p == Prompts(queryText, ctx)["explain"]
  {
    var prompts := Prompts(queryText, ctx);
    if queryType in prompts then prompts[queryType] else prompts["explain"]
  }

  /** Only explain, optimize and debug have templates: refactor, generate, review and unknown types get the explain prompt. */
  lemma OnlyThreeTemplates(queryType: string, queryText: string, ctx: Context)
    ensures Prompts(queryText, ctx).Keys == {"explain", "optimize", "debug"}
    ensures queryType !in {"explain", "optimize", "debug"} ==>
      BuildPrompt(queryType, queryText, ctx) == BuildPrompt("explain", queryText, ctx)
  {
  }

  /** The prompt carries the language, the file path, the selected code and the question, or their defaults. */
  lemma PromptCarriesContext(queryType: string, queryText: string, ctx: Context)
    ensures var p := BuildPrompt(queryType, queryText, ctx);
      && Contains(p, Get(ctx, "language", "unknown"))
      && Contains(p, Get(ctx, "file_path", "unknown"))
      && Contains(p, Get(ctx, "selected_code", ""))
      && Contains(p, queryText)
  {
    var fields := Fields(queryText, ctx);
    var literals :=
      if queryType == "optimize" then OptimizeLiterals
      else if queryType == "debug" then DebugLiterals
      else ExplainLiterals;
    assert BuildPrompt(queryType, queryText, ctx) == Interpolate(literals, fields);
    InterpolateContains(literals, fields, 0);
    InterpolateContains(literals, fields, 1);
    InterpolateContains(literals, fields, 3);
    InterpolateContains(literals, fields, 4);
  }

  /** A missing language or file path reads as "unknown", missing selected code as the empty string. */
  lemma MissingFieldsTakeDefaults(queryType: string, queryText: string, ctx: Context)
    ensures "language" !in ctx ==>
      BuildPrompt(queryType, queryText, ctx) == BuildPrompt(queryType, queryText, ctx["language" := "unknown"])
    ensures "file_path" !in ctx ==>
      BuildPrompt(queryType, queryText, ctx) == BuildPrompt(queryType, queryText, ctx["file_path" := "unknown"])
    ensures "selected_code" !in ctx ==>
      BuildPrompt(queryType, queryText, ctx) == BuildPrompt(queryType, queryText, ctx["selected_code" := ""])
  {
    if "language" !in ctx {
      assert Fields(queryText, ctx) == Fields(queryText, ctx["language" := "unknown"]);
    }
    if "file_path" !in ctx {
      assert Fields(queryText, ctx) == Fields(queryText, ctx["file_path" := "unknown"]);
    }
    if "selected_code" !in ctx {
      assert Fields(queryText, ctx) == Fields(queryText, ctx["selected_code" := ""]);
    }
  }

  // ------------------------------------------------------- post-processing

  /**
   * `_extract_suggestions`: the first five list items. Each list item replaces
   * the pending suggestion, which is appended first; the last one is appended
   * after the loop.
   */
  method ExtractSuggestions(response: string) returns (result: seq<CodeSuggestion>)
    ensures result == Take(Candidates(GeminiDialect, Split(response)), 5)
  {
    var d := GeminiDialect;
    var suggestions: seq<CodeSuggestion> := [];
    var lines := Split(response);
    var current: Option<CodeSuggestion> := None;
    for i := 0 to |lines|
      invariant suggestions + (if current.Some? then [current.value] else []) == Candidates(d, lines[..i])
    {
      CandidatesExtend(d, lines, i);
      var line := Strip(lines[i]);
      if line != [] && StartsWithAny(line, d.markers) {
        if current.Some? {
          suggestions := suggestions + [current.value];
        }
        var cleanLine := Strip(LStrip(line, d.stripChars));
        var title := if |cleanLine| > 50 then cleanLine[..50] + "..." else cleanLine;
        current := Some(CodeSuggestion(title, cleanLine, None, 0.8));
      }
    }
    if current.Some? {
      suggestions := suggestions + [current.value];
    }
    assert lines[..|lines|] == lines;
    result := Take(suggestions, 5);
  }

  /** `_extract_code_examples`: the first three fenced code blocks. */
  method ExtractCodeExamples(response: string) returns (result: seq<string>)
    ensures result == Take(CodeBlocks(Split(response)), 3)
  {
    var examples := ScanCodeBlocks(Split(response));
    result := Take(examples, 3);
  }

  /** `any(response.count(p) > 0 for p in patterns)` */
  predicate ContainsAny(s: string, patterns: seq<string>)
    decreases |patterns|
  {
    |patterns| > 0 && (Contains(s, patterns[0]) || ContainsAny(s, patterns[1..]))
  }

  /** A reply with a numbered point "1." to "5.". */
  predicate HasNumberedPoint(response: string) {
    ContainsAny(response, ["1.", "2.", "3.", "4.", "5."])
  }

  /** The confidence heuristic: 0.7, plus 0.1 for each quality sign, capped at 1.0. */
  function Score(long: bool, fenced: bool, numbered: bool): (c: real)
    ensures 0.7 <= c <= 1.0
    ensures c == 0.7 <==> !long && !fenced && !numbered
    ensures c == 1.0 <==> long && fenced && numbered
  {
    var c := 0.7 + (if long then 0.1 else 0.0) + (if fenced then 0.1 else 0.0) + (if numbered then 0.1 else 0.0);
    if c < 1.0 then c else 1.0
  }

  /** One more quality sign never lowers the score. */
  lemma ScoreMonotone(long: bool, fenced: bool, numbered: bool, long': bool, fenced': bool, numbered': bool)
    requires (long ==> long') && (fenced ==> fenced') && (numbered ==> numbered')
    ensures Score(long, fenced, numbered) <= Score(long', fenced', numbered')
  {
  }

  /** `_calculate_confidence`, which adds to the base confidence one sign at a time. */
  method CalculateConfidence(response: string) returns (c: real)
    ensures c == Score(|response| > 500, Contains(response, "```"), HasNumberedPoint(response))
    ensures 0.7 <= c <= 1.0
  {
    var confidence := 0.7;
    if |response| > 500 {
      confidence := confidence + 0.1;
    }
    if Contains(response, "```") {
      confidence := confidence + 0.1;
    }
    if HasNumberedPoint(response) {
      confidence := confidence + 0.1;
    }
    c := if confidence < 1.0 then confidence else 1.0;
  }

  /** The structured analysis of a reply. */
  datatype Analysis = Analysis(
    explanation: string,
    suggestions: seq<CodeSuggestion>,
    codeExamples: seq<string>,
    confidence: real,
    queryType: string)

  /** `_parse_response`: the reply itself is the explanation; the rest is extracted from it. */
  method ParseResponse(aiResponse: string, queryType: string) returns (a: Analysis)
    ensures a.explanation == aiResponse && a.queryType == queryType
    ensures a.suggestions == Take(Candidates(GeminiDialect, Split(aiResponse)), 5)
    ensures a.codeExamples == Take(CodeBlocks(Split(aiResponse)), 3)
    ensures a.confidence == Score(|aiResponse| > 500, Contains(aiResponse, "```"), HasNumberedPoint(aiResponse))
  {
    var suggestions := ExtractSuggestions(aiResponse);
    var codeExamples := ExtractCodeExamples(aiResponse);
    var confidence := CalculateConfidence(aiResponse);
    a := Analysis(aiResponse, suggestions, codeExamples, confidence, queryType);
  }

  /** What `analyze_code` returns: the analysis with its metadata, or the error record. */
  datatype Outcome =
    | Analyzed(analysis: Analysis, processingTimeMs: int, queryId: string, modelUsed: string)
    | ApiError(message: string, queryId: string, processingTimeMs: int)  // the dictionary with "error": True

  /**
   * `analyze_code`. `ask` stands for the client call; the query id and the
   * elapsed time are given, as they come from `uuid4` and the clock.
   */
  method AnalyzeCode(queryType: string, queryText: string, ctx: Context, ask: string -> Reply,
                     queryId: string, elapsedMs: int) returns (o: Outcome)
    ensures o.queryId == queryId && o.processingTimeMs == elapsedMs
    ensures match ask(BuildPrompt(queryType, queryText, ctx))
      case Text(text) =>
        && o.Analyzed?
        && o.modelUsed == ModelName
        && o.analysis.explanation == Strip(text)
        && o.analysis.queryType == queryType
        && o.analysis.suggestions == Take(Candidates(GeminiDialect, Split(Strip(text))), 5)
        && o.analysis.codeExamples == Take(CodeBlocks(Split(Strip(text))), 3)
        && o.analysis.confidence == Score(|Strip(text)| > 500, Contains(Strip(text), "```"), HasNumberedPoint(Strip(text)))
      case NoText => o == ApiError("Gemini API error: " + NoneStripMessage, queryId, elapsedMs)
      case Raised(message) => o == ApiError("Gemini API error: " + message, queryId, elapsedMs)
  {
    var prompt := BuildPrompt(queryType, queryText, ctx);
    match ask(prompt)
    case Text(text) =>
      var analysis := ParseResponse(Strip(text), queryType);
      o := Analyzed(analysis, elapsedMs, queryId, ModelName);
    case NoText =>
      o := ApiError("Gemini API error: " + NoneStripMessage, queryId, elapsedMs);
    case Raised(message) =>
      o := ApiError("Gemini API error: " + message, queryId, elapsedMs);
  }

  // ----------------------------------------------------------------- health

  /** What `health_check` returns. */
  datatype Health = Health(status: string, service: string, error: Option<string>)

  /** `health_check` applied to the reply to its fixed test prompt. */
  function HealthCheck(reply: Reply): (h: Health)
    ensures h.service == "gemini_api"
    ensures h.status == "healthy" <==> reply.Text? && Contains(Lower(reply.text), "healthy")
    ensures h.status == "degraded" <==> reply.Text? && !Contains(Lower(reply.text), "healthy")
    ensures h.status == "unhealthy" <==> !reply.Text?
    ensures h.error.Some? <==> !reply.Text?
    ensures reply.NoText? ==> h.error == Some(NoneLowerMessage)
    ensures reply.Raised? ==> h.error == Some(reply.message)
  {
    match reply
    case Text(text) =>
      if Contains(Lower(text), "healthy") then Health("healthy", "gemini_api", None)
      else Health("degraded", "gemini_api", None)
    case NoText => Health("unhealthy", "gemini_api", Some(NoneLowerMessage))
    case Raised(message) => Health("unhealthy", "gemini_api", Some(message))
  }

  /** A reply saying the service is "unhealthy" is classified healthy: the word contains "healthy". */
  lemma UnhealthyReplyCountsAsHealthy(text: string)
    requires Contains(Lower(text), "unhealthy")
    ensures HealthCheck(Text(text)).status == "healthy"
  {
    assert "unhealthy"[2..9] == "healthy";
    ContainsInner(Lower(text), "unhealthy", "healthy", 2);
  }
}
