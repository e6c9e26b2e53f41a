# Code Whisperer backend: reply post-processing and schema, in Dafny

Code Whisperer is an editor assistant. It sends a question about selected code
to a backend, and the backend asks a large language model (Gemini). This
project models the deterministic part of that backend, in two versions: the
standalone server (`simple_server.py`) and the backend's `GeminiService`
(`backend/app/services/gemini_service.py`). That part consists of:

- the prompt built from a query and its code context;
- the post-processing that turns the model's free-text reply into an
  explanation, a list of suggestions, a list of code examples and a
  confidence score;
- the mock, error and live answers of the query endpoint, and the health
  classification of the Gemini service;
- the request and response records with their validation rules
  (`backend/app/core/models.py`).

Modules:

- `PyStr` (pystr.dfy): the Python string operations the code relies on.
  These are `split('\n')`, `'\n'.join`, `strip()`, `strip(chars)`,
  `lstrip(chars)`, `startswith`, `in`, `lower()`, slicing, and f-strings
  (`Interpolate`: literal parts alternating with values). The lemmas state
  what these operations guarantee, for example that join undoes split.
- `Seqs` (seqs.dfy): `Positions`, the increasing positions of the elements
  that pass a test. Both extractors and the fence scanner are specified
  with it.
- `Results` and `Schema` (schema.dfy): `Option`/`Result`, and the records of
  models.py as datatypes. Defaults are written as datatype parameter
  defaults (for example `HealthResponse.dependencies := map[]` and
  `ErrorResponse.details := None`). Request bodies are decoded from a JSON
  value. Each decoder has an encoder partner and a round-trip lemma.
  `NewCodeSuggestion` and `NewQueryResponse` state the validation of a
  response record: a confidence outside [0, 1] is rejected. The answer
  assembly builds its records with the plain datatype constructors. Their
  validity is proved instead, as the `ValidResponse` clause in the contracts
  of `QueryCode` and `ErrorAnswer`.
- `Suggestions` (suggestions.dfy): the two suggestion extractors differ only
  in their markers, stripped characters, length filter, title width,
  confidence and cap. `Dialect` collects those parameters, with one instance
  per service. `Candidates` is the specification: one suggestion per
  qualifying line, in line order, before the cap.
- `Fences` (fences.dfy): a code example is defined by fence positions taken
  two at a time (`CodeBlocks`). `ScanCodeBlocks` is the two-state
  line scanner both services run (an in-block flag and a buffer). It is
  proved to compute `CodeBlocks`.
- `Llm` (llm.dfy): what the model call can give back. It returns text,
  returns no text (`response.text` is `None`, so the following `.strip()` or
  `.lower()` raises), or raises with a message.
- `SimpleServer` (simple_server.dfy) and `GeminiService`
  (gemini_service.dfy): the prompt builders, the extractor loops as methods
  proved against `Candidates`/`CodeBlocks`, the confidence rules, the answer
  assembly of `query_code` and `analyze_code`, and `health_check`.

The model call, the query id (`uuid4`) and the elapsed time are parameters of
the operations that use them.

## Model

| member | source | states |
|---|---|---|
| PyStr.Take | simple_server.py:197 | `xs[:n]` keeps at most `n` elements, and they form a prefix of `xs` |
| PyStr.LeadingRun | backend/app/services/gemini_service.py:173 | the run `lstrip` removes is no longer than the string |
| PyStr.LeadingRunMaximal | backend/app/services/gemini_service.py:173 | `lstrip(chars)` removes only characters of `chars`, and stops at the first character outside them |
| PyStr.TrailingRun | simple_server.py:187 | the run `strip` removes from the end is no longer than the string |
| PyStr.TrailingRunMaximal | simple_server.py:187 | the trailing run removed by `strip` is made of stripped characters and is maximal |
| PyStr.StripCharsSlice | simple_server.py:187 | `strip` keeps one slice of the line; everything outside it is stripped characters, and a non-empty result neither starts nor ends with one |
| PyStr.Lower | backend/app/services/gemini_service.py:239 | `lower()` keeps the length and maps each character to its lower case (ASCII letters) |
| PyStr.Split | simple_server.py:184 | `split('\n')` gives at least one piece, and no piece holds a newline |
| PyStr.JoinSplit | simple_server.py:210 | joining the pieces of a split with newlines gives back the text |
| PyStr.SplitJoin | simple_server.py:210 | splitting a newline-join of newline-free lines gives back the lines |
| PyStr.ContainsAt | backend/app/services/gemini_service.py:221 | `p in s` holds when some window of `s` equals `p` |
| PyStr.ContainsWindow | backend/app/services/gemini_service.py:221 | conversely, when `p in s` holds, some window of `s` equals `p` |
| PyStr.ContainsInfix | backend/app/services/gemini_service.py:221 | text spliced into a string is found in it |
| PyStr.ContainsExtend | backend/app/services/gemini_service.py:221 | text found in a string is still found after an append |
| PyStr.ContainsInner | backend/app/services/gemini_service.py:239 | every substring of text found in `s` is found in `s` |
| PyStr.InterpolateStartsWith | simple_server.py:94-99 | an f-string starts with its first literal part |
| PyStr.InterpolateContains | simple_server.py:94-101 | every value substituted into an f-string occurs in the result |
| Seqs.Positions | simple_server.py:186-195 | the scan positions are in range and strictly increasing, so matches keep line order |
| Seqs.PositionsSound | simple_server.py:188-190 | every reported position holds an element that passes the test |
| Seqs.PositionsComplete | simple_server.py:186-195 | no passing element is missed |
| Seqs.PositionsExtend | simple_server.py:186-195 | scanning one more element appends its position exactly when it passes |
| Seqs.PositionsOfPrefix | simple_server.py:186-195 | the positions found in a prefix are the first positions found in the whole sequence |
| Seqs.PositionsCount | simple_server.py:186-195 | at most one position per element, none when no element passes |
| Seqs.PositionsGap | simple_server.py:206-207 | no element between two consecutive positions passes |
| Seqs.PositionsRank | simple_server.py:206-214 | the k-th position has exactly k positions before it |
| Schema.ParseQueryType | backend/app/core/models.py:11-18 | a string is accepted as a query type exactly when it is one of the six values, and then it is that value |
| Schema.QueryTypeRoundTrip | backend/app/core/models.py:11-18 | every query type survives the trip to its wire value and back, and there are exactly six values |
| Schema.NewCodeSuggestion | backend/app/core/models.py:39-44 | a suggestion is rejected exactly when its confidence is outside [0, 1]; otherwise it holds the given fields |
| Schema.NewQueryResponse | backend/app/core/models.py:47-55 | a response is rejected exactly when its confidence is outside [0, 1]; otherwise it holds the given fields and is valid when its suggestions are |
| Schema.ResponseListsDefaultToEmpty | backend/app/core/models.py:52-53 | a response built without lists holds empty lists, never absent ones |
| Schema.RequiredStr | backend/app/core/models.py:23-25 | a required string field is accepted exactly when present and a string; a missing one is reported as missing |
| Schema.OptionalStr | backend/app/core/models.py:26 | an optional string field is absent exactly when missing or null, and otherwise must be a string |
| Schema.OptionalIntMap | backend/app/core/models.py:27 | an optional map of integers is absent exactly when missing or null; otherwise it must be an object of integers, and the result holds exactly its keys and integers |
| Schema.BoolOr | backend/app/core/models.py:35 | a missing boolean takes its default; a present one must be a boolean |
| Schema.IntOr | backend/app/core/models.py:36 | a missing integer takes its default; a present one must be an integer |
| Schema.ObjectOr | backend/app/core/models.py:64 | a missing object takes its default; a present one must be an object |
| Schema.DecodeCodeContext | backend/app/core/models.py:21-27 | file path, language and selected code are required strings. Full content and cursor position are absent exactly when missing or null, and a present one holds the given value. A context is accepted whenever the required fields are strings and the optional ones are missing, null or well typed |
| Schema.CodeContextOptionalFieldsMayBeOmitted | backend/app/core/models.py:26-27 | a context with only its three required fields is accepted, with no full content and no cursor position |
| Schema.DecodeQueryRequest | backend/app/core/models.py:30-36 | query type, text and context are required, and the type must be one of the six values. `include_examples` defaults to true and `max_response_length` to 1000, and a present value is used as given. A body is accepted whenever the required fields are valid and the defaulted ones are missing or well typed |
| Schema.QueryRequestDefaultsFillOmittedFields | backend/app/core/models.py:35-36 | a query with only its three required fields is accepted, with `include_examples` true and `max_response_length` 1000 |
| Schema.DecodeIngestRequest | backend/app/core/models.py:58-64 | file path, content and language are required. The project id is optional and the metadata defaults to an empty object; present values are used as given. A body is accepted whenever the required fields are strings and the others are missing or well typed |
| Schema.IngestRequestDefaultsFillOmittedFields | backend/app/core/models.py:63-64 | an ingestion request with only its three required fields is accepted, with no project id and empty metadata |
| Schema.CodeContextRoundTrip | backend/app/core/models.py:21-27 | a code context survives encoding and decoding unchanged |
| Schema.QueryRequestRoundTrip | backend/app/core/models.py:30-36 | a query request survives encoding and decoding unchanged |
| Schema.IngestRequestRoundTrip | backend/app/core/models.py:58-64 | an ingestion request survives encoding and decoding unchanged |
| Suggestions.Title | simple_server.py:192 | the title is the description when it fits the width, else its first `width` characters followed by "..." |
| Suggestions.Candidates | simple_server.py:186-195 | the suggestions a reply yields before the cap: at most one per line |
| Suggestions.CandidatesExtend | simple_server.py:186-195 | one more line adds its suggestion at the end exactly when it qualifies |
| Suggestions.CandidatesCount | simple_server.py:186-195 | at most one suggestion per line, none when no line qualifies |
| Suggestions.CandidateFromListItem | simple_server.py:187-195 | each suggestion comes from a list-item line, later lines give later suggestions, its description is the cleaned line and passes the length filter, its title is cut to the width, it has no snippet and it has the dialect's confidence |
| Suggestions.ListItemYieldsCandidate | simple_server.py:186-195 | every qualifying line yields its suggestion before the cap |
| Suggestions.GeminiKeepsEveryListItem | backend/app/services/gemini_service.py:166-178 | in the Gemini service a line yields a suggestion exactly when it is a list item: there is no length filter |
| Suggestions.SimpleServerDescriptionsAreLong | simple_server.py:190-192 | in the standalone server every description is longer than ten characters and every title at most 63 |
| Suggestions.BareDashCleansToEmpty | backend/app/services/gemini_service.py:173 | a bare "-" strips to itself and cleans to the empty string |
| Suggestions.GeminiBareDash | backend/app/services/gemini_service.py:166-178 | in the Gemini service a bare "-" line yields a suggestion with an empty title and description |
| Suggestions.SimpleServerDropsBareDash | simple_server.py:188-190 | the standalone server's length filter drops the same bare "-" line |
| Fences.CodeBlocks | simple_server.py:206-216 | the examples a reply yields before the cap: at most one per two fence lines |
| Fences.FenceLinesExtend | simple_server.py:206-207 | one more line appends its position to the fence positions exactly when it is a fence |
| Fences.BlocksExtend | simple_server.py:207-214 | a new fence after an odd number of fences closes a block and adds that block; after an even number it adds nothing |
| Fences.BlocksCount | simple_server.py:206-216 | at most one example per pair of fences |
| Fences.BlockPair | simple_server.py:208-211 | the k-th example is the join of the lines strictly between some opening fence and its closing fence, with at least one line between |
| Fences.BlocksSplit | simple_server.py:206-216 | cutting the fence positions after an even number of them cuts the examples at the same place |
| Fences.PairBlock | simple_server.py:208-211 | every pair of fences with a line between them gives a block, placed after the blocks of the earlier pairs |
| Fences.FenceLineIsFence | simple_server.py:207 | every recorded fence position is a fence line |
| Fences.NoFenceBetween | simple_server.py:207 | no fence lies between two consecutive fence positions |
| Fences.FencePair | simple_server.py:206-214 | the j-th pair of fences opens at a fence preceded by 2j fences and closes at the next fence |
| Fences.BlockBetweenFences | simple_server.py:206-216 | every example is the non-empty run of lines strictly between an opening fence (preceded by an even number of fences) and the next fence, so fence lines never appear in an example |
| Fences.FenceCloses | simple_server.py:208-212 | the scanner's closing branch keeps its invariant: the buffer becomes an example when non-empty and is reset |
| Fences.FenceOpens | simple_server.py:213-214 | the scanner's opening branch keeps its invariant |
| Fences.OtherLine | simple_server.py:215-216 | a line inside a block goes into the buffer; a line outside is ignored |
| Fences.ScanCodeBlocks | simple_server.py:199-218 | the scanner returns exactly the examples `CodeBlocks` defines |
| Fences.FencePairYieldsExample | simple_server.py:206-216 | every closed block with at least one line yields its example, in the order of the fence pairs |
| Fences.NoFenceNoExample | simple_server.py:206-216 | a reply without fences has no examples |
| SimpleServer.BuildPrompt | simple_server.py:86-179 | each of the six query type values gets its own filled-in template, and any other string gets the explain template |
| SimpleServer.PromptKeys | simple_server.py:93-177 | there is one template per query type value and none for any other string |
| SimpleServer.PromptCarriesContext | simple_server.py:93-179 | whatever the query type, the prompt carries the language, file path, selected code and question |
| SimpleServer.UnknownTypeGetsExplainPrompt | simple_server.py:179 | a string that is not a query type value gets the explain prompt |
| SimpleServer.PromptOpening | simple_server.py:93-177 | the prompt of each query type starts with the opening of its own template |
| SimpleServer.ExtractSuggestions | simple_server.py:181-197 | the loop returns the first four suggestions of `Candidates` for the standalone server |
| SimpleServer.ExtractCodeExamples | simple_server.py:199-218 | the first two fenced code blocks |
| SimpleServer.ExtractedSuggestionsValid | simple_server.py:191-197 | at most four suggestions, each valid with confidence 0.85 |
| SimpleServer.MockExplanation | simple_server.py:292-303 | the mock explanation ends by saying that it is a mock response because Gemini is not configured |
| SimpleServer.MockEchoesRequest | simple_server.py:292-303 | the mock explanation contains the question, the query type value and the file path |
| SimpleServer.LiveConfidence | simple_server.py:288 | a live answer has confidence 0.9 exactly when the reply is longer than 200 characters, else 0.7 |
| SimpleServer.ErrorAnswer | simple_server.py:331-343 | the error answer is valid, has no suggestions or examples, has confidence 0.0, echoes the query id, type and elapsed time, and its explanation is "Error processing request: " followed by the exception text |
| SimpleServer.QueryCode | simple_server.py:266-343 | echoes the id, type and time and is always valid; the mock path gives the fixed explanation, two suggestions, one example and 0.75; the live path gives the stripped reply with its extracted suggestions, examples and length-based confidence; a failed call gives the error answer |
| GeminiService.Get | backend/app/services/gemini_service.py:79-81 | `dict.get` gives the stored value, else the default |
| GeminiService.BuildPrompt | backend/app/services/gemini_service.py:76-145 | explain, optimize and debug each get their own filled-in template, and any other type gets the explain template |
| GeminiService.OnlyThreeTemplates | backend/app/services/gemini_service.py:83-145 | only explain, optimize and debug have templates; every other type gets the explain prompt |
| GeminiService.PromptCarriesContext | backend/app/services/gemini_service.py:76-145 | the prompt carries the language, file path, selected code (or their defaults) and the question |
| GeminiService.MissingFieldsTakeDefaults | backend/app/services/gemini_service.py:79-81 | a missing language or file path reads as "unknown", and missing selected code as "" |
| GeminiService.ExtractSuggestions | backend/app/services/gemini_service.py:158-184 | the loop carrying a pending suggestion returns the first five suggestions of `Candidates` for the Gemini service |
| GeminiService.ExtractCodeExamples | backend/app/services/gemini_service.py:186-209 | the first three fenced code blocks |
| GeminiService.Score | backend/app/services/gemini_service.py:211-228 | the score lies in [0.7, 1.0]; it is 0.7 exactly when no sign holds and 1.0 exactly when all three hold |
| GeminiService.ScoreMonotone | backend/app/services/gemini_service.py:217-228 | one more quality sign never lowers the score |
| GeminiService.CalculateConfidence | backend/app/services/gemini_service.py:211-228 | the step-by-step accumulation equals `Score` of the three signs (longer than 500, a fence, a numbered point) |
| GeminiService.ParseResponse | backend/app/services/gemini_service.py:147-156 | the reply is the explanation unchanged and the query type is echoed; suggestions, examples and confidence are those of the reply |
| GeminiService.AnalyzeCode | backend/app/services/gemini_service.py:30-74 | a reply is analysed after stripping and tagged with the model name; a failed call gives the error record with message "Gemini API error: " followed by the exception text |
| GeminiService.HealthCheck | backend/app/services/gemini_service.py:230-245 | healthy exactly when the lower-cased reply contains "healthy"; degraded exactly when a reply does not; unhealthy exactly when the call fails, with the raised message as the error, or "'NoneType' object has no attribute 'lower'" when the reply has no text |
| GeminiService.UnhealthyReplyCountsAsHealthy | backend/app/services/gemini_service.py:239-240 | a reply containing "unhealthy" is classified healthy |

## Left out

- The Gemini client and its calls (simple_server.py:24-29, 245, 280; gemini_service.py:22-27, 49, 234) are foreign library calls. The reply is a `Reply` parameter: text, no text, or an exception with its message.
- `GeminiService.__init__` (gemini_service.py:20-28) reads the API key from the environment and builds the client. Only its model name is kept, as `ModelName`.
- The FastAPI app, its routes and startup are HTTP plumbing and are not modelled. This includes the standalone server's own `/health` route (simple_server.py:237-264).
- `uuid4()` and the clock are nondeterministic. The query id and the elapsed milliseconds are parameters. In `analyze_code` the error record gets a fresh id of its own; the model takes the given one.
- Confidence is a `real`, so float rounding is not modelled. In Python, 0.7 + 0.1 + 0.1 + 0.1 evaluates to 0.9999999999999999, so the service's `min(confidence, 1.0)` can return a value just below 1.0. Over reals the sum is exactly 1.0.
- PyStr.Lower: lower-cases only ASCII letters. Only ASCII letters lower-case to the ASCII letters of "healthy", so the health classification is unaffected.
- Pydantic's lax coercions are not modelled. For example, `"true"` or `1` is not accepted for a boolean (`include_examples`), and `"5"` or `5.0` is not accepted for an integer (`max_response_length`, the values of `cursor_position`). A rejected request reports one error, not Pydantic's list of all errors.
- The Gemini service's code context is a dictionary of any values. It is modelled as a map from strings to strings.
- The Gemini service's suggestion dictionaries have no `code_snippet` key. They are modelled as `CodeSuggestion` records whose snippet is `None`.
- The standalone server declares narrower copies of the records (simple_server.py:32-65), without `cursor_position` or `max_response_length`. They are modelled by the backend's records in models.py, which differ only in those optional, defaulted fields.
- `IngestResponse`, `HealthResponse`, `ErrorResponse` and `StatusResponse` are declared as datatypes with their defaults. No operation in the modelled code builds them.
- backend/app/main.py is not part of this model. It calls service methods that do not exist in gemini_service.py.
- The test scripts, the sample inputs and the editor-extension client are not part of this model.
- The code rejects an out-of-range confidence (`ge=0.0, le=1.0`) rather than clamping it, so `NewCodeSuggestion` and `NewQueryResponse` return a failure.
