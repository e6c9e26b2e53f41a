/**
 * Turning the list items of a model's reply into suggestions.
 *
 * Both extractors scan the reply line by line, keep the stripped lines that
 * begin with a list marker, strip a set of marker characters off the front,
 * build a title truncated to a width and keep the first few. They differ only
 * in the parameters collected in `Dialect`. This module holds the
 * specification both extractors are proved against: `Candidates` is every
 * suggestion a reply yields, in the order of its lines, before the cap.
 */
module Suggestions {
  import opened Results
  import opened PyStr
  import opened Schema
  import opened Seqs

  /** The parameters in which the two extractors differ. */
  datatype Dialect = Dialect(
    markers: seq<string>,      // a stripped line starting with one of these is a list item
    stripChars: set<char>,     // characters removed from the front of a list item
    minLength: Option<nat>,    // when present, only descriptions longer than this are kept
    titleWidth: nat,           // longer descriptions are cut to this width in the title
    confidence: real,          // the confidence every suggestion carries
    cap: nat)                  // at most this many suggestions are returned

  /** `extract_suggestions` of the standalone server. */
  const SimpleServerDialect := Dialect(
    ["1.", "2.", "3.", "4.", "5.", "-", "*", "•"],
    {'1', '2', '3', '4', '5', '.', '-', '*', '•', ' '},
    Some(10), 60, 0.85, 4)

  /** `_extract_suggestions` of the Gemini service: no bullet marker, no length filter. */
  const GeminiDialect := Dialect(
    ["1.", "2.", "3.", "4.", "5.", "-", "*"],
    {'1', '2', '3', '4', '5', '.', '-', '*', ' '},
    None, 50, 0.8, 5)

  /** `s.startswith(prefixes)` for a tuple of prefixes. */
  predicate StartsWithAny(s: string, prefixes: seq<string>)
    decreases |prefixes|
  {
    |prefixes| > 0 && (StartsWith(s, prefixes[0]) || StartsWithAny(s, prefixes[1..]))
  }

  /** A stripped line that opens a list item. */
  predicate IsListItem(d: Dialect, stripped: string) {
    stripped != [] && StartsWithAny(stripped, d.markers)
  }

  /** The text of a list item without its marker characters and surrounding whitespace. */
  function Clean(d: Dialect, stripped: string): string {
    Strip(LStrip(stripped, d.stripChars))
  }

  /** The description when it fits in `width` characters, else its first `width` characters and "...". */
  function Title(description: string, width: nat): (t: string)
    ensures |description| <= width ==> t == description
    ensures |description| > width ==> |t| == width + 3 && t[..width] == description[..width] && t[width..] == "..."
  {
    if |description| > width then description[..width] + "..." else description
  }

  /** Whether the length filter lets a description through. */
  predicate LongEnough(d: Dialect, description: string) {
    d.minLength.None? || |description| > d.minLength.value
  }

  /** A raw reply line that yields a suggestion. */
  predicate Qualifies(d: Dialect, line: string) {
    IsListItem(d, Strip(line)) && LongEnough(d, Clean(d, Strip(line)))
  }

  /** The suggestion a qualifying raw line yields. */
  function SuggestionOf(d: Dialect, line: string): CodeSuggestion {
    var description := Clean(d, Strip(line));
    CodeSuggestion(Title(description, d.titleWidth), description, None, d.confidence)
  }

  /** The test `Qualifies` as a value, so that scans over lines can be stated once in `Seqs`. */
  function Qualifier(d: Dialect): string -> bool {
    line => Qualifies(d, line)
  }

  /** The positions of the qualifying lines, in increasing order. */
  function Origins(d: Dialect, lines: seq<string>): seq<nat> {
    Positions(lines, Qualifier(d))
  }

  /** Every suggestion a sequence of reply lines yields, before the cap: one per qualifying line, in line order. */
  function Candidates(d: Dialect, lines: seq<string>): (c: seq<CodeSuggestion>)
    ensures |c| <= |lines|
  {
    PositionsCount(lines, Qualifier(d));
    var o := Origins(d, lines);
    seq(|o|, k requires 0 <= k < |o| => SuggestionOf(d, lines[o[k]]))
  }

  /** Looking at one more line adds its suggestion, if it yields one, at the end. */
  lemma CandidatesExtend(d: Dialect, lines: seq<string>, i: nat)
    requires i < |lines|
    ensures Candidates(d, lines[..i + 1])
         == Candidates(d, lines[..i]) + (if Qualifies(d, lines[i]) then [SuggestionOf(d, lines[i])] else [])
  {
    assert lines[..i + 1][..i] == lines[..i];
    var o := Origins(d, lines[..i]);
    forall k | 0 <= k < |o|
      ensures lines[..i + 1][o[k]] == lines[..i][o[k]]
    {
    }
  }

  /** A reply yields at most one suggestion per line, and none when no line qualifies. */
  lemma CandidatesCount(d: Dialect, lines: seq<string>)
    ensures |Candidates(d, lines)| <= |lines|
    ensures (forall i :: 0 <= i < |lines| ==> !Qualifies(d, lines[i])) ==> Candidates(d, lines) == []
  {
    PositionsCount(lines, Qualifier(d));
  }

  /**
   * Each suggestion comes from a list-item line, later lines giving later
   * suggestions: its description is that line cleaned, it passes the length
   * filter, and its title is the description cut to the title width.
   */
  lemma CandidateFromListItem(d: Dialect, lines: seq<string>, k: nat) returns (i: nat)
    requires k < |Candidates(d, lines)|
    ensures i == Origins(d, lines)[k] && i < |lines|
    ensures IsListItem(d, Strip(lines[i]))
    ensures var c := Candidates(d, lines)[k];
      && c.description == Clean(d, Strip(lines[i]))
      && LongEnough(d, c.description)
      && (|c.description| <= d.titleWidth ==> c.title == c.description)
      && (|c.description| > d.titleWidth ==>
            c.title[..d.titleWidth] == c.description[..d.titleWidth] && c.title[d.titleWidth..] == "...")
      && c.codeSnippet.None? && c.confidence == d.confidence
    ensures forall l :: k < l < |Candidates(d, lines)| ==> i < Origins(d, lines)[l]
  {
    i := Origins(d, lines)[k];
    PositionsSound(lines, Qualifier(d), k);
    assert Qualifies(d, lines[i]);
  }

  /** Every qualifying line yields its suggestion: nothing is skipped before the cap. */
  lemma ListItemYieldsCandidate(d: Dialect, lines: seq<string>, i: nat) returns (k: nat)
    requires i < |lines| && Qualifies(d, lines[i])
    ensures k < |Candidates(d, lines)| && Origins(d, lines)[k] == i
    ensures Candidates(d, lines)[k] == SuggestionOf(d, lines[i])
  {
    assert Qualifier(d)(lines[i]);
    PositionsComplete(lines, Qualifier(d), i);
    var o := Origins(d, lines);
    k :| 0 <= k < |o| && o[k] == i;
  }

  /** For the Gemini service every list item yields a suggestion: there is no length filter. */
  lemma GeminiKeepsEveryListItem(line: string)
    ensures Qualifies(GeminiDialect, line) <==> IsListItem(GeminiDialect, Strip(line))
  {
  }

  /** For the standalone server a suggestion's description is longer than ten characters. */
  lemma SimpleServerDescriptionsAreLong(lines: seq<string>, k: nat)
    requires k < |Candidates(SimpleServerDialect, lines)|
    ensures |Candidates(SimpleServerDialect, lines)[k].description| > 10
    ensures |Candidates(SimpleServerDialect, lines)[k].title| <= 63
  {
    var o := Origins(SimpleServerDialect, lines);
    PositionsSound(lines, Qualifier(SimpleServerDialect), k);
    assert Qualifies(SimpleServerDialect, lines[o[k]]);
  }

  /** A bare dash line strips to itself, and its cleaned text is empty for both dialects. */
  lemma BareDashCleansToEmpty(d: Dialect)
    requires '-' in d.stripChars
    ensures Strip("-") == "-" && Clean(d, "-") == ""
  {
    assert '-' !in Whitespace;
    assert LeadingRun("-", Whitespace) == 0;
    assert TrailingRun("-", Whitespace) == 0;
    assert LeadingRun("-", d.stripChars) == 1;
    assert LStrip("-", d.stripChars) == "";
    assert LeadingRun("", Whitespace) == 0 && TrailingRun("", Whitespace) == 0;
  }

  /** A bare dash is a list item for the Gemini service and yields a suggestion with an empty title. */
  lemma GeminiBareDash()
    ensures Candidates(GeminiDialect, ["-"]) == [CodeSuggestion("", "", None, 0.8)]
  {
    var d := GeminiDialect;
    BareDashCleansToEmpty(d);
    assert StartsWith("-", d.markers[5]);
    assert IsListItem(d, "-");
    assert Qualifier(d)("-");
    assert ["-"][..0] == [];
    assert Origins(d, ["-"]) == [0];
  }

  /** The same bare dash is dropped by the standalone server's length filter. */
  lemma SimpleServerDropsBareDash()
    ensures Candidates(SimpleServerDialect, ["-"]) == []
  {
    var d := SimpleServerDialect;
    BareDashCleansToEmpty(d);
    assert !Qualifier(d)("-");
    assert ["-"][..0] == [];
    assert Origins(d, ["-"]) == [];
  }
}
