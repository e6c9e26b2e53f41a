/**
 * The handful of Python `str` operations the response post-processing relies on,
 * written over `string` (a sequence of Unicode scalar values, close to Python's `str`).
 */
module PyStr {

  /** The characters for which Python's `str.isspace()` holds; `str.strip()` with no argument removes these. */
  const Whitespace: set<char> := {
    '\t', '\n', '\U{0B}', '\U{0C}', '\r', '\U{1C}', '\U{1D}', '\U{1E}', '\U{1F}', ' ',
    '\U{85}', '\U{A0}', '\U{1680}',
    '\U{2000}', '\U{2001}', '\U{2002}', '\U{2003}', '\U{2004}', '\U{2005}',
    '\U{2006}', '\U{2007}', '\U{2008}', '\U{2009}', '\U{200A}',
    '\U{2028}', '\U{2029}', '\U{202F}', '\U{205F}', '\U{3000}'
  }

  /** `s.startswith(p)` */
  predicate StartsWith(s: string, p: string) {
    |p| <= |s| && s[..|p|] == p
  }

  /** `p in s` for strings: `p` occurs in `s` as a contiguous substring. */
  predicate Contains(s: string, p: string)
    decreases |s|
  {
    StartsWith(s, p) || (|s| > 0 && Contains(s[1..], p))
  }

  /** `s[:n]` for a non-negative `n`, on any sequence. */
  function Take<T>(s: seq<T>, n: nat): (r: seq<T>)
    ensures |r| == if |s| <= n then |s| else n
    ensures r == s[..|r|]
  {
    if |s| <= n then s else s[..n]
  }

  /** The length of the longest prefix of `s` made of characters in `chars`. */
  function LeadingRun(s: string, chars: set<char>): (n: nat)
    ensures n <= |s|
    decreases |s|
  {
    if |s| > 0 && s[0] in chars then 1 + LeadingRun(s[1..], chars) else 0
  }

  /** The run `LeadingRun` measures is made of `chars` and cannot be extended. */
  lemma {:induction false} LeadingRunMaximal(s: string, chars: set<char>)
    ensures forall i :: 0 <= i < LeadingRun(s, chars) ==> s[i] in chars
    ensures LeadingRun(s, chars) == |s| || s[LeadingRun(s, chars)] !in chars
    decreases |s|
  {
    if |s| > 0 && s[0] in chars {
      LeadingRunMaximal(s[1..], chars);
    }
  }

  /** The length of the longest suffix of `s` made of characters in `chars`. */
  function TrailingRun(s: string, chars: set<char>): (n: nat)
    ensures n <= |s|
    decreases |s|
  {
    if |s| > 0 && s[|s| - 1] in chars then 1 + TrailingRun(s[..|s| - 1], chars) else 0
  }

  /** The run `TrailingRun` measures is made of `chars` and cannot be extended. */
  lemma {:induction false} TrailingRunMaximal(s: string, chars: set<char>)
    ensures forall i :: |s| - TrailingRun(s, chars) <= i < |s| ==> s[i] in chars
    ensures TrailingRun(s, chars) == |s| || s[|s| - TrailingRun(s, chars) - 1] !in chars
    decreases |s|
  {
    if |s| > 0 && s[|s| - 1] in chars {
      TrailingRunMaximal(s[..|s| - 1], chars);
    }
  }

  /** `s.lstrip(chars)`: drop the longest prefix made of characters in `chars`. */
  function LStrip(s: string, chars: set<char>): string {
    s[LeadingRun(s, chars)..]
  }

  /** `s.strip(chars)`: drop the longest prefix and then the longest suffix made of characters in `chars`. */
  function StripChars(s: string, chars: set<char>): string {
    var t := LStrip(s, chars);
    t[..|t| - TrailingRun(t, chars)]
  }

  /** `s.strip()`: drop leading and trailing whitespace. */
  function Strip(s: string): string {
    StripChars(s, Whitespace)
  }

  /**
   * What `StripChars` keeps is the slice `s[a..b]`: everything before `a` and
   * from `b` on is in `chars`, and a non-empty result neither starts nor ends
   * with a character of `chars`.
   */
  lemma StripCharsSlice(s: string, chars: set<char>) returns (a: nat, b: nat)
    ensures a <= b <= |s| && StripChars(s, chars) == s[a..b]
    ensures forall i :: 0 <= i < a ==> s[i] in chars
    ensures forall i :: b <= i < |s| ==> s[i] in chars
    ensures a < b ==> s[a] !in chars && s[b - 1] !in chars
  {
    a := LeadingRun(s, chars);
    var t := s[a..];
    LeadingRunMaximal(s, chars);
    TrailingRunMaximal(t, chars);
    var n := |t| - TrailingRun(t, chars);
    b := a + n;
    assert StripChars(s, chars) == t[..n];
    assert t[..n] == s[a..b];
    forall i | b <= i < |s|
      ensures s[i] in chars
    {
      assert s[i] == t[i - a];
    }
    if a < b {
      assert s[b - 1] == t[n - 1];
    }
  }

  /** ASCII case mapping used by `str.lower()`. */
  function LowerChar(c: char): char {
    if 'A' <= c <= 'Z' then (c as int - 'A' as int + 'a' as int) as char else c
  }

  /**
   * `s.lower()`, restricted to ASCII letters. Only ASCII letters lower-case to
   * ASCII letters, so for an all-ASCII-lower-case pattern `p`, `p in s.lower()`
   * agrees with `Contains(Lower(s), p)`.
   */
  function Lower(s: string): (r: string)
    ensures |r| == |s|
    ensures forall i :: 0 <= i < |s| ==> r[i] == LowerChar(s[i])
  {
    seq(|s|, i requires 0 <= i < |s| => LowerChar(s[i]))
  }

  /** `s.split('\n')`: the pieces between newline characters, never an empty list. */
  function Split(s: string): (parts: seq<string>)
    ensures |parts| >= 1
    ensures forall k :: 0 <= k < |parts| ==> '\n' !in parts[k]
    decreases |s|
  {
    if |s| == 0 then [""]
    else if s[0] == '\n' then [""] + Split(s[1..])
    else
      var rest := Split(s[1..]);
      [[s[0]] + rest[0]] + rest[1..]
  }

  /** `'\n'.join(parts)` */
  function Join(parts: seq<string>): string
    decreases |parts|
  {
    if |parts| == 0 then ""
    else if |parts| == 1 then parts[0]
    else parts[0] + "\n" + Join(parts[1..])
  }

  /** Joining the pieces of a split gives back the original text. */
  lemma {:induction false} JoinSplit(s: string)
    ensures Join(Split(s)) == s
    decreases |s|
  {
    if |s| == 0 {
    } else if s[0] == '\n' {
      JoinSplit(s[1..]);
      assert s == "\n" + s[1..];
    } else {
      var rest := Split(s[1..]);
      JoinSplit(s[1..]);
      if |rest| == 1 {
        assert Join(Split(s)) == [s[0]] + rest[0];
      } else {
        assert Split(s)[1..] == rest[1..];
        assert Join(Split(s)) == [s[0]] + rest[0] + "\n" + Join(rest[1..]);
      }
      assert s == [s[0]] + s[1..];
    }
  }

  /** Splitting a join of newline-free pieces gives back the pieces. */
  lemma {:induction false} SplitJoin(parts: seq<string>)
    requires |parts| >= 1
    requires forall k :: 0 <= k < |parts| ==> '\n' !in parts[k]
    ensures Split(Join(parts)) == parts
    decreases |parts|, |parts[0]|
  {
    var p := parts[0];
    if |p| == 0 {
      if |parts| > 1 {
        SplitJoin(parts[1..]);
        assert Join(parts) == "\n" + Join(parts[1..]);
        assert parts == [""] + parts[1..];
      }
    } else {
      var tail := [p[1..]] + parts[1..];
      assert tail[0] == p[1..];
      assert tail[1..] == parts[1..];
      SplitJoin(tail);
      if |parts| == 1 {
        assert Join(parts) == p;
        assert Join(tail) == p[1..];
      } else {
        assert Join(tail) == p[1..] + "\n" + Join(parts[1..]);
        assert Join(parts) == [p[0]] + Join(tail);
      }
      assert Join(parts)[0] == p[0] && Join(parts)[1..] == Join(tail);
      assert p == [p[0]] + p[1..];
    }
  }

  /** `p` occurs in `s` when some window of `s` equals `p`; `ContainsWindow` is the converse. */
  lemma {:induction false} ContainsAt(s: string, p: string, i: nat)
    requires i + |p| <= |s| && s[i..i + |p|] == p
    ensures Contains(s, p)
    decreases i
  {
    if i > 0 {
      assert s[1..][i - 1..i - 1 + |p|] == s[i..i + |p|];
      ContainsAt(s[1..], p, i - 1);
    }
  }

  /** When `p` occurs in `s`, some window of `s` equals `p`. */
  lemma {:induction false} ContainsWindow(s: string, p: string) returns (i: nat)
    requires Contains(s, p)
    ensures i + |p| <= |s| && s[i..i + |p|] == p
    decreases |s|
  {
    if StartsWith(s, p) {
      i := 0;
    } else {
      var i' := ContainsWindow(s[1..], p);
      i := i' + 1;
      assert s[i..i + |p|] == s[1..][i'..i' + |p|];
    }
  }

  /** Text spliced into the middle of a string is found in it. */
  lemma ContainsInfix(a: string, p: string, b: string)
    ensures Contains(a + p + b, p)
  {
    var s := a + p + b;
    assert s[|a|..|a| + |p|] == p;
    ContainsAt(s, p, |a|);
  }

  /** Text found in `s` is still found once more text is appended. */
  lemma {:induction false} ContainsExtend(s: string, t: string, p: string)
    requires Contains(s, p)
    ensures Contains(s + t, p)
    decreases |s|
  {
    if StartsWith(s, p) {
      assert (s + t)[..|p|] == s[..|p|];
    } else {
      assert (s + t)[1..] == s[1..] + t;
      ContainsExtend(s[1..], t, p);
    }
  }

  /**
   * An f-string with `|values|` replacement fields: the literal parts and the
   * values alternate, starting and ending with a literal part.
   */
  function Interpolate(literals: seq<string>, values: seq<string>): string
    requires |literals| == |values| + 1
    decreases |values|
  {
    if |values| == 0 then literals[0]
    else
      var n := |values|;
      Interpolate(literals[..n], values[..n - 1]) + values[n - 1] + literals[n]
  }

  /** An f-string starts with its first literal part. */
  lemma {:induction false} InterpolateStartsWith(literals: seq<string>, values: seq<string>)
    requires |literals| == |values| + 1
    ensures StartsWith(Interpolate(literals, values), literals[0])
    decreases |values|
  {
    if |values| > 0 {
      var n := |values|;
      InterpolateStartsWith(literals[..n], values[..n - 1]);
      var head := Interpolate(literals[..n], values[..n - 1]);
      assert (head + values[n - 1] + literals[n])[..|literals[0]|] == head[..|literals[0]|];
    }
  }

  /** Every value substituted into an f-string occurs in the result. */
  lemma {:induction false} InterpolateContains(literals: seq<string>, values: seq<string>, k: nat)
    requires |literals| == |values| + 1 && k < |values|
    ensures Contains(Interpolate(literals, values), values[k])
    decreases |values|
  {
    var n := |values|;
    var head := Interpolate(literals[..n], values[..n - 1]);
    if k == n - 1 {
      ContainsInfix(head, values[k], literals[n]);
    } else {
      InterpolateContains(literals[..n], values[..n - 1], k);
      ContainsExtend(head, values[n - 1], values[k]);
      ContainsExtend(head + values[n - 1], literals[n], values[k]);
    }
  }

  /** Whatever occurs inside text found in `s` is found in `s` too. */
  lemma {:induction false} ContainsInner(s: string, p: string, q: string, j: nat)
    requires Contains(s, p)
    requires j + |q| <= |p| && p[j..j + |q|] == q
    ensures Contains(s, q)
    decreases |s|
  {
    if StartsWith(s, p) {
      assert s[j..j + |q|] == p[j..j + |q|];
      ContainsAt(s, q, j);
    } else {
      ContainsInner(s[1..], p, q, j);
    }
  }
}
