/**
 * Collecting the bodies of the fenced code blocks of a model's reply.
 *
 * A line whose stripped form starts with three backticks is a fence. Fences
 * pair up in the order they occur: the first opens a block, the second closes
 * it, the third opens the next one, and so on. A block yields the lines
 * strictly between its two fences, joined with newlines; a block with no lines
 * yields nothing, and so does a last fence left without a partner.
 *
 * `CodeBlocks` states this by fence positions; `ScanCodeBlocks` is the
 * line-by-line scanner with an in-block flag and a buffer that both services
 * run, proved to compute it.
 */
module Fences {
  import opened PyStr
  import opened Seqs

  /** `line.strip().startswith('```')` */
  predicate IsFence(line: string) {
    StartsWith(Strip(line), "```")
  }

  /** The test `IsFence` as a value, for `Seqs.Positions`. */
  function FenceTest(): string -> bool {
    line => IsFence(line)
  }

  /** The positions of the fence lines, in increasing order. */
  function FenceLines(lines: seq<string>): seq<nat> {
    Positions(lines, FenceTest())
  }

  /** Looking at one more line appends its position when it is a fence. */
  lemma FenceLinesExtend(lines: seq<string>, i: nat)
    requires i < |lines|
    ensures FenceLines(lines[..i + 1]) == FenceLines(lines[..i]) + (if IsFence(lines[i]) then [i] else [])
  {
    PositionsExtend(lines, FenceTest(), i);
  }

  /** Positions that all index into a sequence of length `n`. */
  predicate Below(f: seq<nat>, n: nat) {
    forall k :: 0 <= k < |f| ==> f[k] < n
  }

  /** The block between the fences at `a` and `b`: their inner lines joined, or nothing when there are none. */
  function Block(lines: seq<string>, a: nat, b: nat): seq<string>
    requires a < |lines| && b < |lines|
  {
    if a + 1 < b then [Join(lines[a + 1..b])] else []
  }

  /**
   * The blocks delimited by the pairs of positions in `f` taken two at a time;
   * a pair with no line between gives nothing, and an unpaired last position is ignored.
   */
  function Blocks(lines: seq<string>, f: seq<nat>): seq<string>
    requires Below(f, |lines|)
    decreases |f|
  {
    if |f| < 2 then []
    else Block(lines, f[0], f[1]) + Blocks(lines, f[2..])
  }

  /** The code examples of a reply split into lines, before any cap. */
  function CodeBlocks(lines: seq<string>): (examples: seq<string>)
    ensures 2 * |examples| <= |FenceLines(lines)|
  {
    BlocksCount(lines, FenceLines(lines));
    Blocks(lines, FenceLines(lines))
  }

  /**
   * One more position closes a block exactly when an odd number of positions
   * precede it (it is paired with the last of them).
   */
  lemma {:induction false} BlocksExtend(lines: seq<string>, f: seq<nat>, pairs: nat, open: bool, x: nat)
    requires Below(f, |lines|) && x < |lines|
    requires |f| == 2 * pairs + (if open then 1 else 0)
    ensures Below(f + [x], |lines|)
    ensures Blocks(lines, f + [x]) == Blocks(lines, f) + (if open then Block(lines, f[|f| - 1], x) else [])
    decreases |f|
  {
    var g := f + [x];
    assert Below(g, |lines|);
    if |f| >= 2 {
      assert g[0] == f[0] && g[1] == f[1];
      assert g[2..] == f[2..] + [x];
      BlocksExtend(lines, f[2..], pairs - 1, open, x);
      calc {
        Blocks(lines, g);
        Block(lines, f[0], f[1]) + Blocks(lines, f[2..] + [x]);
        Block(lines, f[0], f[1]) + (Blocks(lines, f[2..]) + (if open then Block(lines, f[|f| - 1], x) else []));
      }
    } else if |f| == 1 {
      assert g[2..] == [];
      assert Blocks(lines, g) == Block(lines, f[0], x);
    } else {
      assert Blocks(lines, g) == [];
    }
  }

  /** Every two positions give at most one block. */
  lemma {:induction false} BlocksCount(lines: seq<string>, f: seq<nat>)
    requires Below(f, |lines|)
    ensures 2 * |Blocks(lines, f)| <= |f|
    decreases |f|
  {
    if |f| >= 2 {
      BlocksCount(lines, f[2..]);
    }
  }

  /** Block `k` lies between the positions `f[2 * j]` and `f[2 * j + 1]` for some `j`. */
  lemma {:induction false} BlockPair(lines: seq<string>, f: seq<nat>, k: nat) returns (j: nat)
    requires Below(f, |lines|)
    requires k < |Blocks(lines, f)|
    ensures 2 * j + 1 < |f| && f[2 * j] + 1 < f[2 * j + 1]
    ensures Blocks(lines, f)[k] == Join(lines[f[2 * j] + 1..f[2 * j + 1]])
    decreases |f|
  {
    var first := Block(lines, f[0], f[1]);
    if k < |first| {
      j := 0;
    } else {
      var j' := BlockPair(lines, f[2..], k - |first|);
      j := j' + 1;
    }
  }

  /** Cutting the positions after an even number of them cuts the blocks in the same place. */
  lemma {:induction false} BlocksSplit(lines: seq<string>, f: seq<nat>, j: nat)
    requires Below(f, |lines|) && 2 * j <= |f|
    ensures Below(f[..2 * j], |lines|) && Below(f[2 * j..], |lines|)
    ensures Blocks(lines, f) == Blocks(lines, f[..2 * j]) + Blocks(lines, f[2 * j..])
    decreases j
  {
    if j == 0 {
      assert f[..0] == [] && f[0..] == f;
    } else {
      var rest := f[2..];
      BlocksSplit(lines, rest, j - 1);
      assert rest[2 * (j - 1)..] == f[2 * j..];
      var g := f[..2 * j];
      assert g[2..] == rest[..2 * (j - 1)];
      assert g[0] == f[0] && g[1] == f[1];
    }
  }

  /**
   * Conversely, every pair `f[2 * j]`, `f[2 * j + 1]` with a line between them
   * gives a block, placed after the blocks of the earlier pairs.
   */
  lemma PairBlock(lines: seq<string>, f: seq<nat>, j: nat) returns (k: nat)
    requires Below(f, |lines|)
    requires 2 * j + 1 < |f| && f[2 * j] + 1 < f[2 * j + 1]
    ensures Below(f[..2 * j], |lines|) && k == |Blocks(lines, f[..2 * j])|
    ensures k < |Blocks(lines, f)| && Blocks(lines, f)[k] == Join(lines[f[2 * j] + 1..f[2 * j + 1]])
  {
    BlocksSplit(lines, f, j);
    k := |Blocks(lines, f[..2 * j])|;
    var h := f[2 * j..];
    assert h[0] == f[2 * j] && h[1] == f[2 * j + 1];
    assert Blocks(lines, h)[0] == Join(lines[f[2 * j] + 1..f[2 * j + 1]]);
  }

  /** The line at a fence position is a fence. */
  lemma FenceLineIsFence(lines: seq<string>, m: nat)
    requires m < |FenceLines(lines)|
    ensures FenceLines(lines)[m] < |lines| && IsFence(lines[FenceLines(lines)[m]])
  {
    PositionsSound(lines, FenceTest(), m);
  }

  /** No line between two consecutive fence positions is a fence. */
  lemma NoFenceBetween(lines: seq<string>, m: nat, i: nat)
    requires m + 1 < |FenceLines(lines)|
    requires FenceLines(lines)[m] < i < FenceLines(lines)[m + 1]
    ensures i < |lines| && !IsFence(lines[i])
  {
    PositionsGap(lines, FenceTest(), m, i);
  }

  /**
   * The `j`-th pair of fence positions: an opening fence preceded by `2 * j`
   * fences and the next fence after it.
   */
  lemma FencePair(lines: seq<string>, j: nat) returns (a: nat, b: nat)
    requires 2 * j + 1 < |FenceLines(lines)|
    ensures a == FenceLines(lines)[2 * j] && b == FenceLines(lines)[2 * j + 1]
    ensures a < b < |lines|
    ensures IsFence(lines[a]) && IsFence(lines[b])
    ensures |FenceLines(lines[..a])| == 2 * j
    ensures forall i :: a < i < b ==> !IsFence(lines[i])
  {
    a, b := FenceLines(lines)[2 * j], FenceLines(lines)[2 * j + 1];
    FenceLineIsFence(lines, 2 * j);
    FenceLineIsFence(lines, 2 * j + 1);
    forall i | a < i < b
      ensures !IsFence(lines[i])
    {
      NoFenceBetween(lines, 2 * j, i);
    }
    PositionsRank(lines, FenceTest(), 2 * j);
  }

  /**
   * Every example is the newline join of a non-empty run of lines that starts
   * right after an opening fence (one preceded by an even number `2 * j` of fences)
   * and ends right before the next fence; no fence line is part of it.
   */
  lemma BlockBetweenFences(lines: seq<string>, k: nat) returns (a: nat, b: nat, j: nat)
    requires k < |CodeBlocks(lines)|
    ensures a + 1 < b < |lines|
    ensures IsFence(lines[a]) && IsFence(lines[b])
    ensures |FenceLines(lines[..a])| == 2 * j
    ensures forall i :: a < i < b ==> !IsFence(lines[i])
    ensures CodeBlocks(lines)[k] == Join(lines[a + 1..b])
  {
    j := BlockPair(lines, FenceLines(lines), k);
    a, b := FencePair(lines, j);
  }

  /**
   * Every closed block with at least one line yields its example: pair `j`
   * gives example number `k`, where `k` counts the examples of the earlier pairs.
   */
  lemma FencePairYieldsExample(lines: seq<string>, j: nat) returns (k: nat)
    requires 2 * j + 1 < |FenceLines(lines)|
    requires FenceLines(lines)[2 * j] + 1 < FenceLines(lines)[2 * j + 1]
    ensures k == |Blocks(lines, FenceLines(lines)[..2 * j])|
    ensures k < |CodeBlocks(lines)|
    ensures CodeBlocks(lines)[k] == Join(lines[FenceLines(lines)[2 * j] + 1..FenceLines(lines)[2 * j + 1]])
  {
    k := PairBlock(lines, FenceLines(lines), j);
  }

  /**
   * The state of the scanner after the first `i` lines: the fences seen so
   * far, how many blocks they closed, whether a block is open, the lines
   * buffered for it and the examples collected.
   */
  ghost predicate Scanned(lines: seq<string>, i: nat, f: seq<nat>, pairs: nat, open: bool,
                          current: seq<string>, examples: seq<string>)
  {
    && i <= |lines|
    && f == FenceLines(lines[..i])
    && Below(f, i)
    && examples == Blocks(lines, f)
    && |f| == 2 * pairs + (if open then 1 else 0)
    && (open ==> f[|f| - 1] < i && current == lines[f[|f| - 1] + 1..i])
    && (!open ==> current == [])
  }

  /** A fence while a block is open closes it and keeps its lines, if there are any. */
  lemma FenceCloses(lines: seq<string>, i: nat, f: seq<nat>, pairs: nat, current: seq<string>, examples: seq<string>)
    requires i < |lines| && IsFence(lines[i])
    requires Scanned(lines, i, f, pairs, true, current, examples)
    ensures Scanned(lines, i + 1, f + [i], pairs + 1, false, [],
                    examples + if current != [] then [Join(current)] else [])
  {
    FenceLinesExtend(lines, i);
    BlocksExtend(lines, f, pairs, true, i);
  }

  /** A fence while no block is open opens one with an empty buffer. */
  lemma FenceOpens(lines: seq<string>, i: nat, f: seq<nat>, pairs: nat, examples: seq<string>)
    requires i < |lines| && IsFence(lines[i])
    requires Scanned(lines, i, f, pairs, false, [], examples)
    ensures Scanned(lines, i + 1, f + [i], pairs, true, [], examples)
  {
    FenceLinesExtend(lines, i);
    BlocksExtend(lines, f, pairs, false, i);
  }

  /** Any other line is buffered when a block is open and ignored otherwise. */
  lemma OtherLine(lines: seq<string>, i: nat, f: seq<nat>, pairs: nat, open: bool, current: seq<string>, examples: seq<string>)
    requires i < |lines| && !IsFence(lines[i])
    requires Scanned(lines, i, f, pairs, open, current, examples)
    ensures Scanned(lines, i + 1, f, pairs, open, if open then current + [lines[i]] else current, examples)
  {
    FenceLinesExtend(lines, i);
    if open {
      assert lines[f[|f| - 1] + 1..i + 1] == lines[f[|f| - 1] + 1..i] + [lines[i]];
    }
  }

  /** The scanner both services run over the lines of a reply. */
  method ScanCodeBlocks(lines: seq<string>) returns (examples: seq<string>)
    ensures examples == CodeBlocks(lines)
  {
    examples := [];
    var inCodeBlock := false;
    var current: seq<string> := [];
    ghost var f: seq<nat> := [];  // the fences seen so far
    ghost var pairs: nat := 0;    // the blocks closed so far
    for i := 0 to |lines|
      invariant Scanned(lines, i, f, pairs, inCodeBlock, current, examples)
    {
      if StartsWith(Strip(lines[i]), "```") {
        if inCodeBlock {
          FenceCloses(lines, i, f, pairs, current, examples);
          if current != [] {
            examples := examples + [Join(current)];
            current := [];
          }
          inCodeBlock := false;
          pairs := pairs + 1;
        } else {
          FenceOpens(lines, i, f, pairs, examples);
          inCodeBlock := true;
        }
        f := f + [i];
      } else {
        OtherLine(lines, i, f, pairs, inCodeBlock, current, examples);
        if inCodeBlock {
          current := current + [lines[i]];
        }
      }
    }
    assert lines[..|lines|] == lines;
  }

  /** A reply without fence lines yields no example. */
  lemma NoFenceNoExample(lines: seq<string>)
    requires forall i :: 0 <= i < |lines| ==> !IsFence(lines[i])
    ensures CodeBlocks(lines) == []
  {
    PositionsCount(lines, FenceTest());
  }
}
