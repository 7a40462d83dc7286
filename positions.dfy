/** The editor's conversion of a 1-based (line, column) pair into a character offset of
    its text, and the span it highlights for each corrector diagnostic. The offset is
    found by splitting the text at line feeds and adding up the widths of the lines
    before the requested one. */
module Positions {
  import opened TextUtil
  import Corrector

  /** The pieces of `text[p..]` between line feeds, as splitting at '\n' yields them. */
  function SplitFrom(text: string, p: nat): (lines: seq<string>)
    requires p <= |text|
    ensures |lines| >= 1
    decreases |text| - p
  {
    var e := LineEnd(text, p);
    if e == |text| then [text[p..]] else [text[p..e]] + SplitFrom(text, e + 1)
  }

  /** `text` split at every line feed: one piece per line. */
  function SplitLines(text: string): (lines: seq<string>)
    ensures |lines| == LineOf(text, |text|)
  {
    SplitFromProperties(text, 0);
    SplitFrom(text, 0)
  }

  /** The pieces put back together with a line feed between neighbours. */
  function JoinLines(lines: seq<string>): string {
    if |lines| == 0 then ""
    else if |lines| == 1 then lines[0]
    else lines[0] + "\n" + JoinLines(lines[1..])
  }

  /** The line after the line feed that ends the line starting at `p`. */
  lemma NextLine(text: string, p: nat)
    requires p <= |text|
    requires LineEnd(text, p) < |text|
    ensures LineOf(text, LineEnd(text, p) + 1) == LineOf(text, p) + 1
  {
    AdvanceWithinLine(text, p, LineEnd(text, p));
  }

  /** A line that reaches the end of the text is the last line. */
  lemma LastLine(text: string, p: nat)
    requires p <= |text|
    requires LineEnd(text, p) == |text|
    ensures LineOf(text, |text|) == LineOf(text, p)
  {
    AdvanceWithinLine(text, p, |text|);
  }

  lemma {:induction false} LineOfMonotonic(text: string, i: nat, k: nat)
    requires i <= k <= |text|
    ensures LineOf(text, i) <= LineOf(text, k)
    decreases k - i
  {
    if i < k {
      LineOfMonotonic(text, i, k - 1);
    }
  }

  lemma {:induction false} SplitFromProperties(text: string, p: nat)
    requires p <= |text|
    ensures JoinLines(SplitFrom(text, p)) == text[p..]
    ensures |SplitFrom(text, p)| == LineOf(text, |text|) - LineOf(text, p) + 1
    ensures forall j, k :: 0 <= j < |SplitFrom(text, p)| && 0 <= k < |SplitFrom(text, p)[j]| ==>
              SplitFrom(text, p)[j][k] != '\n'
    decreases |text| - p
  {
    var e := LineEnd(text, p);
    if e == |text| {
      LastLine(text, p);
    } else {
      NextLine(text, p);
      SplitFromProperties(text, e + 1);
      var rest := SplitFrom(text, e + 1);
      assert SplitFrom(text, p) == [text[p..e]] + rest;
      assert text[p..] == text[p..e] + "\n" + text[e + 1..];
    }
  }

  /** Splitting at line feeds is undone by joining with line feeds, and leaves no line feed
      inside a piece. */
  lemma SplitLinesRoundTrip(text: string)
    ensures JoinLines(SplitLines(text)) == text
    ensures forall j, k :: 0 <= j < |SplitLines(text)| && 0 <= k < |SplitLines(text)[j]| ==>
              SplitLines(text)[j][k] != '\n'
  {
    SplitFromProperties(text, 0);
    assert text[0..] == text;
  }

  /** Starting at `p`, pass `n` line feeds; once there is no line feed left to pass the
      result is one past the end of the text (the width of the last line plus one). */
  function SkipLines(text: string, p: nat, n: int): (r: int)
    requires p <= |text|
    ensures p <= r <= |text| + 1
    decreases |text| - p
  {
    if n <= 0 then p
    else
      var e := LineEnd(text, p);
      if e == |text| then |text| + 1 else SkipLines(text, e + 1, n - 1)
  }

  /** The offset that (line, col) denotes in `text`: the start of line `line`, plus `col - 1`. */
  function CharIndex(text: string, line: int, col: int): (index: int)
    ensures col - 1 <= index <= |text| + col
  {
    SkipLines(text, 0, line - 1) + (col - 1)
  }

  /** Width of the first `m` lines, each counted with the line feed that ends it. */
  function PrefixWidth(lines: seq<string>, m: nat): int
    requires m <= |lines|
  {
    if m == 0 then 0 else |lines[0]| + 1 + PrefixWidth(lines[1..], m - 1)
  }

  lemma {:induction false} PrefixWidthStep(lines: seq<string>, m: nat)
    requires m < |lines|
    ensures PrefixWidth(lines, m + 1) == PrefixWidth(lines, m) + |lines[m]| + 1
  {
    if m > 0 {
      PrefixWidthStep(lines[1..], m - 1);
    }
  }

  lemma {:induction false} PrefixWidthIsSkip(text: string, p: nat, m: nat)
    requires p <= |text|
    requires m <= |SplitFrom(text, p)|
    ensures p + PrefixWidth(SplitFrom(text, p), m) == SkipLines(text, p, m)
    decreases |text| - p
  {
    if m > 0 {
      var e := LineEnd(text, p);
      if e < |text| {
        PrefixWidthIsSkip(text, e + 1, m - 1);
      }
    }
  }

  lemma {:induction false} SkipPastLastLine(text: string, p: nat, n: int)
    requires p <= |text|
    requires n > LineOf(text, |text|) - LineOf(text, p)
    ensures SkipLines(text, p, n) == |text| + 1
    decreases |text| - p
  {
    var e := LineEnd(text, p);
    if e == |text| {
      LastLine(text, p);
    } else {
      NextLine(text, p);
      SkipPastLastLine(text, e + 1, n - 1);
    }
  }

  lemma {:induction false} SkipLandsAfterLineFeed(text: string, p: nat, n: int)
    requires p <= |text|
    requires 1 <= n <= LineOf(text, |text|) - LineOf(text, p)
    ensures var r := SkipLines(text, p, n);
      p < r <= |text| && text[r - 1] == '\n' && LineOf(text, r) == LineOf(text, p) + n
    decreases |text| - p
  {
    var e := LineEnd(text, p);
    if e == |text| {
      LastLine(text, p);
    } else {
      NextLine(text, p);
      if n > 1 {
        SkipLandsAfterLineFeed(text, e + 1, n - 1);
      }
    }
  }

  lemma {:induction false} SkipToLineOf(text: string, p: nat, k: nat)
    requires p <= k <= |text|
    requires p == 0 || text[p - 1] == '\n'
    ensures SkipLines(text, p, LineOf(text, k) - LineOf(text, p)) == k - ColOf(text, k) + 1
    decreases |text| - p
  {
    var e := LineEnd(text, p);
    if k <= e {
      AdvanceWithinLine(text, p, k);
    } else {
      NextLine(text, p);
      LineOfMonotonic(text, e + 1, k);
      SkipToLineOf(text, e + 1, k);
    }
  }

  /** On line 1 (or a line number below it) the offset is `col - 1`, and every extra
      column adds exactly one to the offset. */
  lemma CharIndexFirstLine(text: string, line: int, col: int)
    requires line <= 1
    ensures CharIndex(text, line, col) == col - 1
    ensures CharIndex(text, line, col + 1) == CharIndex(text, line, col) + 1
  {
  }

  /** On a line that exists beyond the first, the offset minus `col - 1` is the index just
      after the (line-1)-th line feed, and every extra column adds exactly one. */
  lemma CharIndexInnerLine(text: string, line: int, col: int)
    requires 2 <= line <= LineOf(text, |text|)
    ensures var p := CharIndex(text, line, col) - (col - 1);
      0 < p <= |text| && text[p - 1] == '\n' && LineOf(text, p) == line
    ensures CharIndex(text, line, col + 1) == CharIndex(text, line, col) + 1
  {
    SkipLandsAfterLineFeed(text, 0, line - 1);
  }

  /** Past the last line the sum of line widths stops at the whole text plus one. */
  lemma CharIndexPastLastLine(text: string, line: int, col: int)
    requires line > LineOf(text, |text|)
    ensures CharIndex(text, line, col) == |text| + col
  {
    SkipPastLastLine(text, 0, line - 1);
  }

  /** The conversion inverts position tracking: the (line, column) of index `k` maps back to `k`. */
  lemma CharIndexOfPosition(text: string, k: nat)
    requires k <= |text|
    ensures CharIndex(text, LineOf(text, k), ColOf(text, k)) == k
  {
    SkipToLineOf(text, 0, k);
  }

  /** GetCharIndexFromLineAndColumn: add up the widths of the lines before `line`. */
  method GetCharIndexFromLineAndColumn(text: string, line: int, col: int) returns (index: int)
    ensures index == CharIndex(text, line, col)
  {
    var lines := SplitLines(text);
    index := 0;
    var i := 0;
    while i < line - 1 && i < |lines|
      invariant 0 <= i <= |lines|
      invariant i == 0 || i <= line - 1
      invariant index == PrefixWidth(lines, i)
    {
      PrefixWidthStep(lines, i);
      index := index + |lines[i]| + 1;
      i := i + 1;
    }
    PrefixWidthIsSkip(text, 0, i);
    if i < line - 1 {
      SplitLinesRoundTrip(text);
      SkipPastLastLine(text, 0, line - 1);
      SkipPastLastLine(text, 0, i);
    }
    index := index + (col - 1);
  }

  /** The selection made for one diagnostic: its start offset and its length. */
  datatype Span = Span(start: int, length: int)

  /** The span loop of HighlightErrorsInRichTextBox: each diagnostic is highlighted from its
      offset for as many characters as its expected token has, cut short at the end of the text. */
  method HighlightErrors(text: string, errors: seq<Corrector.ParsingError>) returns (spans: seq<Span>)
    ensures |spans| == |errors|
    ensures forall j :: 0 <= j < |errors| ==>
      var start := CharIndex(text, errors[j].line, errors[j].column);
      var want := |errors[j].expectedToken|;
      && spans[j].start == start
      && spans[j].length <= want
      && spans[j].start + spans[j].length <= |text|
      && (start + want <= |text| ==> spans[j].length == want)
      && (start + want > |text| ==> spans[j].start + spans[j].length == |text|)
  {
    spans := [];
    for j := 0 to |errors|
      invariant |spans| == j
      invariant forall m :: 0 <= m < j ==>
        var start := CharIndex(text, errors[m].line, errors[m].column);
        var want := |errors[m].expectedToken|;
        && spans[m].start == start
        && spans[m].length <= want
        && spans[m].start + spans[m].length <= |text|
        && (start + want <= |text| ==> spans[m].length == want)
        && (start + want > |text| ==> spans[m].start + spans[m].length == |text|)
    {
      var error := errors[j];
      var startIndex := GetCharIndexFromLineAndColumn(text, error.line, error.column);
      var length := |error.expectedToken|;
      if startIndex + length > |text| {
        length := |text| - startIndex;
      }
      spans := spans + [Span(startIndex, length)];
    }
  }
}
