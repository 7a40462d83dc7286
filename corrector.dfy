/** The delimiter corrector (RawTextParser): an immediate-recovery pass over raw text that
    copies it to an output buffer, rewrites every quote run it treats as a delimiter to
    exactly three quotes, closes every block still open at the end of the input, and
    reports each repair as a numbered diagnostic.

    `Correction` is the specification: a state machine whose `Step` handles one line feed,
    one `#` comment, one quote run or one ordinary character. The class `RawTextParser`
    holds the source's mutable fields and its `Correct` loop is proved to compute it. */
module Corrector {
  import opened TextUtil

  /** The five diagnostics, standing for the source's message strings. */
  datatype ErrorKind =
    | InsufficientOpenQuotes
    | ExcessOpenQuotes
    | InsufficientCloseQuotes
    | ExcessCloseQuotes
    | UnterminatedComment

  datatype ParsingError = ParsingError(number: int, kind: ErrorKind, expectedToken: string, line: int, column: int)

  /** An open multi-line block: where its opening run started, its quote character, and
      where its three quotes were written in the output (recorded, never read). */
  datatype OpenBlock = OpenBlock(startLine: int, startCol: int, quoteChar: char, outputIndex: int)

  /** The corrector's state between two steps; the block stack has its top at the end. */
  datatype Scan = Scan(i: nat, line: int, col: int, out: string, stack: seq<OpenBlock>, errors: seq<ParsingError>)

  /** The corrected text and the diagnostics of one call. */
  datatype Outcome = Outcome(correctedText: string, errors: seq<ParsingError>)

  /** AddError: append a diagnostic numbered after the ones already reported. */
  function Report(errors: seq<ParsingError>, kind: ErrorKind, q: char, line: int, col: int): (r: seq<ParsingError>)
    ensures |r| == |errors| + 1 && r[..|errors|] == errors
    ensures r[|errors|].number == |errors| + 1 && r[|errors|].kind == kind
    ensures r[|errors|].expectedToken == Triple(q) && r[|errors|].line == line && r[|errors|].column == col
    ensures Numbered(errors) ==> Numbered(r)
  {
    errors + [ParsingError(|errors| + 1, kind, Triple(q), line, col)]
  }

  function Initial(): Scan {
    Scan(0, 1, 1, "", [], [])
  }

  /** One turn of the main loop of Correct. */
  function Step(text: string, s: Scan): (t: Scan)
    requires s.i < |text|
    ensures s.i < t.i <= |text|
  {
    var c := text[s.i];
    if c == '\n' then
      s.(i := s.i + 1, line := s.line + 1, col := 1, out := s.out + "\n")
    else if c == '#' then
      // the marker and the rest of its line are copied, in a block or not
      var e := LineEnd(text, s.i + 1);
      s.(i := e, col := s.col + (e - s.i), out := s.out + text[s.i..e])
    else if IsQuote(c) then
      var j := RunEnd(text, s.i, c);
      var n := j - s.i;
      if |s.stack| > 0 && s.stack[|s.stack| - 1].quoteChar == c then
        // a run of the top block's quote closes it, whatever its length
        var errors :=
          if n < 3 then Report(s.errors, InsufficientCloseQuotes, c, s.line, s.col)
          else if n > 3 then Report(s.errors, ExcessCloseQuotes, c, s.line, s.col)
          else s.errors;
        s.(i := j, col := s.col + n, out := s.out + Triple(c), stack := s.stack[..|s.stack| - 1], errors := errors)
      else
        // any other run opens a block; the column moves on by 3 whatever the run's length
        var errors :=
          if n < 3 then Report(s.errors, InsufficientOpenQuotes, c, s.line, s.col)
          else if n > 3 then Report(s.errors, ExcessOpenQuotes, c, s.line, s.col)
          else s.errors;
        s.(i := j, col := s.col + 3, out := s.out + Triple(c),
           stack := s.stack + [OpenBlock(s.line, s.col, c, |s.out|)], errors := errors)
    else
      s.(i := s.i + 1, col := s.col + 1, out := s.out + [c])
  }

  /** The main loop of Correct, from state `s` to the end of the input. */
  function Run(text: string, s: Scan): (t: Scan)
    requires s.i <= |text|
    ensures t.i == |text|
    decreases |text| - s.i
  {
    if s.i == |text| then s else Run(text, Step(text, s))
  }

  lemma RunStep(text: string, s: Scan)
    requires s.i < |text|
    ensures Run(text, s) == Run(text, Step(text, s))
  {
  }

  /** End of input: pop every open block, top first, report it unterminated at its opening
      position and append its three quotes. */
  function Drain(out: string, errors: seq<ParsingError>, stack: seq<OpenBlock>): (r: Outcome)
    ensures |r.errors| == |errors| + |stack| && |r.correctedText| == |out| + 3 * |stack|
    decreases |stack|
  {
    if stack == [] then Outcome(out, errors)
    else
      var top := stack[|stack| - 1];
      Drain(out + Triple(top.quoteChar),
            Report(errors, UnterminatedComment, top.quoteChar, top.startLine, top.startCol),
            stack[..|stack| - 1])
  }

  /** What Correct(text) returns; its diagnostics are numbered 1, 2, 3, ... consecutively
      in discovery order. */
  function Correction(text: string): (r: Outcome)
    ensures Numbered(r.errors)
  {
    var s := Run(text, Initial());
    RunKeepsNumbering(text, Initial());
    DrainKeepsNumbering(s.out, s.errors, s.stack);
    Drain(s.out, s.errors, s.stack)
  }

  // ---------------------------------------------------------------------------
  // Properties of the correction

  /** Diagnostics are numbered 1, 2, 3, ... in the order they are reported. */
  predicate Numbered(errors: seq<ParsingError>) {
    forall k :: 0 <= k < |errors| ==> errors[k].number == k + 1
  }

  /** A step appends at most one diagnostic and never changes the earlier ones; it only
      appends to the output. */
  lemma StepExtends(text: string, s: Scan)
    requires s.i < |text|
    ensures var t := Step(text, s);
      && |s.errors| <= |t.errors| <= |s.errors| + 1 && t.errors[..|s.errors|] == s.errors
      && (|t.errors| > |s.errors| ==> t.errors[|s.errors|].number == |s.errors| + 1)
      && |s.out| < |t.out| && t.out[..|s.out|] == s.out
  {
  }

  lemma {:induction false} RunKeepsNumbering(text: string, s: Scan)
    requires s.i <= |text| && Numbered(s.errors)
    ensures Numbered(Run(text, s).errors)
    decreases |text| - s.i
  {
    if s.i < |text| {
      StepExtends(text, s);
      RunKeepsNumbering(text, Step(text, s));
    }
  }

  /** Draining the stack reports every block still open as unterminated at its opening
      position, top first (block `k`, counted from the bottom, is the `|stack| - k`-th
      report), numbered on from the diagnostics before it. */
  lemma {:induction false} DrainReportsEveryBlock(out: string, errors: seq<ParsingError>, stack: seq<OpenBlock>)
    ensures var r := Drain(out, errors, stack);
      && |r.errors| == |errors| + |stack| && r.errors[..|errors|] == errors
      && (forall k :: 0 <= k < |stack| ==>
            r.errors[|errors| + |stack| - 1 - k]
              == ParsingError(|errors| + |stack| - k, UnterminatedComment, Triple(stack[k].quoteChar),
                              stack[k].startLine, stack[k].startCol))
    decreases |stack|
  {
    if stack != [] {
      var top := stack[|stack| - 1];
      var errors' := Report(errors, UnterminatedComment, top.quoteChar, top.startLine, top.startCol);
      var rest := stack[..|stack| - 1];
      DrainReportsEveryBlock(out + Triple(top.quoteChar), errors', rest);
      var r := Drain(out + Triple(top.quoteChar), errors', rest);
      assert r.errors[..|errors'|] == errors';
      assert r.errors[..|errors|] == errors by {
        assert r.errors[..|errors|] == r.errors[..|errors'|][..|errors|];
      }
      assert r.errors[|errors|] == errors'[|errors|];
    }
  }

  /** Draining the stack appends the three quotes of every open block, top first, after
      the output so far. */
  lemma {:induction false} DrainClosesEveryBlock(out: string, errors: seq<ParsingError>, stack: seq<OpenBlock>)
    ensures var r := Drain(out, errors, stack);
      && |r.correctedText| == |out| + 3 * |stack| && r.correctedText[..|out|] == out
      && (forall k :: 0 <= k < |stack| ==>
            r.correctedText[|out| + 3 * (|stack| - 1 - k)..|out| + 3 * (|stack| - k)] == Triple(stack[k].quoteChar))
    decreases |stack|
  {
    if stack != [] {
      var top := stack[|stack| - 1];
      var out' := out + Triple(top.quoteChar);
      var rest := stack[..|stack| - 1];
      DrainClosesEveryBlock(out', Report(errors, UnterminatedComment, top.quoteChar, top.startLine, top.startCol), rest);
      var r := Drain(out', Report(errors, UnterminatedComment, top.quoteChar, top.startLine, top.startCol), rest);
      assert r.correctedText[..|out'|] == out';
      assert r.correctedText[..|out|] == out by {
        assert r.correctedText[..|out|] == r.correctedText[..|out'|][..|out|];
      }
      assert r.correctedText[|out|..|out| + 3] == Triple(top.quoteChar) by {
        assert r.correctedText[|out|..|out| + 3] == r.correctedText[..|out'|][|out|..];
      }
    }
  }

  /** Draining the stack keeps the diagnostics numbered consecutively. */
  lemma {:induction false} DrainKeepsNumbering(out: string, errors: seq<ParsingError>, stack: seq<OpenBlock>)
    requires Numbered(errors)
    ensures Numbered(Drain(out, errors, stack).errors)
    decreases |stack|
  {
    if stack != [] {
      var top := stack[|stack| - 1];
      DrainKeepsNumbering(out + Triple(top.quoteChar),
                          Report(errors, UnterminatedComment, top.quoteChar, top.startLine, top.startCol),
                          stack[..|stack| - 1]);
    }
  }

  lemma StepCopiesClean(text: string, s: Scan)
    requires s.i < |text|
    requires s.errors == [] ==> s.out == text[..s.i]
    ensures var t := Step(text, s);
      t.errors == [] ==> t.out == text[..t.i]
  {
    var t := Step(text, s);
    StepExtends(text, s);
    if t.errors == [] {
      assert s.errors == [];
      var c := text[s.i];
      assert text[..t.i] == text[..s.i] + text[s.i..t.i];
      if IsQuote(c) {
        assert text[s.i..t.i] == Triple(c);
      }
    }
  }

  lemma {:induction false} RunCleanCopies(text: string, s: Scan)
    requires s.i <= |text|
    requires s.errors == [] ==> s.out == text[..s.i]
    ensures Run(text, s).errors == [] ==> Run(text, s).out == text
    decreases |text| - s.i
  {
    if s.i == |text| {
      assert text[..s.i] == text;
    } else {
      StepCopiesClean(text, s);
      RunCleanCopies(text, Step(text, s));
    }
  }

  /** A call that reports nothing returns its input unchanged: when every quote run the
      corrector takes as a delimiter is exactly three long and every block is closed, the
      corrected text is the input. */
  lemma CleanCorrectionIsIdentity(text: string)
    ensures Correction(text).errors == [] ==> Correction(text).correctedText == text
  {
    var s := Run(text, Initial());
    RunCleanCopies(text, Initial());
    DrainReportsEveryBlock(s.out, s.errors, s.stack);
    DrainClosesEveryBlock(s.out, s.errors, s.stack);
  }

  lemma StepUnquotedDelta(text: string, s: Scan)
    requires s.i < |text|
    ensures var t := Step(text, s);
      Unquoted(t.out) == Unquoted(s.out) + Unquoted(text[s.i..t.i])
  {
    var t := Step(text, s);
    var c := text[s.i];
    if c == '\n' || c == '#' || !IsQuote(c) {
      assert t.out == s.out + text[s.i..t.i];
      UnquotedAppend(s.out, text[s.i..t.i]);
    } else {
      UnquotedAppend(s.out, Triple(c));
      UnquotedOfQuotes(Triple(c));
      UnquotedOfQuotes(text[s.i..t.i]);
    }
  }

  lemma UnquotedPrefix(text: string, i: nat, j: nat, out: string, out': string)
    requires i <= j <= |text|
    requires Unquoted(out) == Unquoted(text[..i])
    requires Unquoted(out') == Unquoted(out) + Unquoted(text[i..j])
    ensures Unquoted(out') == Unquoted(text[..j])
  {
    assert text[..j] == text[..i] + text[i..j];
    UnquotedAppend(text[..i], text[i..j]);
  }

  lemma StepKeepsUnquoted(text: string, s: Scan)
    requires s.i < |text|
    requires Unquoted(s.out) == Unquoted(text[..s.i])
    ensures var t := Step(text, s);
      Unquoted(t.out) == Unquoted(text[..t.i])
  {
    var t := Step(text, s);
    StepUnquotedDelta(text, s);
    UnquotedPrefix(text, s.i, t.i, s.out, t.out);
  }

  lemma {:induction false} RunKeepsUnquoted(text: string, s: Scan)
    requires s.i <= |text|
    requires Unquoted(s.out) == Unquoted(text[..s.i])
    ensures Unquoted(Run(text, s).out) == Unquoted(text)
    decreases |text| - s.i
  {
    if s.i == |text| {
      assert text[..s.i] == text;
    } else {
      StepKeepsUnquoted(text, s);
      RunKeepsUnquoted(text, Step(text, s));
    }
  }

  lemma {:induction false} DrainKeepsUnquoted(out: string, errors: seq<ParsingError>, stack: seq<OpenBlock>)
    requires forall k :: 0 <= k < |stack| ==> IsQuote(stack[k].quoteChar)
    ensures Unquoted(Drain(out, errors, stack).correctedText) == Unquoted(out)
    decreases |stack|
  {
    if stack != [] {
      var q := stack[|stack| - 1].quoteChar;
      UnquotedAppend(out, Triple(q));
      UnquotedOfQuotes(Triple(q));
      DrainKeepsUnquoted(out + Triple(q), Report(errors, UnterminatedComment, q, stack[|stack| - 1].startLine, stack[|stack| - 1].startCol), stack[..|stack| - 1]);
    }
  }

  /** The corrector only adds, removes or replaces quote characters: with the quotes
      taken out, the corrected text is the input. */
  lemma CorrectionKeepsUnquoted(text: string)
    ensures Unquoted(Correction(text).correctedText) == Unquoted(text)
  {
    var s := Run(text, Initial());
    RunKeepsUnquoted(text, Initial());
    RunPlaced(text, Initial());
    DrainKeepsUnquoted(s.out, s.errors, s.stack);
  }

  /** Positions stay on lines of the text read so far, the block stack only holds quote
      characters, and every diagnostic expects a delimiter at a position on an earlier or
      the current line. */
  predicate Placed(text: string, s: Scan)
    requires s.i <= |text|
  {
    && s.line == LineOf(text, s.i) && s.col >= 1
    && (forall k :: 0 <= k < |s.stack| ==>
          1 <= s.stack[k].startLine <= s.line && s.stack[k].startCol >= 1 && IsQuote(s.stack[k].quoteChar))
    && (forall k :: 0 <= k < |s.errors| ==>
          1 <= s.errors[k].line <= s.line && s.errors[k].column >= 1 && IsDelimiter(s.errors[k].expectedToken))
  }

  lemma QuoteStepPlaced(text: string, s: Scan)
    requires s.i < |text| && IsQuote(text[s.i]) && Placed(text, s)
    ensures Placed(text, Step(text, s))
  {
    var t := Step(text, s);
    var c := text[s.i];
    var j := RunEnd(text, s.i, c);
    AdvanceWithinLine(text, s.i, j);
    StepExtends(text, s);
    forall k | 0 <= k < |t.errors|
      ensures 1 <= t.errors[k].line <= t.line && t.errors[k].column >= 1 && IsDelimiter(t.errors[k].expectedToken)
    {
      if k < |s.errors| {
        assert t.errors[k] == t.errors[..|s.errors|][k];
      }
    }
  }

  lemma StepPlaced(text: string, s: Scan)
    requires s.i < |text| && Placed(text, s)
    ensures Placed(text, Step(text, s))
  {
    var c := text[s.i];
    if c == '#' {
      AdvanceWithinLine(text, s.i, Step(text, s).i);
    } else if c != '\n' && IsQuote(c) {
      QuoteStepPlaced(text, s);
    }
  }

  lemma {:induction false} RunPlaced(text: string, s: Scan)
    requires s.i <= |text| && Placed(text, s)
    ensures Placed(text, Run(text, s))
    decreases |text| - s.i
  {
    if s.i < |text| {
      StepPlaced(text, s);
      RunPlaced(text, Step(text, s));
    }
  }

  /** Every diagnostic expects a three-quote delimiter, at a column of at least 1 on a line
      of the text. */
  lemma CorrectionDiagnosticsPlaced(text: string)
    ensures forall k :: 0 <= k < |Correction(text).errors| ==>
      var e := Correction(text).errors[k];
      1 <= e.line <= LineOf(text, |text|) && e.column >= 1 && IsDelimiter(e.expectedToken)
  {
    var s := Run(text, Initial());
    RunPlaced(text, Initial());
    DrainReportsEveryBlock(s.out, s.errors, s.stack);
    var r := Correction(text);
    forall k | 0 <= k < |r.errors|
      ensures 1 <= r.errors[k].line <= LineOf(text, |text|) && r.errors[k].column >= 1 && IsDelimiter(r.errors[k].expectedToken)
    {
      if k < |s.errors| {
        assert r.errors[k] == r.errors[..|s.errors|][k];
      } else {
        var m := |s.errors| + |s.stack| - 1 - k;
        assert r.errors[|s.errors| + |s.stack| - 1 - m]
          == ParsingError(|s.errors| + |s.stack| - m, UnterminatedComment, Triple(s.stack[m].quoteChar),
                          s.stack[m].startLine, s.stack[m].startCol);
        assert IsQuote(s.stack[m].quoteChar);
      }
    }
  }

  lemma {:induction false} RunWithoutQuotes(text: string, s: Scan)
    requires s.i <= |text|
    requires forall k :: 0 <= k < |text| ==> !IsQuote(text[k])
    requires s.stack == [] && s.errors == []
    ensures Run(text, s).stack == [] && Run(text, s).errors == []
    decreases |text| - s.i
  {
    if s.i < |text| {
      RunWithoutQuotes(text, Step(text, s));
    }
  }

  /** Text without a quote character is returned unchanged and without diagnostics. */
  lemma QuoteFreeTextUnchanged(text: string)
    requires forall k :: 0 <= k < |text| ==> !IsQuote(text[k])
    ensures Correction(text) == Outcome(text, [])
  {
    RunWithoutQuotes(text, Initial());
    RunCleanCopies(text, Initial());
  }

  /** A line feed, a `#` with the rest of its line, or any other character that is not a
      quote is copied verbatim: the blocks and diagnostics stay as they are, a line feed
      starts the next line at column 1, and otherwise the column moves on by the characters
      copied. After a `#` the step stops only at the line end, so no quote on that line is
      taken as a delimiter. */
  lemma CopyStep(text: string, s: Scan)
    requires s.i < |text| && !IsQuote(text[s.i])
    ensures var t := Step(text, s);
      && t.out == s.out + text[s.i..t.i] && t.stack == s.stack && t.errors == s.errors
      && (text[s.i] == '#' ==> t.i == LineEnd(text, s.i + 1))
      && (text[s.i] != '#' ==> t.i == s.i + 1)
      && (text[s.i] == '\n' ==> t.line == s.line + 1 && t.col == 1)
      && (text[s.i] != '\n' ==> t.line == s.line && t.col == s.col + (t.i - s.i))
  {
    var t := Step(text, s);
    if text[s.i] != '#' {
      assert text[s.i..t.i] == [text[s.i]];
    }
  }

  /** The diagnostic for a quote run of length `n` other than 3, closing or opening a block. */
  function RunKind(closes: bool, n: int): ErrorKind {
    if closes then (if n < 3 then InsufficientCloseQuotes else ExcessCloseQuotes)
    else (if n < 3 then InsufficientOpenQuotes else ExcessOpenQuotes)
  }

  /** A quote run, however it is delimited: the step consumes the whole maximal run,
      writes exactly three quotes, closes the top block exactly when it was opened with the
      same quote (and opens a block remembering this position otherwise), and reports one
      diagnostic at the run's position exactly when the run is not three long. */
  lemma QuoteRunStep(text: string, s: Scan, j: nat)
    requires s.i < j <= |text| && IsQuote(text[s.i])
    requires forall k :: s.i <= k < j ==> text[k] == text[s.i]
    requires j == |text| || text[j] != text[s.i]
    ensures var c := text[s.i];
      var n := j - s.i;
      var closes := |s.stack| > 0 && s.stack[|s.stack| - 1].quoteChar == c;
      var t := Step(text, s);
      && t.i == j && t.line == s.line && t.out == s.out + Triple(c)
      && t.col == (if closes then s.col + n else s.col + 3)
      && t.stack == (if closes then s.stack[..|s.stack| - 1] else s.stack + [OpenBlock(s.line, s.col, c, |s.out|)])
      && t.errors == (if n == 3 then s.errors else Report(s.errors, RunKind(closes, n), c, s.line, s.col))
  {
    RunEndUnique(text, s.i, text[s.i], j);
  }

  class RawTextParser {
    var errors: seq<ParsingError>
    var errorNumber: int

    constructor ()
      ensures errors == [] && errorNumber == 1
    {
      errors := [];
      errorNumber := 1;
    }

    method AddError(kind: ErrorKind, expected: string, line: int, col: int)
      modifies this
      ensures errors == old(errors) + [ParsingError(old(errorNumber), kind, expected, line, col)]
      ensures errorNumber == old(errorNumber) + 1
    {
      errors := errors + [ParsingError(errorNumber, kind, expected, line, col)];
      errorNumber := errorNumber + 1;
    }

    /** Parse: the diagnostics of Correct, the corrected text discarded. */
    method Parse(text: string) returns (result: seq<ParsingError>)
      modifies this
      ensures result == Correction(text).errors
      ensures errors == result && errorNumber == |result| + 1
    {
      var _, _ := Correct(text);
      result := errors;
    }

    /** One turn of the main loop of Correct: a line feed, a `#` comment, a quote run or
        any other character, starting at index `i`. */
    method ScanAt(text: string, i: nat, line: int, col: int, sb: string, stack: seq<OpenBlock>)
      returns (i': nat, line': int, col': int, sb': string, stack': seq<OpenBlock>)
      requires i < |text|
      requires errorNumber == |errors| + 1
      modifies this
      ensures errorNumber == |errors| + 1
      ensures Scan(i', line', col', sb', stack', errors) == Step(text, Scan(i, line, col, sb, stack, old(errors)))
    {
      var length := |text|;
      var current := text[i];
      i', line', col', sb', stack' := i, line, col, sb, stack;

      if current == '\n' {
        sb' := sb' + "\n";
        line' := line' + 1;
        col' := 1;
        i' := i' + 1;
      } else if current == '#' {
        sb' := sb' + [current];
        i' := i' + 1;
        col' := col' + 1;
        while i' < length && text[i'] != '\n'
          invariant i < i' <= length
          invariant forall k :: i < k < i' ==> text[k] != '\n'
          invariant sb' == sb + text[i..i']
          invariant col' == col + (i' - i)
          decreases length - i'
        {
          assert text[i..i' + 1] == text[i..i'] + [text[i']];
          sb' := sb' + [text[i']];
          i' := i' + 1;
          col' := col' + 1;
        }
        LineEndUnique(text, i + 1, i');
      } else if current == '\'' || current == '"' {
        i', line', col', sb', stack' := ScanQuoteRun(text, i, line, col, sb, stack);
      } else {
        sb' := sb' + [current];
        i' := i' + 1;
        col' := col' + 1;
      }
    }

    /** A run of one quote character at index `i`: it closes the top block when that block
        was opened with the same quote, and opens a new block otherwise. */
    method ScanQuoteRun(text: string, i: nat, line: int, col: int, sb: string, stack: seq<OpenBlock>)
      returns (i': nat, line': int, col': int, sb': string, stack': seq<OpenBlock>)
      requires i < |text| && IsQuote(text[i])
      requires errorNumber == |errors| + 1
      modifies this
      ensures errorNumber == |errors| + 1
      ensures Scan(i', line', col', sb', stack', errors) == Step(text, Scan(i, line, col, sb, stack, old(errors)))
    {
      var length := |text|;
      var quoteChar := text[i];
      i', line', col', sb', stack' := i, line, col, sb, stack;
      var tokenStartCol := col;
      var count := 0;
      var j := i;
      while j < length && text[j] == quoteChar
        invariant i <= j <= length
        invariant count == j - i
        invariant forall k :: i <= k < j ==> text[k] == quoteChar
        decreases length - j
      {
        count := count + 1;
        j := j + 1;
      }
      QuoteRunStep(text, Scan(i, line, col, sb, stack, errors), j);
      if |stack| > 0 && stack[|stack| - 1].quoteChar == quoteChar {
        if count < 3 {
          AddError(InsufficientCloseQuotes, Triple(quoteChar), line, tokenStartCol);
          sb' := sb' + Triple(quoteChar);
        } else if count > 3 {
          AddError(ExcessCloseQuotes, Triple(quoteChar), line, tokenStartCol);
          sb' := sb' + Triple(quoteChar);
        } else {
          sb' := sb' + Triple(quoteChar);
        }
        stack' := stack'[..|stack'| - 1];
        i' := j;
        col' := col' + count;
      } else {
        if count < 3 {
          AddError(InsufficientOpenQuotes, Triple(quoteChar), line, tokenStartCol);
          count := 3;
          sb' := sb' + Triple(quoteChar);
        } else if count > 3 {
          AddError(ExcessOpenQuotes, Triple(quoteChar), line, tokenStartCol);
          count := 3;
          sb' := sb' + Triple(quoteChar);
        } else {
          sb' := sb' + Triple(quoteChar);
        }
        stack' := stack' + [OpenBlock(line, tokenStartCol, quoteChar, |sb'| - 3)];
        i' := j;
        col' := col' + count;
      }
    }

    method Correct(text: string) returns (correctedText: string, result: seq<ParsingError>)
      modifies this
      ensures Outcome(correctedText, result) == Correction(text)
      ensures errors == result && errorNumber == |result| + 1
    {
      errors := [];
      errorNumber := 1;
      var i, line, col := 0, 1, 1;
      var length := |text|;
      var sb: string := "";
      var stack: seq<OpenBlock> := [];

      while i < length
        invariant i <= length
        invariant errorNumber == |errors| + 1
        invariant Run(text, Scan(i, line, col, sb, stack, errors)) == Run(text, Initial())
        decreases length - i
      {
        ghost var s := Scan(i, line, col, sb, stack, errors);
        RunStep(text, s);
        i, line, col, sb, stack := ScanAt(text, i, line, col, sb, stack);
      }

      ghost var done := Scan(i, line, col, sb, stack, errors);
      assert done == Run(text, Initial());
      while |stack| > 0
        invariant errorNumber == |errors| + 1
        invariant Drain(sb, errors, stack) == Drain(done.out, done.errors, done.stack)
        decreases |stack|
      {
        var top := stack[|stack| - 1];
        stack := stack[..|stack| - 1];
        AddError(UnterminatedComment, Triple(top.quoteChar), top.startLine, top.startCol);
        sb := sb + Triple(top.quoteChar);
      }
      correctedText := sb;
      result := errors;
    }
  }
}
