/** The comment scanner (LexicalAnalyzer): a single pass over the text that reports every
    Python-style comment it meets as tokens with a numeric code and a 1-based (line,
    column) position, and every multi-line comment left open at the end as an error.

    `Analysis` is the specification: a state machine whose `LexStep` handles one line
    feed, one `#` comment, one multi-line comment or one other character. The class
    `LexicalAnalyzer` holds the source's token and error lists and its `Analyze` loop is
    proved to compute it. */
module Lexer {
  import opened TextUtil
  import opened Positions

  /** The token types of the code table. */
  datatype TokenKind =
    | SingleLineCommentStart
    | MultiLineCommentStart
    | MultiLineCommentEnd
    | CommentText
    | Error

  /** The code table: each token type and its numeric code. */
  function Code(kind: TokenKind): (code: int)
    ensures 1 <= code <= 5
  {
    match kind
    case SingleLineCommentStart => 1
    case MultiLineCommentStart => 2
    case MultiLineCommentEnd => 3
    case CommentText => 4
    case Error => 5
  }

  /** A token: its code, its type (standing for the source's type label), its text and
      where it starts. */
  datatype LexicalToken = LexicalToken(code: int, kind: TokenKind, value: string, line: int, column: int)

  /** The error reported for a multi-line comment without an end, at its opening position. */
  datatype LexError = UnclosedComment(line: int, column: int)

  function Tok(kind: TokenKind, value: string, line: int, column: int): LexicalToken {
    LexicalToken(Code(kind), kind, value, line, column)
  }

  /** Where the body scan of a multi-line comment stops, the position it has reached there,
      and whether it stopped at a closing delimiter. */
  datatype BodyEnd = BodyEnd(at: nat, line: int, col: int, found: bool)

  /** The body loop of a multi-line comment opened with `q`, from index `k`: it runs while
      three characters remain and stops at the first three copies of `q`. */
  function ScanBody(text: string, k: nat, line: int, col: int, q: char): (b: BodyEnd)
    requires k <= |text| && IsQuote(q)
    ensures k <= b.at <= |text|
    ensures b.found ==> TripleAt(text, b.at, q)
    ensures !b.found ==> b.at == if k + 2 < |text| then |text| - 2 else k
    ensures forall m :: k <= m < b.at ==> !TripleAt(text, m, q)
    decreases |text| - k
  {
    if k + 2 < |text| then
      if text[k] == '\n' then ScanBody(text, k + 1, line + 1, 1, q)
      else if TripleAt(text, k, q) then BodyEnd(k, line, col, true)
      else ScanBody(text, k + 1, line, col + 1, q)
    else BodyEnd(k, line, col, false)
  }

  /** The scanner's state between two turns of its main loop. */
  datatype Lex = Lex(i: nat, line: int, col: int, tokens: seq<LexicalToken>, errors: seq<LexError>)

  function LexInitial(): Lex {
    Lex(0, 1, 1, [], [])
  }

  /** The single-line comment whose `#` is at `s.i`: the marker, then the trimmed rest of
      its line, one column on. */
  function LineComment(text: string, s: Lex): (t: Lex)
    requires s.i < |text|
    ensures s.i < t.i <= |text|
  {
    var e := LineEnd(text, s.i + 1);
    s.(i := e, col := s.col + (e - s.i),
       tokens := s.tokens + [Tok(SingleLineCommentStart, "#", s.line, s.col),
                             Tok(CommentText, Trim(text[s.i + 1..e]), s.line, s.col + 1)])
  }

  /** The multi-line comment opened at `s.i` (three copies of `q` start there). */
  function MultiLine(text: string, s: Lex, q: char): (t: Lex)
    requires TripleAt(text, s.i, q) && IsQuote(q)
    ensures s.i < t.i <= |text|
  {
    var b := ScanBody(text, s.i + 3, s.line, s.col + 3, q);
    s.(i := if b.found then b.at + 3 else b.at,
       line := b.line,
       col := if b.found then b.col + 3 else b.col,
       tokens := s.tokens + [Tok(MultiLineCommentStart, Triple(q), s.line, s.col),
                             Tok(CommentText, Trim(text[s.i + 3..b.at]), s.line, s.col + 3)]
                          + (if b.found then [Tok(MultiLineCommentEnd, Triple(q), b.line, b.col)] else []),
       errors := s.errors + (if b.found then [] else [UnclosedComment(s.line, s.col)]))
  }

  /** One turn of the main loop of Analyze. */
  function LexStep(text: string, s: Lex): (t: Lex)
    requires s.i < |text|
    ensures s.i < t.i <= |text|
  {
    var c := text[s.i];
    if c == '\n' then
      s.(i := s.i + 1, line := s.line + 1, col := 1)
    else if c == '#' then
      LineComment(text, s)
    else if IsQuote(c) && TripleAt(text, s.i, c) then
      MultiLine(text, s, c)
    else
      s.(i := s.i + 1, col := s.col + 1)
  }

  /** The main loop of Analyze, from state `s` to the end of the text. */
  function LexRun(text: string, s: Lex): (t: Lex)
    requires s.i <= |text|
    ensures t.i == |text|
    decreases |text| - s.i
  {
    if s.i == |text| then s else LexRun(text, LexStep(text, s))
  }

  lemma LexRunStep(text: string, s: Lex)
    requires s.i < |text|
    ensures LexRun(text, s) == LexRun(text, LexStep(text, s))
  {
  }

  /** What Analyze(text) leaves in the token and error lists: every token belongs to a `#`
      comment or a multi-line comment, with the positions of its group, and every error
      stands for an opener whose closer was never found (see `Grouped`). */
  function Analysis(text: string): (r: Lex)
    ensures Grouped(r.tokens, r.errors)
  {
    LexRunGrouped(text, LexInitial());
    LexRun(text, LexInitial())
  }

  // ---------------------------------------------------------------------------
  // Properties of the scan

  /** The code table gives every token type its own code. */
  lemma CodeTableIsInjective()
    ensures forall k1, k2 :: Code(k1) == Code(k2) ==> k1 == k2
  {
  }

  /** `ts` starts with a `#` marker and its text, one column on. */
  predicate LineGroup(ts: seq<LexicalToken>) {
    && |ts| >= 2
    && ts[0] == Tok(SingleLineCommentStart, "#", ts[0].line, ts[0].column)
    && ts[1] == Tok(CommentText, ts[1].value, ts[0].line, ts[0].column + 1)
  }

  /** `ts` starts with a three-quote opener and its text, three columns on. */
  predicate OpenHead(ts: seq<LexicalToken>) {
    && |ts| >= 2
    && ts[0] == Tok(MultiLineCommentStart, ts[0].value, ts[0].line, ts[0].column)
    && IsDelimiter(ts[0].value)
    && ts[1] == Tok(CommentText, ts[1].value, ts[0].line, ts[0].column + 3)
  }

  /** `ts` starts with an opener, its text and a closer with the same quotes. */
  predicate ClosedGroup(ts: seq<LexicalToken>) {
    OpenHead(ts) && |ts| >= 3 && ts[2] == Tok(MultiLineCommentEnd, ts[0].value, ts[2].line, ts[2].column)
  }

  /** The tokens come in groups: a `#` marker and its text; or an opener, its text and a
      closer with the same quotes; or an opener and its text alone, which goes with the
      next error, reported at the opener's position. No token has the type Error. */
  predicate Grouped(ts: seq<LexicalToken>, errs: seq<LexError>)
    decreases |ts|
  {
    || (ts == [] && errs == [])
    || (LineGroup(ts) && Grouped(ts[2..], errs))
    || (ClosedGroup(ts) && Grouped(ts[3..], errs))
    || (OpenHead(ts) && !(|ts| >= 3 && ts[2].kind == MultiLineCommentEnd)
        && errs != [] && errs[0] == UnclosedComment(ts[0].line, ts[0].column) && Grouped(ts[2..], errs[1..]))
  }

  lemma {:induction false} GroupedAppend(a: seq<LexicalToken>, ea: seq<LexError>, b: seq<LexicalToken>, eb: seq<LexError>)
    requires Grouped(a, ea) && Grouped(b, eb)
    ensures Grouped(a + b, ea + eb)
    decreases |a|
  {
    if a == [] {
      assert a + b == b && ea + eb == eb;
    } else {
      if LineGroup(a) && Grouped(a[2..], ea) {
        GroupedAppend(a[2..], ea, b, eb);
        LineGroupAppend(a, ea, b, eb);
      } else if ClosedGroup(a) && Grouped(a[3..], ea) {
        GroupedAppend(a[3..], ea, b, eb);
        ClosedGroupAppend(a, ea, b, eb);
      } else {
        GroupedAppend(a[2..], ea[1..], b, eb);
        UnclosedAppend(a, ea, b, eb);
      }
    }
  }

  lemma LineGroupAppend(a: seq<LexicalToken>, ea: seq<LexError>, b: seq<LexicalToken>, eb: seq<LexError>)
    requires LineGroup(a) && Grouped(a[2..] + b, ea + eb)
    ensures Grouped(a + b, ea + eb)
  {
    var ab := a + b;
    assert ab[0] == a[0] && ab[1] == a[1];
    assert ab[2..] == a[2..] + b;
    assert LineGroup(ab);
  }

  lemma ClosedGroupAppend(a: seq<LexicalToken>, ea: seq<LexError>, b: seq<LexicalToken>, eb: seq<LexError>)
    requires ClosedGroup(a) && Grouped(a[3..] + b, ea + eb)
    ensures Grouped(a + b, ea + eb)
  {
    var ab := a + b;
    assert ab[0] == a[0] && ab[1] == a[1] && ab[2] == a[2];
    assert ab[3..] == a[3..] + b;
    assert ClosedGroup(ab);
  }

  /** A group never starts with a closer. */
  lemma GroupedStart(b: seq<LexicalToken>, eb: seq<LexError>)
    requires Grouped(b, eb) && b != []
    ensures b[0].kind != MultiLineCommentEnd
  {
  }

  lemma UnclosedAppend(a: seq<LexicalToken>, ea: seq<LexError>, b: seq<LexicalToken>, eb: seq<LexError>)
    requires OpenHead(a) && !(|a| >= 3 && a[2].kind == MultiLineCommentEnd)
    requires ea != [] && ea[0] == UnclosedComment(a[0].line, a[0].column)
    requires Grouped(b, eb) && Grouped(a[2..] + b, ea[1..] + eb)
    ensures Grouped(a + b, ea + eb)
  {
    var ab := a + b;
    assert ab[0] == a[0] && ab[1] == a[1];
    assert ab[2..] == a[2..] + b;
    assert (ea + eb)[1..] == ea[1..] + eb;
    assert OpenHead(ab);
    if |a| == 2 && b != [] {
      GroupedStart(b, eb);
      assert ab[2] == b[0];
    } else if |a| > 2 {
      assert ab[2] == a[2];
    }
  }

  lemma LineCommentGrouped(text: string, s: Lex)
    requires s.i < |text|
    ensures var t := LineComment(text, s);
      && |s.tokens| <= |t.tokens| && t.tokens[..|s.tokens|] == s.tokens && t.errors == s.errors
      && Grouped(t.tokens[|s.tokens|..], [])
  {
    var t := LineComment(text, s);
    var g := t.tokens[|s.tokens|..];
    assert LineGroup(g) && g[2..] == [];
  }

  lemma MultiLineGrouped(text: string, s: Lex, q: char)
    requires TripleAt(text, s.i, q) && IsQuote(q)
    ensures var t := MultiLine(text, s, q);
      && |s.tokens| <= |t.tokens| && t.tokens[..|s.tokens|] == s.tokens
      && |s.errors| <= |t.errors| && t.errors[..|s.errors|] == s.errors
      && Grouped(t.tokens[|s.tokens|..], t.errors[|s.errors|..])
  {
    var t := MultiLine(text, s, q);
    var b := ScanBody(text, s.i + 3, s.line, s.col + 3, q);
    var g := t.tokens[|s.tokens|..];
    var eg := t.errors[|s.errors|..];
    if b.found {
      assert eg == [] && |g| == 3 && ClosedGroup(g) && g[3..] == [];
    } else {
      assert eg == [UnclosedComment(s.line, s.col)] && |g| == 2 && OpenHead(g);
      assert g[2..] == [] && eg[1..] == [];
    }
  }

  /** The tokens and errors one turn adds. */
  lemma LexStepGrouped(text: string, s: Lex)
    requires s.i < |text|
    ensures var t := LexStep(text, s);
      && |s.tokens| <= |t.tokens| && t.tokens[..|s.tokens|] == s.tokens
      && |s.errors| <= |t.errors| && t.errors[..|s.errors|] == s.errors
      && Grouped(t.tokens[|s.tokens|..], t.errors[|s.errors|..])
  {
    var c := text[s.i];
    if c == '#' {
      LineCommentGrouped(text, s);
    } else if c != '\n' && IsQuote(c) && TripleAt(text, s.i, c) {
      MultiLineGrouped(text, s, c);
    } else {
      var t := LexStep(text, s);
      assert t.tokens[|s.tokens|..] == [] && t.errors[|s.errors|..] == [];
    }
  }

  lemma {:induction false} LexRunGrouped(text: string, s: Lex)
    requires s.i <= |text| && Grouped(s.tokens, s.errors)
    ensures Grouped(LexRun(text, s).tokens, LexRun(text, s).errors)
    decreases |text| - s.i
  {
    if s.i < |text| {
      var t := LexStep(text, s);
      LexStepGrouped(text, s);
      assert t.tokens == s.tokens + t.tokens[|s.tokens|..];
      assert t.errors == s.errors + t.errors[|s.errors|..];
      GroupedAppend(s.tokens, s.errors, t.tokens[|s.tokens|..], t.errors[|s.errors|..]);
      LexRunGrouped(text, t);
    }
  }

  lemma {:induction false} GroupedKinds(ts: seq<LexicalToken>, errs: seq<LexError>)
    requires Grouped(ts, errs)
    ensures forall j :: 0 <= j < |ts| ==> ts[j].kind != Error && ts[j].code == Code(ts[j].kind)
    decreases |ts|
  {
    if ts != [] {
      var n: nat;
      if LineGroup(ts) && Grouped(ts[2..], errs) {
        n := 2;
        GroupedKinds(ts[2..], errs);
      } else if ClosedGroup(ts) && Grouped(ts[3..], errs) {
        n := 3;
        GroupedKinds(ts[3..], errs);
      } else {
        n := 2;
        GroupedKinds(ts[2..], errs[1..]);
      }
      forall j | n <= j < |ts|
        ensures ts[j].kind != Error && ts[j].code == Code(ts[j].kind)
      {
        assert ts[j] == ts[n..][j - n];
      }
    }
  }

  /** Every token carries the code of its type from the table, and the type Error (code 5)
      is never emitted. */
  lemma AnalysisCodes(text: string)
    ensures forall j :: 0 <= j < |Analysis(text).tokens| ==>
      var t := Analysis(text).tokens[j];
      t.kind != Error && t.code == Code(t.kind) && 1 <= t.code <= 4
  {
    GroupedKinds(Analysis(text).tokens, Analysis(text).errors);
  }

  /** A comment starts at `m`: a `#`, or three copies of a quote character. */
  predicate CommentStartAt(text: string, m: int) {
    0 <= m < |text| && (text[m] == '#' || (IsQuote(text[m]) && TripleAt(text, m, text[m])))
  }

  lemma {:induction false} LexRunEmpty(text: string, s: Lex)
    requires s.i <= |text|
    ensures LexRun(text, s).tokens == [] <==>
      s.tokens == [] && forall m :: s.i <= m < |text| ==> !CommentStartAt(text, m)
    decreases |text| - s.i
  {
    if s.i < |text| {
      var t := LexStep(text, s);
      LexStepGrouped(text, s);
      LexRunEmpty(text, t);
      if s.tokens == [] && !CommentStartAt(text, s.i) {
        assert t.tokens == [];
      } else {
        assert t.tokens != [] by {
          if s.tokens == [] {
            assert CommentStartAt(text, s.i);
          }
        }
      }
    }
  }

  /** The scan reports no token exactly when no comment starts anywhere in the text, and
      then it reports no error either. */
  lemma AnalysisEmptyIff(text: string)
    ensures Analysis(text).tokens == [] <==> forall m :: 0 <= m < |text| ==> !CommentStartAt(text, m)
    ensures Analysis(text).tokens == [] ==> Analysis(text).errors == []
  {
    LexRunEmpty(text, LexInitial());
  }

  /** The scanner's (line, column) is that of its index. */
  predicate Tracks(text: string, s: Lex)
    requires s.i <= |text|
  {
    s.line == LineOf(text, s.i) && s.col == ColOf(text, s.i)
  }

  lemma {:induction false} ScanBodyTracks(text: string, k: nat, line: int, col: int, q: char)
    requires k <= |text| && IsQuote(q)
    requires line == LineOf(text, k) && col == ColOf(text, k)
    ensures var b := ScanBody(text, k, line, col, q);
      b.line == LineOf(text, b.at) && b.col == ColOf(text, b.at)
    decreases |text| - k
  {
    if k + 2 < |text| && !TripleAt(text, k, q) {
      if text[k] == '\n' {
        ScanBodyTracks(text, k + 1, line + 1, 1, q);
      } else {
        ScanBodyTracks(text, k + 1, line, col + 1, q);
      }
    }
  }

  /** The comment text a scan starting at index `k` reads: after a `#`, the rest of its
      line; after three copies of a quote, the body up to where the body scan stops; trimmed
      either way. */
  predicate CommentTextAt(text: string, k: nat, value: string)
    requires k <= |text|
  {
    && 1 <= k
    && (text[k - 1] == '#' ==> value == Trim(text[k..LineEnd(text, k)]))
    && (text[k - 1] != '#' ==>
          && 3 <= k && IsQuote(text[k - 1]) && TripleAt(text, k - 3, text[k - 1])
          && value == Trim(text[k..ScanBody(text, k, LineOf(text, k), ColOf(text, k), text[k - 1]).at]))
  }

  /** A token's (line, column) is the position of an index `k` of the text; a delimiter's
      value is the text found at `k`, and a comment text's value is the comment read from `k`. */
  predicate Anchored(text: string, t: LexicalToken) {
    var k := CharIndex(text, t.line, t.column);
    && 0 <= k <= |text|
    && t.line == LineOf(text, k) && t.column == ColOf(text, k)
    && (t.kind == CommentText ==> CommentTextAt(text, k, t.value))
    && (t.kind != CommentText ==> k + |t.value| <= |text| && text[k..k + |t.value|] == t.value)
  }

  /** A delimiter token made at the position of index `k`, where its value occurs. */
  lemma DelimiterAnchored(text: string, k: nat, kind: TokenKind, value: string)
    requires k + |value| <= |text| && text[k..k + |value|] == value && kind != CommentText
    ensures Anchored(text, Tok(kind, value, LineOf(text, k), ColOf(text, k)))
  {
    CharIndexOfPosition(text, k);
  }

  /** The text of a `#` comment, made at the position just after the marker. */
  lemma LineTextAnchored(text: string, k: nat)
    requires 1 <= k <= |text| && text[k - 1] == '#'
    ensures Anchored(text, Tok(CommentText, Trim(text[k..LineEnd(text, k)]), LineOf(text, k), ColOf(text, k)))
  {
    CharIndexOfPosition(text, k);
  }

  /** The text of a multi-line comment, made at the position just after its opener. */
  lemma BodyAnchored(text: string, k: nat, line: int, col: int, q: char)
    requires 3 <= k <= |text| && IsQuote(q) && TripleAt(text, k - 3, q)
    requires line == LineOf(text, k) && col == ColOf(text, k)
    ensures Anchored(text, Tok(CommentText, Trim(text[k..ScanBody(text, k, line, col, q).at]), line, col))
  {
    CharIndexOfPosition(text, k);
    assert text[k - 1] == q;
  }

  /** A `#` marker token made at the position of index `k`, where the `#` is. */
  lemma MarkerAnchored(text: string, k: nat)
    requires k < |text| && text[k] == '#'
    ensures Anchored(text, Tok(SingleLineCommentStart, "#", LineOf(text, k), ColOf(text, k)))
  {
    assert text[k..k + 1] == "#";
    DelimiterAnchored(text, k, SingleLineCommentStart, "#");
  }

  lemma LineCommentAnchored(text: string, s: Lex)
    requires s.i < |text| && text[s.i] == '#' && Tracks(text, s)
    ensures var t := LineComment(text, s);
      Tracks(text, t) && forall j :: |s.tokens| <= j < |t.tokens| ==> Anchored(text, t.tokens[j])
  {
    var e := LineEnd(text, s.i + 1);
    AdvanceWithinLine(text, s.i, e);
    AdvanceWithinLine(text, s.i, s.i + 1);
    MarkerAnchored(text, s.i);
    LineTextAnchored(text, s.i + 1);
    var marker := Tok(SingleLineCommentStart, "#", s.line, s.col);
    var body := Tok(CommentText, Trim(text[s.i + 1..e]), s.line, s.col + 1);
    assert LineComment(text, s).tokens == s.tokens + [marker, body];
  }

  lemma MultiLineTracks(text: string, s: Lex)
    requires s.i < |text| && IsQuote(text[s.i]) && TripleAt(text, s.i, text[s.i]) && Tracks(text, s)
    ensures Tracks(text, MultiLine(text, s, text[s.i]))
  {
    var q := text[s.i];
    AdvanceWithinLine(text, s.i, s.i + 3);
    ScanBodyTracks(text, s.i + 3, s.line, s.col + 3, q);
    var b := ScanBody(text, s.i + 3, s.line, s.col + 3, q);
    var t := MultiLine(text, s, q);
    assert t.i == (if b.found then b.at + 3 else b.at) && t.line == b.line && t.col == (if b.found then b.col + 3 else b.col);
    if b.found {
      assert TripleAt(text, b.at, q);
      AdvanceWithinLine(text, b.at, b.at + 3);
    }
  }

  /** A three-quote delimiter token made at the position of index `k`, where it occurs. */
  lemma TripleAnchored(text: string, k: nat, kind: TokenKind, q: char)
    requires TripleAt(text, k, q) && kind != CommentText
    ensures Anchored(text, Tok(kind, Triple(q), LineOf(text, k), ColOf(text, k)))
  {
    assert text[k..k + 3] == Triple(q);
    DelimiterAnchored(text, k, kind, Triple(q));
  }

  /** Tokens appended after anchored ones, each anchored itself, leave every token anchored. */
  lemma AnchoredSuffix(text: string, ts: seq<LexicalToken>, added: seq<LexicalToken>)
    requires forall k :: 0 <= k < |added| ==> Anchored(text, added[k])
    ensures forall j :: |ts| <= j < |ts + added| ==> Anchored(text, (ts + added)[j])
  {
    forall j | |ts| <= j < |ts + added|
      ensures Anchored(text, (ts + added)[j])
    {
      assert (ts + added)[j] == added[j - |ts|];
    }
  }

  /** The opener and the comment text of a multi-line comment are anchored. */
  lemma MultiLineHeadAnchored(text: string, s: Lex)
    requires s.i < |text| && IsQuote(text[s.i]) && TripleAt(text, s.i, text[s.i]) && Tracks(text, s)
    ensures var q := text[s.i];
      var b := ScanBody(text, s.i + 3, s.line, s.col + 3, q);
      && Anchored(text, Tok(MultiLineCommentStart, Triple(q), s.line, s.col))
      && Anchored(text, Tok(CommentText, Trim(text[s.i + 3..b.at]), s.line, s.col + 3))
  {
    var q := text[s.i];
    var b := ScanBody(text, s.i + 3, s.line, s.col + 3, q);
    TripleAnchored(text, s.i, MultiLineCommentStart, q);
    AdvanceWithinLine(text, s.i, s.i + 3);
    BodyAnchored(text, s.i + 3, s.line, s.col + 3, q);
  }

  /** The closer of a multi-line comment, when found, is anchored. */
  lemma MultiLineCloserAnchored(text: string, s: Lex)
    requires s.i < |text| && IsQuote(text[s.i]) && TripleAt(text, s.i, text[s.i]) && Tracks(text, s)
    requires ScanBody(text, s.i + 3, s.line, s.col + 3, text[s.i]).found
    ensures var q := text[s.i];
      var b := ScanBody(text, s.i + 3, s.line, s.col + 3, q);
      Anchored(text, Tok(MultiLineCommentEnd, Triple(q), b.line, b.col))
  {
    var q := text[s.i];
    AdvanceWithinLine(text, s.i, s.i + 3);
    ScanBodyTracks(text, s.i + 3, s.line, s.col + 3, q);
    var b := ScanBody(text, s.i + 3, s.line, s.col + 3, q);
    TripleAnchored(text, b.at, MultiLineCommentEnd, q);
  }

  /** The tokens a multi-line comment appends: opener, text and, when found, closer. */
  lemma MultiLineTokens(text: string, s: Lex)
    requires s.i < |text| && IsQuote(text[s.i]) && TripleAt(text, s.i, text[s.i]) && Tracks(text, s)
    ensures var q := text[s.i];
      var b := ScanBody(text, s.i + 3, s.line, s.col + 3, q);
      var t := MultiLine(text, s, q);
      t.tokens == s.tokens + [Tok(MultiLineCommentStart, Triple(q), s.line, s.col), Tok(CommentText, Trim(text[s.i + 3..b.at]), s.line, s.col + 3)]
         + (if b.found then [Tok(MultiLineCommentEnd, Triple(q), b.line, b.col)] else [])
  {
  }

  lemma MultiLineAnchored(text: string, s: Lex)
    requires s.i < |text| && IsQuote(text[s.i]) && TripleAt(text, s.i, text[s.i]) && Tracks(text, s)
    ensures var t := MultiLine(text, s, text[s.i]);
      forall j :: |s.tokens| <= j < |t.tokens| ==> Anchored(text, t.tokens[j])
  {
    var q := text[s.i];
    var b := ScanBody(text, s.i + 3, s.line, s.col + 3, q);
    var opener := Tok(MultiLineCommentStart, Triple(q), s.line, s.col);
    var body := Tok(CommentText, Trim(text[s.i + 3..b.at]), s.line, s.col + 3);
    MultiLineHeadAnchored(text, s);
    MultiLineTokens(text, s);
    if b.found {
      var closer := Tok(MultiLineCommentEnd, Triple(q), b.line, b.col);
      MultiLineCloserAnchored(text, s);
      assert MultiLine(text, s, q).tokens == s.tokens + [opener, body, closer];
      AnchoredSuffix(text, s.tokens, [opener, body, closer]);
    } else {
      assert MultiLine(text, s, q).tokens == s.tokens + [opener, body];
      AnchoredSuffix(text, s.tokens, [opener, body]);
    }
  }

  lemma {:induction false} LexRunAnchored(text: string, s: Lex)
    requires s.i <= |text| && Tracks(text, s)
    requires forall j :: 0 <= j < |s.tokens| ==> Anchored(text, s.tokens[j])
    ensures forall j :: 0 <= j < |LexRun(text, s).tokens| ==> Anchored(text, LexRun(text, s).tokens[j])
    decreases |text| - s.i
  {
    if s.i < |text| {
      var t := LexStep(text, s);
      var c := text[s.i];
      LexStepGrouped(text, s);
      if c == '#' {
        LineCommentAnchored(text, s);
      } else if IsQuote(c) && TripleAt(text, s.i, c) {
        MultiLineTracks(text, s);
        MultiLineAnchored(text, s);
      }
      forall j | 0 <= j < |s.tokens|
        ensures Anchored(text, t.tokens[j])
      {
        assert t.tokens[j] == t.tokens[..|s.tokens|][j];
      }
      LexRunAnchored(text, t);
    }
  }

  /** Every token stands at the (line, column) of an index of the text: a delimiter's value
      is the text at that index, and a comment text's value is the trimmed rest of the `#`
      line, or the trimmed body of the multi-line comment, that starts there. */
  lemma AnalysisAnchored(text: string)
    ensures forall j :: 0 <= j < |Analysis(text).tokens| ==> Anchored(text, Analysis(text).tokens[j])
  {
    LexRunAnchored(text, LexInitial());
  }

  class LexicalAnalyzer {
    var tokens: seq<LexicalToken>
    var errors: seq<LexError>

    constructor()
      ensures tokens == [] && errors == []
    {
      tokens := [];
      errors := [];
    }

    /** Analyze: clear both lists, then scan the text once. */
    method Analyze(text: string)
      modifies this
      ensures tokens == Analysis(text).tokens && errors == Analysis(text).errors
    {
      tokens := [];
      errors := [];
      var i, line, col := 0, 1, 1;
      while i < |text|
        invariant i <= |text|
        invariant LexRun(text, Lex(i, line, col, tokens, errors)) == Analysis(text)
        decreases |text| - i
      {
        ghost var s := Lex(i, line, col, tokens, errors);
        LexRunStep(text, s);
        i, line, col := AnalyzeAt(text, i, line, col);
      }
    }

    /** One turn of the main loop of Analyze, at index `i`. */
    method AnalyzeAt(text: string, i: nat, line: int, col: int) returns (i': nat, line': int, col': int)
      requires i < |text|
      modifies this
      ensures Lex(i', line', col', tokens, errors) == LexStep(text, Lex(i, line, col, old(tokens), old(errors)))
    {
      var length := |text|;
      var current := text[i];
      if current == '\n' {
        i', line', col' := i + 1, line + 1, 1;
        return;
      }
      if current == '#' {
        i', col' := ReadLineComment(text, i, line, col);
        line' := line;
        return;
      }
      if (current == '"' || current == '\'') && i + 2 < length && text[i + 1] == current && text[i + 2] == current {
        i', line', col' := ReadMultiLineComment(text, i, line, col);
        return;
      }
      i', line', col' := i + 1, line, col + 1;
    }

    /** The `#` branch of Analyze: the marker, then the trimmed rest of its line. */
    method ReadLineComment(text: string, i: nat, line: int, col: int) returns (i': nat, col': int)
      requires i < |text| && text[i] == '#'
      modifies this
      ensures Lex(i', line, col', tokens, errors) == LineComment(text, Lex(i, line, col, old(tokens), old(errors)))
    {
      var length := |text|;
      var startLine, startCol := line, col;
      tokens := tokens + [Tok(SingleLineCommentStart, "#", startLine, startCol)];
      i', col' := i + 1, col + 1;
      var commentStart := i';
      while i' < length && text[i'] != '\n'
        invariant commentStart <= i' <= length
        invariant forall k :: commentStart <= k < i' ==> text[k] != '\n'
        invariant col' == col + (i' - i)
        decreases length - i'
      {
        i', col' := i' + 1, col' + 1;
      }
      LineEndUnique(text, commentStart, i');
      tokens := tokens + [Tok(CommentText, Trim(text[commentStart..i']), startLine, startCol + 1)];
    }

    /** The multi-line branch of Analyze: the opening delimiter, the trimmed body, and
        either the closing delimiter or an error at the opening position. */
    method ReadMultiLineComment(text: string, i: nat, line: int, col: int) returns (i': nat, line': int, col': int)
      requires i < |text| && IsQuote(text[i]) && TripleAt(text, i, text[i])
      modifies this
      ensures var b := ScanBody(text, i + 3, line, col + 3, text[i]);
        && i' == (if b.found then b.at + 3 else b.at) && line' == b.line && col' == (if b.found then b.col + 3 else b.col)
        && tokens == old(tokens) + [Tok(MultiLineCommentStart, Triple(text[i]), line, col),
                                    Tok(CommentText, Trim(text[i + 3..b.at]), line, col + 3)]
                                 + (if b.found then [Tok(MultiLineCommentEnd, Triple(text[i]), b.line, b.col)] else [])
        && errors == old(errors) + (if b.found then [] else [UnclosedComment(line, col)])
    {
      var length := |text|;
      var quoteType := text[i];
      var tripleQuote := Triple(quoteType);
      var startLine, startCol := line, col;
      tokens := tokens + [Tok(MultiLineCommentStart, tripleQuote, startLine, startCol)];
      i', line', col' := i + 3, line, col + 3;
      var commentStart := i';
      var endFound := false;
      ghost var body := ScanBody(text, commentStart, line, col + 3, quoteType);
      while i' + 2 < length
        invariant commentStart <= i' <= length
        invariant ScanBody(text, i', line', col', quoteType) == body
        decreases length - i'
      {
        if text[i'] == '\n' {
          i', line', col' := i' + 1, line' + 1, 1;
          continue;
        }
        if text[i'] == quoteType && text[i' + 1] == quoteType && text[i' + 2] == quoteType {
          endFound := true;
          break;
        }
        i', col' := i' + 1, col' + 1;
      }
      assert body == BodyEnd(i', line', col', endFound);
      tokens := tokens + [Tok(CommentText, Trim(text[commentStart..i']), startLine, startCol + 3)];
      if endFound {
        tokens := tokens + [Tok(MultiLineCommentEnd, tripleQuote, line', col')];
        i', col' := i' + 3, col' + 3;
      } else {
        errors := errors + [UnclosedComment(startLine, startCol)];
      }
    }
  }
}
