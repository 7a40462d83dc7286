/** Character-level helpers shared by the delimiter corrector, the comment scanner and
    the host's (line, column) conversion: quote runs, line ends, the (line, column) of an
    index, the quote-free view of a text, and trimming. */
module TextUtil {

  /** The two quote characters that can form a multi-line comment delimiter. */
  predicate IsQuote(c: char) {
    c == '\'' || c == '"'
  }

  /** The delimiter of a multi-line comment opened with `q`: three copies of `q`. */
  function Triple(q: char): string {
    [q, q, q]
  }

  /** The delimiter of a multi-line comment: three single or three double quotes. */
  predicate IsDelimiter(token: string) {
    token == Triple('\'') || token == Triple('"')
  }

  /** Three copies of `q` start at index `k` of `text`. */
  predicate TripleAt(text: string, k: int, q: char) {
    0 <= k && k + 2 < |text| && text[k] == q && text[k + 1] == q && text[k + 2] == q
  }

  /** End (exclusive) of the maximal run of `q` that starts at `j`. */
  function RunEnd(text: string, j: nat, q: char): (e: nat)
    requires j <= |text|
    ensures j <= e <= |text|
    ensures forall k :: j <= k < e ==> text[k] == q
    ensures e == |text| || text[e] != q
    decreases |text| - j
  {
    if j < |text| && text[j] == q then RunEnd(text, j + 1, q) else j
  }

  /** The maximal run is unique: any end that satisfies RunEnd's contract is RunEnd. */
  lemma {:induction false} RunEndUnique(text: string, j: nat, q: char, e: nat)
    requires j <= e <= |text|
    requires forall k :: j <= k < e ==> text[k] == q
    requires e == |text| || text[e] != q
    ensures e == RunEnd(text, j, q)
    decreases e - j
  {
    if j < e {
      RunEndUnique(text, j + 1, q, e);
    }
  }

  /** The first index at or after `j` holding a line feed, or the end of the text. */
  function LineEnd(text: string, j: nat): (e: nat)
    requires j <= |text|
    ensures j <= e <= |text|
    ensures forall k :: j <= k < e ==> text[k] != '\n'
    ensures e == |text| || text[e] == '\n'
    decreases |text| - j
  {
    if j < |text| && text[j] != '\n' then LineEnd(text, j + 1) else j
  }

  /** Any index satisfying LineEnd's contract is LineEnd. */
  lemma {:induction false} LineEndUnique(text: string, j: nat, e: nat)
    requires j <= e <= |text|
    requires forall k :: j <= k < e ==> text[k] != '\n'
    requires e == |text| || text[e] == '\n'
    ensures e == LineEnd(text, j)
    decreases e - j
  {
    if j < e {
      LineEndUnique(text, j + 1, e);
    }
  }

  /** The 1-based line of index `k`: one more than the line feeds before it. */
  function LineOf(text: string, k: nat): (line: int)
    requires k <= |text|
    ensures 1 <= line <= k + 1
  {
    if k == 0 then 1 else LineOf(text, k - 1) + (if text[k - 1] == '\n' then 1 else 0)
  }

  /** The 1-based column of index `k`: it restarts at 1 after every line feed. */
  function ColOf(text: string, k: nat): (col: int)
    requires k <= |text|
    ensures 1 <= col <= k + 1
  {
    if k == 0 || text[k - 1] == '\n' then 1 else ColOf(text, k - 1) + 1
  }

  /** Moving over characters that are not line feeds keeps the line and advances the column one by one. */
  lemma {:induction false} AdvanceWithinLine(text: string, i: nat, e: nat)
    requires i <= e <= |text|
    requires forall k :: i <= k < e ==> text[k] != '\n'
    ensures LineOf(text, e) == LineOf(text, i)
    ensures ColOf(text, e) == ColOf(text, i) + (e - i)
    decreases e - i
  {
    if e > i {
      AdvanceWithinLine(text, i, e - 1);
    }
  }

  /** `s` without its quote characters. */
  function Unquoted(s: string): (r: string)
    ensures |r| <= |s|
  {
    if s == [] then []
    else Unquoted(s[..|s| - 1]) + (if IsQuote(s[|s| - 1]) then [] else [s[|s| - 1]])
  }

  lemma {:induction false} UnquotedAppend(a: string, b: string)
    ensures Unquoted(a + b) == Unquoted(a) + Unquoted(b)
    decreases |b|
  {
    if b != [] {
      var b' := b[..|b| - 1];
      assert (a + b)[..|a + b| - 1] == a + b';
      UnquotedAppend(a, b');
    } else {
      assert a + b == a;
    }
  }

  /** A string made of quote characters only has no quote-free content. */
  lemma {:induction false} UnquotedOfQuotes(s: string)
    requires forall k :: 0 <= k < |s| ==> IsQuote(s[k])
    ensures Unquoted(s) == []
    decreases |s|
  {
    if s != [] {
      UnquotedOfQuotes(s[..|s| - 1]);
    }
  }

  /** The whitespace that trimming removes (a fixed set standing for the platform's). */
  predicate IsWhite(c: char) {
    c == ' ' || c == '\t' || c == '\n' || c == '\r' || c == '\U{000B}' || c == '\U{000C}'
  }

  /** The first index at or after `k` that is not whitespace, or the end. */
  function SkipWhite(s: string, k: nat): (a: nat)
    requires k <= |s|
    ensures k <= a <= |s|
    ensures forall m :: k <= m < a ==> IsWhite(s[m])
    ensures a == |s| || !IsWhite(s[a])
    decreases |s| - k
  {
    if k < |s| && IsWhite(s[k]) then SkipWhite(s, k + 1) else k
  }

  /** The end of `s[lo..b]` once its trailing whitespace is dropped. */
  function DropWhite(s: string, lo: nat, b: nat): (e: nat)
    requires lo <= b <= |s|
    ensures lo <= e <= b
    ensures forall m :: e <= m < b ==> IsWhite(s[m])
    ensures e == lo || !IsWhite(s[e - 1])
    decreases b - lo
  {
    if lo < b && IsWhite(s[b - 1]) then DropWhite(s, lo, b - 1) else b
  }

  /** `s` without leading and trailing whitespace. */
  function Trim(s: string): (r: string)
    ensures r == [] || (!IsWhite(r[0]) && !IsWhite(r[|r| - 1]))
  {
    var a := SkipWhite(s, 0);
    s[a..DropWhite(s, a, |s|)]
  }

  /** Trimming leaves nothing exactly when the string is all whitespace. */
  lemma TrimEmptyIff(s: string)
    ensures Trim(s) == [] <==> forall m :: 0 <= m < |s| ==> IsWhite(s[m])
  {
    var a := SkipWhite(s, 0);
    if a < |s| {
      assert !IsWhite(s[a]);
    }
  }

  /** Trimming a trimmed string changes nothing. */
  lemma TrimIdempotent(s: string)
    ensures Trim(Trim(s)) == Trim(s)
  {
    var r := Trim(s);
    if r != [] {
      assert SkipWhite(r, 0) == 0;
      assert DropWhite(r, 0, |r|) == |r|;
    }
  }
}
