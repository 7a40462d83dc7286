/** Worked inputs for the comment scanner, evaluated step by step. */
module LexerExamples {
  import opened TextUtil
  import opened Lexer
  import opened Positions

  const OpenerSingle: string := Triple('\'')

  /** The turn at the `#` of `x # hi `. */
  lemma LineCommentTurn()
    ensures LexStep("x # hi ", Lex(2, 1, 3, [], []))
         == Lex(7, 1, 8, [Tok(SingleLineCommentStart, "#", 1, 3), Tok(CommentText, "hi", 1, 4)], [])
  {
    var text := "x # hi ";
    assert LineEnd(text, 3) == 7;
    assert Trim(text[3..7]) == "hi" by {
      assert SkipWhite(text[3..7], 0) == 1;
      assert DropWhite(text[3..7], 1, 4) == 3;
    }
  }

  /** A `#` comment: the marker at its column and the trimmed text one column on. */
  lemma LineCommentTokens()
    ensures Analysis("x # hi ").tokens == [
      Tok(SingleLineCommentStart, "#", 1, 3),
      Tok(CommentText, "hi", 1, 4)]
    ensures Analysis("x # hi ").errors == []
  {
    var text := "x # hi ";
    var s1 := Lex(1, 1, 2, [], []);
    assert LexStep(text, LexInitial()) == s1;
    LexRunStep(text, LexInitial());
    var s2 := Lex(2, 1, 3, [], []);
    assert LexStep(text, s1) == s2;
    LexRunStep(text, s1);
    var s3 := Lex(7, 1, 8, [Tok(SingleLineCommentStart, "#", 1, 3), Tok(CommentText, "hi", 1, 4)], []);
    LineCommentTurn();
    LexRunStep(text, s2);
    assert LexRun(text, s3) == s3;
  }

  /** A closed block: opener, trimmed body three columns on, closer on the line where it is. */
  lemma ClosedBlockTokens()
    ensures Analysis("'''a\n'''").tokens == [
      Tok(MultiLineCommentStart, OpenerSingle, 1, 1),
      Tok(CommentText, "a", 1, 4),
      Tok(MultiLineCommentEnd, OpenerSingle, 2, 1)]
    ensures Analysis("'''a\n'''").errors == []
  {
    var text := "'''a\n'''";
    assert TripleAt(text, 0, '\'');
    assert !TripleAt(text, 3, '\'') && !TripleAt(text, 4, '\'') && TripleAt(text, 5, '\'');
    assert ScanBody(text, 3, 1, 4, '\'') == BodyEnd(5, 2, 1, true);
    assert Trim(text[3..5]) == "a" by {
      assert SkipWhite(text[3..5], 0) == 0;
      assert DropWhite(text[3..5], 0, 2) == 1;
    }
    LexRunStep(text, LexInitial());
  }

  /** A token is anchored only at the position where its text is: a `#` at index 2 of
      `a` newline `#` is on line 2, not at column 3 of line 1, and a comment text cannot
      stand at the start of the text. */
  lemma MisplacedTokensNotAnchored()
    ensures !Anchored("a\n#", Tok(SingleLineCommentStart, "#", 1, 3))
    ensures !Anchored("abc", Tok(CommentText, "zzz", 1, 1))
  {
    assert CharIndex("a\n#", 1, 3) == 2;
  }

  /** The body loop does not look for `#`: inside a block it is comment text, and the
      closer on the same line is found. */
  lemma HashInsideScannerBlock()
    ensures Analysis("'''#'''").tokens == [
      Tok(MultiLineCommentStart, OpenerSingle, 1, 1),
      Tok(CommentText, "#", 1, 4),
      Tok(MultiLineCommentEnd, OpenerSingle, 1, 5)]
    ensures Analysis("'''#'''").errors == []
  {
    var text := "'''#'''";
    assert TripleAt(text, 0, '\'');
    assert !TripleAt(text, 3, '\'') && TripleAt(text, 4, '\'');
    assert ScanBody(text, 3, 1, 4, '\'') == BodyEnd(4, 1, 5, true);
    assert Trim(text[3..4]) == "#" by {
      assert SkipWhite(text[3..4], 0) == 0;
      assert DropWhite(text[3..4], 0, 1) == 1;
    }
    LexRunStep(text, LexInitial());
  }

  /** An unclosed block's body scan stops two characters before the end; the main loop
      then reads those, so a `#` among them starts a single-line comment. */
  lemma UnclosedBlockTail()
    ensures Analysis("'''ab#").tokens == [
      Tok(MultiLineCommentStart, OpenerSingle, 1, 1),
      Tok(CommentText, "a", 1, 4),
      Tok(SingleLineCommentStart, "#", 1, 6),
      Tok(CommentText, "", 1, 7)]
    ensures Analysis("'''ab#").errors == [UnclosedComment(1, 1)]
  {
    var text := "'''ab#";
    assert TripleAt(text, 0, '\'');
    assert ScanBody(text, 3, 1, 4, '\'') == BodyEnd(4, 1, 5, false);
    assert Trim(text[3..4]) == "a" by {
      assert SkipWhite(text[3..4], 0) == 0;
      assert DropWhite(text[3..4], 0, 1) == 1;
    }
    var t1 := [Tok(MultiLineCommentStart, OpenerSingle, 1, 1), Tok(CommentText, "a", 1, 4)];
    var s1 := Lex(4, 1, 5, t1, [UnclosedComment(1, 1)]);
    assert LexStep(text, LexInitial()) == s1;
    LexRunStep(text, LexInitial());
    var s2 := Lex(5, 1, 6, t1, [UnclosedComment(1, 1)]);
    assert LexStep(text, s1) == s2;
    LexRunStep(text, s1);
    assert LineEnd(text, 6) == 6;
    assert Trim(text[6..6]) == "";
    var s3 := Lex(6, 1, 7, t1 + [Tok(SingleLineCommentStart, "#", 1, 6), Tok(CommentText, "", 1, 7)], [UnclosedComment(1, 1)]);
    assert LexStep(text, s2) == s3;
    LexRunStep(text, s2);
  }
}
