/** Worked inputs for the corrector, evaluated step by step. They pin down the behaviour
    the code has where a reader might expect something else: openers counted at their
    corrected width, `#` honoured inside a block, another quote opening a nested block,
    and a corrected text that is not free of diagnostics itself. */
module CorrectorExamples {
  import opened TextUtil
  import opened Corrector

  const OpenerSingle: string := Triple('\'')
  const OpenerDouble: string := Triple('"')

  /** Two-quote delimiters are widened to three; the closer's column is counted after the
      opener was widened, so it is 5 where the input has it at 4. */
  lemma ShortDelimitersWidened()
    ensures Correction("''a''") == Outcome("'''a'''", [
      ParsingError(1, InsufficientOpenQuotes, OpenerSingle, 1, 1),
      ParsingError(2, InsufficientCloseQuotes, OpenerSingle, 1, 5)])
  {
    var text := "''a''";
    var s0 := Initial();
    QuoteRunStep(text, s0, 2);
    RunStep(text, s0);
    var s1 := Step(text, s0);
    assert Step(text, s1) == s1.(i := 3, col := 5, out := s1.out + ['a']);
    RunStep(text, s1);
    var s2 := Step(text, s1);
    QuoteRunStep(text, s2, 5);
    RunStep(text, s2);
    var s3 := Step(text, s2);
    assert Run(text, s3) == s3;
  }

  /** A block never closed is closed at the end and reported at its opening position. */
  lemma UnclosedBlockClosedAtEnd()
    ensures Correction("'''a") == Outcome("'''a'''", [ParsingError(1, UnterminatedComment, OpenerSingle, 1, 1)])
  {
    var text := "'''a";
    assert text[..3] == OpenerSingle && text[3] == 'a';
    assert text[0] == text[1] == text[2] == '\'';
    QuoteRunStep(text, Initial(), 3);
    RunStep(text, Initial());
    var s1 := Scan(3, 1, 4, OpenerSingle, [FirstBlock], []);
    assert Step(text, Initial()) == s1 by { assert [] + OpenerSingle == OpenerSingle; }
    RunStep(text, s1);
    var s2 := Scan(4, 1, 5, OpenerSingle + "a", [FirstBlock], []);
    assert Step(text, s1) == s2;
    assert Run(text, s2) == s2;
    assert OpenerSingle + "a" + OpenerSingle == "'''a'''";
  }

  /** A well-formed block spanning two lines. */
  const TwoLineBlock: string := OpenerSingle + "\n" + OpenerSingle
  const FirstBlock := OpenBlock(1, 1, '\'', 0)

  lemma TwoLineBlockOpens()
    ensures Run(TwoLineBlock, Initial()) == Run(TwoLineBlock, Scan(3, 1, 4, OpenerSingle, [FirstBlock], []))
  {
    assert TwoLineBlock[..3] == OpenerSingle && TwoLineBlock[3] == '\n';
    assert TwoLineBlock[0] == TwoLineBlock[1] == TwoLineBlock[2] == '\'';
    QuoteRunStep(TwoLineBlock, Initial(), 3);
    RunStep(TwoLineBlock, Initial());
    var t := Step(TwoLineBlock, Initial());
    assert t.out == OpenerSingle by { assert [] + OpenerSingle == OpenerSingle; }
    assert t.stack == [FirstBlock];
  }

  lemma TwoLineBlockNewline()
    ensures Run(TwoLineBlock, Scan(3, 1, 4, OpenerSingle, [FirstBlock], []))
         == Run(TwoLineBlock, Scan(4, 2, 1, OpenerSingle + "\n", [FirstBlock], []))
  {
    RunStep(TwoLineBlock, Scan(3, 1, 4, OpenerSingle, [FirstBlock], []));
  }

  lemma TwoLineBlockCloses()
    ensures Run(TwoLineBlock, Scan(4, 2, 1, OpenerSingle + "\n", [FirstBlock], []))
         == Scan(7, 2, 4, TwoLineBlock, [], [])
  {
    var s := Scan(4, 2, 1, OpenerSingle + "\n", [FirstBlock], []);
    assert TwoLineBlock[4..] == OpenerSingle;
    QuoteRunStep(TwoLineBlock, s, 7);
    RunStep(TwoLineBlock, s);
  }

  /** A well-formed block spanning two lines is left as it is, with no diagnostic. */
  lemma MultiLineBlockUnchanged()
    ensures Correction(TwoLineBlock) == Outcome(TwoLineBlock, [])
  {
    TwoLineBlockOpens();
    TwoLineBlockNewline();
    TwoLineBlockCloses();
  }

  /** Six quotes form one run: it opens a block (reported as excess) that is then closed
      at the end, so the corrected text is the input again, with two diagnostics. */
  lemma SixQuotes()
    ensures Correction("''''''") == Outcome("''''''", [
      ParsingError(1, ExcessOpenQuotes, OpenerSingle, 1, 1),
      ParsingError(2, UnterminatedComment, OpenerSingle, 1, 1)])
  {
    var text := "''''''";
    var s0 := Initial();
    QuoteRunStep(text, s0, 6);
    RunStep(text, s0);
    var s1 := Step(text, s0);
    assert Run(text, s1) == s1;
  }

  /** Correcting a corrected text can report diagnostics again. */
  lemma CorrectedTextNotAlwaysClean()
    ensures var once := Correction("''''''").correctedText;
      Correction(once).errors != []
  {
    SixQuotes();
  }

  /** A `#` inside a block hides the closer on its line, so the block is closed at the end. */
  lemma HashInsideBlock()
    ensures Correction("'''#'''") == Outcome("'''#''''''", [ParsingError(1, UnterminatedComment, OpenerSingle, 1, 1)])
  {
    var text := "'''#'''";
    var s0 := Initial();
    QuoteRunStep(text, s0, 3);
    RunStep(text, s0);
    var s1 := Step(text, s0);
    LineEndUnique(text, 4, 7);
    assert Step(text, s1) == s1.(i := 7, col := 8, out := s1.out + text[3..7]);
    RunStep(text, s1);
    var s2 := Step(text, s1);
    assert Run(text, s2) == s2;
  }

  /** `'''"'''`: a lone double quote between two triple single quotes. */
  const NestedText: string := OpenerSingle + "\"" + OpenerSingle

  const OuterBlock := OpenBlock(1, 1, '\'', 0)
  const InnerBlock := OpenBlock(1, 4, '"', 3)
  const ThirdBlock := OpenBlock(1, 7, '\'', 6)
  const WidenedOpener := [ParsingError(1, InsufficientOpenQuotes, OpenerDouble, 1, 4)]

  lemma NestsOuterOpens()
    ensures Run(NestedText, Initial()) == Run(NestedText, Scan(3, 1, 4, OpenerSingle, [OuterBlock], []))
  {
    assert NestedText[..3] == OpenerSingle && NestedText[3] == '"';
    assert NestedText[0] == NestedText[1] == NestedText[2] == '\'';
    QuoteRunStep(NestedText, Initial(), 3);
    RunStep(NestedText, Initial());
    var t := Step(NestedText, Initial());
    assert t.i == 3 && t.line == 1 && t.col == 4;
    assert t.out == OpenerSingle by { assert [] + OpenerSingle == OpenerSingle; }
    assert t.stack == [OuterBlock];
    assert t.errors == [];
  }

  lemma NestsInnerOpens()
    ensures Run(NestedText, Scan(3, 1, 4, OpenerSingle, [OuterBlock], []))
         == Run(NestedText, Scan(4, 1, 7, OpenerSingle + OpenerDouble, [OuterBlock, InnerBlock], WidenedOpener))
  {
    var s := Scan(3, 1, 4, OpenerSingle, [OuterBlock], []);
    assert NestedText[3] == '"' && NestedText[4] == '\'';
    QuoteRunStep(NestedText, s, 4);
    RunStep(NestedText, s);
    assert Report([], InsufficientOpenQuotes, '"', 1, 4) == WidenedOpener;
  }

  lemma NestsThirdOpens()
    ensures Run(NestedText, Scan(4, 1, 7, OpenerSingle + OpenerDouble, [OuterBlock, InnerBlock], WidenedOpener))
         == Scan(7, 1, 10, OpenerSingle + OpenerDouble + OpenerSingle, [OuterBlock, InnerBlock, ThirdBlock], WidenedOpener)
  {
    var s := Scan(4, 1, 7, OpenerSingle + OpenerDouble, [OuterBlock, InnerBlock], WidenedOpener);
    assert NestedText[4..] == OpenerSingle;
    QuoteRunStep(NestedText, s, 7);
    RunStep(NestedText, s);
  }

  /** End of input with three open blocks: each is closed and reported, top first. */
  lemma NestsDrain()
    ensures Drain(OpenerSingle + OpenerDouble + OpenerSingle, WidenedOpener, [OuterBlock, InnerBlock, ThirdBlock])
      == Outcome(OpenerSingle + OpenerDouble + OpenerSingle + OpenerSingle + OpenerDouble + OpenerSingle, [
      ParsingError(1, InsufficientOpenQuotes, OpenerDouble, 1, 4),
      ParsingError(2, UnterminatedComment, OpenerSingle, 1, 7),
      ParsingError(3, UnterminatedComment, OpenerDouble, 1, 4),
      ParsingError(4, UnterminatedComment, OpenerSingle, 1, 1)])
  {
    var out := OpenerSingle + OpenerDouble + OpenerSingle;
    assert [OuterBlock, InnerBlock, ThirdBlock][..2] == [OuterBlock, InnerBlock];
    assert [OuterBlock, InnerBlock][..1] == [OuterBlock];
    var e2 := Report(WidenedOpener, UnterminatedComment, '\'', 1, 7);
    var e3 := Report(e2, UnterminatedComment, '"', 1, 4);
    var e4 := Report(e3, UnterminatedComment, '\'', 1, 1);
    assert Drain(out, WidenedOpener, [OuterBlock, InnerBlock, ThirdBlock]) == Drain(out + OpenerSingle, e2, [OuterBlock, InnerBlock]);
    assert Drain(out + OpenerSingle, e2, [OuterBlock, InnerBlock]) == Drain(out + OpenerSingle + OpenerDouble, e3, [OuterBlock]);
    assert Drain(out + OpenerSingle + OpenerDouble, e3, [OuterBlock]) == Outcome(out + OpenerSingle + OpenerDouble + OpenerSingle, e4);
  }

  /** Inside a `'''` block a lone `"` opens a nested `"""` block (widened, reported), and
      the next `'''` opens a third block instead of closing the first; all three are closed
      at the end, top first, each reported at its opening position. */
  lemma OtherQuoteNests()
    ensures Correction(NestedText)
      == Outcome(OpenerSingle + OpenerDouble + OpenerSingle + OpenerSingle + OpenerDouble + OpenerSingle, [
      ParsingError(1, InsufficientOpenQuotes, OpenerDouble, 1, 4),
      ParsingError(2, UnterminatedComment, OpenerSingle, 1, 7),
      ParsingError(3, UnterminatedComment, OpenerDouble, 1, 4),
      ParsingError(4, UnterminatedComment, OpenerSingle, 1, 1)])
  {
    NestsOuterOpens();
    NestsInnerOpens();
    NestsThirdOpens();
    NestsDrain();
  }
}
