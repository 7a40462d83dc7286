# Comment scanner and delimiter corrector, modelled in Dafny

The editor reads Python-style comments in a raw text. It recognises two forms:

- a single-line comment, a `#` up to the end of its line;
- a multi-line comment between three single quotes (`'''`) or three double quotes (`"""`).

It has two independent engines and one host-side conversion:

- **Comment scanner** (`LexicalAnalyzer`). One pass over the text, module `Lexer`.
  - It lists the comments as tokens. Each token has the numeric code of its type, its text and a 1-based (line, column) position.
  - It also lists an error for every multi-line comment whose closer is never found.
- **Delimiter corrector** (`RawTextParser`). Module `Corrector`.
  - It copies the text and widens or narrows every quote run it takes as a delimiter to exactly three quotes.
  - It closes every block still open at the end.
  - It reports a numbered diagnostic for each repair. `Parse` is the same pass with the corrected text dropped.
- **Host conversion** (`MainForm`). Module `Positions`.
  - It turns a diagnostic's (line, column) into a character offset of the text by adding up line widths.
  - It selects as many characters there as the expected token has, cut short at the end of the text.

`TextUtil` holds the character-level notions the three share:

- quote runs;
- line ends;
- the (line, column) of an index;
- the text without its quotes;
- trimming.

Both source classes update their fields in place, and both work by a loop over the text. Each is a Dafny `class` with the same fields:

- `RawTextParser`: `errors`, `errorNumber`;
- `LexicalAnalyzer`: `tokens`, `errors`.

Each loop is a `method` proved equal to a recursive specification:

- `Corrector.Correction`, built from `Step`, `Run` and `Drain`;
- `Lexer.Analysis`, built from `LexStep` and `LexRun`.

One turn of each loop is a method of its own, proved equal to one step:

- `ScanAt` and `ScanQuoteRun`;
- `AnalyzeAt`, `ReadLineComment` and `ReadMultiLineComment`.

The properties are lemmas about the specification functions. The worked inputs in `CorrectorExamples` and `LexerExamples` pin down concrete behaviour.

## Behaviour worth knowing

- In the corrector, a `#` starts a comment inside a multi-line block too. The corrector copies the rest of that line, so a closer on that line is not seen (`CorrectorExamples.HashInsideBlock`). The scanner instead reads that `#` as body text and finds the closer (`LexerExamples.HashInsideScannerBlock`), so the two engines disagree on `'''#'''`.
- Inside a block, any run of the block's own quote closes it:
  - a run of one or two quotes closes it with an "insufficient quotes" diagnostic;
  - a run of four or more is consumed whole and closes it with an "excess quotes" diagnostic.
- An unterminated block is always reported at its opening position (`Corrector.DrainReportsEveryBlock`).
- A run of the *other* quote character inside a block opens a nested block (`CorrectorExamples.OtherQuoteNests`).
- The column advances by 3 after an opening run, whatever the run's length. After a closing run it advances by the run's actual length. So openers are counted at their corrected width of 3 and closers at their input width. A later column on that line matches the input only if no opener before it on the line had a length other than three. It matches the corrected text only if no closer before it had a length other than three. After both, it matches neither (`CorrectorExamples.ShortDelimitersWidened`: the closer of `''a''` is reported at column 5, which is where the corrected text `'''a'''` has it; the input has it at column 4).
- Correction is not idempotent: `''''''` corrects to itself with two diagnostics (`CorrectorExamples.CorrectedTextNotAlwaysClean`). What does hold is that a call reporting nothing returns its input unchanged (`Corrector.CleanCorrectionIsIdentity`).
- The scanner's body loop runs only while three characters remain. For an unclosed block it therefore stops two characters before the end, or right after the opener when fewer than three characters follow it. Its comment text omits the characters after that point, and the main loop then reads them again (`LexerExamples.UnclosedBlockTail`: a `#` there yields a single-line comment).

## Model

| member | source | states |
|---|---|---|
| Corrector.RawTextParser.constructor | compv3-main/compv3-main/compilierv2/Parser.cs:18-19 | a new parser has no diagnostics and numbers the next one 1 |
| Corrector.RawTextParser.AddError | compv3-main/compv3-main/compilierv2/Parser.cs:179-189 | appends one diagnostic carrying the current number, kind, expected token and position, and the number moves on by one |
| Corrector.RawTextParser.Parse | compv3-main/compv3-main/compilierv2/Parser.cs:24-31 | returns exactly the diagnostics of the full correction, leaves them in the parser, and the next number is one past their count |
| Corrector.RawTextParser.Correct | compv3-main/compv3-main/compilierv2/Parser.cs:40-177 | clears earlier diagnostics and returns the corrected text and diagnostics of `Correction`; the parser's list is the one returned and its counter is one past its length |
| Corrector.RawTextParser.ScanAt | compv3-main/compv3-main/compilierv2/Parser.cs:55-166 | one turn of the main loop (line feed, `#` line, quote run, other character) leaves exactly the state `Step` describes and keeps the counter in step with the list |
| Corrector.RawTextParser.ScanQuoteRun | compv3-main/compv3-main/compilierv2/Parser.cs:85-159 | counting the run and closing or opening a block leaves exactly the state `Step` describes for a quote |
| Corrector.Report | compv3-main/compv3-main/compilierv2/Parser.cs:179-189 | appends exactly one diagnostic, numbered one past the existing ones, with its kind, the three quotes it expects and its position; earlier diagnostics stay and stay consecutively numbered |
| Corrector.Drain | compv3-main/compv3-main/compilierv2/Parser.cs:169-174 | the end of input adds one diagnostic and three characters of output per block still open |
| Corrector.Step | compv3-main/compv3-main/compilierv2/Parser.cs:55-166 | each turn consumes at least one character and stays within the text |
| Corrector.Run | compv3-main/compv3-main/compilierv2/Parser.cs:55-166 | the main loop ends exactly at the end of the text |
| Corrector.CopyStep | compv3-main/compv3-main/compilierv2/Parser.cs:60-82 | a line feed, a `#` with the rest of its line, or another non-quote character is copied verbatim. Blocks and diagnostics are untouched. A line feed moves to column 1 of the next line; otherwise the column moves on by the characters copied |
| Corrector.QuoteRunStep | compv3-main/compv3-main/compilierv2/Parser.cs:85-159 | a quote run is consumed whole and exactly three quotes are written. It closes the top block iff that block uses the same quote; otherwise it opens a block at this position. A diagnostic of the matching kind is reported iff the run is not three long. The column moves on by the run's length when closing and by 3 when opening |
| Corrector.StepExtends | compv3-main/compv3-main/compilierv2/Parser.cs:55-166 | a step keeps every earlier diagnostic, adds at most one (numbered next), and only appends to the output |
| Corrector.DrainReportsEveryBlock | compv3-main/compv3-main/compilierv2/Parser.cs:169-174 | at the end every open block is reported unterminated at its opening position with its own quotes, top of the stack first, numbered on from the earlier diagnostics |
| Corrector.DrainClosesEveryBlock | compv3-main/compv3-main/compilierv2/Parser.cs:169-174 | at the end the three quotes of every open block are appended after the output, top of the stack first |
| Corrector.Correction | compv3-main/compv3-main/compilierv2/Parser.cs:40-177 | what `Correct` returns: the main loop run over the whole text, then the drain of the blocks still open; its diagnostics are numbered 1, 2, 3, ... in discovery order |
| Corrector.DrainKeepsNumbering | compv3-main/compv3-main/compilierv2/Parser.cs:169-174 | the end-of-input reports continue the consecutive numbering of the diagnostics before them |
| Corrector.CleanCorrectionIsIdentity | compv3-main/compv3-main/compilierv2/Parser.cs:40-177 | a call that reports no diagnostic returns its input unchanged |
| Corrector.CorrectionKeepsUnquoted | compv3-main/compv3-main/compilierv2/Parser.cs:40-177 | the corrected text differs from the input only in quote characters: without its quotes it is the input without its quotes |
| Corrector.CorrectionDiagnosticsPlaced | compv3-main/compv3-main/compilierv2/Parser.cs:100-172 | every diagnostic expects `'''` or `"""` and lies at a column of at least 1 on a line of the text |
| Corrector.QuoteFreeTextUnchanged | compv3-main/compv3-main/compilierv2/Parser.cs:55-166 | a text without quote characters is returned unchanged with no diagnostic |
| CorrectorExamples.ShortDelimitersWidened | compv3-main/compv3-main/compilierv2/Parser.cs:134-141 | `''a''` is corrected to `'''a'''` with an insufficient-opener diagnostic at (1,1) and an insufficient-closer one at (1,5) |
| CorrectorExamples.UnclosedBlockClosedAtEnd | compv3-main/compv3-main/compilierv2/Parser.cs:169-174 | `'''a` is corrected to `'''a'''` with one unterminated diagnostic at (1,1) |
| CorrectorExamples.MultiLineBlockUnchanged | compv3-main/compv3-main/compilierv2/Parser.cs:115-118 | a well-formed block over two lines is returned unchanged with no diagnostic |
| CorrectorExamples.SixQuotes | compv3-main/compv3-main/compilierv2/Parser.cs:142-148 | six quotes form one excess opener and are closed at the end: the text comes back the same with two diagnostics |
| CorrectorExamples.CorrectedTextNotAlwaysClean | compv3-main/compv3-main/compilierv2/Parser.cs:40-177 | correcting a corrected text can report diagnostics again |
| CorrectorExamples.HashInsideBlock | compv3-main/compv3-main/compilierv2/Parser.cs:70-82 | a `#` inside a block hides the closer on its line, so the block is closed at the end and reported |
| CorrectorExamples.OtherQuoteNests | compv3-main/compv3-main/compilierv2/Parser.cs:90-158 | in `'''"'''` the lone `"` opens a widened nested block and the second `'''` opens a third one; all three are closed at the end, top first |
| Lexer.Code | compv3-main/compv3-main/compilierv2/LexicalAnalyzer.cs:16-23 | every token type's code lies between 1 and 5 |
| Lexer.CodeTableIsInjective | compv3-main/compv3-main/compilierv2/LexicalAnalyzer.cs:16-23 | the code table gives the five token types distinct codes |
| Lexer.LexicalAnalyzer.constructor | compv3-main/compv3-main/compilierv2/LexicalAnalyzer.cs:25-26 | a new scanner has no tokens and no errors |
| Lexer.LexicalAnalyzer.Analyze | compv3-main/compv3-main/compilierv2/LexicalAnalyzer.cs:28-161 | clears both lists and leaves exactly the tokens and errors of `Analysis` of the text |
| Lexer.LexicalAnalyzer.AnalyzeAt | compv3-main/compv3-main/compilierv2/LexicalAnalyzer.cs:40-158 | one turn of the main loop leaves exactly the state `LexStep` describes |
| Lexer.LexicalAnalyzer.ReadLineComment | compv3-main/compv3-main/compilierv2/LexicalAnalyzer.cs:52-81 | adds the `#` marker at its position and the trimmed rest of the line one column on, and stops at the line end |
| Lexer.LexicalAnalyzer.ReadMultiLineComment | compv3-main/compv3-main/compilierv2/LexicalAnalyzer.cs:84-156 | adds the opener and the trimmed body (three columns on). It then adds the closer where the body scan found it and moves past it; if no closer was found it adds an error at the opening position instead |
| Lexer.ScanBody | compv3-main/compv3-main/compilierv2/LexicalAnalyzer.cs:106-126 | the body scan stops at the first three copies of the opening quote; failing that it stops two characters before the end, or where it started if fewer than three remain |
| Lexer.LineComment | compv3-main/compv3-main/compilierv2/LexicalAnalyzer.cs:52-81 | a `#` comment consumes at least the marker and stays within the text |
| Lexer.MultiLine | compv3-main/compv3-main/compilierv2/LexicalAnalyzer.cs:84-156 | a multi-line comment consumes at least its opener and stays within the text |
| Lexer.LexRun | compv3-main/compv3-main/compilierv2/LexicalAnalyzer.cs:38-160 | the main loop ends exactly at the end of the text |
| Lexer.LexStep | compv3-main/compv3-main/compilierv2/LexicalAnalyzer.cs:40-158 | each turn consumes at least one character and stays within the text |
| Lexer.Analysis | compv3-main/compv3-main/compilierv2/LexicalAnalyzer.cs:28-161 | what `Analyze` leaves in its lists. The tokens come in groups: a `#` marker with its text one column on; or an opener, its text three columns on and a closer with the same quotes; or an opener and its text alone, matched one-to-one and in order with the errors, which carry the opener's position |
| Lexer.AnalysisCodes | compv3-main/compv3-main/compilierv2/LexicalAnalyzer.cs:16-23 | every token carries the table code of its type, and the Error type (code 5) is never emitted |
| Lexer.AnalysisAnchored | compv3-main/compv3-main/compilierv2/LexicalAnalyzer.cs:38-160 | every token's (line, column) is the line and column of an index of the text. A delimiter's value is the text at that index. A comment text's value is the trimmed rest of the line after the `#` just before it, or the trimmed body, up to where the body scan stops, after the three quotes just before it |
| Lexer.AnalysisEmptyIff | compv3-main/compv3-main/compilierv2/LexicalAnalyzer.cs:84-87 | no token is reported iff no `#` and no three equal quotes occur anywhere in the text, and then no error is reported either |
| LexerExamples.LineCommentTokens | compv3-main/compv3-main/compilierv2/LexicalAnalyzer.cs:52-81 | `x # hi ` gives the marker at (1,3) and the text `hi` at (1,4) |
| LexerExamples.ClosedBlockTokens | compv3-main/compv3-main/compilierv2/LexicalAnalyzer.cs:84-150 | `'''a` newline `'''` gives opener (1,1), text `a` at (1,4) and closer at (2,1), with no error |
| LexerExamples.HashInsideScannerBlock | compv3-main/compv3-main/compilierv2/LexicalAnalyzer.cs:106-126 | in `'''#'''` the body loop does not test for `#`: the scan gives the opener at (1,1), the text `#` at (1,4) and the closer at (1,5), with no error |
| LexerExamples.MisplacedTokensNotAnchored | compv3-main/compv3-main/compilierv2/LexicalAnalyzer.cs:52-81 | a `#` token whose column is past the end of its line, and a comment text with nothing before it, are not anchored |
| LexerExamples.UnclosedBlockTail | compv3-main/compv3-main/compilierv2/LexicalAnalyzer.cs:106-154 | in `'''ab#` the body stops early, the error names (1,1), and the final `#` is read again as a single-line comment |
| Positions.SplitLines | compv3-main/compv3-main/compilierv2/MainForm.cs:315 | splitting at line feeds gives one piece per line of the text |
| Positions.SplitLinesRoundTrip | compv3-main/compv3-main/compilierv2/MainForm.cs:315 | no piece holds a line feed, and joining the pieces with line feeds gives the text back |
| Positions.CharIndex | compv3-main/compv3-main/compilierv2/MainForm.cs:313-323 | the offset of (line, column) lies between column minus one and the text's length plus the column |
| Positions.CharIndexFirstLine | compv3-main/compv3-main/compilierv2/MainForm.cs:317-321 | on line 1 (or below) the offset is column minus one, one per column |
| Positions.CharIndexInnerLine | compv3-main/compv3-main/compilierv2/MainForm.cs:315-321 | on a later line that exists, the offset of column 1 is just after a line feed, on that line, and each further column adds one |
| Positions.CharIndexPastLastLine | compv3-main/compv3-main/compilierv2/MainForm.cs:317-321 | past the last line the lines' widths stop at the whole text plus one, so the offset is the length plus the column |
| Positions.CharIndexOfPosition | compv3-main/compv3-main/compilierv2/MainForm.cs:313-323 | the conversion inverts position tracking: the (line, column) of any index maps back to that index |
| Positions.GetCharIndexFromLineAndColumn | compv3-main/compv3-main/compilierv2/MainForm.cs:313-323 | the loop over the split lines returns `CharIndex` of the position |
| Positions.HighlightErrors | compv3-main/compv3-main/compilierv2/MainForm.cs:333-336 | each diagnostic's selection starts at its offset and is as long as its expected token when that fits. Otherwise it is cut to end exactly at the end of the text, and it never reaches past it |
| TextUtil.RunEnd | compv3-main/compv3-main/compilierv2/Parser.cs:95-99 | the counting loop stops at the end of the maximal run of the quote |
| TextUtil.LineEnd | compv3-main/compv3-main/compilierv2/Parser.cs:75-80 | the copy loop of a `#` stops at the first line feed or at the end of the text |
| TextUtil.LineOf | compv3-main/compv3-main/compilierv2/LexicalAnalyzer.cs:43-48 | the line of an index is at least 1 and at most one more than the index |
| TextUtil.ColOf | compv3-main/compv3-main/compilierv2/LexicalAnalyzer.cs:43-48 | the column of an index is at least 1 and at most one more than the index |
| TextUtil.Trim | compv3-main/compv3-main/compilierv2/LexicalAnalyzer.cs:72 | a trimmed text is empty or neither starts nor ends with whitespace |
| TextUtil.TrimEmptyIff | compv3-main/compv3-main/compilierv2/LexicalAnalyzer.cs:128 | trimming leaves nothing iff the text is all whitespace |
| TextUtil.TrimIdempotent | compv3-main/compv3-main/compilierv2/LexicalAnalyzer.cs:128 | trimming twice is trimming once |

## Left out

- The window, menus, toolbar, file dialogs, undo/redo, fonts, help and the rest of `MainForm.cs` are not modelled. The same goes for `MainForm.Designer.cs` and the files under `Bar/`. Only the offset conversion and the highlight span of `MainForm.cs` are modelled.
- Which text the highlight is applied to is not modelled, nor the call order of the "Play" handler. The spans are computed for the text passed in.
- The selection and colouring calls of the text box are not modelled. `HighlightErrors` returns the spans instead.
- Positions.HighlightErrors: for a start offset past the end of the text it returns the code's raw length, which is then negative (in `'"'"` the diagnostics sit at offsets 0, 3, 6 and 9 of a four-character text). How the text box clamps such a selection is not modelled.
- Diagnostic messages (Russian strings) are modelled as the enumeration `ErrorKind`.
- Token type labels are modelled as `TokenKind`.
- Token position strings ("Строка L, Позиция C") are modelled as the two integers.
- The scanner's error string is modelled as `UnclosedComment(line, column)`.
- TextUtil.Trim: whitespace is the fixed set space, tab, line feed, carriage return, vertical tab and form feed. The .NET definition covers every Unicode white-space character.
- Text is a sequence of Unicode characters. The code indexes, measures and counts columns in UTF-16 code units. So after a character outside the Basic Multilingual Plane, the code's columns, offsets and highlight lengths are one larger per such character than the model's.
- C# `int` arithmetic is unbounded here: 32-bit overflow of line, column and index counters is not modelled.
- `StringBuilder` and the stack of open blocks are sequences. The top of the stack is the last element.
- The `outputIndex` the corrector stores for each block is kept but, as in the code, never read.
- Corrector.RawTextParser.Parse: returns the diagnostics as a value. In the code the returned list is the parser's own field, so a later call clears it under the caller. That aliasing is not modelled.
- Corrector.RawTextParser.Correct: likewise returns the parser's own list as its diagnostics; the same aliasing is not modelled.
- The loop bodies of `Correct` and `Analyze` are split into helper methods (`ScanAt`, `ScanQuoteRun`, `AnalyzeAt`, `ReadLineComment`, `ReadMultiLineComment`). Each still works on the same fields and locals.
