# A verified model of the MdConvert markdown lexer

This project models the lexer of a small markdown converter written in Go (`lexer/lexer.go`, `token/token.go`): a
`Lexer` object holding the input string, a cursor (`position`, `readPosition`, `ch`) and the previous token. Each
call of `NextToken` looks at the byte under the cursor and returns one token:

- a newline gives NEW_LINE, with literal `" "`;
- a `#` at the start of a line gives a heading, H1 to H3, or ILLEGAL for four or more `#`;
- a `-` at the start of a line gives a list item (UL), whose text follows the run of `-` and spaces after it;
- `*` gives italic, `**` gives bold, and `* ` drops the `*` and continues as text;
- anything else gives a TEXT run.

The Dafny model has three layers:

- **`Scan`** (`scan.dfy`) holds the pure specification. It has the token constructors and the byte classes the loops
  test. `RunEnd` gives where a scanning loop stops, and `BoldEnd` gives where the bold loop stops. There is one
  function per scanner (`HeaderScan`, `ListItemScan`, `TextScan`, `ItalicScan`, `BoldScan`, `ModifierScan`). Then
  come `Step` (one call of `NextToken` on a cursor), `Run` (`n` calls) and `Lex` (`n` calls from a fresh lexer). A
  call that the Go code would panic on (a slice beyond the end of the input) makes `Run` return `None`.
- **`Lexer`** (`lexer.dfy`) is the imperative model. `class Lexer` has the fields of the Go struct and one method
  per Go method, loop for loop. Each method is proved to leave the object in the state, and return the result, that
  the matching `Scan` function gives for the old state. `NextToken` is proved equal to `Step`.
- **`ScanProperties`** (`properties.dfy`) and **`Examples`** (`examples.dfy`) hold the lemmas:
  - what one call does in each branch;
  - how far the cursor can move;
  - invariants of every run;
  - that lexing reaches the end of the input;
  - the inputs of the Go tests, both for any strings of the right shape and for the tests' own strings;
  - corner cases of the code as written.

`token.dfy` holds the eleven token kinds and the `Token` record. `wrappers.dfy` holds `Option`.

The model follows the code as written, including these behaviours, which differ from what a reader of the tests or
of the token names might expect:

- **`prevToken`.** The code sets `prevToken` only in the newline case (`lexer/lexer.go:71`). Every other case
  returns early. So after a heading, list item, text, bold or italic token, `prevToken` is still `nil` or NEW_LINE.
  - The start-of-line test is only consulted when a `#` or `-` is the first byte of a token. Text, list items,
    headings and italic stop only on `*`, a newline or NUL, so a `#` inside a line is plain text
    (`Examples.HashInTextExample`). In the middle of a line, a `#` or `-` can begin a token only right after a
    BOLD span, and there it still counts as the start of a line (`Examples.HeaderAfterBoldExample`).
  - The one-byte ILLEGAL tokens for a misplaced `#` or `-` can never be returned (`ScanProperties.LexInvariant`).
  - As written, those ILLEGAL branches also leave the cursor where it was.
- **Bold scan.** A lone `*` inside a bold span makes the loop read two bytes, whatever the second one is
  (`lexer/lexer.go:122-129`).
  - The scan can step over a newline (`Examples.BoldCrossesNewLineExample`).
  - It can end one byte past the end of the input (`Examples.BoldOverrunExample`, `Examples.TripleStarOverrunExample`).
    The next `NextToken` then slices out of range and panics. So the lexer is not total on `"**a*"`.
- **`* ` in text.** A `*` followed by a space is dropped, and the text is split into two TEXT tokens
  (`lexer/lexer.go:104-106`). The test `TestPlainTextWithModifiers` expects one TEXT token that keeps the `*`, and the
  code does not produce it (`Examples.StarInTextExample`).
- **End of input.** No EOF token is ever produced. At the end of the input, and on an embedded NUL byte, every call
  returns TEXT `""` and leaves the cursor where it is.

## Model

| member | source | states |
|---|---|---|
| Token.TokenType.Name | token/token.go:12-24 | each kind's constant string, which reads back as that kind |
| Token.NamesDistinct | token/token.go:12-24 | two kinds have equal constant strings exactly when they are the same kind |
| Token.HeadingKind | lexer/lexer.go:178-187 | exactly the levels 1, 2 and 3 map to a heading kind, and that kind's level is the given level; `CreateHeaderToken` is stated through it |
| Token.HeadingKindsAreLevels | lexer/lexer.go:178-184 | every heading kind is the one its own level selects |
| Scan.NewTokenStringLiteral | lexer/lexer.go:168-170 | the token has the given kind and literal |
| Scan.NewToken | lexer/lexer.go:172-174 | the one-byte token is the string token whose literal is that byte |
| Scan.IsNewLine | lexer/lexer.go:195-197 | the newline test of the header, list-item and bold loops: true exactly on `\n`; a newline is never the sentinel or a `*`, so the loops' stop tests do not overlap |
| Scan.CreateHeaderToken | lexer/lexer.go:176-189 | the token is a heading exactly when the level is 1 to 3, and then it is the level's heading kind with the literal; every other level gives ILLEGAL "Too many headerlevels" |
| Scan.CharAt | lexer/lexer.go:32-36 | the byte at a position inside the input, and 0 at or past its end |
| Scan.RunEnd | lexer/lexer.go:78-97 | a scanning loop stops at the first byte it does not continue over, after only bytes it does; it does not pass the end of the input |
| Scan.BoldEnd | lexer/lexer.go:121-130 | the bold loop ends on a `**` pair inside the input, or on a newline or the sentinel at most one past the end |
| Scan.BoldEndFirst | lexer/lexer.go:121-130 | the pair the bold loop closes on is the first `**` at or after its start, and an unclosed scan passed no `**` pair |
| Scan.HeaderScan | lexer/lexer.go:76-88 | the level, literal and end position of `readHeader`, by two `RunEnd` loops: a non-negative level, the literal running from after the `#` run to the end position inside the input; `HeaderScanSound` states the rest |
| Scan.HeaderScanSound | lexer/lexer.go:76-88 | the level is the length of the maximal `#` run (at least 1 on a `#`); the literal is the rest of the line; the cursor is left on the newline or sentinel |
| Scan.ListItemScan | lexer/lexer.go:90-99 | the literal and end position of `readListItem`, by two `RunEnd` loops: the end position is inside the input and the literal is no longer than what was read; `ListItemScanSound` states the rest |
| Scan.ListItemScanSound | lexer/lexer.go:90-99 | the literal follows the maximal `-`/space run and is the maximal run free of `*`, newline and sentinel; the cursor is left on the byte that stops it |
| Scan.TextRun | lexer/lexer.go:140-150 | the loop shared by `parseItalic` and `readText`: the literal covers exactly the bytes read, ending inside the input; `TextRunSound` states the rest |
| Scan.TextRunSound | lexer/lexer.go:146-153 | the text literal holds no `*`, newline or NUL, and the cursor is left on one of those |
| Scan.TextScan | lexer/lexer.go:146-153 | the text scanner returns a TEXT token |
| Scan.ItalicScan | lexer/lexer.go:138-144 | the italic scanner returns an ITALIC token |
| Scan.BoldScan | lexer/lexer.go:131-135 | the bold scanner returns BOLD or ILLEGAL "did not receive matching closing modifier" |
| Scan.BoldScanSound | lexer/lexer.go:117-136 | BOLD carries the bytes before the first `**` pair and puts the cursor past it, so its literal holds no `**` pair; ILLEGAL leaves the cursor on a newline or the sentinel, at most one past the end, with no `**` pair before it |
| Scan.ModifierScan | lexer/lexer.go:101-115 | the modifier case always moves the cursor past the `*` |
| Scan.Step | lexer/lexer.go:44-74 | one call of `NextToken`, dispatching on the byte under the cursor; the cursor never moves back |
| Scan.Run | lexer/lexer.go:44-74 | `n` further calls: exactly `n` tokens, the cursor never moving back, or None when a call would panic |
| Scan.Lex | lexer/lexer.go:23-74 | `n` calls of `NextToken` on a lexer made by `New`: exactly `n` tokens, or None exactly when one of those calls would panic |
| Lexer.Lexer.New | lexer/lexer.go:23-27 | a fresh lexer is at position 0 with no previous token and the first byte (or 0) loaded |
| Lexer.Lexer.ReadChar | lexer/lexer.go:30-40 | the cursor moves to `readPosition` and loads that byte, or 0 past the end |
| Lexer.Lexer.IsModifier | lexer/lexer.go:156-158 | true exactly when the cursor is on a `*` of the input |
| Lexer.Lexer.IsNewline | lexer/lexer.go:160-162 | true exactly when the cursor is on a newline of the input |
| Lexer.Lexer.IsEof | lexer/lexer.go:164-166 | true exactly when the cursor is past the end or on a NUL byte |
| Lexer.Lexer.NextToken | lexer/lexer.go:44-74 | the token and the new cursor are `Step` of the old cursor, and the cursor invariant is kept |
| Lexer.Lexer.ReadHeader | lexer/lexer.go:76-88 | the level, literal and final position are `HeaderScan` of the old position |
| Lexer.Lexer.ReadListItem | lexer/lexer.go:90-99 | the literal and final position are `ListItemScan` of the old position |
| Lexer.Lexer.ReadModifier | lexer/lexer.go:101-115 | the token and final position are `ModifierScan` of the old position |
| Lexer.Lexer.ParseBoldText | lexer/lexer.go:117-136 | the token and final position are `BoldScan` of the old position, which may be one past the end |
| Lexer.Lexer.ParseItalic | lexer/lexer.go:138-144 | the token and final position are `ItalicScan` of the old position |
| Lexer.Lexer.ReadText | lexer/lexer.go:146-153 | the token and final position are `TextScan` of the old position |
| ScanProperties.StepNewLine | lexer/lexer.go:47-48 | a newline gives NEW_LINE " ", recorded as the previous token, with the cursor one byte on |
| ScanProperties.StepKeepsLineStart | lexer/lexer.go:44-74 | a call leaves `prevToken` alone or sets it to NEW_LINE, so the start-of-line test stays true |
| ScanProperties.StepHeader | lexer/lexer.go:49-52 | a `#` at the start of a line: the level is the `#` run's length; levels 1 to 3 give that heading over the rest of the line; more give ILLEGAL |
| ScanProperties.StepListItem | lexer/lexer.go:57-60 | a `-` at the start of a line gives UL over the text after the `-`/space run |
| ScanProperties.StepText | lexer/lexer.go:67-68 | any other byte gives TEXT over the maximal run free of `*`, newline and sentinel |
| ScanProperties.StepItalic | lexer/lexer.go:111-112 | `*` then a byte other than space or `*` gives ITALIC over the text run after the `*`, leaving a closing `*` unconsumed |
| ScanProperties.StepStarSpace | lexer/lexer.go:105-106 | `* ` drops the `*` and gives TEXT starting at the space |
| ScanProperties.BoldEndPlain | lexer/lexer.go:121-127 | with only text bytes before a `**`, the bold loop stops on that pair |
| ScanProperties.BoldEndNoStar | lexer/lexer.go:121-130 | with no `*` before the end of the line, the bold loop stops on that line's end |
| ScanProperties.BoldScanOver | lexer/lexer.go:117-136 | text bytes then `**` give BOLD over the text, with the cursor past the pair |
| ScanProperties.StepBold | lexer/lexer.go:107-109 | `**x**` with `x` free of `*`, newline and NUL gives BOLD `x` with the cursor past the closing pair |
| ScanProperties.StepBoldUnclosed | lexer/lexer.go:131-132 | `**` with no `*` before the line's end gives ILLEGAL "did not receive matching closing modifier" on that end |
| ScanProperties.BoldEndOverrun | lexer/lexer.go:122-129 | the bold loop ends one past the input only when the input's last byte is a `*` |
| ScanProperties.StepBounds | lexer/lexer.go:44-74 | a call leaves the cursor at most one past the end, and one past only after ILLEGAL from a bold scan over a final `*` |
| ScanProperties.StepAtSentinel | lexer/lexer.go:146-153 | at the end of the input or on a NUL byte a call returns TEXT "" and changes nothing |
| ScanProperties.StepProgress | lexer/lexer.go:44-74 | off the sentinel, a call at the start of a line moves the cursor forward |
| ScanProperties.StepKinds | lexer/lexer.go:44-74 | no call returns ORDERED_LIST or EOF; at the start of a line no call returns the misplaced-`#`/`-` ILLEGAL token |
| ScanProperties.RunInvariant | lexer/lexer.go:44-74 | over any run from the start of a line, the start-of-line test holds throughout and no token is ORDERED_LIST, EOF or a misplaced-marker ILLEGAL |
| ScanProperties.LexInvariant | lexer/lexer.go:23-74 | every token a fresh lexer returns has one of the nine produced kinds and is never the misplaced-`#`/`-` ILLEGAL |
| ScanProperties.RunReachesEnd | lexer/lexer.go:44-74 | on an input without NUL bytes, `|s|` calls that do not panic bring the cursor to the end |
| ScanProperties.RunAtEnd | lexer/lexer.go:146-153 | at the end of the input, every further call returns TEXT "" and the cursor stays |
| ScanProperties.RunPastEnd | lexer/lexer.go:152 | past the end of the input, the next call panics |
| Examples.HeadingsShape | lexer/lexer_test.go:29-39 | `#h\n##` lexes to H1 `h`, NEW_LINE, H2 "" for any heading text `h` |
| Examples.HeadingsExample | lexer/lexer_test.go:29-39 | the test's input gives the test's three tokens |
| Examples.UnorderedListShape | lexer/lexer_test.go:42-53 | a heading line and two `- ` items lex to H1, NEW_LINE, UL, NEW_LINE, UL |
| Examples.UnorderedListExample | lexer/lexer_test.go:42-53 | the test's input gives the test's five tokens |
| Examples.ListWithBoldShape | lexer/lexer_test.go:55-65 | `- x**y**\n` lexes to UL `x`, BOLD `y`, NEW_LINE |
| Examples.ListWithBoldExample | lexer/lexer_test.go:55-65 | the test's input gives the test's three tokens |
| Examples.ListWithItalicShape | lexer/lexer_test.go:67-75 | `- x*y*\n` lexes to UL `x`, ITALIC `y`, then ITALIC "" from the unconsumed closing `*`, then NEW_LINE |
| Examples.ListWithItalicExample | lexer/lexer_test.go:67-75 | the test's input gives the test's two tokens first |
| Examples.PlainTextShape | lexer/lexer_test.go:77-85 | a plain line and its newline lex to TEXT and NEW_LINE |
| Examples.PlainTextExample | lexer/lexer_test.go:77-85 | the test's input gives the test's two tokens |
| Examples.StarInTextShape | lexer/lexer_test.go:87-95 | `x* y\n` lexes to TEXT `x`, TEXT ` y`, NEW_LINE, and not to the single TEXT the test expects |
| Examples.StarInTextExample | lexer/lexer_test.go:87-95 | the test's input does not give the test's tokens |
| Examples.BoldListShape | lexer/lexer_test.go:97-105 | `- **x**` lexes to UL "" and BOLD `x` |
| Examples.BoldListExample | lexer/lexer_test.go:97-105 | the test's input gives the test's two tokens |
| Examples.UnclosedBoldExample | lexer/lexer.go:131-132 | `**abc` gives ILLEGAL with the cursor on the end |
| Examples.BoldOverrunExample | lexer/lexer.go:122-129 | `**a*` leaves the cursor one past the end, and the second call panics |
| Examples.TripleStarOverrunExample | lexer/lexer.go:122-129 | `***` leaves the cursor one past the end, and the second call panics |
| Examples.BoldCrossesNewLineExample | lexer/lexer.go:122-129 | in `**a*\nb**` the bold span runs over the newline |
| Examples.HeaderAfterBoldExample | lexer/lexer.go:65-66 | a `#` right after a bold span still starts a heading, because `prevToken` is not updated |
| Examples.TooManyLevelsExample | lexer/lexer.go:185-186 | `####x` gives ILLEGAL "Too many headerlevels" with the cursor on the end of the line |
| Examples.EmptyInputExample | lexer/lexer.go:146-153 | the empty input gives TEXT "" on every call |
| Examples.HashInTextExample | lexer/lexer.go:146-153 | `ab#c` is one TEXT token: a `#` inside a line does not start a heading |
| Examples.DashItemExample | lexer/lexer.go:90-99 | `-x` gives UL `x`: no space is needed after the `-` |
| Examples.EmbeddedNulExample | lexer/lexer.go:164-166 | a NUL byte acts as the end of input, and the lexer stays on it |

## Left out

- `fmt.Println` in `parseBoldText` (`lexer/lexer.go:118`): debug output only; it does not affect the tokens or the cursor.
- `isLetter` and `isReservedChar` (`lexer/lexer.go:191-208`): never called.
- The test harness `runTests` and `t.Fatalf` (`lexer/lexer_test.go:14-27`): each test is stated as a lemma about `Lex` instead.
- The Go panic on an out-of-range slice: modelled as `None` from `Run`/`Lex` and as the precondition `position <= |input|` of the `NextToken` method, not as a crash.
- `prevToken` is a Go pointer to the local `tok`. It is modelled as an `Option<Token>` value; nothing changes the token after it is recorded, so no aliasing is lost.
- Strings are modelled as sequences of bytes. UTF-8 is not decoded, as Go's byte indexing does not decode it either.
- Scan.NewToken: models `string(ch)` as the one-byte string. Go encodes a byte of 0x80 or more as two UTF-8 bytes. The only callers pass `#` or `-`, and those branches cannot be reached.
- The token kinds ORDERED_LIST and EOF are declared but never produced; the model keeps them as kinds only.
- Nothing is modelled beyond the lexer and the token package, such as turning the tokens into HTML or reading files.
