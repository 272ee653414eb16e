# A verified model of the C-subset scanner in `lexer.c`

This project models the hand-written scanner of a small C compiler. The
scanner reads a C-subset program from a NUL-terminated buffer, one token per
call of `get_next_token`. A token is one of:

- a keyword: `int`, `void` or `return`;
- an identifier;
- a decimal constant;
- one of the punctuators `( ) { } ;`;
- end of file;
- an error token covering a run of text no other rule accepts.

A driver loop in `main` calls the scanner until end of file. It counts the
error tokens and exits with status 1 when there was at least one.

## Layout

- `char_class.dfy` (module `CharClass`): the `<ctype.h>` classes `isspace`,
  `isalpha`, `isdigit` and `isalnum`, fixed to the C locale (ASCII), plus the
  derived classes the scanner tests.
- `tokens.dfy` (module `Tokens`): the `TokenType` enumeration, the `Token`
  record, `check_keyword` and `token_to_debug_string`.
- `scan_spec.dfy` (module `ScanSpec`): the reference definition of one
  scanner call (`Scan`) and of `skip_comments` (`SkipCommentsSpec`). These
  are pure functions over the buffer and a cursor. The lemmas state what
  the scanner promises about them.
- `scanner.dfy` (module `Scanner`): the scanner as the C code runs it. It
  has pointer-stepping `while` loops, and a `Lexer` class whose `pos` field
  is the cursor that `get_next_token` receives by address. Each method is
  proved equal to the reference functions.
- `driver.dfy` (module `Driver`): the `do … while` loop of `main` that
  counts error tokens and decides the exit status. It also has lemmas about
  the whole token stream.
- `spacing.dfy` (module `Spacing`): whitespace between tokens does not
  change the token stream.
- `as_written.dfy` (module `AsWritten`): the error run exactly as the C code
  writes it, with its cursor over-count.
- `scenarios.dfy` (module `Scenarios`): the complete token streams for five
  concrete inputs.

The buffer is a `seq<char>` without NUL characters (`CString`). Position
`|s|` stands for the terminating `'\0'`. `At(s, i)` is the dereference `*p`.
A lexeme is a value string. The `NULL` lexeme of an end-of-file token is the
empty string.

### Where the code does not do what its comments and names suggest

- The comment at lexer.c:138 says whitespace and comments are skipped, but
  `get_next_token` calls only `skip_whitespace` (lexer.c:139) and never
  `skip_comments`. Comments are therefore scanned as ordinary text. `// x`
  gives the error token `//` and then the identifier `x`. An unterminated
  `/* x` gives the error token `/*` and then the identifier `x`, not a bare
  end of file. The model follows the code. `skip_comments` is still modelled
  and proved as its own operation (`Scanner.SkipComments`).
- The error run stops only at whitespace, a punctuator or the end
  (lexer.c:216-217), so it swallows letters. `foo$bar` gives
  `IDENTIFIER("foo")`, `ERROR("$bar")` and EOF. One might expect `$` alone,
  then `bar`; the model follows the code.
- The error run's length is counted from the token start. This is a
  deliberate repair, described under Findings. `12abc;` gives
  `ERROR("12abc")`, `SEMICOLON` and EOF.

## Model

| member | source | states |
|---|---|---|
| `Tokens.CheckKeyword` | lexer.c:123-129 | the result is `Int`, `Void` or `Return` exactly for the lexemes `int`, `void` and `return`; it is `Identifier` exactly for every other lexeme |
| `Tokens.DebugName` | lexer.c:39-58 | every token type has a debug name, and none of them is `UNKNOWN` (the default arm cannot be reached); a name starts with `KEYWORD_` exactly when the type is a keyword |
| `Tokens.DebugNameInjective` | lexer.c:39-58 | two token types with the same debug name are the same type |
| `ScanSpec.CStringOf` | lexer.c:249-251 | the buffer the scanner sees is the longest prefix of the file without a NUL: it is a prefix of the file, and it ends at the file's end or at a NUL |
| `ScanSpec.At` | lexer.c:81 | dereferencing the cursor gives the terminator `'\0'` exactly at the end of the buffer, and the buffer's own character everywhere before it |
| `ScanSpec.RunEnd` | lexer.c:81-82 | the end of a maximal run: every character before it satisfies the class, and the character at it does not (or it is the end) |
| `ScanSpec.RunEndUnique` | lexer.c:81-82 | any position that bounds a run of the class and stops on a non-member is the run end, so a maximal run is unique |
| `ScanSpec.RunEndIdempotent` | lexer.c:79-84 | skipping whitespace twice is the same as skipping it once |
| `ScanSpec.TokenStart` | lexer.c:139 | `skip_whitespace` at the top of `get_next_token` stops at the first position from the cursor on that is the end or not whitespace; every character it passes is whitespace |
| `ScanSpec.PunctKind` | lexer.c:152-160 | each of `( ) { } ;` has one of the five punctuator types |
| `ScanSpec.PunctKindInjective` | lexer.c:152-160 | two punctuators with the same type are the same character, so the `switch` maps each character to its own type |
| `ScanSpec.Scan` | lexer.c:136-227 | one call never moves the cursor past the end; it returns EOF exactly when only whitespace is left, and then the cursor is at the end and the lexeme is empty; any other token strictly advances the cursor, its lexeme is the text between the token start and the new cursor, and that lexeme holds no whitespace |
| `ScanSpec.ScanAt` | lexer.c:152-226 | a token that starts at a non-whitespace character is never EOF; it consumes at least one character, and its lexeme is exactly the consumed text |
| `ScanSpec.ScanEofIff` | lexer.c:139-147 | EOF is returned if and only if every character from the cursor on is whitespace |
| `ScanSpec.EofIsTerminal` | lexer.c:139-147 | after EOF the cursor is at the end, and scanning again returns the same EOF at the same position |
| `ScanSpec.ScanPunctuator` | lexer.c:152-167 | a leading `( ) { } ;` is consumed alone, with its own type and a one-character lexeme |
| `ScanSpec.ScanIdentifier` | lexer.c:174-189 | a token starting with a letter or `_` is the maximal run of letters, digits and `_`; the character after it is none of those; its type is `check_keyword` of its lexeme |
| `ScanSpec.ScanConstant` | lexer.c:195-213 | a digit run not followed by a letter, digit or `_` is a constant; its lexeme is that run and the cursor advances by its length |
| `ScanSpec.ScanRejectedConstant` | lexer.c:207-225 | a digit run followed by a letter or `_` is not split into two tokens; one error token runs from the token start to the end of the error run, past the digits |
| `ScanSpec.RunEndIdentCovered` | lexer.c:216-221 | after a rejected digit run, the error run reaches past the character that rejected it |
| `ScanSpec.ScanErrorToken` | lexer.c:216-225 | an error token is non-empty; it holds no whitespace and no punctuator; it ends at whitespace, a punctuator or the end; it starts with a digit or with a character that no other rule accepts |
| `ScanSpec.ScanTokenShape` | lexer.c:152-213 | the converse view: a keyword or identifier lexeme is an identifier-shaped word typed by `check_keyword`; a constant lexeme is all digits; a punctuator lexeme is the one character of its type |
| `ScanSpec.BlockCloseEnd` | lexer.c:104-108 | a block-comment body scan stops just past the first `*/` at or after its start, or at the end when there is none |
| `ScanSpec.CommentEnd` | lexer.c:95-108 | one comment always consumes at least one character and stays within the buffer |
| `ScanSpec.SkipCommentsSpec` | lexer.c:91-116 | comment skipping never moves backward and stops at a position that does not begin `//` or `/*`; it returns the cursor unchanged when the cursor does not begin a comment |
| `ScanSpec.SkipLineComment` | lexer.c:95-99 | a line comment runs up to its newline and does not consume it; no character it skips is a newline |
| `ScanSpec.SkipBlockComment` | lexer.c:101-109 | a block comment without a closer runs to the end of the buffer; a closed one resumes just past its first `*/` |
| `Scanner.SkipWhitespace` | lexer.c:79-84 | returns the first position at or after the start that is the end or not whitespace, and every character skipped is whitespace |
| `Scanner.SkipComments` | lexer.c:91-116 | the nested pointer loops of `skip_comments` compute `SkipCommentsSpec`, so they have all of its properties |
| `Scanner.IdentifierRun` | lexer.c:177-181 | the counted loop measures the maximal run of letters, digits and `_` |
| `Scanner.DigitRun` | lexer.c:195-205 | the counted loop, started after the first digit, measures the maximal digit run |
| `Scanner.ErrorRun` | lexer.c:216-221 | the counted loop, with its counter started at zero, measures the maximal run without whitespace, punctuators or the terminator |
| `Scanner.ScanWord` | lexer.c:169-226 | trying identifier, then constant, then the error run, with the `len > 0 ? len : 1` fallback, gives the reference token and advance |
| `Scanner.Lexer.constructor` | lexer.c:288 | the cursor starts at the beginning of the buffer |
| `Scanner.Lexer.GetNextToken` | lexer.c:136-227 | the token returned and the new cursor are those of `Scan` at the old cursor; the cursor stays within the buffer |
| `Driver.StreamEndsWithEof` | lexer.c:293-316 | the tokens the loop produces are never empty, and the last one is EOF |
| `Driver.StreamEofOnlyAtEnd` | lexer.c:316 | no token before the last is EOF, so the loop stops at the first EOF |
| `Driver.TokenStream` | lexer.c:293-316 | the tokens the loop produces from a cursor: at least one, and at most one more than the characters left, so the loop terminates (its EOF properties are `Driver.StreamEndsWithEof` and `Driver.StreamEofOnlyAtEnd`) |
| `Driver.ErrorCount` | lexer.c:308-311 | the error count is at most the number of tokens |
| `Driver.ErrorCountZero` | lexer.c:308-311 | the error count is zero exactly when no token is an error token |
| `Driver.Tokenize` | lexer.c:288-326 | the do-while loop terminates; it yields exactly the stream up to and including the first EOF and counts its error tokens; the status is 1 if and only if the count is positive, and 0 otherwise; the status is 0 exactly when no token is an error token |
| `Driver.NextToken` | lexer.c:294 | one pass of the loop body: the token and the new cursor are those `Scan` gives at the old cursor; the token extends the tokens so far by the next token of the stream, and the cursor strictly advances unless that token is EOF |
| `Driver.StreamStep` | lexer.c:293-316 | the stream is the token scanned at the cursor, followed by the stream after it unless that token is EOF |
| `Driver.StreamAdvance` | lexer.c:293-316 | one loop iteration keeps the loop invariant: the tokens so far plus the rest of the stream are the whole stream, and the cursor strictly advances until EOF |
| `Driver.ErrorCountAppend` | lexer.c:308-311 | appending a token raises the count by one exactly when that token is an error |
| `Driver.StreamCoversInput` | lexer.c:293-316 | scanning loses nothing but whitespace: the concatenated lexemes of the stream equal the remaining buffer with its whitespace removed |
| `Driver.BlankInput` | lexer.c:293-316 | an empty or whitespace-only buffer yields EOF alone and no errors |
| `Spacing.ScanShift` | lexer.c:136-227 | one call reads only the text from the cursor on: two buffers that agree from their cursors on give the same token and the same advance |
| `Spacing.StreamShift` | lexer.c:293-316 | the token stream from a cursor depends only on the text from the cursor on |
| `Spacing.ScanWindow` | lexer.c:139-226 | one call reads only its own token and the character after it: a buffer that agrees on the token's text, and whose next character ends the token alike, gives the same token and cursor |
| `Spacing.SpaceAtCursor` | lexer.c:136-227 | whitespace inserted at any position the loop's cursor reaches leaves the whole token stream unchanged |
| `AsWritten.ErrorStepAsWritten` | lexer.c:216-225 | the error run as written yields an error token whose cursor lands at or past the repaired run end; the excess is exactly the length of the digit run carried over in `len`, and zero when the token does not start with a digit |
| `AsWritten.ScanAtAsWritten` | lexer.c:152-226 | `get_next_token` as written gives the same token type as the repaired scanner and never advances less (the exact excess is `AsWritten.AsWrittenOvercounts`) |
| `AsWritten.AsWrittenOvercounts` | lexer.c:192-225 | as written, an error token that starts with a rejected digit run advances the cursor further than the repaired run, by the number of digits; every other token is unchanged |
| `AsWritten.AsWrittenOverrunsBuffer` | lexer.c:216-225 | on `12abc;` the as-written cursor moves to 7, one past the terminator of a 6-character buffer; the repaired scanner stops at 5, before the semicolon |
| `Scenarios.ProgramTokens` | lexer.c:136-227 | `int main(void){return 2;}` gives `int`, `main`, `(`, `void`, `)`, `{`, `return`, `2`, `;`, `}`, EOF, with no error |
| `Scenarios.DollarSwallowsLetters` | lexer.c:216-221 | `foo$bar` gives `IDENTIFIER("foo")`, `ERROR("$bar")`, EOF |
| `Scenarios.GluedConstantIsOneError` | lexer.c:195-225 | `12abc;` gives `ERROR("12abc")`, `SEMICOLON`, EOF |
| `Scenarios.LineCommentIsScanned` | lexer.c:139 | a line comment before `int x;` is scanned as text: `ERROR("//")`, `IDENTIFIER("comment")`, then `int`, `x`, `;`, EOF |
| `Scenarios.OpenCommentIsScanned` | lexer.c:139 | an unterminated block comment is scanned as text: `ERROR("/*")`, `IDENTIFIER("unterminated")`, EOF |

## Findings

| source | as written | input that shows it | evidently intended | confidence | as-written member | corrected member |
|---|---|---|---|---|---|---|
| lexer.c:216-225 | `len` is reset before the digit branch (lexer.c:192-193) but not before the error run. After a rejected digit run, the error loop counts again from the token start on top of the digit count. The cursor then advances by digits + run, which can step past the terminating NUL. | `12abc;`: the cursor moves to 7 in a 6-character buffer, and the next call reads past the end | the error run covers the text from the token start to the next whitespace, punctuator or end, and the cursor never passes the end | high (not executed) | `AsWritten.AsWrittenOverrunsBuffer` | `ScanSpec.ScanErrorToken` |

The rest of the model uses the repaired error run (`Scanner.ErrorRun`,
`ScanSpec.ScanAt`), whose cursor is proved never to pass the end
(`ScanSpec.Scan`).

## Left out

- compiler_driver.c is not part of this model. It is process glue: it stats and removes files, writes a stub assembly file, and runs `gcc` through `system()`. Its path handling relies on POSIX `dirname`/`basename`.
- `read_file` (lexer.c:237-253) is file I/O, and it ends without a `return` statement. The model starts from the file's text. `CStringOf` keeps the part before the first NUL, which is all the scanner can see.
- The `fgets`/`strtok` loop at lexer.c:263-273 is standard-input I/O. Its inner loop has an empty body and never terminates once a token is found. The argument check and the read failure (lexer.c:274-283) exit with status 1 before any scanning; they are I/O and are not modelled.
- Printing is left out: the echoed source, each token's rendered line, the per-error diagnostic and the summary (lexer.c:285-286, 297-309, 318-320). The printing code also calls `token_type_to_string` and names `TOKEN_KEYWORD_*`, and neither exists in the file. Only the error count that this code updates is modelled.
- Heap management is left out: `strdup`, `strndup`, `free`, and the `strdup("")` leaked at lexer.c:150. Lexemes are values.
- Character classes are fixed to the C locale. Locale-dependent `<ctype.h>` behaviour beyond ASCII is not modelled.
- The buffer is assumed to hold no NUL before its end (`CString`). A file with an embedded NUL is cut at that NUL by `CStringOf`, as the C string functions would cut it.
- Skipping comments inside `get_next_token` is not modelled, because the code does not do it.
- Integer width: `len` (lexer.c:172) and `error_count` (lexer.c:290) are C `int`, while the model's counters and cursor are unbounded `nat`. A single run longer than `INT_MAX` characters would overflow `len` in C. The unguarded `*current_pos += len` of an identifier (lexer.c:187) or a constant (lexer.c:211) could then move the cursor backward. At lexer.c:223-225, an overflowed `len` gives a one-character error token and a one-character advance, or a short token and advance, so the error token would no longer be a maximal run. The strict-progress and bound properties are proved for unbounded counters only, so for buffers shorter than `INT_MAX` characters.
- Bytes versus characters: the C code scans bytes (`(unsigned char)*input`, lexer.c:81, 177, 195, 216). In the model, each `char` stands for one byte, a value below 256. A UTF-8 multi-byte character in the file is several bytes, and therefore several `char`s here. Lexeme lengths and cursor offsets are counted in those bytes.
