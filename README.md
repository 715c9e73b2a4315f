# A verified model of the mon_lang compiler core

mon_lang is a compiler for a small imperative language whose keywords are
Mongolian Cyrillic words (`функц`, `буц`, `хэрэв`, `тоо`, ...). The
repository holds several overlapping iterations. This project models the
sequential pipeline that exists in the code, one Dafny module per source
file, and proves what each stage promises:

- **C front end.** `decoder.c` decodes the lead byte of a UTF-8 sequence
  following the bit layout of section 3 of RFC 3629 (module
  `Utf8Decoder`). `scanner.c` is a cursor scanner over a `wchar_t` buffer
  (`CScanner`, a class whose fields are the cursor pointers and the line).
  `tree.c` builds AST nodes (`CTree`). `interp.c` evaluates them (`CInterp`).
- **Go front end.** `lexer/lexer.go` is a rune scanner (`GoLexer`, a class
  for the `Scanner` struct). `gov/parser/parse.go` is the precedence-climbing
  parser with error collection (`GoParser`, a class for the `Parser` struct;
  `GoParserFacts` holds the lemmas about its specification functions).
  `errors/errors.go` and `parser/errors.go` build diagnostics with line
  boundaries and a caret line (`Diagnostics`, `ParseErrors`).
  `parser/ast_expr.go` gives the operator names and AST printers (`Ast`).
- **Semantic passes.** The resolver renames every identifier to a unique
  name using scoped maps (`Resolve`). The loop-labelling pass gives each
  `break` and `continue` the id of the innermost loop (`LabelLoop`). The
  type checker annotates expressions over a symbol table (`TypeCheck`;
  the table itself is `Symbols`).
- **Back end.** `tackygen/tack_gen.go` lowers the AST to TACKY three-address
  code (`Tacky` for the instruction set, `TackyGen` for the generator class
  and its specification functions, `TackyFacts` for the facts about fresh
  names). `TackyRun` is a reference semantics for TACKY that the source does
  not have; `TackyLowering` uses it to state what lowered code computes.
  `code_gen/emitter.go` selects x86-64 instructions, including the System V
  AMD64 psABI calling convention of sections 3.2.2 and 3.2.3: six register
  arguments and the rest pushed in reverse (`Emitter`). The code releases
  an 8-byte alignment padding after a call without reserving it before,
  so the stack is not 16-byte aligned at a call with an odd number of
  stack arguments; `Emitter` proves this and gives the corrected call.
  `code_gen/pseudo.go` gives pseudo-registers stack slots (`Pseudo`). `code_gen/fixup.go` legalises operands (`FixUp`).
  `code_gen/asm_ast.go` and `code_gen/asmsymbol/asmsymbols.go` hold the
  assembly AST renderings and the back end's symbol table (`AsmAst`,
  `AsmSymbols`). `code_gen/x86x64.go` writes AT&T text (`X86`, with the
  writer as a sequence of lines). `code_gen/convert.go` transliterates
  symbol names (`Convert`).
- **Utilities.** Cyrillic-to-Latin transliteration (`UtfConvert`),
  round-away-from-zero (`Rounding`), the standard-library text splitter
  (`Loader`), the unique-name generator (`Unique`) and the string interning
  pool (`StringPool`). `Decimal` and `GoStrings` give the behaviour of Go's
  `%d` formatting and of `strings.Split`, `strings.TrimSpace` and
  `strings.Fields` that the code relies on. `Wrappers` holds `Option` and
  `Result`, where `Panic` stands for a Go panic or a C exit. `MTypes`
  holds the language's types and the 32-bit conversions.

Code that changes state in place keeps that form. The Go structs whose
methods update fields (`Scanner`, `Parser`, `Resolver`, `TackyGen`, the
symbol tables, the string pool, the assembly writer) are classes. Each
method is proved equal to a specification function of the old state. The
lemmas about those functions carry the properties. Loops in the source
are `while` loops with invariants. Pure code is functions and lemmas.

Go panics, C `exit` calls and reads of undefined values are explicit
results (`Panic`, `None`, `Fault`), never preconditions, with one
exception: the constructors `GoLexer.Scanner.constructor` and
`GoParser.Parser.constructor` require a non-empty source, where
`NewScanner` would panic on an empty one (lexer/lexer.go:33); the driver
always appends a 0 rune. Integers are unbounded. Go's `int32`
wrap-around, its truncating `/` and `%`, and the 32-bit mask
(`& 0xffffffff`) of the fix-up pass are written out where the code
depends on them.

Where the code departs from what its authors evidently meant, the model
follows the code and states the departure as a lemma. The clearest of
these also have a corrected definition with the intended property proved
about it; "## Findings" lists them, one row each with both members.

## Model

| member | source | states |
|---|---|---|
| Utf8Decoder.LeadWidth | decoder.c:11-26 | the width a leading byte announces is always between one and four |
| Utf8Decoder.DecodeUtf8 | decoder.c:8-27 | a byte below 0x80 decodes to itself with width 1; the width is the one the lead byte announces and decoding succeeds exactly when that many bytes are present; 2, 3 and 4-byte forms give runes below 0x800, 0x10000 and 0x200000; a continuation byte or a byte from 0xF8 up gives U+FFFD with width 1 |
| Utf8Decoder.Continuation | decoder.c:15-21 | a continuation byte has the `10xxxxxx` tag and carries the low six bits it was given |
| Utf8Decoder.DecodeEncode | decoder.c:8-27 | decoding the shortest encoding of any rune below 0x200000 gives the rune back and consumes exactly that encoding |
| Utf8Decoder.Encode2 | decoder.c:14-16 | a rune from 0x80 to 0x7FF packs into a `110xxxxx` lead and one continuation byte |
| Utf8Decoder.Encode3 | decoder.c:17-19 | a rune from 0x800 to 0xFFFF packs into a `1110xxxx` lead and two continuation bytes |
| Utf8Decoder.Encode4 | decoder.c:20-22 | a rune from 0x10000 to 0x1FFFFF packs into a `11110xxx` lead and three continuation bytes |
| Utf8Decoder.NoValidation | decoder.c:14-19 | continuation bytes are not checked: an overlong NUL, a non-continuation second byte and an encoded surrogate are all accepted |
| CScanner.WcharBytes | scanner.c:80-87 | a `wchar_t` occupies four bytes in memory |
| CScanner.MemBytes | scanner.c:80-87 | a wide string of n characters occupies 4n bytes |
| CScanner.KeywordLengths | scanner.c:106-154 | every keyword of the table has two to seven characters and a real token type |
| CScanner.KeywordFrom | scanner.c:106-154 | the keyword search from a table position returns a position at or after it |
| CScanner.KeywordFromFirst | scanner.c:106-154 | the table is tried in order: the keyword returned is accepted by `checkKeyword`, and no keyword before it is |
| CScanner.ThreeBytesDetermine | scanner.c:80-87 | two characters agree in their three low bytes exactly when they are equal |
| CScanner.ShortKeywordComparesFirstChar | scanner.c:80-87 | because `memcmp` is given a character count as a byte count, a keyword rest of three or four characters matches exactly when the first character matches |
| CScanner.ReturnKeywordByFirstChar | scanner.c:106-154 | any word starting with `б` is taken for the return keyword `буц`, the first entry of the table |
| CScanner.FiveCharKeywordComparesOneByteMore | scanner.c:80-87 | a five-character rest matches when the first character and the low byte of the second match |
| CScanner.StringEnd | scanner.c:193-211 | the first closing quote or terminator at or after a position, with none of either before it |
| CScanner.StringEndFirst | scanner.c:193-211 | any position holding a quote or terminator with none before it is the one StringEnd finds |
| CScanner.SkipBlank | scanner.c:56-63 | skipping blanks moves the lexeme start by at most two characters and stays inside the buffer |
| CScanner.Scanner.constructor | scanner.c:10-20 | after `initScanner`, start and current are at the beginning of the source and the line is 1 |
| CScanner.Scanner.Next | scanner.c:50-54 | `next` returns the current character and advances the cursor by one, changing nothing else |
| CScanner.Scanner.NextTimes | scanner.c:44-48 | `nextTimes(n)` advances the cursor by n and returns the last character passed |
| CScanner.Scanner.SkipWhitespace | scanner.c:56-63 | `skipWhitespace` skips at most one space |
| CScanner.Scanner.AdvanceLine | scanner.c:184-192 | `advanceLine` skips at most one `\r` or `\n` and counts a line exactly when it does |
| CScanner.Scanner.ScanKeyword | scanner.c:106-154 | with no keyword at the start the cursor stays and `T_ERR` is returned; otherwise the keyword's token is built with the keyword's length, or nothing when `nextTimes` would read past the terminator |
| CScanner.Scanner.ScanIdent | scanner.c:156-171 | a keyword when the table has one at the start, otherwise the maximal run of letters, digits and `_` as `T_IDENT` |
| CScanner.Scanner.ScanIdentRun | scanner.c:165-170 | the identifier loop stops at the first character that is not a letter, digit or `_` |
| CScanner.Scanner.BuildNumber | scanner.c:177-182 | a number is the maximal run of digits, as `T_NUMBER` |
| CScanner.Scanner.ScanString | scanner.c:193-211 | a string counts every newline it passes; reaching the terminator first gives `T_ERR` there, otherwise the closing quote is consumed and `T_STRING` is returned |
| CScanner.Scanner.ScanToken | scanner.c:214-282 | at the end of the buffer no token; otherwise the lexeme starts after at most one line terminator and one space, the token's length is current minus start, the line count grows by the skipped terminator and the newlines of a string, and the token kind follows the first character |
| CScanner.Scanner.ScanAtStart | scanner.c:220-281 | at the terminator the result is `T_EOF` with length 0; otherwise the lexeme is scanned from its first character |
| CScanner.Scanner.ScanLexeme | scanner.c:223-281 | the token kind is determined by the first character of the lexeme and the token spans start to current |
| CScanner.Scanner.LexAlpha | scanner.c:228-233 | a letter starts a keyword or identifier |
| CScanner.Scanner.LexDigit | scanner.c:237-238 | a digit starts a number |
| CScanner.Scanner.LexString | scanner.c:277-278 | a quote starts a string literal |
| CScanner.Scanner.ScanOperator | scanner.c:240-281 | `->` is `T_RIGHTARROW` over two characters, `==` is `T_EQUAL`, a lone `=` and any unknown character are `T_ERR`, `+ * / > < -` are `T_BINARY_OP` |
| CScanner.IsDigit | scanner.c:75-78 | the digit test: `0` to `9` only; BuildNumber and LexDigit state its use |
| CScanner.IsAlpha | scanner.c:89-104 | the letter test: Latin a-z and A-Z, Cyrillic а-я and А-Я, and ё, ү, е; LexAlpha and ScanIdentRun state its use |
| CScanner.CheckKeyword | scanner.c:80-87 | `memcmp` of `length` BYTES of the buffer at `start` with the keyword and its terminator; ShortKeywordComparesFirstChar and FiveCharKeywordComparesOneByteMore state what it compares |
| CScanner.KeywordAt | scanner.c:106-154 | the first table entry that checkKeyword accepts at the lexeme start; KeywordFromFirst states that it is the first |
| CScanner.SingleCharKind | scanner.c:240-279 | the kinds of the one-character cases of the switch; ScanOperator states them |
| CScanner.Newlines | scanner.c:195-202 | the line feeds a string literal passes; ScanString states that each one counts a line |
| CScanner.Scanner.FromEnum | scanner.c:22-38 | the token of a kind: the current line, the start, length `current - start` and the lexeme's characters; ScanToken states the length |
| CScanner.Scanner.Peek | scanner.c:40-43 | the character at the cursor; the scanner methods state what they do with it |
| CScanner.Scanner.IsAtEnd | scanner.c:70-73 | the cursor is on the terminator; ScanAtStart states that it gives `T_EOF` with length 0 |
| GoLexer.RunesToString | lexer/lexer.go:96-102 | converting runes to a string keeps one character per rune |
| GoLexer.AlphaExcludesUpperLatinAndDigits | lexer/lexer.go:57-76 | upper-case Latin letters, digits, `_` and the 0 rune are not letters |
| GoLexer.RunEnd | lexer/lexer.go:180-195 | the end of a maximal run stays inside the slice and the rune there does not belong to the run |
| GoLexer.RunEndAll | lexer/lexer.go:180-195 | every rune before the end of a run belongs to it |
| GoLexer.NoNewlines | lexer/lexer.go:254-259 | text with no line feed counts no line |
| GoLexer.NewlinesAppend | lexer/lexer.go:254-259 | the line count of concatenated text is the sum of the parts' counts |
| GoLexer.MakeToken | lexer/lexer.go:96-102 | a built token has the kind asked for, the current line and the span from start to cursor; only identifiers, numbers and strings carry their text |
| GoLexer.KeywordFromListed | lexer/lexer.go:104-178 | a keyword found for a spelling is an entry of the table with that spelling |
| GoLexer.KeywordFromFinds | lexer/lexer.go:104-178 | each table spelling is found with its own kind |
| GoLexer.KeywordsDistinct | lexer/keywords.go:5-27 | no two keywords share a spelling |
| GoLexer.KeywordKindTable | lexer/lexer.go:104-178 | every keyword spelling gives its own token kind |
| GoLexer.KeywordKindOnlyTable | lexer/lexer.go:104-178 | only the spellings of the table are keywords, and no keyword gives an identifier, number, string or end token |
| GoLexer.KeywordToken | lexer/lexer.go:197-202 | a lexeme becomes a keyword token exactly when its text is a keyword spelling, and then carries no text |
| GoLexer.SkipStep | lexer/lexer.go:219-250 | each pass of the skip loop moves the cursor forward and keeps the lexeme start |
| GoLexer.Skipped | lexer/lexer.go:219-250 | skipping never moves the cursor back |
| GoLexer.TracksCompose | lexer/lexer.go:219-250 | line and column tracking over two consecutive stretches composes |
| GoLexer.SkipStepTracks | lexer/lexer.go:222-246 | a newline adds a line and resets the column; a space, tab or comment rune adds one column each |
| GoLexer.SkippedSpec | lexer/lexer.go:219-250 | skip stops at the first rune that is not a newline, space or tab and does not open a `//` comment, and the line and column follow what it passed |
| GoLexer.Began | lexer/lexer.go:293-294 | taking the first rune of a lexeme sets the start there and moves the cursor by one |
| GoLexer.IdentEnd | lexer/lexer.go:189-195 | the two loops of BuildIdent leave a well-formed state |
| GoLexer.OperatorKindSpec | lexer/lexer.go:307-392 | the second rune is taken exactly for `->`, `!=`, `&&`, the double bar, `==`, `>=`, `<=` and `..`; a lone `&` or a single bar and any rune outside the switch is an error; no operator gives an identifier, number, string or end token |
| GoLexer.ScanDispatch | lexer/lexer.go:287-399 | after skipping, a 0 rune gives `EOF`; a quote starts a string, a letter an identifier, a digit a number; everything else goes to the operator switch |
| GoLexer.AlphaExcludes | lexer/lexer.go:57-76 | a letter is not a quote, a digit or an operator |
| GoLexer.NumberSpecFacts | lexer/lexer.go:180-187 | a number is the maximal run of digits from its first digit and carries its text |
| GoLexer.IdentSpecFacts | lexer/lexer.go:188-203 | an identifier is a run of letters and underscores followed by a run of digits; a keyword spelling gives the keyword with no text, anything else `IDENT` with its text |
| GoLexer.StringFromFacts | lexer/lexer.go:253-285 | the string loop stops at the first quote or 0 rune; a 0 rune is an error; otherwise the token's text excludes the quotes, its span includes both, and each line feed passed counts a line |
| GoLexer.StringFromCases | lexer/lexer.go:260-285 | after the loop, a 0 rune gives the unterminated-string error with the line, otherwise the closing quote is consumed |
| GoLexer.StringSpecSkipsFirst | lexer/lexer.go:253 | as written the body is searched from the second rune after the opening quote |
| GoLexer.OperatorSpecFacts | lexer/lexer.go:307-399 | an operator token has the kind of the switch and no text; the cursor passes the second rune exactly for a two-rune operator; other runes are an error |
| GoLexer.IdentNeverGives | lexer/lexer.go:188-203 | an identifier lexeme never yields a kind the lexer cannot reach |
| GoLexer.KeywordInitials | lexer/keywords.go:5-27 | only `64тоо` starts with a digit and only `-с` with a minus, so neither can be lexed as a keyword |
| GoLexer.KeywordKindsScanned | lexer/keywords.go:5-27 | the other table entries all have reachable kinds |
| GoLexer.OperatorNeverGives | lexer/lexer.go:307-399 | the operator switch never yields an unreachable kind |
| GoLexer.ScanNeverGives | lexer/lexer.go:287-400 | no scan yields the `LONG` or `FROM` keywords or other unreachable kinds |
| GoLexer.LexemeNeverGives | lexer/lexer.go:295-399 | the same for each branch on the first rune of a lexeme |
| GoLexer.ScanAdvances | lexer/lexer.go:287-400 | every scan that does not return `EOF` moves the cursor forward; after `EOF` scanning again gives `EOF` again |
| GoLexer.LexemeAdvances | lexer/lexer.go:295-399 | no lexeme branch returns `EOF` or moves the cursor back |
| GoLexer.StringAdvances | lexer/lexer.go:251-285 | reading a string never returns `EOF` or moves the cursor back |
| GoLexer.IdentKindScanned | lexer/lexer.go:188-203 | an identifier lexeme is never `EOF` |
| GoLexer.StringIntendedSpec | lexer/lexer.go:251-285 | the corrected reading: a literal closes at the first quote after the opening one, its text is everything between, and each line feed in it counts |
| GoLexer.EmptyStringAsWritten | lexer/lexer.go:253 | as written `""` is reported unterminated |
| GoLexer.EmptyStringIntended | lexer/lexer.go:251-285 | the corrected reading gives `""` the empty text over span 0 to 2 |
| GoLexer.FirstNewlineUncounted | lexer/lexer.go:253-257 | as written a line feed right after the opening quote is not counted; the corrected reading counts it |
| GoLexer.StringFromLine | lexer/lexer.go:254-259 | the string loop ends on the start line plus the line feeds it passed |
| GoLexer.Scanner.constructor | lexer/lexer.go:29-37 | the new scanner holds the source with the cursor and start at 0, the current rune the first, line 1 and column 0 |
| GoLexer.Scanner.Peek | lexer/lexer.go:92-94 | the rune at the cursor, 0 past the end |
| GoLexer.Scanner.IsAtEnd | lexer/lexer.go:205-210 | the end is reached past the slice or at any 0 rune |
| GoLexer.Scanner.Next | lexer/lexer.go:77-91 | returns the current rune and moves one rune and one column on, or moves nothing past the end |
| GoLexer.Scanner.Skip | lexer/lexer.go:219-250 | the new state is the skip specification of the old |
| GoLexer.Scanner.SkipComment | lexer/lexer.go:238-246 | a comment is consumed up to but not including the line feed, one column per rune |
| GoLexer.Scanner.ConsumeRun | lexer/lexer.go:181-195 | the loop stops at the end of the maximal run, one column per rune |
| GoLexer.Scanner.BuildNumber | lexer/lexer.go:180-187 | the token and new state are the number specification's |
| GoLexer.Scanner.BuildIdent | lexer/lexer.go:188-203 | the token and new state are the identifier specification's |
| GoLexer.Scanner.ConsumeStringBody | lexer/lexer.go:254-259 | the string loop stops at the first quote or 0 rune and counts each line feed passed |
| GoLexer.Scanner.BuildString | lexer/lexer.go:251-285 | the result and new state are the string specification's; a read literal's text is interned in the pool, and an error leaves the pool unchanged |
| GoLexer.Scanner.ReadString | lexer/lexer.go:251-277 | the same without the pool |
| GoLexer.Scanner.ReadStringFrom | lexer/lexer.go:254-277 | the loop and what follows it meet the loop specification |
| GoLexer.Scanner.ScanOperatorRune | lexer/lexer.go:307-399 | the result and new state are the operator specification's |
| GoLexer.Scanner.Scan | lexer/lexer.go:287-400 | the result and new state are the scan specification's, and the pool changes only for a string token |
| GoLexer.Scanner.ScanSkipped | lexer/lexer.go:289-294 | the same once the blanks are skipped |
| GoLexer.Scanner.ScanLexeme | lexer/lexer.go:295-399 | the same for each branch on the first rune |
| GoLexer.TypeName | lexer/token.go:5-69 | the string value of each token kind; the error messages of the parser print it |
| GoLexer.At | lexer/lexer.go:85-89 | the rune at an index, 0 past the end, which is what `Current` holds; Scanner.Peek and Scanner.Next state it |
| GoLexer.IsDigit | lexer/lexer.go:53-55 | the digit test; NumberSpecFacts states its use |
| GoLexer.IsAlpha | lexer/lexer.go:57-76 | the letter test: Cyrillic а-я and А-Я, ё ү е ө Ё Ү Е Ө and lower-case Latin; AlphaExcludesUpperLatinAndDigits states what it leaves out |
| GoLexer.Newlines | lexer/lexer.go:221-224 | the line feeds in a stretch of runes; NewlinesAppend and SkipStepTracks state how lines are counted |
| GoLexer.KeywordFrom | lexer/lexer.go:104-178 | the comparisons of ToKeyword in their order; KeywordFromListed and KeywordFromFinds state its results |
| GoLexer.KeywordKind | lexer/lexer.go:104-178 | the keyword kind of a spelling, if any; KeywordKindTable and KeywordKindOnlyTable state it |
| GoLexer.SkipStop | lexer/lexer.go:219-250 | where Skip stops: not a newline, space or tab and not the start of `//`; SkippedSpec states it |
| GoLexer.NumberSpec | lexer/lexer.go:180-187 | BuildNumber as a function of the state; NumberSpecFacts states it |
| GoLexer.IdentToken | lexer/lexer.go:196-202 | the keyword test on the identifier lexeme; KeywordToken states it |
| GoLexer.IdentSpec | lexer/lexer.go:188-203 | BuildIdent as a function of the state; IdentSpecFacts states it |
| GoLexer.StringSpec | lexer/lexer.go:251-285 | BuildString as written, with the extra `Next` of lexer/lexer.go:253; StringSpecSkipsFirst and EmptyStringAsWritten state it |
| GoLexer.StringFrom | lexer/lexer.go:254-285 | the string loop and what follows it; StringFromFacts and StringFromCases state it |
| GoLexer.OperatorKind | lexer/lexer.go:307-392 | the operator switch on the rune taken and the current rune; OperatorKindSpec states it |
| GoLexer.OperatorError | lexer/lexer.go:349-353 | the text of the unknown-rune error with the rune, the line and the column; OperatorSpecFacts states when it is given |
| GoLexer.OperatorSpec | lexer/lexer.go:307-399 | the operator cases of Scan; OperatorSpecFacts states them |
| GoLexer.LexemeSpec | lexer/lexer.go:295-399 | the branch on the first rune of a lexeme; ScanDispatch states it |
| GoLexer.ScanFrom | lexer/lexer.go:289-399 | Scan once blanks are skipped: EOF at a 0 rune, else the lexeme; ScanDispatch states it |
| GoLexer.ScanSpec | lexer/lexer.go:287-400 | Scan as a function of the source and the old state; Scanner.Scan is proved equal to it and ScanAdvances states it |
| GoLexer.StringSpecIntended | lexer/lexer.go:251-285 | BuildString as evidently intended, searching from the rune after the opening quote; StringIntendedSpec states it |
| GoLexer.Interned | stringpool/stringpool.go:24-43 | the pool map after interning a literal; Scanner.BuildString states that a string token's text is interned |
| GoParser.PrecedenceLevels | gov/parser/parse.go:364-395 | the levels climb Lowest < Assign < Conditional < LogicOr < LogicAnd < Equals < Compare < Sum < Product, and every token kind has one of them |
| GoParser.OperatorsHavePrecedence | gov/parser/parse.go:353-395 | a kind has a precedence above Lowest exactly when it is an infix operator other than `:` |
| GoParser.BinOpDefined | gov/parser/parse.go:447-480 | ParseBinOp reports no error exactly for the kinds with a precedence above Lowest |
| GoParser.TightestLevels | gov/parser/parse.go:379-395 | only `*` and `/` have the Product level, and only `+` and `-` the Sum level |
| GoParser.BinOpPrints | gov/parser/parse.go:447-480 | every operator code ParseBinOp gives prints as the operator's own symbol, except `=`, which prints as `unknown` |
| GoParser.CodeKindInverts | gov/parser/parse.go:447-480 | the operator code determines the token kind it came from |
| GoParser.BinOpInjective | gov/parser/parse.go:447-480 | distinct operators get distinct codes |
| GoParser.ParseIntOfNumeral | gov/parser/parse.go:506-510 | a decimal numeral reads back as its value up to the largest int64, and as that largest value beyond |
| GoParser.NumeralHasNoLeadingZero | gov/parser/parse.go:506-510 | a numeral of more than one digit printed from a number has no leading zero |
| GoParser.LeadingZeroIsOctal | gov/parser/parse.go:506-510 | with base 0 a leading zero reads as octal: `010` is 8, and `09` fails and reads as 0 |
| GoParser.TokensFrom | gov/parser/parse.go:78-84 | the token stream read from a scanner state ends with its first EOF |
| GoParser.ScanTraced | gov/parser/parse.go:78-84 | a scan from the state traced before a token gives that token and the state traced after it |
| GoParser.TokensTraced | gov/parser/parse.go:78-84 | every stream read from a state is traced by the states the scanner passes through |
| GoParser.TraceOfEof | gov/parser/parse.go:78-84 | a scan that gives EOF is a trace of one token |
| GoParser.TraceCons | gov/parser/parse.go:78-84 | a scan that does not give EOF, before a trace from the state it moves to, is a trace |
| GoParser.TraceHead | gov/parser/parse.go:78-84 | a trace starts with the token scanned from its first state, goes on exactly when that token is not EOF, and its rest is a trace |
| GoParser.TracesUnique | gov/parser/parse.go:78-84 | two traces from the same state hold the same tokens |
| GoParser.TracedIsTokens | gov/parser/parse.go:63-72 | the trace from the scanner's initial state is the source's token stream |
| GoParser.TraceTail | gov/parser/parse.go:78-84 | a trace without its first scan is a trace |
| GoParser.TraceSource | gov/parser/parse.go:63-72 | every source has a trace from the initial scanner state |
| GoParser.NextSpec | gov/parser/parse.go:78-84 | the window slides by one: the new current token is the old peek token, the errors are kept, and the stream position advances unless both tokens are EOF |
| GoParser.WithError | gov/parser/parse.go:107-114 | recording an error adds exactly one error and leaves the position |
| GoParser.ExpectSpec | gov/parser/parse.go:94-101 | expect succeeds exactly when the peek token has the expected kind; then it advances onto it with no new error; otherwise it records one error and does not move |
| GoParser.CheckOptionalSpec | gov/parser/parse.go:86-92 | checkOptional advances exactly when the peek token has the kind, and otherwise changes nothing and records no error |
| GoParser.ExprSpec | gov/parser/parse.go:396-445 | ParseExpr never moves back in the token stream and never drops a recorded error, and a successful parse stops at a token whose precedence is not above the minimum |
| GoParser.ExprLoop | gov/parser/parse.go:399-444 | the operator loop never moves back in the token stream and never drops a recorded error and stops only where the next precedence is not above the minimum |
| GoParser.InfixSpec | gov/parser/parse.go:404-441 | one turn of the operator loop consumes at least the operator |
| GoParser.AssignRest | gov/parser/parse.go:408-418 | the assignment branch never moves back in the token stream and never drops a recorded error |
| GoParser.TernaryRest | gov/parser/parse.go:419-432 | the conditional branch never moves back in the token stream and never drops a recorded error |
| GoParser.BinaryRest | gov/parser/parse.go:433-441 | the binary branch never moves back in the token stream and never drops a recorded error |
| GoParser.ExprLoopStep | gov/parser/parse.go:399-444 | while the next precedence is above the minimum, the peek token is an infix operator and the loop is one turn followed by the loop from after it, unless the turn panics |
| GoParser.FactorSpec | gov/parser/parse.go:337-351 | ParseFactor never moves back in the token stream and never drops a recorded error |
| GoParser.UnarySpec | gov/parser/parse.go:482-493 | ParseUnary never moves back in the token stream and never drops a recorded error |
| GoParser.GroupingSpec | gov/parser/parse.go:494-499 | ParseGrouping never moves back in the token stream and never drops a recorded error |
| GoParser.StmtSpec | gov/parser/parse.go:158-167 | ParseStmt never moves back in the token stream and never drops a recorded error |
| GoParser.ExprStmtSpec | gov/parser/parse.go:169-182 | ParseExpressionStmt never moves back in the token stream and never drops a recorded error |
| GoParser.ReturnSpec | gov/parser/parse.go:318-334 | ParseReturn never moves back in the token stream and never drops a recorded error |
| GoParser.IfSpec | gov/parser/parse.go:272-286 | ParseIf never moves back in the token stream and never drops a recorded error |
| GoParser.IfThen | gov/parser/parse.go:287-315 | the then branch and optional else never moves back in the token stream and never drops a recorded error |
| GoParser.ElseSpec | gov/parser/parse.go:295-309 | the else branch never moves back in the token stream and never drops a recorded error |
| GoParser.ElseBody | gov/parser/parse.go:302-308 | the braced else body never moves back in the token stream and never drops a recorded error |
| GoParser.DeclSpec | gov/parser/parse.go:232-249 | ParseDecl never moves back in the token stream and never drops a recorded error |
| GoParser.DeclRest | gov/parser/parse.go:251-269 | the rest of ParseDecl never moves back in the token stream and never drops a recorded error |
| GoParser.BlockItemSpec | gov/parser/parse.go:147-156 | ParseBlockItem never moves back in the token stream and never drops a recorded error |
| GoParser.NextAfterItem | gov/parser/parse.go:215-229 | the NextToken after an item that started before EOF leaves the stream further on than where the item started |
| GoParser.BlockLoop | gov/parser/parse.go:215-229 | the block loop keeps every item parsed, a failed one too, and stops at `}` or EOF |
| GoParser.BlockItemsSpec | gov/parser/parse.go:215-229 | ParseBlockItems never moves back in the token stream and never drops a recorded error |
| GoParser.FnSpec | gov/parser/parse.go:185-212 | ParseFN never moves back in the token stream and never drops a recorded error; a nil definition comes with exactly one new error |
| GoParser.ProgramLoop | gov/parser/parse.go:126-136 | the program loop stops at EOF |
| GoParser.ProgramSpec | gov/parser/parse.go:126-144 | ParseProgram ends at EOF with the error list cleared; the program is rejected exactly when the loop recorded some error, with the first error recorded over the whole parse |
| GoParser.Parser.constructor | gov/parser/parse.go:63-72 | after NewParser the current token is the first of the source's stream, the peek token the second, and there are no errors |
| GoParser.Parser.NextToken | gov/parser/parse.go:78-84 | the new state is NextSpec's |
| GoParser.Parser.AppendError | gov/parser/parse.go:107-114 | the new state is WithError's |
| GoParser.Parser.PeekError | gov/parser/parse.go:116-123 | records the expected-next-token error for the kind |
| GoParser.Parser.Expect | gov/parser/parse.go:94-101 | the result and new state are ExpectSpec's |
| GoParser.Parser.CheckOptional | gov/parser/parse.go:86-92 | the result and new state are CheckOptionalSpec's |
| GoParser.Parser.ParseExpr | gov/parser/parse.go:396-445 | the result and new state are ExprSpec's |
| GoParser.Parser.ParseOperators | gov/parser/parse.go:399-444 | the result and new state are ExprLoop's |
| GoParser.Parser.ParseInfix | gov/parser/parse.go:404-441 | the result and new state are InfixSpec's |
| GoParser.Parser.ParseAssign | gov/parser/parse.go:408-418 | the result and new state are AssignRest's |
| GoParser.Parser.ParseTernary | gov/parser/parse.go:419-432 | the result and new state are TernaryRest's |
| GoParser.Parser.ParseBinary | gov/parser/parse.go:433-441 | the result and new state are BinaryRest's |
| GoParser.Parser.ParseFactor | gov/parser/parse.go:337-351 | the result and new state are FactorSpec's |
| GoParser.Parser.ParseUnary | gov/parser/parse.go:482-493 | the result and new state are UnarySpec's |
| GoParser.Parser.ParseGrouping | gov/parser/parse.go:494-499 | the result and new state are GroupingSpec's |
| GoParser.Parser.ParseStmt | gov/parser/parse.go:158-167 | the result and new state are StmtSpec's |
| GoParser.Parser.ParseExpressionStmt | gov/parser/parse.go:169-182 | the result and new state are ExprStmtSpec's |
| GoParser.Parser.ParseReturn | gov/parser/parse.go:318-334 | the result and new state are ReturnSpec's |
| GoParser.Parser.ParseIf | gov/parser/parse.go:272-286 | the result and new state are IfSpec's |
| GoParser.Parser.ParseThen | gov/parser/parse.go:287-315 | the result and new state are IfThen's |
| GoParser.Parser.ParseElse | gov/parser/parse.go:295-309 | the result and new state are ElseSpec's |
| GoParser.Parser.ParseElseBody | gov/parser/parse.go:302-308 | the result and new state are ElseBody's |
| GoParser.Parser.ParseDecl | gov/parser/parse.go:232-249 | the result and new state are DeclSpec's |
| GoParser.Parser.ParseDeclRest | gov/parser/parse.go:251-269 | the result and new state are DeclRest's |
| GoParser.Parser.ParseBlockItem | gov/parser/parse.go:147-156 | the result and new state are BlockItemSpec's |
| GoParser.Parser.ParseBlockItems | gov/parser/parse.go:215-229 | the result and new state are BlockItemsSpec's |
| GoParser.Parser.ParseFn | gov/parser/parse.go:185-212 | the result and new state are FnSpec's |
| GoParser.Parser.ParseProgram | gov/parser/parse.go:126-144 | the result and new state are ProgramSpec's, so a program is rejected exactly when an error was recorded, with the first one |
| GoParser.Precedence | gov/parser/parse.go:379-395 | the `precedences` table with Lowest for a kind it lacks, as currPrecedence and peekPrecedence read it (parse.go:512-523); PrecedenceLevels and TightestLevels state it |
| GoParser.IsInfixOp | gov/parser/parse.go:353-362 | the kinds that continue the operator loop; OperatorsHavePrecedence states how they relate to the table |
| GoParser.BinOp | gov/parser/parse.go:447-480 | ParseBinOp: the operator code of a kind, or `A_PLUS` with an unknown-operator error; BinOpDefined and BinOpInjective state it |
| GoParser.ParseIntBase0 | gov/parser/parse.go:506-510 | `strconv.ParseInt(s, 0, 64)` with the error dropped; ParseIntOfNumeral and LeadingZeroIsOctal state it |
| GoParser.TokenOf | gov/parser/parse.go:78-84 | NextToken keeps the token of a Scan and drops its error; ScanDroppingError states the token it stores |
| GoParser.IdentExpr | gov/parser/parse.go:501-504 | ParseIdent: a variable of the token's text, a panic on a missing text; FactorOperand states it |
| GoParser.IntLitExpr | gov/parser/parse.go:506-510 | ParseIntLit: a constant of the parsed text, a panic on a missing text; FactorOperand states it |
| GoParser.LoopErrors | gov/parser/parse.go:129-141 | the errors on record when the loop of ParseProgram ends start with the ones recorded before it |
| GoParser.ScanDroppingError | gov/parser/parse.go:78-84 | one Scan from the traced state before a token gives that token, with its error dropped, and leaves the scanner in the state traced after it |
| GoParserFacts.FactorOperand | gov/parser/parse.go:337-351 | an identifier or a number is parsed as that operand without moving |
| GoParserFacts.LoopEnds | gov/parser/parse.go:399-403 | when the peek token does not bind tighter than the minimum, the loop returns the left operand unchanged |
| GoParserFacts.OperandAlone | gov/parser/parse.go:396-445 | an operand followed by a token that does not bind tighter than the minimum is the whole expression |
| GoParserFacts.LoopTakesPlainOp | gov/parser/parse.go:433-441 | a plain operator that binds tighter than the minimum takes its right operand at its own level and becomes the new left operand |
| GoParserFacts.LoopTakesAssign | gov/parser/parse.go:408-418 | `=` takes the assignment branch |
| GoParserFacts.LoopTakesQuestion | gov/parser/parse.go:419-432 | `?` takes the conditional branch |
| GoParserFacts.TraceBinaryCodes | gov/parser/parse.go:447-480 | the plain operators' codes are neither assignment nor `?` |
| GoParserFacts.PairParses | gov/parser/parse.go:396-445 | `a op b` followed by a token that does not bind tighter is one binary node |
| GoParserFacts.UnaryStep | gov/parser/parse.go:482-493 | a unary operator parses its operand from the next token at Lowest |
| GoParserFacts.PrecedenceClimbing | gov/parser/parse.go:396-445 | `a op1 b op2 c` groups as `(a op1 b) op2 c` when op1 binds at least as tight as op2, otherwise as `a op1 (b op2 c)`, and stops at `c` with no error |
| GoParserFacts.LeansLeft | gov/parser/parse.go:396-445 | operators of equal or falling precedence associate to the left |
| GoParserFacts.LeansRight | gov/parser/parse.go:396-445 | a tighter second operator takes `b op2 c` as the first operator's right operand |
| GoParserFacts.RightPairBinds | gov/parser/parse.go:433-441 | after `a`, `op1 b op2 c` with op2 tighter makes `b op2 c` the right operand |
| GoParserFacts.TernaryParses | gov/parser/parse.go:419-432 | `c ? a : b` is a conditional of the three operands with no error |
| GoParserFacts.TernaryRestParses | gov/parser/parse.go:419-432 | the `?` branch on `a : b` builds the conditional |
| GoParserFacts.TernaryGiven | gov/parser/parse.go:419-432 | the middle at Lowest, the colon and the else side at the conditional level make the conditional |
| GoParserFacts.TernaryWithoutColonPanics | gov/parser/parse.go:424-427 | `c ? a` without a colon records the missing colon and then panics |
| GoParserFacts.OperandThenLoop | gov/parser/parse.go:396-398 | an operand first is followed by the loop from that operand |
| GoParserFacts.MiddleWithoutColon | gov/parser/parse.go:424-427 | after `?`, a lone operand with no colon panics with one new error |
| GoParserFacts.MissingColon | gov/parser/parse.go:424-427 | a middle that parses with no colon behind it panics after expect's error |
| GoParserFacts.OperandAfter | gov/parser/parse.go:396-445 | the operand after the current token, followed by a token that binds no tighter, is a whole expression |
| GoParserFacts.AssignParses | gov/parser/parse.go:408-418 | `x = e` builds an assignment of `e` to `x` |
| GoParserFacts.AssignToConstantPanics | gov/parser/parse.go:412-415 | a number on the left of `=` panics once the right side is parsed |
| GoParserFacts.AssignOperand | gov/parser/parse.go:408-418 | after `=` with a lone operand, a variable on the left gives the assignment and anything else panics |
| GoParserFacts.AssignGiven | gov/parser/parse.go:408-418 | the right side parsed, a variable on the left gives the assignment and anything else panics |
| GoParserFacts.ChainedAssignmentPanics | gov/parser/parse.go:408-418 | `a = b = c` panics, because the second `=` finds an assignment on its left |
| GoParserFacts.AssignStep | gov/parser/parse.go:408-418 | `x = e` continues the loop from the assignment; a non-variable on the left panics |
| GoParserFacts.AssignAfterAssignment | gov/parser/parse.go:408-418 | a second `=` after an assignment panics |
| GoParserFacts.UnaryTakesWholeOperand | gov/parser/parse.go:482-493 | the operand of `-`, `~` or `!` is parsed at Lowest, so `-a op b` negates `a op b` |
| GoParserFacts.UnaryThenLoop | gov/parser/parse.go:482-493 | after a unary expression the loop continues from it |
| GoParserFacts.UnknownFactorRecorded | gov/parser/parse.go:345-350 | a token that cannot start a factor gives a nil expression and one unknown-expression error at that token, and nothing is consumed |
| GoParserFacts.FnNilWhenHeaderBroken | gov/parser/parse.go:185-212 | a function without `IDENT ( ) -> тоо {` gives a nil definition |
| GoParserFacts.FnDefinedWhenHeaderOk | gov/parser/parse.go:185-212 | a complete header gives a definition named by the identifier |
| GoParserFacts.HeaderPeeks | gov/parser/parse.go:78-84 | after k NextToken calls the current and peek tokens are those k and k+1 tokens on |
| GoParserFacts.DeclWithoutNamePanics | gov/parser/parse.go:232-269 | a declaration whose name token has no value panics on the nil value unless the next tokens are `:` and something other than `тоо`, and records at least one error |
| GoParserFacts.MissingParenError | gov/parser/parse.go:185-196 | a function header whose name is not followed by `(` records exactly the expected-`(` error, at the name |
| GoParserFacts.FirstErrorKept | gov/parser/parse.go:126-144 | when the first function of a parse from an empty error list gives a nil definition, the program is rejected with the first error that function recorded |
| GoParserFacts.LoopSkipsNil | gov/parser/parse.go:129-135 | a nil function leaves the loop of ParseProgram at the next token, with the same final errors as the loop from there |
| GoParserFacts.ProgramRejectsBrokenHeader | gov/parser/parse.go:126-144 | a program whose first function has a broken header is rejected with the one error that header recorded, and a missing `(` is reported as such at the name |
| ParseErrors.TranslationEmpty | parser/errors.go:77-82 | only an identifier, and the empty kind of a failed scan, translate to the empty text |
| ParseErrors.Format | parser/errors.go:85-87 | a template with one `%s` filled in is as long as the text around the hole and the argument together |
| ParseErrors.FormatInjective | parser/errors.go:63-74 | a template filled with two arguments gives the same message exactly when the arguments are equal |
| ParseErrors.FormatRecovers | parser/errors.go:63-74 | the argument can be read back out of a formatted message |
| ParseErrors.ExpectedMessageDetermines | parser/errors.go:63-66 | two expected-next-token messages are equal exactly when the kinds translate alike, which happens for distinct kinds (`бол`/`үгүй`, a number and `тоо`) |
| ParseErrors.Translation | parser/errors.go:30-60 | the `tokenTranslations` table, `IDENT` to the empty text; ListedNonEmpty and SharedSpellings state it |
| ParseErrors.TokenTranslation | parser/errors.go:77-82 | the table's text for a listed kind and the kind's own name otherwise; TranslationEmpty states it |
| ParseErrors.ListedNonEmpty | parser/errors.go:30-60 | among the listed kinds only `IDENT` translates to the empty text |
| ParseErrors.NameNonEmpty | lexer/token.go:5-69 | every token kind's own name is non-empty, except the empty kind of a failed scan |
| ParseErrors.FormatExpectedNextToken | parser/errors.go:63-66 | the translation put into ErrExpectedNextToken; ExpectedMessageDetermines and FormatRecovers state it |
| ParseErrors.FormatUnknownExpression | parser/errors.go:68-70 | the translation put into ErrUnknownExpression; FormatInjective and FormatRecovers state it |
| ParseErrors.FormatUnknownBinOp | parser/errors.go:72-74 | the translation put into ErrUnknownBinOp; FormatInjective and FormatRecovers state it |
| ParseErrors.SharedSpellings | parser/errors.go:31-57 | `бол` translates both IS and IFNOT, and `тоо` both NUMBER and INT_TYPE |
| Diagnostics.New | errors/errors.go:21-29 | New stores every field as given |
| Diagnostics.FindLineBoundaries | errors/errors.go:48-67 | the loop computes the line bounds of the specification |
| Diagnostics.LineBoundsSpec | errors/errors.go:48-67 | the line starts one past the last line feed before the span's start, or at 0; it ends at the first line feed at or after the span's end, or at the source length when there is none or it is at index 0 |
| Diagnostics.BoundsFromSpec | errors/errors.go:50-61 | the loop from any index keeps the start and end invariants of the line bounds |
| Diagnostics.Repeat | errors/errors.go:69-72 | strings.Repeat of one character gives n copies of it |
| Diagnostics.ErrorPointerShape | errors/errors.go:69-72 | the pointer exists exactly when the line starts at or before the span and the span is ordered; it is spaces up to the span's start and carets exactly under the span |
| Diagnostics.ErrorText | errors/errors.go:32-45 | the method renders the error as the specification does |
| Diagnostics.ErrorFourLines | errors/errors.go:32-45 | for a span inside one line, the rendering succeeds and is the header, the line's text, the pointer and the message, in that order |
| Diagnostics.LineHasNoFeed | errors/errors.go:48-67 | the line cut out around a one-line span holds no line feed |
| Diagnostics.HeaderHasNoFeed | errors/errors.go:39 | the header line holds no line feed when the module name has none |
| Diagnostics.BoundsFrom | errors/errors.go:50-61 | the loop of findLineBoundaries from an index; BoundsFromSpec states its invariants |
| Diagnostics.LineBounds | errors/errors.go:48-66 | the pair findLineBoundaries returns, with an `end` of 0 replaced by the source length; LineBoundsSpec states it and FindLineBoundaries is proved to compute it |
| Diagnostics.ErrorPointer | errors/errors.go:69-72 | createErrorPointer: spaces up to the span and a caret per rune of it, a panic on a negative count; ErrorPointerShape states it |
| Diagnostics.Header | errors/errors.go:39 | the header line: the module in brackets and the line number; HeaderHasNoFeed states it |
| Diagnostics.Rendered | errors/errors.go:32-45 | the text Error returns, the four lines in order; ErrorText is proved to compute it and ErrorFourLines states it |
| Diagnostics.DuplicateVariable | errors/errors.go:95 | ErrDuplicateVariable with the name filled in |
| Diagnostics.DuplicateFnDecl | errors/errors.go:96 | ErrDuplicateFnDecl with the name filled in |
| Diagnostics.InvalidAssignment | errors/errors.go:97 | ErrInvalidAssignment with the left side filled in |
| Diagnostics.FnDeclInsideFnDecl | errors/errors.go:98 | ErrFnDeclCanNotBeInsideFnDecl with the name filled in |
| Diagnostics.UndeclaredVariable | errors/errors.go:100 | ErrUndeclaredVariable with the name filled in |
| Diagnostics.NotDeclaredFnCall | errors/errors.go:101 | ErrNotDeclaredFnCall with the name filled in |
| Ast.BinOpStringCases | parser/ast_expr.go:34-68 | a code gets a symbol of its own exactly when String has a case for it, and the symbol is one or two characters with no space; any other code prints `unknown` |
| Ast.BinOpStringInjective | parser/ast_expr.go:34-68 | the symbols of the named codes are pairwise distinct |
| Ast.Indent | parser/ast.go:87-89 | two spaces per indentation level: the text has length twice the depth and every character is a space |
| Ast.ConstIntPrints | parser/ast_expr.go:154-156 | a constant prints its decimal value, the same at every depth, and the text reads back as the value |
| Ast.PrintTree | parser/ast_expr.go:226-233 | a tree of binary operators over constants prints as the fully parenthesised infix text `(L op R)` at every depth |
| Ast.PrintedInjective | parser/ast_expr.go:226-233 | two operator trees whose operators are all named print alike only when they are equal |
| Ast.AssignmentPrints | parser/ast_expr.go:246-252 | an assignment prints as the indented name, ` = ` and the value's text |
| Ast.PrintedPrefix | parser/ast_expr.go:226-233 | a printed tree followed by a stop character determines the tree and what follows it |
| Ast.FirstChar | parser/ast_expr.go:226-233 | a tree's text is non-empty and opens with `(` exactly for a node |
| Ast.NumeralChars | parser/ast_expr.go:154-156 | a printed integer is an optional minus and a non-empty run of digits |
| Ast.NumeralThenStop | parser/ast_expr.go:154-156 | in a numeral followed by a stop character the digits run to the numeral's end |
| Ast.NumeralPrefix | parser/ast_expr.go:154-156 | a numeral followed by a stop character determines the number |
| Ast.BinOpString | parser/ast_expr.go:34-69 | the symbol ASTBinOp.String prints for an operator code, "unknown" otherwise; BinOpStringCases and BinOpStringInjective state its properties |
| Ast.TokenLiteral | parser/ast_expr.go:89-319 | the TokenLiteral of each expression node, a panic on a nil node; TokenLiteralCases states it |
| Ast.TokenLiteralCases | parser/ast_expr.go:89-319 | TokenLiteral panics exactly on a nil node; a binary node gives its operator's symbol, a call `CALL`, a conditional `CONDITIONAL`, a range `RANGE`, a variable or an assignment `VAR` |
| Ast.PrintExpr | parser/ast_expr.go:92-333 | the PrintAST text of each expression node; ConstIntPrints, PrintTree and AssignmentPrints state what it prints |
| CTree.MkAstNode | tree.c:5-20 | the node is never the null pointer and stores the operator, both links and the value as given |
| CTree.MkAstLeaf | tree.c:23-25 | a leaf has both links null, the given value and the operator code 0 |
| CTree.MkAstUnary | tree.c:28-30 | a unary node has the given left link and a null right link |
| CTree.LeafIsAddition | tree.c:23-25 | a leaf's operator is code 0, which is `A_ADD` and not `A_INTLIT`, so it cannot be told apart from an addition with null links |
| CInterp.CheckedInt | interp.c:13-18 | a 32-bit result exists exactly when the value fits, and is the value |
| CInterp.EveryTreeUndefined | interp.c:2-20 | as written no tree has a value: evaluation always reaches a leaf, whose operator is addition over undefined children |
| CInterp.LeafUndefined | interp.c:2-20 | a leaf has no value, whatever its `intvalue` |
| CInterp.EvaluateBuild | interp.c:2-20 | the corrected evaluator computes the meaning of every expression whose intermediate values fit in 32 bits, and reports failure exactly otherwise |
| CInterp.BuildUndefinedAsWritten | interp.c:2-20 | the same trees have no value as written, while the corrected evaluator gives their meaning |
| CInterp.Apply | interp.c:11-19 | the three cases of the switch on two known operands, with C `int` overflow as no value; any other operator has no case |
| CInterp.InterpretAst | interp.c:2-20 | interpretAST as written: children are evaluated only through non-null links and `intvalue` is never read; EveryTreeUndefined states that no tree has a value |
| CInterp.Evaluate | interp.c:2-20 | the evaluator with the missing literal case; EvaluateBuild states that it computes the meaning of every expression that fits |
| Resolve.TemporaryInjective | semantic_analysis/resolve.go:47-50 | a temporary determines both the name it was made from and the counter value, so a growing counter never repeats one |
| Resolve.TemporaryIsNew | semantic_analysis/resolve.go:47-50 | a temporary is never the name it was made from |
| Resolve.Copied | semantic_analysis/resolve.go:319-329 | the copy binds the same names to the same unique names and linkage, none marked as from the current scope |
| Resolve.ExprSucceedsIff | semantic_analysis/resolve.go:368-505 | an expression resolves exactly when every variable it uses is bound, every called function is bound, every assignment's left side is a variable, and no node is of an unknown kind |
| Resolve.ArgsSucceedIff | semantic_analysis/resolve.go:374-390 | a call's arguments resolve exactly when each does, and the result has one per argument |
| Resolve.RenamedUnion | semantic_analysis/resolve.go:451-465 | renaming distributes over a union of names |
| Resolve.ExprRenames | semantic_analysis/resolve.go:368-505 | a resolved expression uses exactly the unique names of the variables the original uses, all of which are bound |
| Resolve.ArgsRename | semantic_analysis/resolve.go:374-390 | the same for a call's arguments |
| Resolve.LocalVarHelper | semantic_analysis/resolve.go:160-190 | a local declaration fails exactly when its name is already declared in the current scope without linkage, with the duplicate-variable error; otherwise it is bound to the next temporary, marked as from this scope without linkage, and the counter advances by one |
| Resolve.FnDeclSpec | semantic_analysis/resolve.go:123-157 | a function whose name is declared in the current scope without linkage is a duplicate; otherwise the file map binds its own name with linkage, and the function keeps its name and its number of parameters |
| Resolve.FileScopeVarSpec | semantic_analysis/resolve.go:104-122 | as written, a file-scope variable fails exactly when its name is already in the current scope; otherwise the map binds it to a fresh temporary with linkage while the declaration keeps its own name |
| Resolve.ParamsCount | semantic_analysis/resolve.go:52-78 | resolved parameters are as many as the declared ones |
| Resolve.DeclsStep | semantic_analysis/resolve.go:80-91 | the top-level loop stops at the first declaration that fails and otherwise continues with the map and counter that declaration returns |
| Resolve.DeclsLoopStep | semantic_analysis/resolve.go:80-91 | the same step stated over the in-place replaced list of declarations |
| Resolve.ArgsStep | semantic_analysis/resolve.go:383-389 | one step of the argument loop keeps the argument it resolved |
| Resolve.ParamsAcceptIff | semantic_analysis/resolve.go:52-78 | resolveParams succeeds exactly when no parameter repeats a name the function's map already holds, from any scope and with or without linkage, or an earlier parameter's name |
| Resolve.ParamsRenamed | semantic_analysis/resolve.go:52-78 | each parameter is renamed to the temporary of its position, in order, and the counter advances by one per parameter |
| Resolve.ParamNamedAfterFunction | semantic_analysis/resolve.go:123-157 | a parameter named after its own function is reported as a duplicate variable |
| Resolve.DeclareStep | semantic_analysis/resolve.go:350-366 | a declaration with no initialiser in a scope where its name is free binds the next temporary |
| Resolve.UseStep | semantic_analysis/resolve.go:451-465 | a use of a bound name is replaced by its unique name |
| Resolve.SingleItem | semantic_analysis/resolve.go:192-201 | a block of one item resolves as that item |
| Resolve.RedeclarationInBlock | semantic_analysis/resolve.go:160-190 | declaring a name twice in one block fails with the duplicate-variable error at the second declaration |
| Resolve.CompoundShadowsAndHides | semantic_analysis/resolve.go:272-279 | a compound statement may redeclare an outer name under a new temporary, and after it the name refers to the outer declaration again |
| Resolve.CompoundDeclarationDoesNotEscape | semantic_analysis/resolve.go:272-279 | a declaration in a compound statement is not visible after it: a later use is undeclared |
| Resolve.WhileDeclarationEscapes | semantic_analysis/resolve.go:224-238 | a `while` body shares the enclosing map, so a declaration in it is still bound after the loop |
| Resolve.FunctionMayBeRedeclared | semantic_analysis/resolve.go:123-157 | every file-scope binding has linkage, so declaring a function twice passes the resolver |
| Resolve.GlobalAfterFunctionRejected | semantic_analysis/resolve.go:104-122 | the file-scope map is never copied, so a variable reusing a function's name is rejected |
| Resolve.GlobalUseMissesDeclaration | semantic_analysis/resolve.go:104-122 | as written, a use of a file-scope variable resolves to a name different from the one its declaration keeps |
| Resolve.FileScopeVarIntended | semantic_analysis/resolve.go:104-122 | the corrected file-scope declaration fails exactly when the name is in the current scope |
| Resolve.GlobalUseFindsDeclaration | semantic_analysis/resolve.go:104-122 | with the corrected definition every use of a file-scope variable resolves to the declared name |
| Resolve.Resolver.constructor | semantic_analysis/resolve.go:39-45 | a new resolver counts from 0 |
| Resolve.Resolver.MakeNamedTemporary | semantic_analysis/resolve.go:47-50 | the counter advances first and the name carries its new value |
| Resolve.Resolver.CopyIdMap | semantic_analysis/resolve.go:319-329 | the loop yields Copied of the map |
| Resolve.Resolver.ResolveParams | semantic_analysis/resolve.go:52-78 | the result and new counter are the parameter specification's |
| Resolve.Resolver.Resolve | semantic_analysis/resolve.go:80-91 | the result and new counter are the whole-program specification's: one map, starting empty, shared by all declarations; the first failure stops the pass |
| Resolve.Resolver.ResolveDecls | semantic_analysis/resolve.go:82-89 | the loop leaves the declarations and the counter the declaration-list specification gives, each declaration resolved in the map the previous one left |
| Resolve.Resolver.ResolveDecl | semantic_analysis/resolve.go:93-102 | the result and new counter are the declaration specification's |
| Resolve.Resolver.ResolveFileScopeVarDecl | semantic_analysis/resolve.go:104-122 | the result and new counter are FileScopeVarSpec's |
| Resolve.Resolver.ResolveFnDecl | semantic_analysis/resolve.go:123-157 | the result and new counter are FnDeclSpec's |
| Resolve.Resolver.ResolveLocalVarHelper | semantic_analysis/resolve.go:160-190 | the result and new counter are LocalVarHelper's |
| Resolve.Resolver.ResolveLocalDecl | semantic_analysis/resolve.go:335-348 | the result and new counter are the local declaration specification's |
| Resolve.Resolver.ResolveLocalVarDecl | semantic_analysis/resolve.go:350-366 | the result and new counter are the local variable specification's |
| Resolve.Resolver.ResolveBlock | semantic_analysis/resolve.go:192-201 | the items are resolved in order on one shared map, and the result is the items specification's |
| Resolve.Resolver.ResolveBlockItem | semantic_analysis/resolve.go:203-220 | the result and new counter are the item specification's |
| Resolve.Resolver.ResolveStmt | semantic_analysis/resolve.go:222-317 | the result and new counter are the statement specification's |
| Resolve.Resolver.ResolveArgs | semantic_analysis/resolve.go:383-389 | the arguments are resolved in order as the arguments specification says |
| Resolve.Resolver.ResolveExpr | semantic_analysis/resolve.go:368-505 | the result is the expression specification's, and the counter is untouched |
| Resolve.Resolver.ResolveRange | semantic_analysis/resolve.go:391-404 | the range case meets the expression specification |
| Resolve.Resolver.ResolveConditional | semantic_analysis/resolve.go:405-425 | the conditional case meets the expression specification |
| Resolve.Resolver.ResolveAssignment | semantic_analysis/resolve.go:426-450 | the assignment case meets the expression specification |
| Resolve.Resolver.ResolveBinary | semantic_analysis/resolve.go:476-495 | the binary case meets the expression specification |
| Resolve.Error | semantic_analysis/resolve.go:331-333 | createSemanticError: the message with the token's line and span in the module named `Семантик шинжилгээ` |
| Resolve.Temporary | semantic_analysis/resolve.go:47-50 | the name `<name>_<count>`; TemporaryInjective and TemporaryIsNew state that it is fresh |
| Resolve.GoTypeText | semantic_analysis/resolve.go:499-503 | the text the unknown-expression error shows for a node the pass has no case for |
| Resolve.ExprSpec | semantic_analysis/resolve.go:368-505 | ResolveExpr on a map; ExprSucceedsIff and ExprRenames state when it succeeds and what it renames, and ResolveExpr is proved to compute it |
| Resolve.LocalVarDeclSpec | semantic_analysis/resolve.go:350-366 | a local declaration takes its fresh name and its initialiser is resolved in the map that binds it; DeclareStep states it and ResolveLocalVarDecl is proved to compute it |
| Resolve.LocalDeclSpec | semantic_analysis/resolve.go:335-348 | a function declaration inside a body fails with the nested-function message; ResolveLocalDecl is proved to compute it |
| Resolve.ItemSpec | semantic_analysis/resolve.go:203-220 | ResolveBlockItem; ResolveBlockItem is proved to compute it |
| Resolve.ItemsSpec | semantic_analysis/resolve.go:192-201 | the items of a block in order on one shared map; RedeclarationInBlock and SingleItem state it and ResolveBlock is proved to compute it |
| Resolve.StmtSpec | semantic_analysis/resolve.go:222-317 | ResolveStmt, with a copied map for a compound statement only; CompoundShadowsAndHides, CompoundDeclarationDoesNotEscape and WhileDeclarationEscapes state the scoping |
| Resolve.ParamsSpec | semantic_analysis/resolve.go:52-78 | resolveParams; ParamsAcceptIff, ParamsRenamed and ParamsCount state it |
| Resolve.DeclSpec | semantic_analysis/resolve.go:93-102 | ResolveDecl, a panic for a declaration that is neither a function nor a variable; ResolveDecl is proved to compute it |
| Resolve.DeclsSpec | semantic_analysis/resolve.go:80-91 | the top-level loop over one shared map; DeclsStep states that it stops at the first failure |
| Resolve.ResolveSpec | semantic_analysis/resolve.go:80-91 | Resolve on a whole program; Resolver.Resolve is proved to compute it |
| LabelLoop.LabelNameNonEmpty | semantic_analysis/label_loop.go:91-147 | every label the generator issues is non-empty, so "no enclosing loop" is told apart from any label |
| LabelLoop.StmtSucceedsIff | semantic_analysis/label_loop.go:91-147 | labelling a statement fails exactly when a `break` or `continue` stands outside every loop or a block item is nil, and the label count never goes back |
| LabelLoop.ItemSucceedsIff | semantic_analysis/label_loop.go:72-89 | the same for one block item |
| LabelLoop.ItemsSucceedIff | semantic_analysis/label_loop.go:62-70 | the same for the items of a block from any index |
| LabelLoop.DeclsSucceedIff | semantic_analysis/label_loop.go:34-48 | the whole pass fails exactly when some function body holds a jump outside every loop or a nil item |
| LabelLoop.IssuedFromAppend | semantic_analysis/label_loop.go:91-147 | labels issued from consecutive counts compose |
| LabelLoop.IssuedDistinct | semantic_analysis/label_loop.go:91-147 | labels issued from consecutive counts are pairwise distinct |
| LabelLoop.StmtLabels | semantic_analysis/label_loop.go:91-147 | labelling changes nothing but the labels; every `break` and `continue` carries the label of its innermost enclosing loop; each loop gets a new label from the count, so the count grows by the number of loops and no two loops share a label |
| LabelLoop.ItemLabels | semantic_analysis/label_loop.go:72-89 | the same for one block item |
| LabelLoop.ItemsLabels | semantic_analysis/label_loop.go:62-70 | the same for the items of a block |
| LabelLoop.ItemsShift | semantic_analysis/label_loop.go:62-70 | the folds over a block split at its first item |
| LabelLoop.ItemsFromOne | semantic_analysis/label_loop.go:62-70 | the folds from index i+1 of `[x] + rest` are the folds of rest from i |
| LabelLoop.LoopPass.constructor | semantic_analysis/label_loop.go:23-28 | a new pass starts with a fresh generator at count 0 and no current label |
| LabelLoop.LoopPass.LabelLoops | semantic_analysis/label_loop.go:34-48 | the result and new label count are the pass specification's, and the temporary count is untouched |
| LabelLoop.LoopPass.LabelFnDecl | semantic_analysis/label_loop.go:50-60 | the result and new label count are the function specification's |
| LabelLoop.LoopPass.LabelBlock | semantic_analysis/label_loop.go:62-70 | each item is labelled in place up to the first error, as the items specification says |
| LabelLoop.LoopPass.LabelBlockItem | semantic_analysis/label_loop.go:72-89 | the result and new label count are the item specification's |
| LabelLoop.LoopPass.LabelStmt | semantic_analysis/label_loop.go:91-147 | the result and new label count are the statement specification's |
| LabelLoop.LoopError | semantic_analysis/label_loop.go:30-32 | createLoopError: the message with its line and span, in the module named `Семантик шинжилгээ` |
| LabelLoop.StmtSpec | semantic_analysis/label_loop.go:91-147 | LabelStmt under the current label; StmtSucceedsIff and StmtLabels state when it fails and which labels it writes, and LoopPass.LabelStmt is proved to compute it |
| LabelLoop.ItemSpec | semantic_analysis/label_loop.go:72-89 | LabelBlockItem: a declaration is kept and a nil item is an error; ItemSucceedsIff and ItemLabels state it |
| LabelLoop.ItemsSpec | semantic_analysis/label_loop.go:62-70 | LabelBlock: the items in order up to the first error; ItemsSucceedIff and ItemsLabels state it |
| LabelLoop.FnDeclSpec | semantic_analysis/label_loop.go:50-60 | LabelFnDecl: a body is labelled under the empty label; LoopPass.LabelFnDecl is proved to compute it |
| LabelLoop.DeclsSpec | semantic_analysis/label_loop.go:34-48 | the loop of LabelLoops over the function declarations; DeclsSucceedIff states when it fails |
| TypeCheck.CommonTypeSymmetric | semantic_analysis/type_checker.go:310-315 | the common type does not depend on the operands' order and is the first type or `long` |
| TypeCheck.ExprSpec | semantic_analysis/type_checker.go:206-308 | a checked expression is never nil |
| TypeCheck.ExprChecks | semantic_analysis/type_checker.go:206-308 | checking an expression succeeds exactly on the checkable expressions, and then gives it the type the typing rules compute |
| TypeCheck.ArgsCheck | semantic_analysis/type_checker.go:279-305 | a call's arguments check exactly when each does |
| TypeCheck.ExprKeepsShape | semantic_analysis/type_checker.go:206-308 | checking changes types only: the checked expression is the input with its type fields set |
| TypeCheck.ArgsKeepShape | semantic_analysis/type_checker.go:279-305 | the same for a call's arguments |
| TypeCheck.WithParams | semantic_analysis/type_checker.go:43-76 | registering parameters binds exactly the parameter names, each as an `int` variable, and keeps every other entry |
| TypeCheck.FnDeclSpec | semantic_analysis/type_checker.go:43-76 | a function whose name is a variable is rejected; a second definition of a defined function is rejected; a new name is registered with its definedness |
| TypeCheck.FirstItemOnly | semantic_analysis/type_checker.go:78-98 | checking a block looks at its first item only: what follows changes neither the outcome nor the table, and the checked block has one item |
| TypeCheck.CheckDropsErrors | semantic_analysis/type_checker.go:28-41 | as written Check never reports a type error: it fails only by a panic |
| TypeCheck.UndeclaredCallPasses | semantic_analysis/type_checker.go:28-41 | as written, a program whose function calls an undeclared name passes Check with the function replaced by nil |
| TypeCheck.IntendedReportsErrors | semantic_analysis/type_checker.go:28-41 | the corrected Check succeeds exactly when every function declaration checks, in order, and then agrees with the loop as written |
| TypeCheck.UndeclaredCallRejected | semantic_analysis/type_checker.go:28-41 | with the corrected loop that program fails with the error for a call of an undeclared name |
| TypeCheck.UndeclaredCallFails | semantic_analysis/type_checker.go:279-305 | the function calling an undeclared name fails to check with that error |
| TypeCheck.DefinitionAfterPrototypeStaysUndefined | semantic_analysis/type_checker.go:43-76 | a definition after a prototype leaves the entry undefined, so a further definition of the same function is not rejected |
| TypeCheck.TypeChecker.constructor | semantic_analysis/type_checker.go:20-22 | the checker holds the source and the given symbol table |
| TypeCheck.TypeChecker.Check | semantic_analysis/type_checker.go:28-41 | the result and new table are Check's specification: nil for a function that fails, and no error |
| TypeCheck.TypeChecker.CheckFnDecl | semantic_analysis/type_checker.go:43-76 | the result and new table are FnDeclSpec's |
| TypeCheck.TypeChecker.CheckBlock | semantic_analysis/type_checker.go:78-98 | the result and new table are the block specification's |
| TypeCheck.TypeChecker.CheckBody | semantic_analysis/type_checker.go:120-147 | the body of a loop or compound statement is the checked block, dereferenced |
| TypeCheck.TypeChecker.CheckStmt | semantic_analysis/type_checker.go:100-188 | the result and new table are the statement specification's |
| TypeCheck.TypeChecker.CheckDecl | semantic_analysis/type_checker.go:190-204 | the result and new table are the declaration specification's |
| TypeCheck.TypeChecker.CheckExpr | semantic_analysis/type_checker.go:206-308 | the result is ExprSpec's and the table is only read |
| TypeCheck.TypeChecker.CheckConditional | semantic_analysis/type_checker.go:229-247 | the conditional case meets ExprSpec |
| TypeCheck.TypeChecker.CheckFnCall | semantic_analysis/type_checker.go:279-305 | the call case meets ExprSpec, its arguments checked in place |
| TypeCheck.TypeError | semantic_analysis/type_checker.go:24-26 | createSemanticError: the message with its line and span in the module named `Семантик шинжилгээ` |
| TypeCheck.GetCommonType | semantic_analysis/type_checker.go:310-315 | the first type when both are the same, `long` otherwise; CommonTypeSymmetric states that the order does not matter |
| TypeCheck.ExprType | semantic_analysis/type_checker.go:206-308 | the type checking gives an expression; ExprChecks states that a checked expression carries it |
| TypeCheck.BlockSpec | semantic_analysis/type_checker.go:78-98 | checkBlock, which looks at the first item only; FirstItemOnly states it |
| TypeCheck.StmtSpec | semantic_analysis/type_checker.go:100-188 | checkStmt; TypeChecker.CheckStmt is proved to compute it |
| TypeCheck.DeclSpec | semantic_analysis/type_checker.go:190-204 | checkDecl: a variable is registered with its declared type; TypeChecker.CheckDecl is proved to compute it |
| TypeCheck.DeclsSpec | semantic_analysis/type_checker.go:28-41 | the loop of Check as written, replacing a failing function by nil; CheckDropsErrors and UndeclaredCallPasses state what it lets through |
| TypeCheck.CheckSpec | semantic_analysis/type_checker.go:28-41 | Check on a whole program; TypeChecker.Check is proved to compute it |
| TypeCheck.CheckIntended | semantic_analysis/type_checker.go:28-41 | Check with the first error returned; IntendedReportsErrors and UndeclaredCallRejected state it |
| Symbols.SymbolTable.constructor | symbols/symbols.go:15-17 | a new table is empty |
| Symbols.SymbolTable.Modify | symbols/symbols.go:19-21 | replaces exactly one entry |
| Symbols.SymbolTable.AddFn | symbols/symbols.go:23-31 | stores a function entry with the given defined flag and a zero frame size, overwriting any earlier entry, and returns it |
| Symbols.SymbolTable.AddVar | symbols/symbols.go:33-41 | stores a variable entry that is never defined and has a zero frame size |
| Symbols.SymbolTable.Get | symbols/symbols.go:43-49 | finds an entry exactly when the name is in the table, and returns that entry |
| Symbols.SymbolTable.GetOptional | symbols/symbols.go:51-57 | behaves exactly as Get |
| Symbols.SymbolTable.IsDefined | symbols/symbols.go:59-62 | true exactly when the name has an entry marked defined |
| Symbols.SymbolTable.SetBytesRequired | symbols/symbols.go:64-67 | sets only that entry's frame size; for an absent name the source dereferences nil, and the table is unchanged |
| Unique.TempNameInjective | unique/unique.go:17-22 | different counter values never give the same temporary |
| Unique.LabelNameInjective | unique/unique.go:24-29 | a label determines both its prefix and its counter value |
| Unique.UniqueGen.constructor | unique/unique.go:10-15 | both counters start at 0 |
| Unique.UniqueGen.MakeTemp | unique/unique.go:17-22 | returns the name for the current temp count, advances only that count, and differs from every earlier temporary |
| Unique.UniqueGen.MakeLabel | unique/unique.go:24-29 | returns `prefix.<count>`, advances only the label count, and repeats no earlier label whatever its prefix |
| Unique.TempName | unique/unique.go:18 | the name `tmp.<count>`; TempNameInjective states that distinct counts give distinct names |
| Unique.LabelName | unique/unique.go:25 | the name `<prefix>.<count>`; LabelNameInjective states that it determines the prefix and the count |
| StringPool.StringPool.constructor | stringpool/stringpool.go:16-21 | a new pool is empty with count 0 |
| StringPool.StringPool.IdsAreDistinct | stringpool/stringpool.go:23-43 | ids are below the count and distinct strings have distinct ids |
| StringPool.StringPool.Intern | stringpool/stringpool.go:23-43 | a string already in the pool keeps its id and nothing changes; a new one gets the next id and the count advances |
| StringPool.StringPool.GetID | stringpool/stringpool.go:57-63 | finds an id exactly for an interned string, and it is that string's |
| StringPool.StringPool.GetString | stringpool/stringpool.go:45-55 | an id is found exactly when it is below the count, and gives the string that carries it; otherwise the empty string |
| StringPool.StringPool.GetLabel | stringpool/stringpool.go:65-68 | interns the string and names its literal `.LC<id>` |
| StringPool.StringPool.GetAllStrings | stringpool/stringpool.go:70-78 | the copy holds exactly the pool's entries |
| StringPool.InternSequence | stringpool/stringpool.go:23-43 | ids are handed out 0, 1, … in first-seen order, and interning again returns the first id |
| StringPool.LiteralLabel | stringpool/stringpool.go:65-68 | the `.LC<id>` label of a literal; GetLabel is proved to return it for the interned id |
| Emitter.RegisterNamesDistinct | code_gen/emitter.go:218-225 | the argument and scratch register names are pairwise distinct |
| Emitter.GenASTVal | code_gen/emitter.go:522-531 | constants become immediates with their value, variables pseudo-registers with their name, and nothing becomes a register or stack slot |
| Emitter.ConvOpToCond | code_gen/emitter.go:396-414 | a condition code exists exactly for the six relational operators; any other operator panics |
| Emitter.ConvOpToCondInjective | code_gen/emitter.go:396-414 | distinct relational operators get distinct condition codes |
| Emitter.GenASTBinaryOp | code_gen/emitter.go:499-509 | only add, subtract and multiply have an assembly operator |
| Emitter.GenASTUnaryOp | code_gen/emitter.go:511-520 | only complement and negate have an assembly operator |
| Emitter.SplitArgs | code_gen/emitter.go:201-214 | the first six arguments go to the register list and the rest to the stack list, both in order |
| Emitter.ReverseAt | code_gen/emitter.go:236-240 | position j of the reversal holds the element n-1-j |
| Emitter.ReleaseRoundsUp | code_gen/emitter.go:222-274 | the bytes released after a call are the pushed bytes rounded up to a multiple of 16, and nothing without stack arguments |
| Emitter.PushArgsShift | code_gen/emitter.go:242-260 | every stack argument is pushed exactly once, so the pushes lower the stack pointer by 8 bytes per argument and contain no call |
| Emitter.CallStackAsWritten | code_gen/emitter.go:216-284 | as written, the stack pointer is 8 bytes per stack argument lower at the call, and the sequence as a whole raises it by the padding: nothing reserves the padding that the release frees |
| Emitter.CallMisalignedAsWritten | code_gen/emitter.go:219-274 | with an odd number of stack arguments the stack is 8 bytes off a multiple of 16 at the call, against section 3.2.2 of the System V AMD64 psABI, and 8 bytes too high afterwards |
| Emitter.CallAligned | code_gen/emitter.go:216-284 | the corrected call, which reserves the padding before the pushes, has the stack 16-byte aligned at the call and leaves the stack pointer where it was |
| Emitter.AlignedAgreesIffEven | code_gen/emitter.go:222-225 | the corrected call equals the call as written exactly when an even number of arguments goes on the stack |
| Emitter.CallSequenceShape | code_gen/emitter.go:216-284 | the first six arguments are moved into DI, SI, DX, CX, R8, R9 in order, then comes the call, and the result is taken from AX last (section 3.2.3 of the System V AMD64 psABI) |
| Emitter.ConstantArgsPushedInReverse | code_gen/emitter.go:236-260 | constant stack arguments are pushed last argument first |
| Emitter.ConstantPushes | code_gen/emitter.go:242-260 | each constant argument becomes one push of its immediate |
| Emitter.ReverseArgs | code_gen/emitter.go:236-240 | the loop fills the fresh array with the reversal of the stack arguments |
| Emitter.PushArgsSnoc | code_gen/emitter.go:242-260 | the pushes of a list with one more argument end with that argument's push |
| Emitter.PushStackArgs | code_gen/emitter.go:242-260 | the loop emits the pushes of the reversed arguments in order |
| Emitter.MoveRegisterArgs | code_gen/emitter.go:227-234 | the loop emits one untyped move per register argument into the argument register of its position |
| Emitter.ConvertFnCall | code_gen/emitter.go:216-284 | the instructions are the call sequence as written: register moves, stack pushes, the call, the release of the pushed bytes plus the padding, and the fetch of the result; no padding is reserved before the call |
| Emitter.BinarySelection | code_gen/emitter.go:416-497 | a relational operator compares the second source with the first, clears the destination and sets it from the flag; division and modulo load AX, sign-extend, divide by the second source and take AX or DX; only relational, add, subtract, multiply, divide and modulo are selected |
| Emitter.PushArgsScratchFree | code_gen/emitter.go:242-260 | argument pushes name no scratch register |
| Emitter.ScratchFreeConcat | code_gen/emitter.go:299-394 | concatenation keeps the scratch registers free |
| Emitter.SelectionIsScratchFree | code_gen/emitter.go:299-394 | instruction selection never names R10, R11, SP or AL, which leaves R10 and R11 to the fix-up pass |
| Emitter.AsmLabelsConcat | code_gen/emitter.go:299-394 | the labels of concatenated code are the labels of each part |
| Emitter.PushArgsHaveNoLabels | code_gen/emitter.go:242-260 | pushes carry no label |
| Emitter.NoLabelsIn | code_gen/emitter.go:299-394 | code with no label instruction has no labels |
| Emitter.SelectionLabels | code_gen/emitter.go:299-394 | a TACKY label becomes exactly one assembly label with the same name, and no other instruction introduces one |
| Emitter.CallSequenceHasNoLabels | code_gen/emitter.go:216-284 | a call sequence carries no label |
| Emitter.PassInRegisters | code_gen/emitter.go:155-175 | the parameter at index k is copied out of the k-th argument register, with the parameter's type |
| Emitter.ParamRegistersInOrder | code_gen/emitter.go:177-199 | the k-th of the first six parameters is copied from the k-th argument register, in order, before any other instruction |
| Emitter.PassParams | code_gen/emitter.go:177-199 | the prologue is the register copies of the first six parameters followed by the stack handling of the rest |
| Emitter.SelectAllLabels | code_gen/emitter.go:286-297 | selecting a whole body keeps exactly the TACKY labels, in order |
| Emitter.GenASTFn | code_gen/emitter.go:286-297 | a function is its parameter prologue followed by the selected instructions in order, and fails exactly when some instruction cannot be selected |
| Emitter.GenASTExternFn | code_gen/emitter.go:101-106 | an extern keeps the function's name |
| Emitter.RegisterArgMoves | code_gen/emitter.go:227-234 | one untyped move per register argument, the k-th into the k-th argument register; MoveRegisterArgs is proved to emit it |
| Emitter.PushArg | code_gen/emitter.go:242-260 | one stack argument: an immediate is pushed, a register emits nothing, anything else goes through AX; ConstantPushes states the constant case |
| Emitter.Padding | code_gen/emitter.go:222-225 | 8 bytes exactly when an odd number of arguments goes on the stack; it is only ever released, and CallMisalignedAsWritten states the consequence |
| Emitter.BytesToRemove | code_gen/emitter.go:268 | 8 bytes per stack argument plus the padding; ReleaseRoundsUp states that it is the least multiple of 16 covering the pushes |
| Emitter.CallSequence | code_gen/emitter.go:216-284 | the instructions of convertFnCall; CallSequenceShape and ConstantArgsPushedInReverse state their shape and ConvertFnCall is proved to emit them |
| Emitter.CallSequenceAligned | code_gen/emitter.go:216-284 | the corrected call: the padding reserved before the arguments are pushed, then the call as written; CallAligned states its alignment |
| Emitter.GenASTBinary | code_gen/emitter.go:416-497 | the selection of a binary instruction, a panic for an operator without a case; BinarySelection states the relational and arithmetic forms |
| Emitter.GenASTInstr | code_gen/emitter.go:299-394 | the selection of each TACKY instruction; SelectionIsScratchFree and SelectionLabels state what it never emits and which labels it keeps |
| Emitter.PassInStack | code_gen/emitter.go:108-133 | a stack parameter that is a variable goes through AX and is pushed; any other value emits nothing |
| Emitter.RegisterParamMoves | code_gen/emitter.go:155-175 | the k-th parameter copied out of the k-th argument register with the parameter's type |
| Emitter.ParamSequence | code_gen/emitter.go:177-199 | the prologue of passParams; ParamRegistersInOrder states its order and PassParams is proved to emit it |
| Pseudo.InitialStateGood | code_gen/pseudo.go:116-120 | the fresh state of each function (offset 0, empty map) is a well-formed frame |
| Pseudo.ReplaceOperand | code_gen/pseudo.go:22-36 | a pseudo-register already seen keeps its stack slot, a new one takes the slot four bytes below the last and is added to the map, and every other operand passes unchanged; no pseudo-register survives and the map only grows |
| Pseudo.NewSlotGood | code_gen/pseudo.go:27-34 | taking the next slot down keeps every assigned slot distinct and inside the frame |
| Pseudo.ReplacePair | code_gen/pseudo.go:52-53 | a source and a destination are replaced in that order; the map grows by exactly the names they use and both come back substituted under the final map |
| Pseudo.ReplaceInstr | code_gen/pseudo.go:38-105 | every instruction except an allocation is rewritten; an allocation panics |
| Pseudo.ReplaceInstrFrame | code_gen/pseudo.go:38-105 | one instruction's rewrite extends the map by exactly its pseudo-registers and is the substitution of the final map |
| Pseudo.SubstStable | code_gen/pseudo.go:22-36 | substituting under a larger map changes nothing once the names are already assigned |
| Pseudo.ReplaceAllFrame | code_gen/pseudo.go:107-114 | after a body the map extends the incoming one by exactly the names the body uses, and the frame stays well formed |
| Pseudo.ReplaceAllIsSubstitution | code_gen/pseudo.go:107-114 | each rewritten instruction is the original with every pseudo-register replaced by its slot under the final map, so distinct names never share a slot within one function |
| Pseudo.NoPseudoAfterSubst | code_gen/pseudo.go:38-105 | no rewritten instruction keeps a pseudo-register |
| Pseudo.ReplacePseudosInFn | code_gen/pseudo.go:107-114 | the loop replaces each instruction in place, in order, threading the state, and stops at the first allocation |
| Pseudo.ReplacePseudosInProgram | code_gen/pseudo.go:116-128 | every function is rewritten from the same fresh state and its frame size, the absolute final offset, is recorded in the symbol table; the externs are kept |
| Pseudo.ApplyFrameSizesPrefixNone | code_gen/pseudo.go:124-126 | once a frame size cannot be recorded, later ones do not help |
| Pseudo.ApplyFrameSizesSnoc | code_gen/pseudo.go:124-126 | recording one more frame size sets only that function's entry |
| Pseudo.SharedMapCollision | code_gen/pseudo.go:116-128 | the map is shared by all functions, so in a second function a new name takes a slot already given to a name of the first |
| Pseudo.CollisionFirst | code_gen/pseudo.go:107-114 | the first function of that example assigns slots -4 and -8 |
| Pseudo.CollisionSecond | code_gen/pseudo.go:107-114 | the second function of that example restarts at offset 0 with the first function's map |
| Pseudo.CollisionSecondFirstInstr | code_gen/pseudo.go:38-58 | the first move of the second function puts a new name at -4 |
| Pseudo.CollisionSecondTail | code_gen/pseudo.go:38-58 | the last move of the second function puts a new name at -8, the slot the first function's name already holds |
| Pseudo.NewPseudo | code_gen/pseudo.go:27-34 | a name seen for the first time takes the next slot down |
| Pseudo.KnownPseudo | code_gen/pseudo.go:24-26 | a name seen before keeps its slot |
| Pseudo.MovPair | code_gen/pseudo.go:42-58 | a move replaces its source, then its destination |
| Pseudo.ReplaceAllOne | code_gen/pseudo.go:107-114 | a one-instruction body is that instruction's rewrite |
| Pseudo.FreshFrameSound | code_gen/pseudo.go:107-114 | a body rewritten from an empty map gives each of its names a slot of its own inside the frame, four bytes per name, and replaces every name by its slot |
| Pseudo.FreshLength | code_gen/pseudo.go:116-128 | with a map per function, the pass keeps one function and one frame size per function |
| Pseudo.FreshFunctionsSound | code_gen/pseudo.go:116-128 | with a map per function, each function is its own body rewritten from an empty map, and its frame size is four bytes per name it uses |
| Pseudo.SubstInstr | code_gen/pseudo.go:38-105 | each rewritten instruction with its pseudo-registers replaced under a final map; ReplaceAllIsSubstitution states that the pass computes it and NoPseudoAfterSubst that nothing pseudo is left |
| Pseudo.ReplaceAll | code_gen/pseudo.go:107-114 | the rewrite of a body threading the state; ReplaceAllFrame states the frame it builds and ReplacePseudosInFn is proved to compute it |
| Pseudo.ReplaceFns | code_gen/pseudo.go:116-128 | the program pass with the map shared by every function; SharedMapCollision states the slot clash it causes |
| Pseudo.ReplaceFnsFresh | code_gen/pseudo.go:116-128 | the program pass with a map per function; FreshFunctionsSound states that each function gets slots of its own |
| FixUp.IsLarge | code_gen/fixup.go:20-22 | an immediate is large exactly when it does not fit a signed 32-bit integer |
| FixUp.LowWord | code_gen/fixup.go:52 | the mask keeps a value in [0, 2^32) congruent to the immediate modulo 2^32 |
| FixUp.FixUpIsLegal | code_gen/fixup.go:24-310 | whatever the pass returns for one instruction satisfies Legal, the operand rules the pass enforces: no memory-to-memory pair, no immediate division or comparison destination, no large immediate in a quadword move to memory, quadword compare, add, subtract or push |
| FixUp.LongWordAddPanics | code_gen/fixup.go:150-152 | an add or subtract whose type is not QuadWord fails the type assertion and panics |
| FixUp.LongWordMoveKeepsLowBits | code_gen/fixup.go:48-65 | a large longword immediate is replaced by its low 32 bits |
| FixUp.LegalUnchanged | code_gen/fixup.go:24-310 | an instruction already legal, outside the rewritten cases, comes back alone and unchanged |
| FixUp.FixUpUsesScratchOnly | code_gen/fixup.go:24-310 | the only registers the pass adds are R10 and R11 |
| FixUp.AllocStackAligned | code_gen/fixup.go:313-320 | the allocation is the least multiple of 16 not below the frame size, as the System V AMD64 psABI requires |
| FixUp.FixAllLegal | code_gen/fixup.go:322-324 | every instruction after the fix-up of a body is legal |
| FixUp.FixUpFnShape | code_gen/fixup.go:312-333 | a fixed function keeps its name, starts with the aligned allocation and is legal after it |
| FixUp.FixUpInFn | code_gen/fixup.go:312-333 | the loop appends the allocation, then each instruction's fix-up in order |
| FixUp.FixUpFnsKeepsNames | code_gen/fixup.go:335-341 | the pass keeps the functions, their names and their order |
| FixUp.FixUpProgram | code_gen/fixup.go:335-341 | every function is fixed up and the externs are kept; a panic in any function fails the program |
| FixUp.FixUpInInstruction | code_gen/fixup.go:24-310 | the rewrite of one instruction, a panic at the failed type assertion; FixUpIsLegal, LegalUnchanged and FixUpUsesScratchOnly state what it guarantees |
| FixUp.Legal | code_gen/fixup.go:24-310 | the operand combinations the pass leaves: no memory-to-memory move, compare, add or subtract; no large immediate in a quadword move to memory, a quadword compare, an add, a subtract or a push; no immediate compare destination, divisor or sign-extension source; no memory destination for imul or movsx; FixUpIsLegal states that every output obeys it |
| FixUp.LargeImmediatesKept | code_gen/fixup.go:24-310 | a large immediate passes unchanged as the source of imul, of a LongWord or untyped compare and of an untyped move to memory |
| FixUp.AllocStack | code_gen/fixup.go:313-321 | the stack allocation rounded to 16 bytes; AllocStackAligned states it |
| FixUp.FixUpFn | code_gen/fixup.go:312-333 | the fixed function on the frame size the table holds, a panic on a missing entry; FixUpFnShape states its shape and FixUpInFn is proved to compute it |
| FixUp.FixUpFns | code_gen/fixup.go:335-341 | every function fixed in order; FixUpFnsKeepsNames states it |
| AsmAst.Asm32Spec | code_gen/asm_ast.go:77-102 | a register's name is defined for every register but AL, which panics; it is the register's own name except that the stack pointer is written `%rsp`; distinct registers get distinct names |
| AsmAst.TypedIrTag | code_gen/asm_ast.go:156-168 | the debugging text of a move, comparison or binary instruction ends in `QuadType` exactly for a quadword and in `LongType` otherwise, and exists exactly when both operands can be written |
| AsmAst.CondCodeIr | code_gen/asm_ast.go:178-195 | conditional jumps and set instructions write their condition code right after the mnemonic |
| AsmAst.OperandRenderings | code_gen/asm_ast.go:61-119 | an immediate is written `$n` and a stack slot `(n)`, and each determines its integer |
| AsmAst.CondCode.Name | code_gen/asm_ast.go:12-19 | the condition code's text; CondCodeIr states where it appears in a rendering |
| AsmAst.Asm32 | code_gen/asm_ast.go:77-102 | the Asm32 switch, a panic for the omitted register; Asm32Spec states which registers have a name |
| AsmAst.Op | code_gen/asm_ast.go:61-119 | the `Op()` text of each operand, a panic on a nil one; OperandRenderings states the immediate and stack forms |
| AsmAst.Ir | code_gen/asm_ast.go:132-325 | the `Ir()` text of each instruction; TypedIrTag and CondCodeIr state its shape |
| AsmSymbols.SymbolTable.constructor | code_gen/asmsymbol/asmsymbols.go:35-37 | a new table is empty |
| AsmSymbols.SymbolTable.AddFun | code_gen/asmsymbol/asmsymbols.go:39-44 | the name maps to a function entry with the given definedness and no bytes, and nothing else changes |
| AsmSymbols.SymbolTable.AddVar | code_gen/asmsymbol/asmsymbols.go:46-51 | the name maps to an object entry of the given type and storage, and nothing else changes |
| AsmSymbols.SymbolTable.SetBytesRequired | code_gen/asmsymbol/asmsymbols.go:53-65 | a function entry gets the byte count and becomes defined; a missing name or an object entry is an error whose message quotes the name, and changes nothing |
| AsmSymbols.SymbolTable.GetBytesRequired | code_gen/asmsymbol/asmsymbols.go:67-77 | succeeds exactly on function entries and returns their byte count; otherwise the "not found" or "is not a function" message quoting the name |
| AsmSymbols.SymbolTable.GetSize | code_gen/asmsymbol/asmsymbols.go:79-98 | succeeds exactly on object entries of a sized type, returning 4 for a longword and 8 for a quadword or string; otherwise the message for the way the lookup failed, quoting the name |
| AsmSymbols.SymbolTable.GetAlignment | code_gen/asmsymbol/asmsymbols.go:100-119 | succeeds on the same entries as the size and returns the same number; failures carry the same messages, quoting the name |
| AsmSymbols.SymbolTable.IsDefined | code_gen/asmsymbol/asmsymbols.go:121-131 | succeeds exactly on function entries and returns whether they are defined; otherwise the "not found" or "is not a function" message quoting the name |
| AsmSymbols.SymbolTable.AlignmentIsSize | code_gen/asmsymbol/asmsymbols.go:79-119 | alignment and size agree for every name, errors included |
| AsmSymbols.SetThenGet | code_gen/asmsymbol/asmsymbols.go:39-77 | after adding a function and setting its bytes, they read back and the function is defined |
| AsmSymbols.Quote | code_gen/asmsymbol/asmsymbols.go:56 | the `%q` form of a name: it opens and closes with a double quote; QuoteInjective states that it determines the name |
| AsmSymbols.QuoteInjective | code_gen/asmsymbol/asmsymbols.go:56 | two names quote alike exactly when they are equal |
| AsmSymbols.EscapeInjective | code_gen/asmsymbol/asmsymbols.go:56 | the escaped text between the quotes determines the name |
| AsmSymbols.ObjectMessageKind | code_gen/asmsymbol/asmsymbols.go:79-119 | the three failure messages of GetSize and GetAlignment differ at the character after `internal error: ` |
| AsmSymbols.ObjectMessageInjective | code_gen/asmsymbol/asmsymbols.go:79-119 | a failure message determines both the kind of failure and the name |
| AsmSymbols.SymbolTable.MessagesNameTheSymbol | code_gen/asmsymbol/asmsymbols.go:79-98 | two failing size lookups give the same error exactly when they are for the same name |
| AsmSymbols.TypeSize | code_gen/asmsymbol/asmsymbols.go:88-97 | the size switch: 4 for a longword, 8 for a quadword or a string, none otherwise; GetSize and GetAlignment are proved to return it |
| X86.GenType | code_gen/x86x64.go:143-152 | the size suffix exists exactly for quadword and longword, and is `q` exactly for quadword; any other type panics |
| X86.GenOperandInjective | code_gen/x86x64.go:154-165 | exactly the registers but AL, the immediates and the stack slots can be written, and distinct operands get distinct text |
| X86.OperandKindsDiffer | code_gen/x86x64.go:154-165 | operands of different kinds never get the same text |
| X86.RegisterText | code_gen/asm_ast.go:77-102 | a register's text is non-empty, never starts with `$` and never ends with `)` |
| X86.NumeralStartsWithDigitOrMinus | code_gen/x86x64.go:159 | a decimal numeral is non-empty and never starts with `$` |
| X86.JumpsMatchLabels | code_gen/x86x64.go:101-107 | a label, a jump and a conditional jump write the same `.L` name |
| X86.UnarySuffixDoubled | code_gen/x86x64.go:133-135 | the unary mnemonic already ends in `l`, so negating a longword slot writes `negll` |
| X86.InstrOutFails | code_gen/x86x64.go:89-141 | only instructions with a size or an operand can make the writer panic; a move, comparison or binary instruction is written exactly when its size and both operands can be; each instruction writes a fixed number of lines |
| X86.ExternsOutLength | code_gen/x86x64.go:41-47 | one directive per extern on Linux and Darwin, `.extern name` on Linux |
| X86.LinuxProgramLayout | code_gen/x86x64.go:40-74 | on Linux the output is the extern directives, then `.globl main` and `main:`, then the entry stub, the functions, and last the non-executable-stack note |
| X86.AsmGen.constructor | code_gen/x86x64.go:33-38 | a new writer has the given target and has written nothing |
| X86.AsmGen.Write | code_gen/x86x64.go:167-169 | one line is appended to the output |
| X86.AsmGen.WriteAll | code_gen/x86x64.go:167-169 | the lines are appended in order |
| X86.AsmGen.GenInstr | code_gen/x86x64.go:89-141 | the instruction's lines are appended, and it fails exactly where a size or an operand panics |
| X86.AsmGen.GenFn | code_gen/x86x64.go:76-87 | the label (with `_` on Darwin), the frame setup and each instruction's lines are appended in order, stopping at the first panic |
| X86.AsmGen.GenExterns | code_gen/x86x64.go:41-47 | the extern directives are appended in order |
| X86.AsmGen.GenEntry | code_gen/x86x64.go:49-66 | the entry label and the stub that calls `wndsen` and exits are appended |
| X86.AsmGen.GenFns | code_gen/x86x64.go:68-70 | each function's output is appended in order |
| X86.AsmGen.GenAsm | code_gen/x86x64.go:40-74 | the whole program text is appended, and it fails exactly when some function fails |
| X86.GenOperand | code_gen/x86x64.go:154-165 | the text of an operand, a panic for a pseudo-register, a nil operand or AL; GenOperandInjective and OperandKindsDiffer state that it tells operands apart |
| X86.GenOperandPanics | code_gen/x86x64.go:154-165 | the only failures are panics: AL is reported as an unimplemented register `al`, any other kind of operand as an unimplemented operand |
| X86.InstrOut | code_gen/x86x64.go:89-141 | the lines GenInstr writes for one instruction; InstrOutFails states where it can panic and JumpsMatchLabels how labels and jumps agree |
| X86.FnOut | code_gen/x86x64.go:76-87 | the label, the frame-pointer prologue and each instruction's lines; GenFn is proved to write them |
| X86.EntryStub | code_gen/x86x64.go:49-66 | the entry label and the stub calling `wndsen`, which exits through the system call on Linux and returns on Darwin; GenEntry is proved to write it |
| X86.ProgramOut | code_gen/x86x64.go:40-74 | the extern directives, the entry stub, each function and the Linux stack note, in order; LinuxProgramLayout states the layout and GenAsm is proved to write it |
| Convert.TranslateInInstrSpec | code_gen/convert.go:13-24 | only labels and calls have their name converted; every other instruction is unchanged |
| Convert.TranslateAll | code_gen/convert.go:29-31 | each instruction is replaced by its translation, position by position |
| Convert.TranslateAllNames | code_gen/convert.go:13-31 | labels are converted in order, while jump targets are left as written |
| Convert.ConvertAllConcat | code_gen/convert.go:29-31 | converting a concatenation converts each part |
| Convert.JumpKeepsOldLabel | code_gen/convert.go:13-24 | after the pass a jump still targets the old name, which survives as a label only if the conversion leaves it unchanged |
| Convert.TranslateInFn | code_gen/convert.go:26-34 | the function name is converted and every instruction is overwritten with its translation in place |
| Convert.TranslateProgram | code_gen/convert.go:36-48 | every function is translated in order and every extern name is converted in place |
| Convert.TranslateInInstr | code_gen/convert.go:13-24 | the type switch of TranslateInInstr; TranslateInInstrSpec states which instructions change and how |
| Convert.TranslateFn | code_gen/convert.go:26-34 | the function record TranslateInFn returns; TranslateInFn is proved to produce it |
| UtfConvert.TransliterationAlphabet | gov/utfconvert/convert.go:3-40 | every table entry is a non-empty run of lower-case Latin letters, or a single space |
| UtfConvert.ConvertConcat | gov/utfconvert/convert.go:42-51 | converting a concatenation is the concatenation of the conversions, and fails when either part fails |
| UtfConvert.ConvertDefinedIff | gov/utfconvert/convert.go:42-51 | a word converts exactly when every one of its runes is in the table |
| UtfConvert.ConvertAlphabet | gov/utfconvert/convert.go:3-51 | a converted word holds only lower-case Latin letters and spaces |
| UtfConvert.ConvertExample | gov/utfconvert/convert_test.go:10-11 | `майн` converts to `mahin` |
| UtfConvert.UtfConvertWord | gov/utfconvert/convert.go:42-51 | the loop appends each rune's entry and panics on the first rune without one |
| UtfConvert.Transliteration | gov/utfconvert/convert.go:3-40 | the rune table; TransliterationAlphabet states that every entry is lower-case Latin letters or a space |
| UtfConvert.Convert | gov/utfconvert/convert.go:42-51 | the converted word, or nothing when a rune has no entry; ConvertConcat, ConvertDefinedIff and ConvertAlphabet state its properties and UtfConvertWord is proved to compute it |
| Rounding.GoRemIsTruncated | gov/util/roundingutil/rounding.go:4-9 | Go's `%` has the dividend's sign and a magnitude below the divisor's |
| Rounding.RoundAwayFromZeroIsNextMultiple | gov/util/roundingutil/rounding.go:3-11 | the result is a multiple of n, at least x and less than n above it for x >= 0, at most x and less than n below it for x < 0 |
| Rounding.RoundAwayFromZeroIsNearest | gov/util/roundingutil/rounding.go:3-11 | no multiple of n lies strictly between x and the result |
| Rounding.RoundAwayFromZeroExamples | gov/util/roundingutil/rounding.go:3-11 | frame sizes 0, 4, 16, 20 and -4 round to 0, 16, 16, 32 and -16 |
| Rounding.GoRem | gov/util/roundingutil/rounding.go:4-9 | Go's truncating `%`; GoRemIsTruncated states its sign and magnitude |
| Rounding.RoundAwayFromZero | gov/util/roundingutil/rounding.go:3-11 | the three branches of RoundAwayFromZero; RoundAwayFromZeroIsNextMultiple and RoundAwayFromZeroIsNearest state what they compute |
| Loader.StepAllSnoc | gov/stdlib/loader.go:47-77 | the loop over lines is one step per line, in order |
| Loader.StepStored | gov/stdlib/loader.go:47-77 | one line keeps every stored function either as it was or under a non-empty name without `(` with text starting with its header |
| Loader.StepAllStored | gov/stdlib/loader.go:47-77 | the same holds after any number of lines |
| Loader.ParseFileStored | gov/stdlib/loader.go:42-83 | every function parseFile adds or replaces is stored under a non-empty name without `(`, with text starting with its `функц` header, and every other entry is kept |
| Loader.NoHeaderKeepsState | gov/stdlib/loader.go:47-77 | lines before the first header are dropped |
| Loader.NoHeaderNoFunctions | gov/stdlib/loader.go:42-83 | a file without a header line adds nothing |
| Loader.HeaderSavesCurrent | gov/stdlib/loader.go:56-70 | a header saves the function being built, takes the name before `(` of its second field and starts the new text with the header line |
| Loader.StandardLibrary.constructor | gov/stdlib/loader.go:15-19 | a new library is empty |
| Loader.StandardLibrary.ParseFileInto | gov/stdlib/loader.go:42-83 | the library's functions become the result of parsing the file over the old ones |
| Loader.StandardLibrary.GetFunction | gov/stdlib/loader.go:86-89 | returns the stored text and true for a known name, and the empty string and false otherwise |
| Loader.StandardLibrary.IsStdLibFunction | gov/stdlib/loader.go:92-95 | holds exactly when GetFunction finds the name |
| Loader.HeaderName | gov/stdlib/loader.go:63-69 | the name a header gives is either the previous name or a text without `(` |
| Loader.Step | gov/stdlib/loader.go:47-77 | one pass of the line loop; StepStored states what it keeps and HeaderSavesCurrent what a header does |
| Loader.Finish | gov/stdlib/loader.go:79-82 | the last function is saved when one is being read; ParseFileStored states what the map then holds |
| Loader.ParseFile | gov/stdlib/loader.go:42-83 | the function map parseFile leaves; ParseFileStored and NoHeaderNoFunctions state it and ParseFileInto is proved to compute it |
| Loader.StepLineStored | gov/stdlib/loader.go:49-76 | a trimmed line keeps every stored function either as it was or under a name without `(` with text starting with the keyword |
| Loader.HeaderLineSaves | gov/stdlib/loader.go:55-76 | a header line while a function is being read saves that function, takes the header's name, and starts the new text with the header line |
| Decimal.NatToStringRoundTrip | code_gen/x86x64.go:159 | a `%d` numeral of a natural number is a non-empty run of digits that reads back as the number |
| Decimal.NatToStringInjective | code_gen/x86x64.go:159 | distinct numbers get distinct numerals |
| Decimal.DottedNameInjective | tackygen/tack_gen.go:589-593 | a name built as prefix, dot and counter determines both the prefix and the counter |
| Decimal.SeparatedNameInjective | semantic_analysis/resolve.go:47-50 | a name built as prefix, a non-digit separator and a counter determines both |
| Decimal.IntToStringInjective | code_gen/x86x64.go:157-162 | `%d` tells all integers apart |
| GoStrings.IndexOf | gov/stdlib/loader.go:68 | the position of the first occurrence, or the length when there is none |
| GoStrings.Split | gov/stdlib/loader.go:43 | splitting on one character gives at least one part and no part holds the separator |
| GoStrings.SplitJoin | gov/stdlib/loader.go:43 | joining the parts again on the separator gives back the text |
| GoStrings.Before | gov/stdlib/loader.go:68 | the first part of the split is a prefix of the text without the separator |
| GoStrings.TrimSpace | gov/stdlib/loader.go:48 | the trimmed text neither starts nor ends with white space; TrimSpaceAt and TrimSpaceUnique state that it is the one text obtained by removing white space at the two ends only |
| GoStrings.Fields | gov/stdlib/loader.go:64 | strings.Fields: the maximal runs of non-space characters; FieldsSplit and FieldsJoin state it |
| GoStrings.TrimLeft | gov/stdlib/loader.go:48 | a suffix of the text that does not start with white space; TrimLeftDropsSpace states that only white space was dropped |
| GoStrings.TrimRight | gov/stdlib/loader.go:48 | a prefix of the text that does not end with white space; TrimRightDropsSpace states that only white space was dropped |
| GoStrings.TrimSpaceAt | gov/stdlib/loader.go:48 | the trimmed text sits inside the original with only white space before and after it |
| GoStrings.TrimSpaceUnique | gov/stdlib/loader.go:48 | any text that sits in the original with only white space around it and neither starts nor ends with white space is the trimmed text |
| GoStrings.FieldsSplit | gov/stdlib/loader.go:64 | there are no fields exactly when the text is all white space; otherwise the first field is the first maximal non-space run and the rest are the fields after it |
| GoStrings.FieldsJoin | gov/stdlib/loader.go:64 | a text whose white space is single blanks between words is its fields joined by blanks |
| TackyGen.ToUnaryTackyOp | tackygen/tack_gen.go:261-273 | succeeds exactly on `-`, `~` and `!`, never with the unknown operator, and otherwise returns an error |
| TackyGen.ToTackyOpSpec | tackygen/tack_gen.go:275-319 | ToTackyOp succeeds exactly on the arithmetic and comparison codes, maps different codes to different operators, and refuses the logical and and or with their own messages |
| TackyGen.TackyGen.constructor | tackygen/tack_gen.go:21-28 | both counters start at 0 over the given symbol table |
| TackyGen.TackyGen.MakeTemp | tackygen/tack_gen.go:567-573 | returns `tmp.<TempCount>`, increments TempCount and registers the temporary with the given type |
| TackyGen.TackyGen.MakeLabel | tackygen/tack_gen.go:589-593 | returns `<prefix>.<LabelCount>` and increments LabelCount |
| TackyGen.TackyGen.ContinueLabel | tackygen/tack_gen.go:575-580 | returns `continue.<id>` and still increments LabelCount |
| TackyGen.TackyGen.BreakLabel | tackygen/tack_gen.go:582-587 | returns `break.<id>` and still increments LabelCount |
| TackyGen.TackyGen.EmitTacky | tackygen/tack_gen.go:30-45 | returns the program ProgramSpec gives from the generator's state and leaves the generator in the state after it |
| TackyGen.TackyGen.EmitTackyFn | tackygen/tack_gen.go:47-62 | returns the function FnSpec gives, with `Return 0` appended exactly when isReturnExistsIn is false, and the state after it |
| TackyGen.TackyGen.EmitParams | tackygen/tack_gen.go:57-60 | gives one TACKY variable per parameter, in order |
| TackyGen.TackyGen.IsReturnExistsIn | tackygen/tack_gen.go:544-555 | holds exactly when some top-level item of the body is a return statement |
| TackyGen.TackyGen.EmitTackyBlock | tackygen/tack_gen.go:64-70 | returns the items' code in order, as BlockSpec gives it, and the state after it |
| TackyGen.TackyGen.EmitTackyBlockItem | tackygen/tack_gen.go:72-90 | a statement item lowers as a statement; a variable declaration as EmitVarDecl; a function declaration in a block panics |
| TackyGen.TackyGen.EmitVarDecl | tackygen/tack_gen.go:92-101 | no code without an initialiser; otherwise the initialiser's code then a `Copy` into the variable |
| TackyGen.TackyGen.EmitTackyStmt | tackygen/tack_gen.go:103-259 | returns the statement's code and state as StmtSpec gives them, as written |
| TackyGen.TackyGen.EmitWhile | tackygen/tack_gen.go:105-127 | start label, condition, `JumpIfZero` to the break label, body, continue label, `Jump` start, break label, with labels as the source makes them |
| TackyGen.TackyGen.EmitLoop | tackygen/tack_gen.go:128-134 | makes the start label, bumps LabelCount twice for the continue and break labels, then lowers a range loop or a conditional loop |
| TackyGen.TackyGen.EmitRangeLoop | tackygen/tack_gen.go:135-178 | the range loop's code in the source's order, as RangeLoopSpec gives it as written |
| TackyGen.TackyGen.EmitCondLoop | tackygen/tack_gen.go:179-197 | the conditional loop's code, as CondLoopSpec gives it as written (the body's code is dropped) |
| TackyGen.TackyGen.EmitIfThen | tackygen/tack_gen.go:210-225 | condition, `JumpIfZero` to the end label, then-branch, end label |
| TackyGen.TackyGen.EmitIfElse | tackygen/tack_gen.go:226-240 | condition, `JumpIfZero` to the else label, then-branch, else label, else-branch, end label, as written |
| TackyGen.TackyGen.EmitExpr | tackygen/tack_gen.go:403-538 | returns the value, code and state ExprSpec gives |
| TackyGen.TackyGen.EmitFnCall | tackygen/tack_gen.go:405-415 | a fresh destination first, then each argument's code left to right, then one `FnCall` |
| TackyGen.TackyGen.EmitRange | tackygen/tack_gen.go:416-436 | start and end code, then `end - start` and `+ 1` into one fresh temporary |
| TackyGen.TackyGen.EmitConditional | tackygen/tack_gen.go:437-457 | end and else labels and the result temporary first, then condition, branches and copies into the result |
| TackyGen.TackyGen.EmitUnary | tackygen/tack_gen.go:491-508 | operand code, then one `Unary` into a fresh temporary; an unknown operator panics |
| TackyGen.TackyGen.EmitBinary | tackygen/tack_gen.go:509-533 | operator conversion first, left code, right code, then one `Binary` into a fresh temporary |
| TackyGen.TackyGen.EmitAndExpr | tackygen/tack_gen.go:321-360 | the short-circuit `&&` code of AndSpec: `JumpIfZero` to the false label after each operand, `Copy 1`, `Jump` end, false label, `Copy 0`, end label |
| TackyGen.TackyGen.EmitOrExpr | tackygen/tack_gen.go:362-401 | the mirror image of `&&` with `JumpIfNotZero` and the true label |
| TackyGen.NewTemp | tackygen/tack_gen.go:567-573 | makeTemp on the generator's state: `tmp.<TempCount>` registered as a variable; NewTempGrows states what it changes |
| TackyGen.NewLabel | tackygen/tack_gen.go:589-593 | makeLabel on the generator's state: `<prefix>.<LabelCount>`; NewLabelGrows states what it changes |
| TackyGen.BreakName | tackygen/tack_gen.go:582-587 | the label `break.<id>` of a loop; NumberedLabelNotNamed states that no numbered label clashes with it |
| TackyGen.ContinueName | tackygen/tack_gen.go:575-580 | the label `continue.<id>` of a loop; NumberedLabelNotNamed states that no numbered label clashes with it |
| TackyGen.ExprSpec | tackygen/tack_gen.go:403-538 | EmitExpr: the value, code and state after lowering an expression; ExprGrows states what it adds and TackyGen.EmitExpr is proved to compute it |
| TackyGen.ConditionalSpec | tackygen/tack_gen.go:437-457 | the conditional case with its labels and result temporary made first; ConditionalGrows states it |
| TackyGen.AndSpec | tackygen/tack_gen.go:321-360 | EmitAndExpr; ShortComputes and ShortCircuit state what its code computes and when the right operand runs |
| TackyGen.OrSpec | tackygen/tack_gen.go:362-401 | EmitOrExpr; ShortComputes and ShortCircuit state what its code computes and when the right operand runs |
| TackyGen.BinarySpec | tackygen/tack_gen.go:509-533 | any other binary operator into a fresh temporary, a panic without a TACKY form; BinaryGrows, DivLowers and SumLowers state it |
| TackyGen.StmtSpec | tackygen/tack_gen.go:103-259 | EmitTackyStmt; StmtGrows states what it adds and TackyGen.EmitTackyStmt is proved to compute it |
| TackyGen.WhileSpec | tackygen/tack_gen.go:105-127 | `while` as written and as intended; WhileAsWrittenFaults and WhileIntendedRuns state how their code runs |
| TackyGen.LoopSpec | tackygen/tack_gen.go:128-197 | `loop` with its start label and the labels named after the loop's id; LoopGrows states it |
| TackyGen.RangeLoopSpec | tackygen/tack_gen.go:135-178 | the range loop as written and as intended; RangeReadsUnsetStart and RangeCounts state how their code runs |
| TackyGen.CondLoopSpec | tackygen/tack_gen.go:179-197 | the conditional loop as written and as intended; CondLoopDropsBody and CondLoopRunsBody state how their code runs |
| TackyGen.IfThenSpec | tackygen/tack_gen.go:210-225 | `if` without `else`; IfThenGrows states it |
| TackyGen.IfElseSpec | tackygen/tack_gen.go:226-240 | `if` with `else` as written and as intended; IfElseRunsBothBranches and IfElseRunsOneBranch state how their code runs |
| TackyGen.BlockSpec | tackygen/tack_gen.go:64-70 | EmitTackyBlock: the items' code in order; BlockGrows and ItemsReturn state it |
| TackyGen.ItemSpec | tackygen/tack_gen.go:72-90 | one block item, a statement or a local declaration; ItemGrows states it |
| TackyGen.VarDeclSpec | tackygen/tack_gen.go:92-101 | an initialiser is computed and copied into the variable, otherwise no code; ItemGrows states it |
| TackyGen.FnSpec | tackygen/tack_gen.go:47-62 | EmitTackyFn; FnLowered states what the lowered function keeps |
| TackyGen.ProgramSpec | tackygen/tack_gen.go:30-45 | EmitTacky from a declaration on; ProgramSplit states how functions are split into definitions and externs |
| TackyFacts.GrowsTrans | tackygen/tack_gen.go:567-573 | the growth of the generator's state composes: counters never go back, registered temporaries stay registered and untouched |
| TackyFacts.NewTempGrows | tackygen/tack_gen.go:567-573 | makeTemp adds exactly one entry, `tmp.<TempCount>`, as an undefined variable with no frame, and changes no other entry |
| TackyFacts.NewLabelGrows | tackygen/tack_gen.go:589-593 | makeLabel leaves the symbol table alone and only advances LabelCount |
| TackyFacts.BumpGrows | tackygen/tack_gen.go:575-587 | breakLabel and continueLabel leave the symbol table alone and only advance LabelCount |
| TackyFacts.ExprGrows | tackygen/tack_gen.go:403-538 | lowering any expression only adds the temporaries it numbers, each registered as a fresh variable, and changes no other table entry |
| TackyFacts.ArgsGrows | tackygen/tack_gen.go:405-415 | the same for a call's arguments, lowered left to right |
| TackyFacts.ConditionalGrows | tackygen/tack_gen.go:437-457 | the same for a conditional expression |
| TackyFacts.AndGrows | tackygen/tack_gen.go:321-360 | the same for `&&` |
| TackyFacts.OrGrows | tackygen/tack_gen.go:362-401 | the same for the logical or |
| TackyFacts.BinaryGrows | tackygen/tack_gen.go:509-533 | the same for any other binary operator |
| TackyFacts.StmtGrows | tackygen/tack_gen.go:103-259 | lowering any statement only adds fresh temporaries and changes no other table entry |
| TackyFacts.WhileGrows | tackygen/tack_gen.go:105-127 | the same for `while`, as written and as intended |
| TackyFacts.LoopGrows | tackygen/tack_gen.go:128-197 | the same for `loop` |
| TackyFacts.RangeLoopGrows | tackygen/tack_gen.go:135-178 | the same for a range loop, whose comparison temporary is also registered |
| TackyFacts.CondLoopGrows | tackygen/tack_gen.go:179-197 | the same for a conditional loop, including the body lowered only for its effect |
| TackyFacts.IfGrows | tackygen/tack_gen.go:210-240 | the same for `if`, with or without `else` |
| TackyFacts.IfThenGrows | tackygen/tack_gen.go:210-225 | the same for `if` without `else` |
| TackyFacts.IfElseGrows | tackygen/tack_gen.go:226-240 | the same for `if` with `else` |
| TackyFacts.BlockGrows | tackygen/tack_gen.go:64-70 | the same for a block |
| TackyFacts.ItemsGrows | tackygen/tack_gen.go:64-70 | the same for the items of a block from any index |
| TackyFacts.ItemGrows | tackygen/tack_gen.go:72-101 | the same for one block item, including a variable declaration |
| TackyFacts.ItemsReturn | tackygen/tack_gen.go:241-250 | a block with a top-level return statement lowers to code holding a `Return` |
| TackyFacts.FnLowered | tackygen/tack_gen.go:47-62 | a lowered function keeps the declaration's name, parameters and flags; its code always holds a `Return`; it ends in `Return 0` when no top-level item is a return; only fresh temporaries are added to the table |
| TackyFacts.ProgramSplit | tackygen/tack_gen.go:30-45 | the definitions are exactly the non-extern functions and the externs exactly the extern ones, each in declaration order |
| TackyLowering.NumLowers | tackygen/tack_gen.go:471-480 | an `int` constant lowers to no code and the constant wrapped to 32 bits |
| TackyLowering.SmallNumLowers | tackygen/tack_gen.go:471-480 | a small constant lowers to itself |
| TackyLowering.NumberedLabelNotNamed | tackygen/tack_gen.go:575-593 | no numbered label can be `break.<id>` or `continue.<id>` for a loop id that does not end in a digit |
| TackyLowering.ReturnLowers | tackygen/tack_gen.go:241-250 | `return e` is e's code followed by one `Return` of its value |
| TackyLowering.ShortShape | tackygen/tack_gen.go:321-401 | the exact code of the logical and and or of two expressions from a fresh generator |
| TackyLowering.ShortLowers | tackygen/tack_gen.go:321-401 | returning the logical and or or of two constants over constants lower to the short-circuit code |
| TackyLowering.ShortComputes | tackygen/tack_gen.go:321-401 | that code returns 1 exactly when the logical operator holds of the operands, and 0 otherwise |
| TackyLowering.ShortOfConstants | tackygen/tack_gen.go:321-401 | lowering and running the logical and or or of two constants computes the operator on the operands' 32-bit values |
| TackyLowering.DivLowers | tackygen/tack_gen.go:509-533 | `1 / 0` lowers to one division into a fresh temporary |
| TackyLowering.ShortDivLowers | tackygen/tack_gen.go:321-401 | a short-circuit whose right operand divides by zero lowers to the short-circuit code around that division |
| TackyLowering.ShortDivRuns | tackygen/tack_gen.go:321-401 | that code skips the division exactly when the left operand decides the result |
| TackyLowering.ShortCircuit | tackygen/tack_gen.go:321-401 | the right operand of `&&` runs only after a nonzero left one and that of the logical or only after a zero one: with a right operand that divides by zero the lowered code faults exactly then |
| TackyLowering.BodyLowers | tackygen/tack_gen.go:64-70 | a block of one statement and a return lowers to the statement's code, then the return's |
| TackyLowering.SetXLowers | tackygen/tack_gen.go:460-469 | `x = v` lowers to one `Copy` into x |
| TackyLowering.VarLowers | tackygen/tack_gen.go:458-459 | a variable lowers to itself with no code |
| TackyLowering.IfElseLowers | tackygen/tack_gen.go:226-240 | the exact code of an if/else, as written and as intended |
| TackyLowering.IfElseAsWrittenRuns | tackygen/tack_gen.go:226-240 | the as-written if/else code returns the else branch's value whatever the condition |
| TackyLowering.IfElseIntendedRuns | tackygen/tack_gen.go:226-240 | the intended code returns the then branch's value exactly when the condition is nonzero |
| TackyLowering.IfElseRunsBothBranches | tackygen/tack_gen.go:226-240 | as written, an if/else runs both branches, since no jump skips the else branch |
| TackyLowering.IfElseRunsOneBranch | tackygen/tack_gen.go:226-240 | with the jump to the end label after the then branch, exactly one branch runs |
| TackyLowering.BreakBodyLowers | tackygen/tack_gen.go:198-201 | `break` lowers to one jump to `break.<id>` |
| TackyLowering.WhileLowers | tackygen/tack_gen.go:105-127 | the exact code of `while c { break }`, as written and as intended |
| TackyLowering.WhileAsWrittenRuns | tackygen/tack_gen.go:105-127 | the as-written code returns at once for a zero condition and faults on the missing break label otherwise |
| TackyLowering.WhileAsWrittenExits | tackygen/tack_gen.go:105-127 | a zero condition leaves the loop |
| TackyLowering.WhileAsWrittenFaults | tackygen/tack_gen.go:105-127 | a nonzero condition reaches the `break` jump, whose label the code does not define |
| TackyLowering.WhileIntendedRuns | tackygen/tack_gen.go:105-127 | with the loop's own labels, the code leaves the loop whatever the condition |
| TackyLowering.WhileBreakMissesLabel | tackygen/tack_gen.go:105-127 | as written, the loop's end label is numbered while `break` jumps to `break.<id>`, so a `break` that runs faults |
| TackyLowering.WhileBreakLeaves | tackygen/tack_gen.go:105-127 | with the loop's `break.<id>` label emitted, `break` leaves the loop |
| TackyLowering.ReturnFiveLowers | tackygen/tack_gen.go:241-250 | `return 5` lowers to one `Return` |
| TackyLowering.CondLoopLowers | tackygen/tack_gen.go:179-197 | the exact code of a conditional loop whose body returns 5, as written and as intended |
| TackyLowering.CondLoopSpins | tackygen/tack_gen.go:179-197 | as written, with a nonzero condition the loop never ends, for any fuel |
| TackyLowering.CondLoopAsWrittenRuns | tackygen/tack_gen.go:179-197 | as written, a zero condition leaves the loop |
| TackyLowering.CondLoopIntendedRuns | tackygen/tack_gen.go:179-197 | with the body emitted, the loop returns 5 exactly when the condition is nonzero |
| TackyLowering.CondLoopDropsBody | tackygen/tack_gen.go:179-197 | as written, the body's code is dropped: a zero condition returns 0 and a nonzero one spins for ever |
| TackyLowering.CondLoopRunsBody | tackygen/tack_gen.go:179-197 | with the body emitted, the body runs when the condition holds |
| TackyLowering.SumLowers | tackygen/tack_gen.go:509-533 | `a + b` lowers to one `Add` into a fresh temporary |
| TackyLowering.RangeStmtLowers | tackygen/tack_gen.go:135-178 | the exact code of a range loop, as written and as intended |
| TackyLowering.RangeLowers | tackygen/tack_gen.go:135-178 | a range loop followed by `return i` lowers to that code and the return |
| TackyLowering.RangeReadsUnsetStart | tackygen/tack_gen.go:135-178 | as written, the loop variable is copied from the start value's temporary before any code sets it, so the code faults |
| TackyLowering.TempIsNotI | tackygen/tack_gen.go:567-573 | no temporary is named like the loop variable |
| TackyLowering.RangeCounts | tackygen/tack_gen.go:135-178 | from the loop's start label, the intended code counts the loop variable up to the end plus one, or stops at once when it is already past the end |
| TackyLowering.RangeStartRuns | tackygen/tack_gen.go:135-178 | run from its first instruction, the intended code sets the loop variable to the start value and counts up |
| TackyLowering.RangeCountsFromStart | tackygen/tack_gen.go:135-178 | lowering a range loop from `a + b` to n and running it returns n + 1 when the start is at most n, and the start otherwise |
| TackyRun.FindLabel | tackygen/tacky.go:89-121 | the found position holds the label and none before it from the start does; a failure means no position holds it |
| TackyRun.FindLabelFirst | tackygen/tacky.go:89-121 | a jump goes to the first occurrence of its label |
| TackyRun.RunMoreFuel | tackygen/tacky.go:159-177 | a run that ends ends the same way with more fuel |
| TackyRun.RunDeterminate | tackygen/tacky.go:159-177 | two runs of the same code from the same start that both end agree |
| TackyRun.QuotRem | tackygen/tacky.go:9-23 | truncating division: quotient and remainder rebuild the dividend, the remainder is smaller than the divisor and has the dividend's sign |
| MTypes.TruncateToInt32 | tackygen/tack_gen.go:479 | the conversion to `int32` gives a 32-bit value congruent to the input modulo 2^32, and keeps a value that already fits |
| MTypes.Type.IsFn | mtypes/types.go:12-25 | true exactly for a function type |
| MTypes.Const.GetValue | mconstant/const.go:21-28 | the payload of either constant kind, widened to a 64-bit value |

## Left out

- Process I/O and drivers: the CLI, the `main` programs, the linker, OS detection, `StandardLibrary.Load`, every `PrettyPrint` and print-only `Ir()`, and the `fmt.Printf` debug lines of the assembly writer and of the pseudo-register pass (code_gen/pseudo.go:51-96). The writer's output is modelled as a sequence of lines, and inputs are taken to carry the trailing 0 rune the driver appends.
- Foreign library calls: `utf8.DecodeRuneInString` is replaced by sources given as sequences of runes. `strconv.ParseInt(s, 0, 64)` is modelled on the digit strings the lexer builds: decimal, octal after a leading `0`, clamped at the largest int64, with the error dropped as 0; its `0x`, `0b` and `0o` prefixes, a sign and `_` separators are not modelled, since no NUMBER token holds them. The unseen `util.Abs` is the absolute value.
- `util/utfconvert`, which `code_gen/convert.go` imports, is not part of this model. The convert pass is parameterised by the conversion function, and `gov/utfconvert/convert.go` is modelled in `UtfConvert` on its own.
- Concurrency: the `sync.RWMutex` of the string pool is dropped and the pool is sequential.
- Integer widths: Go `int`, `int64` and the `uint64` counters of the generators are unbounded integers, so a counter never wraps. `int32` conversion of constants and the `& 0xffffffff` mask are written out.
- `AsmType` and `ConvType` (code_gen/emitter.go:135-153, 533-544) are not modelled: each operand's assembly type is an input `typeOf` to instruction selection. As written, `AsmType` cannot answer for any operand tackygen builds: its `case *tackygen.Var` does not match the value `Var`s, and its constant cases match value payloads while tackygen's are pointers such as `&mconstant.Int32{}` (tackygen/tack_gen.go:54, 174, 478). It panics on every operand. So as written `GenASTInstr` panics on every Copy, Return, Unary, Binary, JumpIfZero and JumpIfNotZero, `passInRegisters` on every register parameter, and `GenASTFn` on every defined function, since `TackyFacts.FnLowered` shows each one holds a Return. With the `typeOf` parameter all of these succeed, so `Emitter` describes selection as if `AsmType` answered.
- `GenASTAsm` (code_gen/emitter.go:35-99), the loop that builds the assembly symbol table from the front-end table, is not modelled. The back-end table operations it calls are modelled in `AsmSymbols`.
- The `ast.Id = breakLabel.Name` write into the AST during lowering (tackygen/tack_gen.go:133): the model lowers a value AST and does not return the updated node.
- The unique-name generator in `unique/unique.go` is modelled, but tackygen keeps counters of its own (tackygen/tack_gen.go:567-593). The model follows tackygen's.
- The keyword spellings for `STATIC` and `STRING_TYPE` are not in the keyword file; `ToKeyword` does not recognise them.
- A binary assembly operator other than `Add`, `Sub` or `Mult` cannot be represented; the Go string type can hold one, and the writer would print nothing for it.
- Superseded or broken iterations (`gov/tackygen`, `gov/code_gen`, `gov/semantic_analysis`, `gov/lexer`, `gov/gen`, `gov/compiler`, `parser.c`, `rustv/`) are not modelled, nor is the timing demo code in `compare/`.
- `TackyRun` has no counterpart in the source. It gives TACKY a meaning so that the lowering lemmas can say what the code computes; calls, string constants, truncation and sign extension have no meaning in it.
- The Go parser (`gov/parser/parse.go`) imports the `gov/lexer` package, which is a stub: its `lexer.go` declares a `Token` with only a type and a value (gov/lexer/lexer.go:19-22), clashing with the `Token` of `gov/lexer/token.go`. The model drives the parser with the lexer of `lexer/lexer.go` instead, whose tokens carry a line and a span; `gov/lexer` is not part of this model.
- `fromEnum` (scanner.c:29-36) points the token's value at `valbuild`, a variable-length array on its own stack frame, which is dead once it returns. The model gives the token the lexeme `source[start..current]` that the array held.
- The `wprintf` calls of scanner.c:13 and scanner.c:231 print to the console; they are dropped.
- Resolve.GoTypeText: resolve.go:501 formats the node pointer with `%s`, which Go prints as a dump of the node's fields; the model writes the node's Go type name instead.
- FixUp.Legal: states the operand rules the pass enforces, not the whole x86-64 encoding: a large immediate may remain the source of `imul`, of a LongWord or untyped `cmp` and of an untyped `mov` to memory, none of which x86-64 can encode (FixUp.LargeImmediatesKept).
- AsmSymbols.Quote: only `"` and `\` are escaped. Go's `%q` also escapes control and non-printable characters, which the model does not.

## Findings

| source | as written | input that shows it | evidently intended | confidence | as-written member | corrected member |
|---|---|---|---|---|---|---|
| lexer/lexer.go:251-262 | `BuildString` calls `Next` once more after the opening quote, so the first body rune is skipped unseen | `""` followed by the 0 sentinel is reported as an unterminated string; a line feed right after the opening quote is not counted | the body is searched from the rune after the opening quote | not executed | GoLexer.EmptyStringAsWritten | GoLexer.StringIntendedSpec |
| semantic_analysis/resolve.go:104-122 | a file-scope variable is bound to a unique name in the map, but the declaration keeps its old name | a file-scope variable `x`, then a function that reads `x`: the use becomes `x_1`, which nothing declares | the declaration keeps its name and the map binds that same name, so every use resolves to the declared variable, as a function's linkage entry does | not executed | Resolve.GlobalUseMissesDeclaration | Resolve.FileScopeVarIntended |
| semantic_analysis/type_checker.go:28-41 | `Check` stores the checked declaration only when checking failed, and always returns no error | a program whose only function calls an undeclared name checks without error | the first error stops the check and is returned | not executed | TypeCheck.UndeclaredCallPasses | TypeCheck.IntendedReportsErrors |
| tree.c:23-25, interp.c:2-20 | a leaf gets operator 0, which is `A_ADD`, and the evaluator has no `A_INTLIT` case and never reads `intvalue` | the tree of `1 + 2` has no defined value | a leaf is `A_INTLIT` and evaluates to its value | not executed | CInterp.BuildUndefinedAsWritten | CInterp.EvaluateBuild |
| code_gen/pseudo.go:116-128 | the offset restarts at 0 for each function but the offset map is shared by all | function `f` moves `a` to `b`; function `g` moves `c` to `b`, then `d` to AX: in `g` both `b` and `d` get slot -8 | a map of its own for each function | not executed | Pseudo.SharedMapCollision | Pseudo.FreshFunctionsSound |
| tackygen/tack_gen.go:226-240 | the if/else lowering has no jump from the end of the then branch past the else branch | `if c then x = 1 else x = 2; return x` returns 2 for every `c` | a jump to the end label after the then branch | not executed | TackyLowering.IfElseRunsBothBranches | TackyLowering.IfElseRunsOneBranch |
| tackygen/tack_gen.go:105-127 | `while` ends with a numbered `while_break.N` label, while `break` jumps to `break.<id>` | `while c { break }` with `c` nonzero jumps to a label the code does not define | the loop emits the `break.<id>` and `continue.<id>` labels its statements target | not executed | TackyLowering.WhileBreakMissesLabel | TackyLowering.WhileBreakLeaves |
| tackygen/tack_gen.go:179-197 | the conditional loop lowers its body but drops the code | a loop on a nonzero condition whose body returns 5 spins for ever | the body's code is emitted between the test and the continue label | not executed | TackyLowering.CondLoopDropsBody | TackyLowering.CondLoopRunsBody |
| tackygen/tack_gen.go:135-147 | the range loop copies the start value into the loop variable before the code that computes the start value | a range loop from `a + b` reads the sum's temporary before it is set | the start value's code first, then the copy | not executed | TackyLowering.RangeReadsUnsetStart | TackyLowering.RangeCountsFromStart |
| code_gen/emitter.go:219-274 | `stackPadding` is added to the bytes released after the call, but no instruction reserves it before the pushes | a call with seven arguments: one push lowers the stack pointer by 8, so the callee finds it 8 bytes off a multiple of 16, and `DeallocateStack(16)` then releases 8 bytes never reserved | `AllocateStack(stackPadding)` before the pushes, as section 3.2.2 of the System V AMD64 psABI requires | not executed | Emitter.CallMisalignedAsWritten | Emitter.CallAligned |
