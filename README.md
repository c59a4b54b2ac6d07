# gopische lexer front end, in Dafny

This project models the front end of gopische, a small Scheme interpreter written in Go.
The model covers these parts:

- **Rune classes.** The rune-class alphabet and the digit tests (`RuneClasses`).
- **Word scanner.** The automaton that splits the input into words (`WordTransition`,
  `WordScanning`). The scanner is a class with a mutable cursor.
- **Legacy scanner.** An older, independent word automaton and scanner that the lexer no longer
  uses (`LegacyTransition`, `LegacyScanning`).
- **Scheme values.** Bit-packed type tags (`Tags`) and the Scheme objects with their factory
  `NewSchemeObject` and string un-escaping (`Scheme`).
- **Tokens.** Tokens and their rendering (`Tokens`).
- **Lexer.** A class holding the token list and a read cursor. `Analyze` turns every word into
  a token through `CreateToken` (`Lexing`).

Each imperative Go routine is a Dafny method, proved against a recursive specification
function:

- `NextWord` (both scanners) is proved against `ScanRun`/`Run`.
- `analyze` is proved against `AnalyzeFrom`.
- `unescapeGoStr` is proved against `Unescaped`.
- `IsDigit` is proved against the range `'0'..'9'`.

Lemmas then state what the source promises of those functions.

The model keeps the behaviour of the Go code exactly, including these quirks:

- **Closing quote left behind.** The word scanner gives back the rune that caused an accept,
  and that includes a string's closing quote. So the input `"Go"` lexes as a STRING token
  `"Go` whose value is `G`, followed by a SYMBOL token `"`.
- **Illegal spans returned.** A span that ends in the illegal state comes back shaped like an
  accepted one.
- **NUL ends the input.** A NUL rune counts as end of input.
- **`#` symbols carry the empty list.** A `#` word that is not a boolean becomes a SYMBOL
  token whose value is the empty list.
- **`( )` is refused.** The scanner reads it as one word, and `createToken` refuses that word.

## Model

| member | source | states |
|---|---|---|
| RuneClasses.NamesDistinct | lexer/internal/runeclass/runeclass.go:11-27 | the eleven rune-class constants are pairwise distinct strings |
| RuneClasses.SpecialRunesAreNotWhitespace | lexer/internal/runeclass/runeclass.go:29-31 | NUL, parentheses, quote, backslash, `#`, signs, point and digits are not whitespace |
| RuneClasses.IsDigit | lexer/internal/runeclass/runeclass.go:36-46 | the loop over `digits` answers true exactly for '0'..'9' |
| RuneClasses.DigitsAreInOrder | lexer/internal/runeclass/runeclass.go:36 | `digits[j]` is the digit of value j |
| RuneClasses.IsZeroDigit | lexer/internal/runeclass/runeclass.go:48-50 | a zero digit is a decimal digit |
| RuneClasses.IsNonZeroDigit | lexer/internal/runeclass/runeclass.go:52-60 | the loop over `digits[1:]` answers true exactly for '1'..'9' |
| RuneClasses.DigitIsZeroOrNonZero | lexer/internal/runeclass/runeclass.go:36-60 | a digit is zero or non-zero, never both |
| WordTransition.Transition | lexer/internal/wscanner/transition.go:31-88 | an absent key (a terminal state or an unused class) yields Start, the zero value; on the listed keys only Start on WHITE_SPACE yields Start |
| WordTransition.CodesDistinct | lexer/internal/wscanner/transition.go:11-29 | Start, s1..s6, Illegal and Accept have distinct integer values |
| WordTransition.StartOnlyOnLeadingWhitespace | lexer/internal/wscanner/transition.go:31-88 | the table is total on live states and word-scan classes: only Start on whitespace leads to Start, the value an absent key would give |
| WordTransition.EndOfInputStops | lexer/internal/wscanner/transition.go:31-88 | EOS is illegal inside a string and accepts in every other live state |
| WordTransition.EscapeOnlyInStrings | lexer/internal/wscanner/transition.go:31-88 | a backslash is illegal outside strings and toggles s3 and s5 inside one |
| WordTransition.StringAndIllegalEdges | lexer/internal/wscanner/transition.go:31-88 | a string state is entered only from Start on '"'; Illegal is reached exactly on a backslash outside a string or EOS inside one |
| WordTransition.ParenStates | lexer/internal/wscanner/transition.go:40-87 | after '(' whitespace is swallowed and ')' reaches s6; s2 and s6 accept every class but the escape |
| WordTransition.StringStates | lexer/internal/wscanner/transition.go:56-79 | in s3 only the quote accepts; s5 returns to s3 on every non-EOS class |
| WordTransition.AtomStates | lexer/internal/wscanner/transition.go:64-71 | s4 loops exactly on ANY_OTHER; EOS, whitespace, parentheses and the quote accept |
| WordScanning.RuneClassify | lexer/internal/wscanner/wordscanner.go:116-136 | NUL is EOS, whitespace is WHITE_SPACE, the special runes have their own classes, anything else is ANY_OTHER; only the seven word-scan classes occur |
| WordScanning.ScanRun | lexer/internal/wscanner/wordscanner.go:58-106 | the span of one scan never starts before the word's left end, never ends before the cursor, and stays inside the input |
| WordScanning.ScanWord | lexer/internal/wscanner/wordscanner.go:58-106 | cursor <= left <= right <= length |
| WordScanning.WordScanner.constructor | lexer/internal/wscanner/wordscanner.go:20-22 | a new scanner holds the runes with its cursor at 0 |
| WordScanning.WordScanner.PeekRune | lexer/internal/wscanner/wordscanner.go:29-37 | the rune at cursor+distance, NUL outside the input; the cursor is not moved |
| WordScanning.WordScanner.ReadRune | lexer/internal/wscanner/wordscanner.go:39-47 | returns the rune at the cursor and advances by one exactly when it is not NUL, so the cursor stays within the input |
| WordScanning.WordScanner.Unread | lexer/internal/wscanner/wordscanner.go:49-56 | the cursor becomes max(cursor - n, 0) |
| WordScanning.WordScanner.NextWord | lexer/internal/wscanner/wordscanner.go:58-106 | the loop terminates and returns the span `ScanWord` gives for the old cursor, with old cursor <= left <= right == new cursor <= length |
| WordScanning.WordScanner.SubRunes | lexer/internal/wscanner/wordscanner.go:108-113 | nil exactly when the span leaves the input, otherwise the runes of [left, right) |
| WordScanning.EmptyWordIffBlank | lexer/internal/wscanner/wordscanner.go:83-84 | the span is empty exactly when only whitespace remains before the end or a NUL |
| WordScanning.WordStartsNonBlank | lexer/internal/wscanner/wordscanner.go:83-84 | a non-empty span never starts with whitespace or NUL |
| WordScanning.StringRunAcceptsOnQuote | lexer/internal/wscanner/wordscanner.go:97-101 | inside a string the run accepts only on a quote, which it gives back |
| WordScanning.StringWordLeavesClosingQuote | lexer/internal/wscanner/wordscanner.go:97-101 | an accepted word opening with '"' ends just before a '"', which starts the next word |
| WordScanning.AtomRunIsMaximal | lexer/internal/wscanner/wordscanner.go:97-101 | an atom run covers only ANY_OTHER runes and, accepted, stops before a rune of another class; otherwise it ends in a backslash |
| WordScanning.AtomWordIsMaximal | lexer/internal/wscanner/wordscanner.go:97-101 | an accepted atom word is all ANY_OTHER runes and the next rune is a delimiter |
| WordScanning.IllegalRunShape | lexer/internal/wscanner/wordscanner.go:91-96 | from any live state, an illegal span is non-empty and ends with the backslash just read, or stops at the end of input inside a string: one the run was already in (s3, s5), or, from Start, one the span opens with '"' |
| WordScanning.IllegalWordShape | lexer/internal/wscanner/wordscanner.go:91-96 | an illegal word is non-empty and ends at a backslash, or opens with '"' and stops at the end of input |
| WordScanning.IllegalInString | lexer/internal/wscanner/wordscanner.go:91-96 | inside a string a run is illegal only at the end of input, since a backslash there only toggles s3 and s5 |
| WordScanning.IllegalOutsideString | lexer/internal/wscanner/wordscanner.go:91-96 | from s1, s2, s4 or s6 a run is illegal only on a backslash, which ends the span |
| WordScanning.IllegalFromStart | lexer/internal/wscanner/wordscanner.go:58-106 | from Start an illegal span is non-empty and ends at a backslash, or opens with '"' and stops at the end of input |
| WordScanning.SegmentsSimpleList | lexer/internal/wscanner/wordscanner_test.go:55 | `(+ 1 2)` gives the words `(`, `+`, `1`, `2`, `)` |
| WordScanning.SegmentsSimpleListFrom2 | lexer/internal/wscanner/wordscanner_test.go:55 | from position 2 the words are `1`, `2`, `)` |
| WordScanning.SegmentsEmptyList | lexer/internal/wscanner/wordscanner_test.go:47 | `()` is a single word |
| WordScanning.SegmentsSpacedEmptyList | lexer/internal/wscanner/wordscanner_test.go:48 | `( )` is a single word |
| WordScanning.SegmentsQuotedWord | lexer/internal/wscanner/wordscanner.go:97-101 | `"Go"` gives the words `"Go` and `"`; the second scan is illegal |
| WordScanning.SegmentsOneRuneString | lexer/internal/wscanner/wordscanner.go:97-101 | `"a"` gives the words `"a` and `"` |
| WordScanning.SegmentsBoolean | lexer/internal/wscanner/wordscanner_test.go:53 | `#false` is a single word |
| WordScanning.SegmentsNestedFrom0 | lexer/internal/wscanner/wordscanner_test.go:56-57 | the nested example's first three words |
| WordScanning.SegmentsNestedFrom5 | lexer/internal/wscanner/wordscanner_test.go:56-57 | the nested example's words from position 5 |
| WordScanning.SegmentsNestedFrom12 | lexer/internal/wscanner/wordscanner_test.go:56-57 | the nested example's words from position 12 |
| WordScanning.SegmentsNestedFrom18 | lexer/internal/wscanner/wordscanner_test.go:56-57 | the nested example's words from position 18 |
| WordScanning.SegmentsNestedFrom23 | lexer/internal/wscanner/wordscanner_test.go:56-57 | the nested example's last words |
| WordScanning.SegmentsNestedList | lexer/internal/wscanner/wordscanner_test.go:56-57 | `(+ 10 234 (- 56 7) (* 8 9))` gives the 15 listed words |
| LegacyTransition.RuneClassOf | lexer/transition.go:19-39 | NUL is EOS, each special rune has its own class, whitespace is WHITE_SPACE, anything else is ANY_OTHER |
| LegacyTransition.IsDigit | lexer/transition.go:45-56 | the loop over `digits` answers true exactly for '0'..'9' |
| LegacyTransition.Transition | lexer/transition.go:81-122 | an absent key (s99, s100 or an unused class) yields s0, the zero value; on the listed keys only s0 on WHITE_SPACE yields s0 |
| LegacyTransition.CodesDistinct | lexer/transition.go:58-74 | s0..s4, s99 and s100 have distinct integer values |
| LegacyTransition.TableIsTotal | lexer/transition.go:81-122 | the table is total over s0..s4 and the seven classes: only s0 on whitespace leads to s0 |
| LegacyTransition.ParensAcceptAtOnce | lexer/transition.go:82-89 | from s0 parentheses and EOS accept at once, with no empty-list state; a quote enters s1, other runes s3, a backslash is illegal |
| LegacyTransition.StringStates | lexer/transition.go:90-105 | in s1 only the quote accepts and EOS is illegal; the escape leads to s2, which returns to s1 on every non-EOS class |
| LegacyTransition.AtomStates | lexer/transition.go:106-113 | in s3 whitespace and parentheses lead to s4, quote and backslash are illegal, EOS accepts, ANY_OTHER loops |
| LegacyTransition.EndOfInputStops | lexer/transition.go:81-113 | EOS never lets the automaton continue |
| LegacyScanning.Run | lexer/scanner.go:42-80 | the span of one scan never starts before the word's left end, never ends before the cursor, and stays inside the input |
| LegacyScanning.Scan | lexer/scanner.go:42-80 | cursor <= left <= right <= length |
| LegacyScanning.Scanner.constructor | lexer/scanner.go:13-16 | a new scanner holds the runes with its cursor at 0 |
| LegacyScanning.Scanner.PeekRune | lexer/scanner.go:18-24 | the rune at cursor+distance, NUL outside the input |
| LegacyScanning.Scanner.ReadRune | lexer/scanner.go:26-32 | returns the rune at the cursor and advances by one exactly when it is not NUL |
| LegacyScanning.Scanner.Unread | lexer/scanner.go:34-40 | the cursor becomes max(cursor - n, 0) |
| LegacyScanning.Scanner.NextWord | lexer/scanner.go:42-80 | the loop terminates and returns the runes of the span `Scan` gives for the old cursor, leaving the cursor at its right end |
| LegacyScanning.SameClassifier | lexer/transition.go:19-39 | the legacy classifier agrees with the word scanner's on every rune |
| LegacyScanning.EmptyWordIffBlank | lexer/scanner.go:43-79 | the word is "" exactly when only whitespace remains |
| LegacyScanning.WordStartsNonBlank | lexer/scanner.go:63-64 | a non-empty word never starts with whitespace or NUL |
| LegacyScanning.ParenIsOwnWord | lexer/scanner.go:75-76 | a parenthesis is a whole accepted word of one rune |
| LegacyScanning.StringRunKeepsClosingQuote | lexer/scanner.go:75-79 | inside a string the run accepts only after reading a quote, which stays in the word |
| LegacyScanning.StringWordHasBothQuotes | lexer/scanner.go:75-79 | an accepted word opening with '"' also ends with '"' |
| LegacyScanning.AtomRunIsMaximal | lexer/scanner.go:67-74 | an atom run covers only ANY_OTHER runes; accepted, it stops before EOS, whitespace or a parenthesis, which is pushed back; otherwise it ends with the offending quote or backslash |
| LegacyScanning.AtomWordIsMaximal | lexer/scanner.go:67-69 | an accepted atom word is all ANY_OTHER runes and the next rune is a delimiter |
| LegacyScanning.IllegalWordShape | lexer/scanner.go:70-74 | an illegal word ends with the offending quote or backslash, or is a string that ran into the end of input |
| LegacyScanning.UnterminatedString | lexer/scanner.go:70-74 | a string run that fails has reached the end of input |
| LegacyScanning.EmptyListIsTwoWords | lexer/scanner.go:75-76 | `()` scans as `(` then `)` |
| LegacyScanning.QuotedWordIsOneWord | lexer/scanner.go:75-79 | `"Go"` scans as one word, quotes included |
| Tags.ClassOf | scheme/tag.go:89-92 | the class is below 16 and, shifted back, equals the tag's class bits |
| Tags.SubClassOf | scheme/tag.go:94-97 | the subclass is below 16 and with the class bits gives the tag's low byte |
| Tags.ClassAndSubClassDetermineTag | scheme/tag.go:83-97 | a tag below 0x100 is rebuilt from its class and subclass |
| Tags.SimpleTagBits | scheme/tag.go:20-65 | NIL, BOOLEAN, STRING, SYMBOL, NUMBER and LIST have class 0, 1, 2, 3, 7, 9 (their bitsX helper) and subclass 0 |
| Tags.NumberSubTagBits | scheme/tag.go:37-81 | INT, FLOAT, COMPLEX and BIGINT have the number class and subclasses 1, 2, 3, 9 |
| Tags.TagName | scheme/tag.go:99-130 | an unnamed tag is named "illegal", and a named tag of the number class has a name beginning with "number" |
| Tags.IllegalIffUnnamed | scheme/tag.go:99-130 | a tag prints as "illegal" exactly when it is not one of the eleven named tags |
| Tags.TagNamesDistinct | scheme/tag.go:99-130 | the named tags print distinct names |
| Tags.TagNameExamples | scheme/tag_test.go:9-35 | the names the tag test expects for NIL, BOOLEAN, STRING, SYMBOL, CHARACTER, LIST, NUMBER, INT, FLOAT and COMPLEX, 0xff giving "illegal" |
| Scheme.WrapToInt64 | scheme/object.go:274-288 | a uint64 converted to int64 is congruent modulo 2^64, equal below 2^63 and negative above |
| Scheme.NumTag | scheme/object.go:258-303 | a number's tag is INT, FLOAT or COMPLEX, all of the number class |
| Scheme.TagOf | scheme/object.go:54-161 | the tag is one of NIL, BOOLEAN, STRING, SYMBOL and NUMBER, has subclass 0, and is of the number class exactly for numbers |
| Scheme.SubClassOfObject | scheme/object.go:58-165 | a number's subclass is that of INT, FLOAT or COMPLEX; every other object has subclass 0 |
| Scheme.ValueOf | scheme/object.go:62-169 | numbers carry a Go numeric value, strings and symbols a Go string, booleans a Go bool and the empty list nil, and no other pairing occurs |
| Scheme.Render | scheme/object.go:70-186 | a boolean prints as #t or #f; a string prints with a quote at each end around its text; an integer prints non-empty with a leading '-' exactly when negative |
| Scheme.RenderSymbol | scheme/object.go:149-151 | a symbol prints as its bare name, never as the string of the same text |
| Scheme.NatDigits | scheme/object.go:175-179 | the decimal digits of a natural number are non-empty digit runes, with a leading '0' only for 0 |
| Scheme.ParseNatDigits | scheme/object.go:175-179 | reading the printed digits back gives the number |
| Scheme.RenderInteger | scheme/object.go:175-179 | an integer's `%d` rendering is non-empty and reads back as the integer |
| Scheme.RenderSimple | scheme/object.go:70-126 | the empty list prints as "()" and no other such object does; booleans print as #t/#f; a string prints as its text with a quote on each side |
| Scheme.IsClassExactlyOne | scheme/object.go:46-173 | `IsClass(bits)` holds exactly for the class bits of the object's tag; only numbers have a subclass, 1, 2 or 3 |
| Scheme.Unescaped | scheme/object.go:313-332 | un-escaping never lengthens the text |
| Scheme.Cook | scheme/object.go:305-333 | the empty text is refused; a cooked text is non-empty and no longer than the raw one |
| Scheme.UnescapeGoStr | scheme/object.go:305-333 | the loop succeeds exactly when `Cook` does, returns the cooked text, and returns "" on failure |
| Scheme.PrefixedEmpty | scheme/object.go:312-332 | an empty prefix changes nothing |
| Scheme.PrefixedAppend | scheme/object.go:331 | appending a byte to the result commutes with prefixing |
| Scheme.UnescapedFailsIffTrailingBackslash | scheme/object.go:318-327 | un-escaping fails exactly when the text ends with a backslash |
| Scheme.CookSucceedsIff | scheme/object.go:305-333 | `unescapeGoStr` succeeds exactly on a non-empty text not ending in a backslash, never lengthening it |
| Scheme.UnescapedIdentity | scheme/object.go:313-332 | a text without backslashes is returned unchanged |
| Scheme.Escape | scheme/object.go:318-324 | an escaped non-empty text does not start with a quote and keeps its last rune |
| Scheme.UnescapedEscape | scheme/object.go:318-324 | un-escaping undoes escaping |
| Scheme.CookEscape | scheme/object.go:305-333 | `unescapeGoStr` undoes escaping for every text it can return |
| Scheme.NewSchemeObject | scheme/object.go:191-226 | a made object carries the requested tag; only the five data tags avoid the illegal-tag error, and the other errors report the refused value |
| Scheme.Message | scheme/object.go:196-219 | every message begins "illegal " and ends with the refused value's rendering, or with the tag's name for an illegal tag |
| Scheme.NewNil | scheme/object.go:228-230 | never fails, and the object has the NIL tag |
| Scheme.NewBoolean | scheme/object.go:232-238 | succeeds exactly on a Go bool; the object has the BOOLEAN tag and gives the value back |
| Scheme.NewString | scheme/object.go:240-248 | succeeds exactly on a Go string that `unescapeGoStr` accepts; the object has the STRING tag and a text no longer than the raw one |
| Scheme.NewSymbol | scheme/object.go:250-256 | succeeds exactly on a Go string; the object has the SYMBOL tag and gives the value back |
| Scheme.NewNumber | scheme/object.go:258-303 | succeeds exactly on the Go numeric kinds with the NUMBER tag; every integer kind is held as an int64; int64, float64 and complex128 values are given back unchanged |
| Scheme.NilFactory | scheme/object.go:198-230 | the NIL tag gives the empty list whatever the value |
| Scheme.BooleanAndSymbolFactories | scheme/object.go:232-256 | BOOLEAN succeeds exactly on a Go bool and SYMBOL exactly on a Go string, keeping the value |
| Scheme.StringFactory | scheme/object.go:240-248 | STRING succeeds exactly on a Go string that `unescapeGoStr` accepts, holding the cooked text |
| Scheme.OtherTagsFail | scheme/object.go:216-222 | any other tag is refused as an illegal tag |
| Scheme.NumberFactory | scheme/object.go:258-303 | NUMBER succeeds exactly on Go numeric values: integers give INT, floats FLOAT, complex values COMPLEX |
| Scheme.NumberFactoryIntegers | scheme/object.go:260-285 | int, int8, int16, int32, int64, uint8, uint16 and uint32 values are stored as the int64 of the same value |
| Scheme.NumberFactoryFloats | scheme/object.go:289-298 | float32 and float64 are stored as that float64, complex64 and complex128 as that complex128 |
| Scheme.UnsignedWraps | scheme/object.go:274-288 | uint and uint64 wrap into int64, so the largest uint64 becomes -1 |
| Scheme.FactoryRoundTrip | scheme/object.go:54-226 | every non-string object is rebuilt by the factory from its tag and value |
| Scheme.StringRoundTrip | scheme/object.go:240-333 | a string object is rebuilt from its escaped text |
| Scheme.FactoryExamples | scheme/object_test.go:28-69 | the factory cases of the object tests |
| Tokens.TypeNamesDistinct | token/token.go:11-23 | the nine type names are distinct, read back to their type, and contain no comma |
| Tokens.NewToken | token/token.go:35-37 | the token holds the given type, literal and value |
| Tokens.NewIllegalToken | token/token.go:31-33 | an ILLEGAL token with the given literal and the empty list |
| Tokens.Render | token/token.go:41-43 | the rendering starts with "[type:", ends with ']' and is longer than the type name, literal and value rendering together |
| Tokens.FirstIndex | token/token.go:41-43 | the first position of a rune, or the length when it is absent |
| Tokens.FirstIndexOfPrefix | token/token.go:41-43 | the first comma after a comma-free prefix is at the prefix's end |
| Tokens.RenderKeepsType | token/token.go:41-43 | the token type can be read back from the rendering |
| Lexing.ParseBoolean | lexer/lexer.go:181-197 | a parsed boolean comes from a `#` word and is true exactly when its second rune is 't'; a failure reports the word |
| Lexing.ParseNumber | lexer/lexer.go:199-223 | a parsed number is a Number object, and parsing fails exactly when ParseInt, ParseFloat and ParseComplex all fail |
| Lexing.CreateToken | lexer/lexer.go:73-179 | a made token keeps the word as literal and is never ILLEGAL or QUOTE; NUMBER, BOOLEAN and STRING tokens carry a number, a boolean and a string; parenthesis tokens carry the empty list; only the empty word gives the empty-literal error |
| Lexing.AnalyzeFrom | lexer/lexer.go:51-71 | analyze makes no more tokens than the scanner finds words, and at least one when there is a word and nothing fails |
| Lexing.Tokenize | lexer/lexer.go:24-33 | a successful NewLexer holds one token per scanner word, each with that word as its literal |
| Lexing.Lexer.constructor | lexer/lexer.go:24-28 | a lexer starts with no tokens and its cursor at 0 |
| Lexing.Lexer.NewLexer | lexer/lexer.go:24-33 | nil exactly when some word cannot be made a token; otherwise a fresh lexer holding all tokens with its cursor at 0 |
| Lexing.Lexer.Length | lexer/lexer.go:35-37 | the number of tokens |
| Lexing.Lexer.NextToken | lexer/lexer.go:42-49 | while tokens remain, the token under the cursor and the cursor moves on; afterwards nothing and no move; the tokens never change |
| Lexing.Lexer.Analyze | lexer/lexer.go:51-71 | the loop appends exactly the tokens `AnalyzeFrom` lists and reports success exactly when no word failed |
| Lexing.AnalyzeStep | lexer/lexer.go:56-68 | one iteration: an empty span stops with success, a refused word stops with its error, otherwise its token comes first |
| Lexing.AnalyzeAdvance | lexer/lexer.go:65 | appending a made token keeps the loop invariant of analyze |
| Lexing.AnalyzeFollowsWords | lexer/lexer.go:51-71 | the tokens are made from the leading scanner words one each and in order, stopping at the first refused word |
| Lexing.TokenizeIsAllOrNothing | lexer/lexer.go:24-33 | NewLexer succeeds exactly when every word makes a token, and then holds one token per word |
| Lexing.BlankInputHasNoTokens | lexer/lexer.go:58-61 | input made only of whitespace gives an empty token list |
| Lexing.BlankSuffix | lexer/internal/wscanner/wordscanner.go:83-84 | an all-whitespace input is blank from every position |
| Lexing.CreateTokenOutcomes | lexer/lexer.go:73-179 | a made token keeps the word as literal and is never ILLEGAL or QUOTE; each error comes from its own kind of word, the empty word and a '(' word not followed by ')' exactly |
| Lexing.ParseBooleanSpellings | lexer/lexer.go:181-197 | exactly #t, #true, #f and #false are booleans, true for the first two |
| Lexing.ParseNumberOrder | lexer/lexer.go:199-223 | the first of ParseInt, ParseFloat, ParseComplex to succeed fixes the subclass; if all fail the complex parser's error is returned |
| Lexing.OneRuneWords | lexer/lexer.go:86-111 | a one-rune word is LPAREN, RPAREN, a number for a digit, and a symbol otherwise |
| Lexing.ParenWords | lexer/lexer.go:115-121 | a longer '(' word is the empty list if it is "()" and a weird literal otherwise |
| Lexing.StringWords | lexer/lexer.go:122-126 | a '"' word is a STRING of the cooked runes between its first and last rune, refused when that text is empty or ends in a backslash |
| Lexing.HashWords | lexer/lexer.go:127-134 | `#t..`/`#f..` words are booleans or errors; other `#` words are SYMBOL tokens carrying the empty list |
| Lexing.NumberOrSymbolWords | lexer/lexer.go:135-170 | other words are numbers when they look numeric and symbols of themselves otherwise |
| Lexing.CreateTokenSymbolExamples | lexer/lexer_test.go:17-34 | the parenthesis, symbol and empty-list cases of the lexer test |
| Lexing.CreateTokenBooleanExamples | lexer/lexer_test.go:35-38 | the boolean cases of the lexer test |
| Lexing.CreateTokenStringExample | lexer/lexer_test.go:31 | the whole word `"Go"` is a STRING holding Go |
| Lexing.CreateTokenNumberExamples | lexer/lexer_test.go:21-23 | 1, 23 and -4567 are NUMBER tokens when ParseInt reads them |
| Lexing.SpacedEmptyListIsRefused | lexer/lexer.go:115-121 | `( )` is one word, refused as a weird literal |
| Lexing.QuotedWordLexesAsTwoTokens | lexer/lexer.go:51-71 | the input `"Go"` lexes as the STRING `"Go` holding G followed by the SYMBOL `"` |
| Lexing.QuotedWordTokens | lexer/lexer.go:86-126 | `"Go` is a STRING holding G and `"` is a SYMBOL |
| Lexing.OneRuneStringIsRefused | lexer/lexer.go:122-126 | the input `"a"` fails: the text between the quotes of `"a` is empty |

## Left out

- `strconv.ParseInt`, `ParseFloat` and `ParseComplex` are not modelled. Their results are a
  parameter of the lexer (`Strconv`). The same holds for the `%g` formatting of floats and
  complex numbers (`FloatFormat`).
- Lexing.CreateTokenNumberExamples: it holds only when ParseInt reads those literals, because
  ParseInt is a parameter.
- Floats and complex numbers are kept as uninterpreted 64-bit patterns. A float32 or complex64
  is assumed to be widened exactly. Go's `int` and `uint` are taken as 64 bits wide.
- The conversion from a Go string to `[]rune` is not modelled, nor is invalid UTF-8. The input
  is a sequence of characters.
- `unescapeGoStr` works on bytes and is modelled on characters. The two runes it looks for are
  ASCII and never occur inside a multi-byte UTF-8 sequence, so the results agree.
- `unicode.IsSpace` is written out as its fixed list of code points rather than left abstract.
- Logging in `analyze` and the debug printing in both scanners are left out, being side effects
  only.
- Errors are kept as structured values. Only `Scheme.Message` spells out object-factory errors.
- When an error occurs, Go also returns a token next to it: a zero token or an ILLEGAL token.
  `analyze` discards that token, and the model does not return it.
- The `length` field of both scanners is omitted because it always equals the number of runes.
- The `extendedIdChars` array and the SIGN, DIGIT_ZERO, DIGIT_NONZERO and POINT classes are
  declared but not used by any code. The model only states their distinctness.
- The read loop of the REPL and the command-line entry points are not part of this model.
- LegacyScanning.Scanner.NextWord: requires the cursor to be within the input. Go would panic
  when slicing past the end, and only a negative `unread` can put the cursor there.
- WordScanning.WordScanner.SubRunes: requires left <= right when both ends lie inside the input.
  Go panics on such a slice, and NextWord never returns one.
- WordScanning.SegmentsSimpleList and WordScanning.SegmentsNestedList: they state the input
  rune by rune, as a predicate on the string, rather than as a string literal.
