// The lexer (lexer/lexer.go): the input is cut into words by the word
// scanner, and each word becomes a token carrying a Scheme object.

module Lexing {
  import opened Wrappers
  import opened RuneClasses
  import opened WordScanning
  import opened Scheme
  import opened Tokens
  import Tags

  /**
   * strconv.ParseInt(s, 0, 64), strconv.ParseFloat(s, 64) and
   * strconv.ParseComplex(s, 128); each answers a value or the error's text.
   */
  datatype Strconv = Strconv(
    parseInt: string -> Result<Int64, string>,
    parseFloat: string -> Result<Float64, string>,
    parseComplex: string -> Result<Complex128, string>)

  /** Why a word could not be made into a token. */
  datatype LexError =
    | EmptyLiteral
    | WeirdLiteral
    | IllegalBooleanLiteral(lit: string)
    | BadNumber(reason: string)
    | ObjectRefused(cause: ObjectError)

  // ---------------------------------------------------------------------
  // From a word to a token
  // ---------------------------------------------------------------------

  /** parseBoolean: the four spellings of section 6.3 of R7RS, and nothing else. */
  function ParseBoolean(lit: string): (r: Result<Object, LexError>)
    ensures r.Ok? ==> |lit| >= 2 && lit[0] == '#' && r.value == Boolean(lit[1] == 't')
    ensures r.Err? ==> r.error == IllegalBooleanLiteral(lit)
  {
    if lit == "#t" || lit == "#true" then
      match NewSchemeObject(Tags.BOOLEAN, GoBool(true))
      case Ok(o) => Ok(o)
      case Err(e) => Err(ObjectRefused(e))
    else if lit == "#f" || lit == "#false" then
      match NewSchemeObject(Tags.BOOLEAN, GoBool(false))
      case Ok(o) => Ok(o)
      case Err(e) => Err(ObjectRefused(e))
    else Err(IllegalBooleanLiteral(lit))
  }

  /** The last stage of parseNumber: the complex parser, whose error is the one reported. */
  function ParseAsComplex(lit: string, conv: Strconv): Result<Object, LexError>
  {
    match conv.parseComplex(lit)
    case Ok(c) =>
      (match NewSchemeObject(Tags.NUMBER, GoComplex128(c))
       case Ok(o) => Ok(o)
       case Err(e) => Err(ObjectRefused(e)))
    case Err(reason) => Err(BadNumber(reason))
  }

  /** The middle stage of parseNumber: the float parser, falling back to the complex one. */
  function ParseAsFloat(lit: string, conv: Strconv): Result<Object, LexError>
  {
    match conv.parseFloat(lit)
    case Ok(f) =>
      (match NewSchemeObject(Tags.NUMBER, GoFloat64(f))
       case Ok(o) => Ok(o)
       case Err(_) => ParseAsComplex(lit, conv))
    case Err(_) => ParseAsComplex(lit, conv)
  }

  /** parseNumber: an int64 if ParseInt accepts, else a float64, else a complex128. */
  function ParseNumber(lit: string, conv: Strconv): (r: Result<Object, LexError>)
    ensures r.Ok? ==> r.value.Number?
    ensures r.Err? <==>
      conv.parseInt(lit).Err? && conv.parseFloat(lit).Err? && conv.parseComplex(lit).Err?
  {
    match conv.parseInt(lit)
    case Ok(i) =>
      (match NewSchemeObject(Tags.NUMBER, GoInt64(i))
       case Ok(o) => Ok(o)
       case Err(_) => ParseAsFloat(lit, conv))
    case Err(_) => ParseAsFloat(lit, conv)
  }

  /** A NUMBER token for the word, if parseNumber reads it. */
  function NumberToken(lit: string, conv: Strconv): Result<Token, LexError>
  {
    match ParseNumber(lit, conv)
    case Ok(o) => Ok(NewToken(NUMBER, lit, o))
    case Err(e) => Err(e)
  }

  /** A SYMBOL token whose value is the symbol spelled by the word. */
  function SymbolToken(lit: string): Result<Token, LexError>
  {
    match NewSchemeObject(Tags.SYMBOL, GoString(lit))
    case Ok(o) => Ok(NewToken(SYMBOL, lit, o))
    case Err(e) => Err(ObjectRefused(e))
  }

  /**
   * createToken: the token for the word `lit` (the runes of one span). The first
   * rune, and for longer words the second, choose the kind of token.
   */
  function CreateToken(lit: string, conv: Strconv): (r: Result<Token, LexError>)
    ensures r.Ok? ==> r.value.literal == lit && r.value.tokenType !in {ILLEGAL, QUOTE}
    ensures r.Ok? && r.value.tokenType == NUMBER ==> r.value.value.Number?
    ensures r.Ok? && r.value.tokenType == BOOLEAN ==> r.value.value.Boolean?
    ensures r.Ok? && r.value.tokenType == STRING ==> r.value.value.Str?
    ensures r.Ok? && r.value.tokenType in {LPAREN, RPAREN, EMPTY_LIST} ==> r.value.value == EmptyList
    ensures r == Err(EmptyLiteral) <==> |lit| == 0
  {
    if |lit| < 1 then Err(EmptyLiteral)
    else if |lit| == 1 then
      if lit[0] == '(' then Ok(NewToken(LPAREN, lit, EmptyList))
      else if lit[0] == ')' then Ok(NewToken(RPAREN, lit, EmptyList))
      else if IsDecimalDigit(lit[0]) then NumberToken(lit, conv)
      else SymbolToken(lit)
    else
      var curr, next := lit[0], lit[1];
      if curr == '(' then
        if next == ')' then Ok(NewToken(EMPTY_LIST, lit, EmptyList)) else Err(WeirdLiteral)
      else if curr == '"' then
        match NewSchemeObject(Tags.STRING, GoString(lit[1..|lit| - 1]))
        case Ok(o) => Ok(NewToken(STRING, lit, o))
        case Err(e) => Err(ObjectRefused(e))
      else if curr == '#' then
        if next == 't' || next == 'f' then
          match ParseBoolean(lit)
          case Ok(o) => Ok(NewToken(BOOLEAN, lit, o))
          case Err(e) => Err(e)
        else Ok(NewToken(SYMBOL, lit, EmptyList))
      else if curr == '+' || curr == '-' then
        if IsDecimalDigit(next) || next == '.' then NumberToken(lit, conv) else SymbolToken(lit)
      else if curr == '.' then
        if IsDecimalDigit(next) then NumberToken(lit, conv) else SymbolToken(lit)
      else if IsDecimalDigit(curr) then NumberToken(lit, conv)
      else SymbolToken(lit)
  }

  // ---------------------------------------------------------------------
  // From the input to the token list
  // ---------------------------------------------------------------------

  /** The tokens analyze appends, and the error that stopped it, if one did. */
  datatype Analysis = Analysis(tokens: seq<Token>, failure: Option<LexError>)

  /** createToken with the strconv parsers fixed: the token maker analyze applies to each word. */
  function Maker(conv: Strconv): string -> Result<Token, LexError>
  {
    w => CreateToken(w, conv)
  }

  /** What analyze does from the scanner position `cursor` on, making tokens with `make`. */
  function AnalyzeFrom(runes: seq<char>, cursor: nat, make: string -> Result<Token, LexError>): (a: Analysis)
    requires cursor <= |runes|
    ensures |a.tokens| <= |Words(runes, cursor)|
    ensures a.failure.None? && |Words(runes, cursor)| > 0 ==> |a.tokens| > 0
    decreases |runes| - cursor
  {
    var s := ScanWord(runes, cursor);
    if s.left == s.right then Analysis([], None)
    else
      match make(runes[s.left..s.right])
      case Err(e) => Analysis([], Some(e))
      case Ok(t) =>
        var rest := AnalyzeFrom(runes, s.right, make);
        Analysis([t] + rest.tokens, rest.failure)
  }

  /** The token list of NewLexer, or the error that makes it answer nil. */
  function Tokenize(input: seq<char>, conv: Strconv): (r: Result<seq<Token>, LexError>)
    ensures r.Ok? ==> |r.value| == |Words(input, 0)|
    ensures r.Ok? ==> forall i :: 0 <= i < |r.value| ==> r.value[i].literal == Words(input, 0)[i]
  {
    AnalyzeFollowsWords(input, 0, Maker(conv));
    var a := AnalyzeFrom(input, 0, Maker(conv));
    match a.failure
    case None => Ok(a.tokens)
    case Some(e) => Err(e)
  }

  class Lexer {
    var tokens: seq<Token>
    var cursor: nat
    const input: seq<char>
    const conv: Strconv

    /** The read cursor never passes the end of the token list. */
    predicate Valid()
      reads this
    {
      cursor <= |tokens|
    }

    /** The Lexer value NewLexer starts from: no tokens, cursor at 0. */
    constructor (input: seq<char>, conv: Strconv)
      ensures this.input == input && this.conv == conv
      ensures tokens == [] && cursor == 0
      ensures Valid()
    {
      this.input := input;
      this.conv := conv;
      tokens := [];
      cursor := 0;
    }

    /** NewLexer: a lexer over all tokens of the input, or null if any word fails. */
    static method NewLexer(input: seq<char>, conv: Strconv) returns (l: Lexer?)
      ensures l == null <==> Tokenize(input, conv).Err?
      ensures l != null ==> fresh(l) && l.input == input && l.conv == conv
      ensures l != null ==> l.tokens == Tokenize(input, conv).value && l.cursor == 0 && l.Valid()
    {
      var lexer := new Lexer(input, conv);
      var ok := lexer.Analyze();
      if !ok {
        return null;
      }
      return lexer;
    }

    /** Length: the number of tokens. */
    function Length(): (n: nat)
      reads this
      ensures n == |tokens|
    {
      |tokens|
    }

    /** NextToken: the token under the cursor, which then moves on; false once all are read. */
    method NextToken() returns (tk: Option<Token>, ok: bool)
      requires Valid()
      modifies this
      ensures Valid()
      ensures tokens == old(tokens)
      ensures ok <==> old(cursor) < |tokens|
      ensures ok ==> tk == Some(tokens[old(cursor)]) && cursor == old(cursor) + 1
      ensures !ok ==> tk == None && cursor == old(cursor)
    {
      tk, ok := None, false;
      if cursor < |tokens| {
        tk := Some(tokens[cursor]);
        ok := true;
        cursor := cursor + 1;
      }
    }

    /** analyze: appends the token of each word until the input is used up or a word fails. */
    method Analyze() returns (ok: bool)
      modifies this
      ensures tokens == old(tokens) + AnalyzeFrom(input, 0, Maker(conv)).tokens
      ensures ok <==> AnalyzeFrom(input, 0, Maker(conv)).failure.None?
      ensures cursor == old(cursor)
    {
      var scanner := new WordScanner(input);
      while true
        invariant scanner.runes == input && scanner.cursor <= |input|
        invariant cursor == old(cursor)
        invariant old(tokens) + AnalyzeFrom(input, 0, Maker(conv)).tokens ==
          tokens + AnalyzeFrom(input, scanner.cursor, Maker(conv)).tokens
        invariant AnalyzeFrom(input, 0, Maker(conv)).failure == AnalyzeFrom(input, scanner.cursor, Maker(conv)).failure
        decreases |input| - scanner.cursor
      {
        ghost var before := scanner.cursor;
        var left, right := scanner.NextWord();
        if left == right {
          AnalyzeStep(input, before, Maker(conv));
          return true;
        }
        var made := CreateToken(input[left..right], conv);
        if made.Err? {
          AnalyzeStep(input, before, Maker(conv));
          return false;
        }
        AnalyzeAdvance(input, before, Maker(conv), old(tokens), tokens);
        tokens := tokens + [made.value];
      }
    }
  }

  /** One iteration of analyze: the word at `cursor` decides what is appended. */
  lemma AnalyzeStep(runes: seq<char>, cursor: nat, make: string -> Result<Token, LexError>)
    requires cursor <= |runes|
    ensures var s := ScanWord(runes, cursor); var a := AnalyzeFrom(runes, cursor, make);
      && (s.left == s.right ==> a == Analysis([], None))
      && (s.left != s.right && make(runes[s.left..s.right]).Err? ==>
            a == Analysis([], Some(make(runes[s.left..s.right]).error)))
      && (s.left != s.right && make(runes[s.left..s.right]).Ok? ==>
            a.tokens == [make(runes[s.left..s.right]).value] +
              AnalyzeFrom(runes, s.right, make).tokens &&
            a.failure == AnalyzeFrom(runes, s.right, make).failure)
  {
  }

  /** The loop invariant of analyze survives appending the token of a word that createToken accepts. */
  lemma AnalyzeAdvance(runes: seq<char>, cursor: nat, make: string -> Result<Token, LexError>, base: seq<Token>, done: seq<Token>)
    requires cursor <= |runes|
    requires var s := ScanWord(runes, cursor);
      s.left != s.right && make(runes[s.left..s.right]).Ok?
    requires base + AnalyzeFrom(runes, 0, make).tokens == done + AnalyzeFrom(runes, cursor, make).tokens
    ensures var s := ScanWord(runes, cursor);
      && base + AnalyzeFrom(runes, 0, make).tokens ==
           (done + [make(runes[s.left..s.right]).value]) + AnalyzeFrom(runes, s.right, make).tokens
      && AnalyzeFrom(runes, cursor, make).failure == AnalyzeFrom(runes, s.right, make).failure
  {
    var s := ScanWord(runes, cursor);
    var t := make(runes[s.left..s.right]).value;
    var rest := AnalyzeFrom(runes, s.right, make);
    AnalyzeStep(runes, cursor, make);
    assert done + ([t] + rest.tokens) == (done + [t]) + rest.tokens;
  }

  // ---------------------------------------------------------------------
  // Properties
  // ---------------------------------------------------------------------

  /**
   * analyze follows the scanner's word list: its tokens are made from the leading words,
   * one each and in order, and it stops at the first word the maker refuses.
   */
  lemma {:induction false} AnalyzeFollowsWords(runes: seq<char>, cursor: nat, make: string -> Result<Token, LexError>)
    requires cursor <= |runes|
    ensures var a := AnalyzeFrom(runes, cursor, make); var w := Words(runes, cursor);
      && |a.tokens| <= |w|
      && (forall i :: 0 <= i < |a.tokens| ==> make(w[i]) == Ok(a.tokens[i]))
      && (a.failure.None? <==> |a.tokens| == |w|)
      && (a.failure.Some? ==> make(w[|a.tokens|]) == Err(a.failure.value))
    decreases |runes| - cursor
  {
    var s := ScanWord(runes, cursor);
    if s.left != s.right {
      var lit := runes[s.left..s.right];
      if make(lit).Ok? {
        AnalyzeFollowsWords(runes, s.right, make);
      }
    }
  }

  /** NewLexer succeeds exactly when every word makes a token, and then holds one token per word. */
  lemma TokenizeIsAllOrNothing(input: seq<char>, conv: Strconv)
    ensures Tokenize(input, conv).Ok? <==>
      forall w :: w in Words(input, 0) ==> CreateToken(w, conv).Ok?
    ensures Tokenize(input, conv).Ok? ==>
      |Tokenize(input, conv).value| == |Words(input, 0)| &&
      forall i :: 0 <= i < |Words(input, 0)| ==>
        Ok(Tokenize(input, conv).value[i]) == CreateToken(Words(input, 0)[i], conv)
  {
    AnalyzeFollowsWords(input, 0, Maker(conv));
  }

  /** Input made only of whitespace yields an empty token list. */
  lemma BlankInputHasNoTokens(input: seq<char>, conv: Strconv)
    requires forall i :: 0 <= i < |input| ==> IsWhitespace(input[i])
    ensures Tokenize(input, conv) == Ok([])
  {
    BlankSuffix(input, 0);
    EmptyWordIffBlank(input, 0);
  }

  lemma {:induction false} BlankSuffix(input: seq<char>, i: nat)
    requires forall k :: 0 <= k < |input| ==> IsWhitespace(input[k])
    ensures BlankRest(input, i)
    decreases |input| - i
  {
    if i < |input| {
      BlankSuffix(input, i + 1);
    }
  }

  /**
   * A token made from a word keeps the word as its literal and is never ILLEGAL or QUOTE;
   * each kind of error comes from its own kind of word.
   */
  lemma CreateTokenOutcomes(lit: string, conv: Strconv)
    ensures CreateToken(lit, conv).Ok? ==>
      CreateToken(lit, conv).value.literal == lit &&
      CreateToken(lit, conv).value.tokenType !in {ILLEGAL, QUOTE}
    ensures CreateToken(lit, conv) == Err(EmptyLiteral) <==> |lit| == 0
    ensures CreateToken(lit, conv) == Err(WeirdLiteral) <==> |lit| >= 2 && lit[0] == '(' && lit[1] != ')'
    ensures CreateToken(lit, conv).Err? && CreateToken(lit, conv).error.IllegalBooleanLiteral? ==>
      |lit| >= 2 && lit[0] == '#' && lit[1] in {'t', 'f'}
    ensures CreateToken(lit, conv).Err? && CreateToken(lit, conv).error.ObjectRefused? ==>
      |lit| >= 2 && lit[0] == '"'
  {
  }

  /** parseBoolean accepts exactly #t, #true, #f and #false. */
  lemma ParseBooleanSpellings(lit: string)
    ensures ParseBoolean(lit).Ok? <==> lit in {"#t", "#true", "#f", "#false"}
    ensures ParseBoolean(lit).Ok? ==> ParseBoolean(lit).value == Boolean(lit in {"#t", "#true"})
    ensures ParseBoolean(lit).Err? ==> ParseBoolean(lit) == Err(IllegalBooleanLiteral(lit))
  {
  }

  /** parseNumber keeps the first parser that succeeds, and reports the complex parser's error. */
  lemma ParseNumberOrder(lit: string, conv: Strconv)
    ensures conv.parseInt(lit).Ok? ==>
      ParseNumber(lit, conv) == Ok(Number(IntVal(conv.parseInt(lit).value)))
    ensures conv.parseInt(lit).Err? && conv.parseFloat(lit).Ok? ==>
      ParseNumber(lit, conv) == Ok(Number(FloatVal(conv.parseFloat(lit).value)))
    ensures conv.parseInt(lit).Err? && conv.parseFloat(lit).Err? && conv.parseComplex(lit).Ok? ==>
      ParseNumber(lit, conv) == Ok(Number(ComplexVal(conv.parseComplex(lit).value)))
    ensures conv.parseInt(lit).Err? && conv.parseFloat(lit).Err? && conv.parseComplex(lit).Err? ==>
      ParseNumber(lit, conv) == Err(BadNumber(conv.parseComplex(lit).error))
  {
  }

  /** Words of one rune: parens carry the empty list, a digit is a number, anything else a symbol. */
  lemma OneRuneWords(r: char, conv: Strconv)
    ensures CreateToken([r], conv) ==
      if r == '(' then Ok(Token(LPAREN, [r], EmptyList))
      else if r == ')' then Ok(Token(RPAREN, [r], EmptyList))
      else if '0' <= r <= '9' then NumberToken([r], conv)
      else Ok(Token(SYMBOL, [r], Symbol([r])))
  {
  }

  /** A longer word opening with '(' is the empty list if it is "()", and an error otherwise. */
  lemma ParenWords(lit: string, conv: Strconv)
    requires |lit| >= 2 && lit[0] == '('
    ensures CreateToken(lit, conv).Ok? <==> lit[1] == ')'
    ensures CreateToken(lit, conv).Ok? ==> CreateToken(lit, conv).value == Token(EMPTY_LIST, lit, EmptyList)
    ensures CreateToken(lit, conv).Err? ==> CreateToken(lit, conv).error == WeirdLiteral
  {
  }

  /**
   * A word opening with '"' is a STRING holding the cooked runes between its first and
   * last rune; it fails when that text is empty or ends with a backslash.
   */
  lemma StringWords(lit: string, conv: Strconv)
    requires |lit| >= 2 && lit[0] == '"'
    ensures CreateToken(lit, conv).Ok? <==> |lit| >= 3 && lit[|lit| - 2] != '\\'
    ensures CreateToken(lit, conv).Ok? ==>
      CreateToken(lit, conv).value == Token(STRING, lit, Str(Cook(lit[1..|lit| - 1]).value))
  {
    StringFactory(GoString(lit[1..|lit| - 1]));
  }

  /** A word opening with '#': a boolean for #t.. and #f.., otherwise a SYMBOL carrying the empty list. */
  lemma HashWords(lit: string, conv: Strconv)
    requires |lit| >= 2 && lit[0] == '#'
    ensures lit[1] !in {'t', 'f'} ==> CreateToken(lit, conv) == Ok(Token(SYMBOL, lit, EmptyList))
    ensures lit[1] in {'t', 'f'} ==>
      (CreateToken(lit, conv).Ok? <==> lit in {"#t", "#true", "#f", "#false"})
    ensures CreateToken(lit, conv).Ok? && lit[1] in {'t', 'f'} ==>
      CreateToken(lit, conv).value == Token(BOOLEAN, lit, Boolean(lit in {"#t", "#true"}))
  {
    ParseBooleanSpellings(lit);
  }

  /** Whether createToken hands a longer word to parseNumber. */
  predicate LooksNumeric(lit: string)
    requires |lit| >= 2
  {
    || (lit[0] in {'+', '-'} && ('0' <= lit[1] <= '9' || lit[1] == '.'))
    || (lit[0] == '.' && '0' <= lit[1] <= '9')
    || '0' <= lit[0] <= '9'
  }

  /** Any other longer word is a number when it looks numeric, and otherwise a symbol of itself. */
  lemma NumberOrSymbolWords(lit: string, conv: Strconv)
    requires |lit| >= 2 && lit[0] !in {'(', '"', '#'}
    ensures LooksNumeric(lit) ==> CreateToken(lit, conv) == NumberToken(lit, conv)
    ensures !LooksNumeric(lit) ==> CreateToken(lit, conv) == Ok(Token(SYMBOL, lit, Symbol(lit)))
  {
  }

  /** The createToken cases of the lexer tests for parens and symbols. */
  lemma CreateTokenSymbolExamples(conv: Strconv)
    ensures CreateToken("(", conv) == Ok(Token(LPAREN, "(", EmptyList))
    ensures CreateToken(")", conv) == Ok(Token(RPAREN, ")", EmptyList))
    ensures CreateToken("+", conv) == Ok(Token(SYMBOL, "+", Symbol("+")))
    ensures CreateToken("car", conv) == Ok(Token(SYMBOL, "car", Symbol("car")))
    ensures CreateToken("++", conv) == Ok(Token(SYMBOL, "++", Symbol("++")))
    ensures CreateToken("()", conv) == Ok(Token(EMPTY_LIST, "()", EmptyList))
  {
  }

  /** The createToken cases of the lexer tests for booleans. */
  lemma CreateTokenBooleanExamples(conv: Strconv)
    ensures CreateToken("#t", conv) == Ok(Token(BOOLEAN, "#t", Boolean(true)))
    ensures CreateToken("#f", conv) == Ok(Token(BOOLEAN, "#f", Boolean(false)))
    ensures CreateToken("#true", conv) == Ok(Token(BOOLEAN, "#true", Boolean(true)))
    ensures CreateToken("#false", conv) == Ok(Token(BOOLEAN, "#false", Boolean(false)))
  {
  }

  /** The createToken case of the lexer tests for a quoted string. */
  lemma CreateTokenStringExample(conv: Strconv)
    ensures CreateToken("\"Go\"", conv) == Ok(Token(STRING, "\"Go\"", Str("Go")))
  {
    UnescapedIdentity("Go");
    assert "\"Go\""[1..3] == "Go";
  }

  /** The number cases of the lexer tests, given that ParseInt reads them. */
  lemma CreateTokenNumberExamples(conv: Strconv)
    requires conv.parseInt("1") == Ok(1)
    requires conv.parseInt("23") == Ok(23)
    requires conv.parseInt("-4567") == Ok(-4567)
    ensures CreateToken("1", conv) == Ok(Token(NUMBER, "1", Number(IntVal(1))))
    ensures CreateToken("23", conv) == Ok(Token(NUMBER, "23", Number(IntVal(23))))
    ensures CreateToken("-4567", conv) == Ok(Token(NUMBER, "-4567", Number(IntVal(-4567))))
  {
  }

  /** The spaced empty list "( )" is one word that createToken refuses, so NewLexer answers nil. */
  lemma SpacedEmptyListIsRefused(conv: Strconv)
    ensures Tokenize("( )", conv) == Err(WeirdLiteral)
  {
    SegmentsSpacedEmptyList();
    AnalyzeFollowsWords("( )", 0, Maker(conv));
    assert CreateToken("( )", conv) == Err(WeirdLiteral);
  }

  /**
   * "Go" in quotes lexes as the STRING `"Go` holding G (the runes between its first and last
   * rune) followed by the SYMBOL `"` made from the left-behind closing quote.
   */
  lemma QuotedWordLexesAsTwoTokens(conv: Strconv)
    ensures Tokenize("\"Go\"", conv) ==
      Ok([Token(STRING, "\"Go", Str("G")), Token(SYMBOL, "\"", Symbol("\""))])
  {
    var input := "\"Go\"";
    SegmentsQuotedWord();
    QuotedWordTokens(conv);
    assert input[0..3] == "\"Go" && input[3..4] == "\"";
    var first := Token(STRING, "\"Go", Str("G"));
    var second := Token(SYMBOL, "\"", Symbol("\""));
    AnalyzeStep(input, 4, Maker(conv));
    AnalyzeStep(input, 3, Maker(conv));
    assert AnalyzeFrom(input, 3, Maker(conv)) == Analysis([second], None);
    AnalyzeStep(input, 0, Maker(conv));
    assert AnalyzeFrom(input, 0, Maker(conv)) == Analysis([first] + [second], None);
    assert [first] + [second] == [first, second];
  }

  /** The two words of the quoted "Go" as createToken sees them. */
  lemma QuotedWordTokens(conv: Strconv)
    ensures CreateToken("\"Go", conv) == Ok(Token(STRING, "\"Go", Str("G")))
    ensures CreateToken("\"", conv) == Ok(Token(SYMBOL, "\"", Symbol("\"")))
  {
    UnescapedIdentity("G");
    assert "\"Go"[1..2] == "G";
  }

  /** A quoted single rune leaves an empty text between quotes, which cannot be cooked. */
  lemma OneRuneStringIsRefused(conv: Strconv)
    ensures Tokenize("\"a\"", conv) == Err(ObjectRefused(IllegalString(GoString(""))))
  {
    var input := "\"a\"";
    SegmentsOneRuneString();
    assert input[0..2] == "\"a";
    assert "\"a"[1..1] == "";
    assert CreateToken("\"a", conv) == Err(ObjectRefused(IllegalString(GoString(""))));
    AnalyzeStep(input, 0, Maker(conv));
  }
}
