/**
 * The older, self-contained word automaton of lexer/transition.go: its own rune
 * classifier and digit test, five live states s0..s4, the outcomes s99 (illegal) and
 * s100 (accept), and a constant map from (state, rune class) to the next state. It has
 * no state for the empty list. The lexer does not use it.
 */
module LegacyTransition {
  import opened RuneClasses

  /**
   * runeClass: the class of one rune. The seven legacy class constants spell the same
   * strings as the seven word-scan classes of `RuneClasses`, so the same datatype serves.
   */
  function RuneClassOf(r: char): (c: RuneClass)
    ensures IsWordScanClass(c)
    ensures c == Eos <==> r == '\0'
    ensures c == LeftParen <==> r == '('
    ensures c == RightParen <==> r == ')'
    ensures c == DoubleQuot <==> r == '"'
    ensures c == EscapeChar <==> r == '\\'
    ensures c == WhiteSpace <==> IsWhitespace(r)
    ensures c == AnyOther <==> r !in {'\0', '(', ')', '"', '\\'} && !IsWhitespace(r)
  {
    match r
    case '\0' => Eos
    case '(' => LeftParen
    case ')' => RightParen
    case '"' => DoubleQuot
    case '\\' => EscapeChar
    case _ => if IsWhitespace(r) then WhiteSpace else AnyOther
  }

  /** IsDigit (the package's own copy): linear search of its `digits` array. */
  method IsDigit(r: char) returns (found: bool)
    ensures found <==> IsDecimalDigit(r)
  {
    found := false;
    var i := 0;
    while i < |Digits|
      invariant 0 <= i <= |Digits|
      invariant !found
      invariant forall j :: 0 <= j < i ==> Digits[j] != r
    {
      if r == Digits[i] {
        found := true;
        break;
      }
      i := i + 1;
    }
    DigitsAreInOrder();
    assert IsDecimalDigit(r) ==> Digits[r as int - '0' as int] == r;
  }

  datatype State =
    | S0     // start
    | S1     // inside a string
    | S2     // read an escape character inside a string
    | S3     // inside an atom
    | S4     // read a delimiter after an atom
    | S99    // illegal: a rune that cannot continue the word
    | S100   // accept
  {
    /** The states in which nextWord reads another rune. */
    predicate Continues() { S0? || S1? || S2? || S3? }
  }

  /** The integer value of each Go `state` constant. */
  function Code(q: State): int
  {
    match q
    case S0 => 0
    case S1 => 1
    case S2 => 2
    case S3 => 3
    case S4 => 4
    case S99 => 99
    case S100 => 100
  }

  /** The seven state constants are pairwise distinct. */
  lemma CodesDistinct(p: State, q: State)
    ensures Code(p) == Code(q) <==> p == q
  {
  }

  /** The key type of the Go map. */
  datatype Edge = Edge(state: State, input: RuneClass)

  /**
   * Lookup in the Go map `transition`. The map lists the 35 edges from s0..s4 on the
   * seven classes; any other key is absent and yields the zero `state`, s0.
   */
  function Transition(e: Edge): (q: State)
    ensures !(e.state.Continues() || e.state == S4) || !IsWordScanClass(e.input) ==> q == S0
    ensures (e.state.Continues() || e.state == S4) && IsWordScanClass(e.input) ==>
      (q == S0 <==> e.state == S0 && e.input == WhiteSpace)
  {
    match e.state
    case S0 =>
      (match e.input
       case Eos => S100
       case WhiteSpace => S0
       case LeftParen => S100
       case RightParen => S100
       case DoubleQuot => S1
       case EscapeChar => S99
       case AnyOther => S3
       case _ => S0)
    case S1 =>
      (match e.input
       case Eos => S99
       case DoubleQuot => S100
       case EscapeChar => S2
       case WhiteSpace | LeftParen | RightParen | AnyOther => S1
       case _ => S0)
    case S2 =>
      (match e.input
       case Eos => S99
       case WhiteSpace | LeftParen | RightParen | DoubleQuot | EscapeChar | AnyOther => S1
       case _ => S0)
    case S3 =>
      (match e.input
       case Eos => S100
       case WhiteSpace | LeftParen | RightParen => S4
       case DoubleQuot | EscapeChar => S99
       case AnyOther => S3
       case _ => S0)
    case S4 =>
      (match e.input
       case Eos | LeftParen | RightParen => S100
       case WhiteSpace | DoubleQuot | EscapeChar | AnyOther => S99
       case _ => S0)
    case S99 => S0
    case S100 => S0
  }

  function Next(q: State, c: RuneClass): State
  {
    Transition(Edge(q, c))
  }

  /**
   * The table is total over s0..s4 and the seven classes: a missing key would read as s0,
   * and s0 is only ever listed as the target of s0 on whitespace.
   */
  lemma TableIsTotal(q: State, c: RuneClass)
    requires q in {S0, S1, S2, S3, S4} && IsWordScanClass(c)
    ensures Next(q, c) == S0 <==> q == S0 && c == WhiteSpace
  {
  }

  /** From s0 a parenthesis is a whole word: there is no empty-list state. */
  lemma ParensAcceptAtOnce()
    ensures Next(S0, LeftParen) == S100 && Next(S0, RightParen) == S100
    ensures Next(S0, DoubleQuot) == S1 && Next(S0, AnyOther) == S3
    ensures Next(S0, EscapeChar) == S99 && Next(S0, Eos) == S100
  {
  }

  /**
   * Inside a string only the double quote accepts and the end of input is illegal; an
   * escape leads to s2, which returns to s1 on every class but EOS.
   */
  lemma StringStates(c: RuneClass)
    requires IsWordScanClass(c)
    ensures Next(S1, c) == S100 <==> c == DoubleQuot
    ensures Next(S1, c) == S99 <==> c == Eos
    ensures Next(S1, c) == S2 <==> c == EscapeChar
    ensures Next(S2, c) == (if c == Eos then S99 else S1)
  {
  }

  /**
   * Inside an atom whitespace and parentheses lead to s4, '"' and '\\' are illegal, EOS
   * accepts and any other rune continues the atom.
   */
  lemma AtomStates(c: RuneClass)
    requires IsWordScanClass(c)
    ensures Next(S3, c) == S4 <==> c in {WhiteSpace, LeftParen, RightParen}
    ensures Next(S3, c) == S99 <==> c in {DoubleQuot, EscapeChar}
    ensures Next(S3, c) == S100 <==> c == Eos
    ensures Next(S3, c) == S3 <==> c == AnyOther
  {
  }

  /** EOS never lets the automaton continue: from s0..s3 it accepts or is illegal. */
  lemma EndOfInputStops(q: State)
    requires q.Continues()
    ensures Next(q, Eos) in {S99, S100}
  {
  }
}
