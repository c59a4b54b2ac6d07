/**
 * The transition table of the word scanner (lexer/internal/wscanner/transition.go):
 * seven live states, two terminal outcomes, and a constant map from (state, rune class)
 * to the next state.
 */
module WordTransition {
  import opened RuneClasses

  datatype State =
    | Start     // nothing but whitespace read so far
    | S1        // read '(' at start
    | S2        // read ')' at start
    | S3        // inside a string
    | S4        // inside a symbol or other atom
    | S5        // read an escape character inside a string
    | S6        // read the empty list "()"
    | Illegal   // terminal: a rune that cannot continue the word
    | Accept    // terminal: the word is complete
  {
    predicate IsLive() { !Illegal? && !Accept? }
  }

  /** The integer value of each Go `State` constant. */
  function Code(q: State): int
  {
    match q
    case Start => 0
    case S1 => 1
    case S2 => 2
    case S3 => 3
    case S4 => 4
    case S5 => 5
    case S6 => 6
    case Illegal => 99
    case Accept => 100
  }

  /** The nine state constants are pairwise distinct. */
  lemma CodesDistinct(p: State, q: State)
    ensures Code(p) == Code(q) <==> p == q
  {
  }

  /** The key type of the Go map. */
  datatype Edge = Edge(state: State, input: RuneClass)

  /**
   * Lookup in the Go map `transition`. The map lists the 49 edges from a live state on a
   * word-scan class; any other key is absent, and a Go map lookup of an absent key yields
   * the zero `State`, which is `Start`.
   */
  function Transition(e: Edge): (q: State)
    ensures !e.state.IsLive() || !IsWordScanClass(e.input) ==> q == Start
    ensures e.state.IsLive() && IsWordScanClass(e.input) ==>
      (q == Start <==> e.state == Start && e.input == WhiteSpace)
  {
    match e.state
    case Start =>
      (match e.input
       case Eos => Accept
       case WhiteSpace => Start
       case LeftParen => S1
       case RightParen => S2
       case DoubleQuot => S3
       case EscapeChar => Illegal
       case AnyOther => S4
       case _ => Start)
    case S1 =>
      (match e.input
       case Eos => Accept
       case WhiteSpace => S1
       case LeftParen => Accept
       case RightParen => S6
       case DoubleQuot => Accept
       case EscapeChar => Illegal
       case AnyOther => Accept
       case _ => Start)
    case S2 =>
      (match e.input
       case EscapeChar => Illegal
       case Sign | DigitZero | DigitNonzero | Point => Start
       case _ => Accept)
    case S3 =>
      (match e.input
       case Eos => Illegal
       case DoubleQuot => Accept
       case EscapeChar => S5
       case WhiteSpace | LeftParen | RightParen | AnyOther => S3
       case _ => Start)
    case S4 =>
      (match e.input
       case EscapeChar => Illegal
       case AnyOther => S4
       case Sign | DigitZero | DigitNonzero | Point => Start
       case _ => Accept)
    case S5 =>
      (match e.input
       case Eos => Illegal
       case Sign | DigitZero | DigitNonzero | Point => Start
       case _ => S3)
    case S6 =>
      (match e.input
       case EscapeChar => Illegal
       case Sign | DigitZero | DigitNonzero | Point => Start
       case _ => Accept)
    case Illegal => Start
    case Accept => Start
  }

  /** `Transition` applied to a state and a class. */
  function Next(q: State, c: RuneClass): State
  {
    Transition(Edge(q, c))
  }

  /**
   * The table is total where the scanner uses it: from a live state on a word-scan class,
   * the only edge that leads back to `Start` (the zero value an absent key would also give)
   * is Start on WHITE_SPACE, so every such lookup hits an entry of the map.
   */
  lemma StartOnlyOnLeadingWhitespace(q: State, c: RuneClass)
    requires q.IsLive() && IsWordScanClass(c)
    ensures Next(q, c) == Start <==> q == Start && c == WhiteSpace
  {
  }

  /**
   * A string is entered only from Start on '"'; Illegal is reached only on a backslash
   * outside a string or at the end of input inside one.
   */
  lemma StringAndIllegalEdges(q: State, c: RuneClass)
    requires q.IsLive() && IsWordScanClass(c)
    ensures Next(q, c) in {S3, S5} ==> q in {S3, S5} || (q == Start && c == DoubleQuot)
    ensures Next(q, c) == Illegal <==>
      (c == EscapeChar && q !in {S3, S5}) || (c == Eos && q in {S3, S5})
  {
  }

  /** At end of input every live state stops: inside a string it is illegal, elsewhere accepted. */
  lemma EndOfInputStops(q: State)
    requires q.IsLive()
    ensures Next(q, Eos) == (if q == S3 || q == S5 then Illegal else Accept)
  {
  }

  /** A backslash is illegal except inside a string, where it toggles between S3 and S5. */
  lemma EscapeOnlyInStrings(q: State)
    requires q.IsLive()
    ensures Next(q, EscapeChar) == (if q == S3 then S5 else if q == S5 then S3 else Illegal)
  {
  }

  /**
   * After '(' whitespace is swallowed and ')' completes the empty list; after ')' and after
   * "()" every class except the escape character completes the word.
   */
  lemma ParenStates(c: RuneClass)
    requires IsWordScanClass(c)
    ensures Next(S1, WhiteSpace) == S1 && Next(S1, RightParen) == S6
    ensures c != EscapeChar ==> Next(S2, c) == Accept && Next(S6, c) == Accept
  {
  }

  /** In a string only the double quote accepts; after an escape every non-EOS class re-enters it. */
  lemma StringStates(c: RuneClass)
    requires IsWordScanClass(c)
    ensures Next(S3, c) == Accept <==> c == DoubleQuot
    ensures c != Eos ==> Next(S5, c) == S3
  {
  }

  /** An atom continues only on ANY_OTHER; whitespace, parens, a quote and EOS end it. */
  lemma AtomStates(c: RuneClass)
    requires IsWordScanClass(c)
    ensures Next(S4, c) == S4 <==> c == AnyOther
    ensures c in {Eos, WhiteSpace, LeftParen, RightParen, DoubleQuot} ==> Next(S4, c) == Accept
  {
  }
}
