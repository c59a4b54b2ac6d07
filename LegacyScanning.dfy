/**
 * The older scanner of lexer/scanner.go: a cursor over the input's runes and `nextWord`,
 * which runs the automaton of `LegacyTransition` and returns the text of the next word.
 * Unlike the word scanner, an accept does not give back the rune that caused it (so a
 * string keeps its closing quote); only the delimiter after an atom is pushed back.
 */
module LegacyScanning {
  import opened RuneClasses
  import opened LegacyTransition
  import WordScanning

  /** The rune at `pos`, or NUL (end of input) outside the input. */
  function RuneAt(runes: seq<char>, pos: int): char
  {
    WordScanning.RuneAt(runes, pos)
  }

  /**
   * The rest of one nextWord call from state `q`, with the cursor at `cursor` and the word
   * starting at `left`: the span of runes the call returns, and whether it ended by an
   * accept (s4 or s100) rather than by s99.
   */
  function Run(runes: seq<char>, cursor: nat, q: State, left: nat): (s: WordScanning.ScanResult)
    requires q.Continues()
    requires q == S0 ==> left == cursor
    requires q != S0 ==> left < cursor
    ensures left <= s.left <= s.right
    ensures cursor <= s.right
    ensures q != S0 ==> s.left == left
    ensures cursor <= |runes| ==> s.right <= |runes|
    decreases |runes| - cursor
  {
    var r := RuneAt(runes, cursor);
    var next := if r != '\0' then cursor + 1 else cursor;
    var q' := Next(q, RuneClassOf(r));
    if q' == S99 then WordScanning.ScanResult(left, next, false)
    else if q' == S100 then WordScanning.ScanResult(left, next, true)
    else if q' == S4 then WordScanning.ScanResult(left, if next >= 1 then next - 1 else 0, true)
    else if q' == S0 then Run(runes, next, S0, left + 1)
    else Run(runes, next, q', left)
  }

  /** The outcome of nextWord with the cursor at `cursor`. */
  function Scan(runes: seq<char>, cursor: nat): (s: WordScanning.ScanResult)
    ensures cursor <= s.left <= s.right
    ensures cursor <= |runes| ==> s.right <= |runes|
  {
    Run(runes, cursor, S0, cursor)
  }

  /** The words successive nextWord calls return, up to the first empty one. */
  function Words(runes: seq<char>, cursor: nat): seq<string>
    requires cursor <= |runes|
    decreases |runes| - cursor
  {
    var s := Scan(runes, cursor);
    if s.left == s.right then [] else [runes[s.left..s.right]] + Words(runes, s.right)
  }

  class Scanner {
    const runes: seq<char>
    var cursor: nat

    /** newScanner. (The Go struct also caches `length`, which is always |runes|.) */
    constructor (input: seq<char>)
      ensures runes == input && cursor == 0
    {
      runes := input;
      cursor := 0;
    }

    /** peekRune: the rune `distance` away from the cursor, NUL outside the input. */
    function PeekRune(distance: int): (r: char)
      reads this
      ensures 0 <= cursor + distance < |runes| ==> r == runes[cursor + distance]
      ensures !(0 <= cursor + distance < |runes|) ==> r == '\0'
    {
      var pos := cursor + distance;
      if pos < 0 || pos >= |runes| then '\0' else runes[pos]
    }

    /** readRune: the rune at the cursor; the cursor moves past it unless it is NUL. */
    method ReadRune() returns (r: char)
      modifies this
      ensures r == RuneAt(runes, old(cursor))
      ensures cursor == if r != '\0' then old(cursor) + 1 else old(cursor)
      ensures old(cursor) <= |runes| ==> cursor <= |runes|
    {
      r := PeekRune(0);
      if r != '\0' {
        cursor := cursor + 1;
      }
    }

    /** unread: move the cursor back by `n`, stopping at 0. */
    method Unread(n: int)
      modifies this
      ensures cursor == if old(cursor) - n < 0 then 0 else old(cursor) - n
    {
      var pos := cursor - n;
      if pos < 0 {
        pos := 0;
      }
      cursor := pos;
    }

    /**
     * nextWord: skip leading whitespace and return the next word, leaving the cursor at its
     * end. On s99 the text read so far is returned just the same.
     */
    method NextWord() returns (w: string)
      requires cursor <= |runes|
      modifies this
      ensures var s := Scan(runes, old(cursor));
        s.right <= |runes| && w == runes[s.left..s.right] && cursor == s.right
    {
      ghost var start: nat := cursor;
      var leftPos: nat := cursor;
      var q := S0;
      while true
        invariant q.Continues()
        invariant cursor <= |runes|
        invariant q == S0 ==> leftPos == cursor
        invariant q != S0 ==> leftPos < cursor
        invariant Run(runes, cursor, q, leftPos) == Scan(runes, start)
        decreases |runes| - cursor
      {
        ghost var before, q0 := cursor, q;
        var r := ReadRune();
        q := Next(q, RuneClassOf(r));
        assert Run(runes, before, q0, leftPos) == Scan(runes, start);
        match q {
          case S0 =>
            leftPos := leftPos + 1;
          case S4 =>
            Unread(1);
            break;
          case S99 =>
            w := runes[leftPos..cursor];
            return;
          case S100 =>
            break;
          case _ =>
        }
      }
      w := runes[leftPos..cursor];
    }
  }

  /** The legacy classifier agrees with the word scanner's on every rune. */
  lemma SameClassifier(r: char)
    ensures RuneClassOf(r) == WordScanning.RuneClassify(r)
  {
  }

  /** nextWord returns "" exactly when nothing but whitespace is left. */
  lemma {:induction false} EmptyWordIffBlank(runes: seq<char>, cursor: nat)
    ensures var s := Scan(runes, cursor);
      s.left == s.right <==> WordScanning.BlankRest(runes, cursor)
    decreases |runes| - cursor
  {
    var r := RuneAt(runes, cursor);
    if r != '\0' && IsWhitespace(r) {
      EmptyWordIffBlank(runes, cursor + 1);
    }
  }

  /** A non-empty word never starts with whitespace: leading whitespace is skipped. */
  lemma {:induction false} WordStartsNonBlank(runes: seq<char>, cursor: nat)
    ensures var s := Scan(runes, cursor);
      s.left < s.right ==> s.left < |runes| && runes[s.left] != '\0' && !IsWhitespace(runes[s.left])
    decreases |runes| - cursor
  {
    var r := RuneAt(runes, cursor);
    if r != '\0' && IsWhitespace(r) {
      WordStartsNonBlank(runes, cursor + 1);
    }
  }

  /** A parenthesis after optional whitespace is a word of its own. */
  lemma {:induction false} ParenIsOwnWord(runes: seq<char>, cursor: nat)
    ensures var s := Scan(runes, cursor);
      s.left < |runes| && runes[s.left] in {'(', ')'} ==> s.right == s.left + 1 && s.accepted
    decreases |runes| - cursor
  {
    var r := RuneAt(runes, cursor);
    if r != '\0' && IsWhitespace(r) {
      ParenIsOwnWord(runes, cursor + 1);
    }
  }

  /**
   * Inside a string (s1 or s2) the run accepts only right after a double quote, which it
   * keeps in the word.
   */
  lemma {:induction false} StringRunKeepsClosingQuote(runes: seq<char>, cursor: nat, q: State, left: nat)
    requires q == S1 || q == S2
    requires left < cursor
    ensures var s := Run(runes, cursor, q, left);
      s.accepted ==> cursor < s.right <= |runes| && runes[s.right - 1] == '"'
    decreases |runes| - cursor
  {
    var r := RuneAt(runes, cursor);
    var q' := Next(q, RuneClassOf(r));
    if q' == S1 || q' == S2 {
      StringRunKeepsClosingQuote(runes, cursor + 1, q', left);
    }
  }

  /** An accepted word that opens with '"' also ends with '"': a string keeps both quotes. */
  lemma {:induction false} StringWordHasBothQuotes(runes: seq<char>, cursor: nat)
    ensures var s := Scan(runes, cursor);
      s.left < s.right && runes[s.left] == '"' && s.accepted ==>
        s.left + 2 <= s.right <= |runes| && runes[s.right - 1] == '"'
    decreases |runes| - cursor
  {
    var r := RuneAt(runes, cursor);
    if r != '\0' && IsWhitespace(r) {
      StringWordHasBothQuotes(runes, cursor + 1);
    } else if r == '"' {
      StringRunKeepsClosingQuote(runes, cursor + 1, S1, cursor);
    }
  }

  /**
   * An atom (s3) runs over ANY_OTHER runes. Accepted, it is followed by the end of input
   * or by a whitespace or parenthesis that is pushed back; otherwise it ends with the
   * offending '"' or '\\'.
   */
  lemma {:induction false} AtomRunIsMaximal(runes: seq<char>, cursor: nat, left: nat)
    requires left < cursor <= |runes|
    requires forall i :: left <= i < cursor ==> RuneClassOf(runes[i]) == AnyOther
    ensures var s := Run(runes, cursor, S3, left);
      && (s.accepted ==> forall i :: left <= i < s.right ==> RuneClassOf(runes[i]) == AnyOther)
      && (s.accepted ==> RuneClassOf(RuneAt(runes, s.right)) in {Eos, WhiteSpace, LeftParen, RightParen})
      && (!s.accepted ==> runes[s.right - 1] in {'"', '\\'})
    decreases |runes| - cursor
  {
    var r := RuneAt(runes, cursor);
    if RuneClassOf(r) == AnyOther {
      AtomRunIsMaximal(runes, cursor + 1, left);
    }
  }

  /** Words that start an atom stop at the first delimiter, which starts the next word. */
  lemma {:induction false} AtomWordIsMaximal(runes: seq<char>, cursor: nat)
    requires cursor <= |runes|
    ensures var s := Scan(runes, cursor);
      s.left < s.right && RuneClassOf(runes[s.left]) == AnyOther && s.accepted ==>
        && (forall i :: s.left <= i < s.right ==> RuneClassOf(runes[i]) == AnyOther)
        && RuneClassOf(RuneAt(runes, s.right)) in {Eos, WhiteSpace, LeftParen, RightParen}
    decreases |runes| - cursor
  {
    var r := RuneAt(runes, cursor);
    if r != '\0' && IsWhitespace(r) {
      AtomWordIsMaximal(runes, cursor + 1);
    } else if RuneClassOf(r) == AnyOther {
      AtomRunIsMaximal(runes, cursor + 1, cursor);
    }
  }

  /**
   * Illegal input: the returned text runs from the word's start through the offending rune,
   * which is an escape outside a string, a '"' or '\\' after an atom, or the end of input
   * inside a string (then the word reaches the end).
   */
  lemma {:induction false} IllegalWordShape(runes: seq<char>, cursor: nat)
    requires cursor <= |runes|
    ensures var s := Scan(runes, cursor);
      !s.accepted ==>
        (s.left < s.right && runes[s.right - 1] in {'"', '\\'}) ||
        (s.left < s.right && runes[s.left] == '"' && RuneAt(runes, s.right) == '\0')
    decreases |runes| - cursor
  {
    var r := RuneAt(runes, cursor);
    if r != '\0' && IsWhitespace(r) {
      IllegalWordShape(runes, cursor + 1);
    } else if RuneClassOf(r) == AnyOther {
      assert Scan(runes, cursor) == Run(runes, cursor + 1, S3, cursor);
      AtomRunIsMaximal(runes, cursor + 1, cursor);
    } else if r == '"' {
      assert Scan(runes, cursor) == Run(runes, cursor + 1, S1, cursor);
      UnterminatedString(runes, cursor + 1, S1, cursor);
    }
  }

  /** A string run that ends illegally has reached the end of input. */
  lemma {:induction false} UnterminatedString(runes: seq<char>, cursor: nat, q: State, left: nat)
    requires q == S1 || q == S2
    requires left < cursor
    ensures var s := Run(runes, cursor, q, left);
      !s.accepted ==> RuneAt(runes, s.right) == '\0'
    decreases |runes| - cursor
  {
    var r := RuneAt(runes, cursor);
    var q' := Next(q, RuneClassOf(r));
    if q' == S1 || q' == S2 {
      UnterminatedString(runes, cursor + 1, q', left);
    }
  }

  /** "()" scans as "(" then ")": the legacy automaton has no empty-list word. */
  lemma EmptyListIsTwoWords()
    ensures Words("()", 0) == ["(", ")"]
  {
    var w := "()";
    assert w[0] == '(' && w[1] == ')';
    assert Scan(w, 2) == WordScanning.ScanResult(2, 2, true);
    assert Words(w, 2) == [];
    assert Scan(w, 1) == WordScanning.ScanResult(1, 2, true);
    assert Words(w, 1) == [w[1..2]] + [];
    assert Scan(w, 0) == WordScanning.ScanResult(0, 1, true);
    assert Words(w, 0) == [w[0..1]] + [w[1..2]];
    assert w[0..1] == "(" && w[1..2] == ")";
  }

  /** A quoted string is one word, quotes included. */
  lemma QuotedWordIsOneWord()
    ensures Words("\"Go\"", 0) == ["\"Go\""]
  {
    var w := "\"Go\"";
    assert w[0] == '"' && w[1] == 'G' && w[2] == 'o' && w[3] == '"';
    assert Scan(w, 4) == WordScanning.ScanResult(4, 4, true);
    assert Words(w, 4) == [];
    assert Run(w, 3, S1, 0) == WordScanning.ScanResult(0, 4, true);
    assert Run(w, 2, S1, 0) == WordScanning.ScanResult(0, 4, true);
    assert Run(w, 1, S1, 0) == WordScanning.ScanResult(0, 4, true);
    assert Scan(w, 0) == WordScanning.ScanResult(0, 4, true);
    assert w[0..4] == w;
  }
}
