/**
 * The word scanner of lexer/internal/wscanner/wordscanner.go: a cursor over the input's
 * runes, and `NextWord`, which runs the automaton of `WordTransition` from the cursor and
 * returns the half-open span [left, right) of the next word.
 */
module WordScanning {
  import opened Wrappers
  import opened RuneClasses
  import opened WordTransition

  /** runeClassify: the rune-class of one rune, as the word scanner sees it. */
  function RuneClassify(r: char): (c: RuneClass)
    ensures IsWordScanClass(c)
    ensures c == Eos <==> r == '\0'
    ensures c == LeftParen <==> r == '('
    ensures c == RightParen <==> r == ')'
    ensures c == DoubleQuot <==> r == '"'
    ensures c == EscapeChar <==> r == '\\'
    ensures c == WhiteSpace <==> IsWhitespace(r)
    ensures c == AnyOther <==> r !in {'\0', '(', ')', '"', '\\'} && !IsWhitespace(r)
  {
    match r
    case '\0' => Eos
    case '(' => LeftParen
    case ')' => RightParen
    case '"' => DoubleQuot
    case '\\' => EscapeChar
    case _ => if IsWhitespace(r) then WhiteSpace else AnyOther
  }

  /** The rune at `pos`, or NUL (end of input) outside the input. */
  function RuneAt(runes: seq<char>, pos: int): char
  {
    if 0 <= pos < |runes| then runes[pos] else '\0'
  }

  /** What one call of NextWord computes: the span, and whether the automaton accepted. */
  datatype ScanResult = ScanResult(left: nat, right: nat, accepted: bool)

  /**
   * The rest of one NextWord call, from automaton state `q` with the cursor at `cursor`
   * and the word's left end at `left`. Reading NUL (or past the end) leaves the cursor
   * where it is; an Accept caused by a real rune gives that rune back.
   */
  function ScanRun(runes: seq<char>, cursor: nat, q: State, left: nat): (s: ScanResult)
    requires q.IsLive()
    requires q == Start ==> left == cursor
    requires q != Start ==> left < cursor
    ensures left <= s.left <= s.right
    ensures cursor <= s.right
    ensures q != Start ==> s.left == left
    ensures cursor <= |runes| ==> s.right <= |runes|
    decreases |runes| - cursor
  {
    var r := RuneAt(runes, cursor);
    var c := RuneClassify(r);
    var next := if r != '\0' then cursor + 1 else cursor;
    var q' := Next(q, c);
    if q' == Illegal then ScanResult(left, next, false)
    else if q' == Accept then
      var back := if c != Eos then next - 1 else next;
      ScanResult(left, back, true)
    else if q' == Start then ScanRun(runes, next, Start, left + 1)
    else ScanRun(runes, next, q', left)
  }

  /** The outcome of NextWord with the cursor at `cursor`. */
  function ScanWord(runes: seq<char>, cursor: nat): (s: ScanResult)
    ensures cursor <= s.left <= s.right
    ensures cursor <= |runes| ==> s.right <= |runes|
  {
    ScanRun(runes, cursor, Start, cursor)
  }

  /** The words NextWord yields from `cursor` up to the first empty span (readAllWords). */
  function Words(runes: seq<char>, cursor: nat): seq<string>
    requires cursor <= |runes|
    decreases |runes| - cursor
  {
    var s := ScanWord(runes, cursor);
    if s.left == s.right then [] else [runes[s.left..s.right]] + Words(runes, s.right)
  }

  class WordScanner {
    const runes: seq<char>
    var cursor: nat

    /** NewWordScanner. (The Go struct also caches `length`, which is always |runes|.) */
    constructor (input: seq<char>)
      ensures runes == input && cursor == 0
    {
      runes := input;
      cursor := 0;
    }

    /** The position to be read by the next ReadRune. */
    function Cursor(): nat
      reads this
    {
      cursor
    }

    /** PeekRune: the rune `distance` away from the cursor, NUL outside the input. */
    function PeekRune(distance: int): (r: char)
      reads this
      ensures 0 <= cursor + distance < |runes| ==> r == runes[cursor + distance]
      ensures !(0 <= cursor + distance < |runes|) ==> r == '\0'
    {
      var pos := cursor + distance;
      if pos < 0 || pos >= |runes| then '\0' else runes[pos]
    }

    /** ReadRune: the rune at the cursor; the cursor moves past it unless it is NUL. */
    method ReadRune() returns (r: char)
      modifies this
      ensures r == RuneAt(runes, old(cursor))
      ensures cursor == if r != '\0' then old(cursor) + 1 else old(cursor)
      ensures old(cursor) <= |runes| ==> cursor <= |runes|
    {
      r := PeekRune(0);
      if r != '\0' {
        cursor := cursor + 1;
      }
    }

    /** Unread: move the cursor back by `n`, stopping at 0. */
    method Unread(n: int)
      modifies this
      ensures cursor == if old(cursor) - n < 0 then 0 else old(cursor) - n
    {
      var pos := cursor - n;
      if pos < 0 {
        pos := 0;
      }
      cursor := pos;
    }

    /**
     * NextWord: skip leading whitespace and return the span of the next word, leaving the
     * cursor at its right end. An Illegal outcome returns the same shape of result.
     */
    method NextWord() returns (left: nat, right: nat)
      modifies this
      ensures ScanWord(runes, old(cursor)) == ScanResult(left, right, ScanWord(runes, old(cursor)).accepted)
      ensures old(cursor) <= left <= right == cursor
      ensures old(cursor) <= |runes| ==> right <= |runes|
    {
      ghost var start := cursor;
      left := cursor;
      right := cursor;
      var q := Start;
      while true
        invariant q.IsLive()
        invariant q == Start ==> left == cursor
        invariant q != Start ==> left < cursor
        invariant ScanRun(runes, cursor, q, left) == ScanWord(runes, start)
        decreases |runes| - cursor
      {
        ghost var before, q0 := cursor, q;
        var r := ReadRune();
        var c := RuneClassify(r);
        q := Next(q, c);
        assert ScanRun(runes, before, q0, left) == ScanWord(runes, start);
        match q {
          case Start =>
            left := left + 1;
          case Illegal =>
            right := cursor;
            return;
          case Accept =>
            if c != Eos {
              Unread(1);
            }
            right := cursor;
            break;
          case _ =>
        }
      }
    }

    /** SubRunes: the runes of [left, right), or nil when the span leaves the input. */
    function SubRunes(left: int, right: int): (w: Option<seq<char>>)
      reads this
      requires left < 0 || right > |runes| || left <= right
      ensures w.None? <==> left < 0 || right > |runes|
      ensures w.Some? ==> |w.value| == right - left
      ensures w.Some? ==> forall i :: 0 <= i < |w.value| ==> w.value[i] == runes[left + i]
    {
      if left < 0 || right > |runes| then None else Some(runes[left..right])
    }
  }

  /** Only whitespace lies between `i` and the end of input (the end or the first NUL). */
  predicate BlankRest(runes: seq<char>, i: nat)
    decreases |runes| - i
  {
    i >= |runes| || runes[i] == '\0' || (IsWhitespace(runes[i]) && BlankRest(runes, i + 1))
  }

  /** NextWord returns an empty span exactly when nothing but whitespace is left. */
  lemma {:induction false} EmptyWordIffBlank(runes: seq<char>, cursor: nat)
    ensures var s := ScanWord(runes, cursor); s.left == s.right <==> BlankRest(runes, cursor)
    decreases |runes| - cursor
  {
    var r := RuneAt(runes, cursor);
    if r != '\0' && IsWhitespace(r) {
      EmptyWordIffBlank(runes, cursor + 1);
    }
  }

  /** A non-empty word never starts with whitespace or NUL: leading whitespace is skipped. */
  lemma {:induction false} WordStartsNonBlank(runes: seq<char>, cursor: nat)
    ensures var s := ScanWord(runes, cursor);
      s.left < s.right ==> s.left < |runes| && runes[s.left] != '\0' && !IsWhitespace(runes[s.left])
    decreases |runes| - cursor
  {
    var r := RuneAt(runes, cursor);
    if r != '\0' && IsWhitespace(r) {
      WordStartsNonBlank(runes, cursor + 1);
    }
  }

  /** Inside a string (S3 or S5) the run can only accept on a double quote, which it gives back. */
  lemma {:induction false} StringRunAcceptsOnQuote(runes: seq<char>, cursor: nat, q: State, left: nat)
    requires q == S3 || q == S5
    requires left < cursor
    ensures var s := ScanRun(runes, cursor, q, left);
      s.accepted ==> s.right < |runes| && runes[s.right] == '"'
    decreases |runes| - cursor
  {
    var r := RuneAt(runes, cursor);
    var q' := Next(q, RuneClassify(r));
    if q' == S3 || q' == S5 {
      StringRunAcceptsOnQuote(runes, cursor + 1, q', left);
    }
  }

  /**
   * The closing quote is left behind: an accepted word that starts with '"' ends just before
   * a '"', which therefore starts the next word.
   */
  lemma {:induction false} StringWordLeavesClosingQuote(runes: seq<char>, cursor: nat)
    ensures var s := ScanWord(runes, cursor);
      s.left < s.right && runes[s.left] == '"' && s.accepted ==>
        s.right < |runes| && runes[s.right] == '"'
    decreases |runes| - cursor
  {
    var r := RuneAt(runes, cursor);
    if r != '\0' && IsWhitespace(r) {
      StringWordLeavesClosingQuote(runes, cursor + 1);
    } else if r == '"' {
      StringRunAcceptsOnQuote(runes, cursor + 1, S3, cursor);
    }
  }

  /** An atom (S4) runs over ANY_OTHER runes and stops at the first rune of another class. */
  lemma {:induction false} AtomRunIsMaximal(runes: seq<char>, cursor: nat, left: nat)
    requires left < cursor <= |runes|
    requires forall i :: left <= i < cursor ==> RuneClassify(runes[i]) == AnyOther
    ensures var s := ScanRun(runes, cursor, S4, left);
      && (s.accepted ==> forall i :: left <= i < s.right ==> RuneClassify(runes[i]) == AnyOther)
      && (s.accepted ==> RuneClassify(RuneAt(runes, s.right)) !in {EscapeChar, AnyOther})
      && (!s.accepted ==> runes[s.right - 1] == '\\')
    decreases |runes| - cursor
  {
    var r := RuneAt(runes, cursor);
    if RuneClassify(r) == AnyOther {
      AtomRunIsMaximal(runes, cursor + 1, left);
    }
  }

  /**
   * A word that starts with an ANY_OTHER rune is a maximal run of such runes. It is
   * accepted, with its delimiter (whitespace, a paren, a quote or the end) left for the
   * next call, unless a backslash follows; then the span ends with that backslash.
   */
  lemma {:induction false} AtomWordIsMaximal(runes: seq<char>, cursor: nat)
    requires cursor <= |runes|
    ensures var s := ScanWord(runes, cursor);
      s.left < s.right && RuneClassify(runes[s.left]) == AnyOther ==>
        && (s.accepted ==> forall i :: s.left <= i < s.right ==> RuneClassify(runes[i]) == AnyOther)
        && (s.accepted ==> RuneClassify(RuneAt(runes, s.right)) in {Eos, WhiteSpace, LeftParen, RightParen, DoubleQuot})
        && (!s.accepted ==> runes[s.right - 1] == '\\')
    decreases |runes| - cursor
  {
    var r := RuneAt(runes, cursor);
    if r != '\0' && IsWhitespace(r) {
      AtomWordIsMaximal(runes, cursor + 1);
    } else if RuneClassify(r) == AnyOther {
      AtomRunIsMaximal(runes, cursor + 1, cursor);
    }
  }

  /** Inside a string (s3, s5) a run is Illegal only when it reaches the end of input. */
  lemma {:induction false} IllegalInString(runes: seq<char>, cursor: nat, q: State, left: nat)
    requires q == S3 || q == S5
    requires left < cursor
    ensures var s := ScanRun(runes, cursor, q, left);
      !s.accepted ==> RuneAt(runes, s.right) == '\0'
    decreases |runes| - cursor
  {
    var q' := Next(q, RuneClassify(RuneAt(runes, cursor)));
    if q' == S3 || q' == S5 {
      IllegalInString(runes, cursor + 1, q', left);
    }
  }

  /** Outside a string, after the first rune of a word, a run is Illegal only on a backslash. */
  lemma {:induction false} IllegalOutsideString(runes: seq<char>, cursor: nat, q: State, left: nat)
    requires q in {S1, S2, S4, S6}
    requires left < cursor
    ensures var s := ScanRun(runes, cursor, q, left);
      !s.accepted ==> 0 < s.right <= |runes| && runes[s.right - 1] == '\\'
    decreases |runes| - cursor
  {
    var q' := Next(q, RuneClassify(RuneAt(runes, cursor)));
    if q' in {S1, S4} {
      IllegalOutsideString(runes, cursor + 1, q', left);
    }
  }

  /**
   * From any live state, an Illegal outcome is a backslash just read, or the end of input
   * reached inside a string: one the run was already in (s3, s5) or one the word opens.
   */
  lemma {:induction false} IllegalRunShape(runes: seq<char>, cursor: nat, q: State, left: nat)
    requires q.IsLive()
    requires q == Start ==> left == cursor
    requires q != Start ==> left < cursor
    ensures var s := ScanRun(runes, cursor, q, left);
      !s.accepted ==>
        s.left < s.right &&
        ((0 < s.right <= |runes| && runes[s.right - 1] == '\\') ||
         (RuneAt(runes, s.right) == '\0' &&
          (q == S3 || q == S5 || (q == Start && s.left < |runes| && runes[s.left] == '"'))))
    decreases |runes| - cursor
  {
    if q == S3 || q == S5 {
      IllegalInString(runes, cursor, q, left);
    } else if q != Start {
      IllegalOutsideString(runes, cursor, q, left);
    } else {
      IllegalFromStart(runes, cursor);
    }
  }

  /** From Start, after skipping whitespace, an Illegal word ends at a backslash or is an open string. */
  lemma {:induction false} IllegalFromStart(runes: seq<char>, cursor: nat)
    ensures var s := ScanRun(runes, cursor, Start, cursor);
      !s.accepted ==>
        s.left < s.right &&
        ((0 < s.right <= |runes| && runes[s.right - 1] == '\\') ||
         (RuneAt(runes, s.right) == '\0' && s.left < |runes| && runes[s.left] == '"'))
    decreases |runes| - cursor
  {
    var r := RuneAt(runes, cursor);
    var q' := Next(Start, RuneClassify(r));
    if q' == Start {
      IllegalFromStart(runes, cursor + 1);
    } else if q' == S3 {
      IllegalInString(runes, cursor + 1, S3, cursor);
    } else if q'.IsLive() {
      IllegalOutsideString(runes, cursor + 1, q', cursor);
    }
  }

  /**
   * An Illegal span is returned like an accepted one: it ends with the offending backslash,
   * which is consumed, or it is an unterminated string cut off by the end of input.
   */
  lemma IllegalWordShape(runes: seq<char>, cursor: nat)
    ensures var s := ScanWord(runes, cursor);
      !s.accepted ==>
        s.left < s.right &&
        ((s.right <= |runes| && runes[s.right - 1] == '\\') ||
         (RuneAt(runes, s.right) == '\0' && s.left < |runes| && runes[s.left] == '"'))
  {
    IllegalFromStart(runes, cursor);
  }

  /** Holds of exactly the string "(+ 1 2)", stated position by position. */
  predicate SpellsSimpleList(w: string)
  {
    |w| == 7 && w[0] == '(' && w[1] == '+' && w[2] == ' ' && w[3] == '1' && w[4] == ' ' && w[5] == '2' && w[6] == ')'
  }

  /** The segmentations asserted by the scanner's own tests: "(+ 1 2)" gives five words. */
  lemma SegmentsSimpleList(w: string)
    requires SpellsSimpleList(w)
    ensures Words(w, 0) == ["(", "+", "1", "2", ")"]
  {
    SegmentsSimpleListFrom2(w);
    assert ScanRun(w, 1, S1, 0) == ScanResult(0, 1, true);
    assert ScanWord(w, 0) == ScanResult(0, 1, true);
    assert w[0..1] == "(";
    assert Words(w, 0) == ["("] + Words(w, 1);
    assert ScanRun(w, 2, S4, 1) == ScanResult(1, 2, true);
    assert ScanWord(w, 1) == ScanResult(1, 2, true);
    assert w[1..2] == "+";
    assert Words(w, 1) == ["+"] + Words(w, 2);
  }

  /** Part of SegmentsSimpleList: the words from position 2 on. */
  lemma SegmentsSimpleListFrom2(w: string)
    requires SpellsSimpleList(w)
    ensures Words(w, 2) == ["1", "2", ")"]
  {
    assert ScanRun(w, 4, S4, 3) == ScanResult(3, 4, true);
    assert ScanWord(w, 3) == ScanResult(3, 4, true);
    assert ScanWord(w, 2) == ScanResult(3, 4, true);
    assert w[3..4] == "1";
    assert Words(w, 2) == ["1"] + Words(w, 4);
    assert ScanRun(w, 6, S4, 5) == ScanResult(5, 6, true);
    assert ScanWord(w, 5) == ScanResult(5, 6, true);
    assert ScanWord(w, 4) == ScanResult(5, 6, true);
    assert w[5..6] == "2";
    assert Words(w, 4) == ["2"] + Words(w, 6);
    assert ScanRun(w, 7, S2, 6) == ScanResult(6, 7, true);
    assert ScanWord(w, 6) == ScanResult(6, 7, true);
    assert w[6..7] == ")";
    assert Words(w, 6) == [")"] + Words(w, 7);
    assert ScanWord(w, 7) == ScanResult(7, 7, true);
    assert Words(w, 7) == [];
  }

  lemma SegmentsEmptyList()
    ensures Words("()", 0) == ["()"]
  {
    var w := "()";
    assert ScanWord(w, 2) == ScanResult(2, 2, true);
    assert ScanRun(w, 2, S6, 0) == ScanResult(0, 2, true);
    assert ScanRun(w, 1, S1, 0) == ScanResult(0, 2, true);
    assert ScanWord(w, 0) == ScanResult(0, 2, true);
    assert w[0..2] == w;
  }

  lemma SegmentsSpacedEmptyList()
    ensures Words("( )", 0) == ["( )"]
  {
    var w := "( )";
    assert ScanWord(w, 3) == ScanResult(3, 3, true);
    assert ScanRun(w, 3, S6, 0) == ScanResult(0, 3, true);
    assert ScanRun(w, 2, S1, 0) == ScanResult(0, 3, true);
    assert ScanRun(w, 1, S1, 0) == ScanResult(0, 3, true);
    assert ScanWord(w, 0) == ScanResult(0, 3, true);
    assert w[0..3] == w;
  }

  /**
   * The closing quote of "Go" is left behind and then scanned alone, as an unterminated
   * string: the second span is an Illegal one.
   */
  lemma SegmentsQuotedWord()
    ensures Words("\"Go\"", 0) == ["\"Go", "\""]
    ensures ScanWord("\"Go\"", 0) == ScanResult(0, 3, true)
    ensures ScanWord("\"Go\"", 3) == ScanResult(3, 4, false)
    ensures ScanWord("\"Go\"", 4) == ScanResult(4, 4, true)
  {
    var w := "\"Go\"";
    assert ScanWord(w, 4) == ScanResult(4, 4, true);
    assert ScanRun(w, 4, S3, 3) == ScanResult(3, 4, false);
    assert ScanWord(w, 3) == ScanResult(3, 4, false);
    assert w[3..4] == "\"";
    assert Words(w, 3) == ["\""];
    assert ScanRun(w, 3, S3, 0) == ScanResult(0, 3, true);
    assert ScanRun(w, 2, S3, 0) == ScanResult(0, 3, true);
    assert ScanRun(w, 1, S3, 0) == ScanResult(0, 3, true);
    assert ScanWord(w, 0) == ScanResult(0, 3, true);
    assert w[0..3] == "\"Go";
  }

  /** A one-rune string scans as its opening quote and rune, then the closing quote. */
  lemma SegmentsOneRuneString()
    ensures Words("\"a\"", 0) == ["\"a", "\""]
    ensures ScanWord("\"a\"", 0) == ScanResult(0, 2, true)
  {
    var w := "\"a\"";
    assert ScanWord(w, 3) == ScanResult(3, 3, true);
    assert ScanRun(w, 3, S3, 2) == ScanResult(2, 3, false);
    assert ScanWord(w, 2) == ScanResult(2, 3, false);
    assert w[2..3] == "\"";
    assert Words(w, 2) == ["\""];
    assert ScanRun(w, 2, S3, 0) == ScanResult(0, 2, true);
    assert ScanRun(w, 1, S3, 0) == ScanResult(0, 2, true);
    assert ScanWord(w, 0) == ScanResult(0, 2, true);
    assert w[0..2] == "\"a";
  }

  lemma SegmentsBoolean()
    ensures Words("#false", 0) == ["#false"]
  {
    var w := "#false";
    assert ScanWord(w, 6) == ScanResult(6, 6, true);
    assert ScanRun(w, 6, S4, 0) == ScanResult(0, 6, true);
    assert ScanRun(w, 5, S4, 0) == ScanResult(0, 6, true);
    assert ScanRun(w, 4, S4, 0) == ScanResult(0, 6, true);
    assert ScanRun(w, 3, S4, 0) == ScanResult(0, 6, true);
    assert ScanRun(w, 2, S4, 0) == ScanResult(0, 6, true);
    assert ScanRun(w, 1, S4, 0) == ScanResult(0, 6, true);
    assert ScanWord(w, 0) == ScanResult(0, 6, true);
    assert w[0..6] == w;
  }

  /** Holds of exactly the string "(+ 10 234 (- 56 7) (* 8 9))", stated position by position. */
  predicate SpellsNestedExample(w: string)
  {
    |w| == 27 &&
    w[0] == '(' && w[1] == '+' && w[2] == ' ' && w[3] == '1' && w[4] == '0' && w[5] == ' ' &&
    w[6] == '2' && w[7] == '3' && w[8] == '4' && w[9] == ' ' && w[10] == '(' && w[11] == '-' &&
    w[12] == ' ' && w[13] == '5' && w[14] == '6' && w[15] == ' ' && w[16] == '7' && w[17] == ')' &&
    w[18] == ' ' && w[19] == '(' && w[20] == '*' && w[21] == ' ' && w[22] == '8' && w[23] == ' ' &&
    w[24] == '9' && w[25] == ')' && w[26] == ')'
  }

  /** Part of SegmentsNestedList: the words between positions 0 and 5. */
  lemma SegmentsNestedFrom0(w: string)
    requires SpellsNestedExample(w)
    ensures Words(w, 0) == ["(", "+", "10"] + Words(w, 5)
  {
    assert ScanRun(w, 1, S1, 0) == ScanResult(0, 1, true);
    assert ScanWord(w, 0) == ScanResult(0, 1, true);
    assert w[0..1] == "(";
    assert Words(w, 0) == ["("] + Words(w, 1);
    assert ScanRun(w, 2, S4, 1) == ScanResult(1, 2, true);
    assert ScanWord(w, 1) == ScanResult(1, 2, true);
    assert w[1..2] == "+";
    assert Words(w, 1) == ["+"] + Words(w, 2);
    assert ScanRun(w, 5, S4, 3) == ScanResult(3, 5, true);
    assert ScanRun(w, 4, S4, 3) == ScanResult(3, 5, true);
    assert ScanWord(w, 3) == ScanResult(3, 5, true);
    assert ScanWord(w, 2) == ScanResult(3, 5, true);
    assert w[3..5] == "10";
    assert Words(w, 2) == ["10"] + Words(w, 5);
  }

  /** Part of SegmentsNestedList: the words between positions 5 and 12. */
  lemma SegmentsNestedFrom5(w: string)
    requires SpellsNestedExample(w)
    ensures Words(w, 5) == ["234", "(", "-"] + Words(w, 12)
  {
    assert ScanRun(w, 9, S4, 6) == ScanResult(6, 9, true);
    assert ScanRun(w, 8, S4, 6) == ScanResult(6, 9, true);
    assert ScanRun(w, 7, S4, 6) == ScanResult(6, 9, true);
    assert ScanWord(w, 6) == ScanResult(6, 9, true);
    assert ScanWord(w, 5) == ScanResult(6, 9, true);
    assert w[6..9] == "234";
    assert Words(w, 5) == ["234"] + Words(w, 9);
    assert ScanRun(w, 11, S1, 10) == ScanResult(10, 11, true);
    assert ScanWord(w, 10) == ScanResult(10, 11, true);
    assert ScanWord(w, 9) == ScanResult(10, 11, true);
    assert w[10..11] == "(";
    assert Words(w, 9) == ["("] + Words(w, 11);
    assert ScanRun(w, 12, S4, 11) == ScanResult(11, 12, true);
    assert ScanWord(w, 11) == ScanResult(11, 12, true);
    assert w[11..12] == "-";
    assert Words(w, 11) == ["-"] + Words(w, 12);
  }

  /** Part of SegmentsNestedList: the words between positions 12 and 18. */
  lemma SegmentsNestedFrom12(w: string)
    requires SpellsNestedExample(w)
    ensures Words(w, 12) == ["56", "7", ")"] + Words(w, 18)
  {
    assert ScanRun(w, 15, S4, 13) == ScanResult(13, 15, true);
    assert ScanRun(w, 14, S4, 13) == ScanResult(13, 15, true);
    assert ScanWord(w, 13) == ScanResult(13, 15, true);
    assert ScanWord(w, 12) == ScanResult(13, 15, true);
    assert w[13..15] == "56";
    assert Words(w, 12) == ["56"] + Words(w, 15);
    assert ScanRun(w, 17, S4, 16) == ScanResult(16, 17, true);
    assert ScanWord(w, 16) == ScanResult(16, 17, true);
    assert ScanWord(w, 15) == ScanResult(16, 17, true);
    assert w[16..17] == "7";
    assert Words(w, 15) == ["7"] + Words(w, 17);
    assert ScanRun(w, 18, S2, 17) == ScanResult(17, 18, true);
    assert ScanWord(w, 17) == ScanResult(17, 18, true);
    assert w[17..18] == ")";
    assert Words(w, 17) == [")"] + Words(w, 18);
  }

  /** Part of SegmentsNestedList: the words between positions 18 and 23. */
  lemma SegmentsNestedFrom18(w: string)
    requires SpellsNestedExample(w)
    ensures Words(w, 18) == ["(", "*", "8"] + Words(w, 23)
  {
    assert ScanRun(w, 20, S1, 19) == ScanResult(19, 20, true);
    assert ScanWord(w, 19) == ScanResult(19, 20, true);
    assert ScanWord(w, 18) == ScanResult(19, 20, true);
    assert w[19..20] == "(";
    assert Words(w, 18) == ["("] + Words(w, 20);
    assert ScanRun(w, 21, S4, 20) == ScanResult(20, 21, true);
    assert ScanWord(w, 20) == ScanResult(20, 21, true);
    assert w[20..21] == "*";
    assert Words(w, 20) == ["*"] + Words(w, 21);
    assert ScanRun(w, 23, S4, 22) == ScanResult(22, 23, true);
    assert ScanWord(w, 22) == ScanResult(22, 23, true);
    assert ScanWord(w, 21) == ScanResult(22, 23, true);
    assert w[22..23] == "8";
    assert Words(w, 21) == ["8"] + Words(w, 23);
  }

  /** Part of SegmentsNestedList: the words between positions 23 and 27. */
  lemma SegmentsNestedFrom23(w: string)
    requires SpellsNestedExample(w)
    ensures Words(w, 23) == ["9", ")", ")"] + Words(w, 27)
  {
    assert ScanRun(w, 25, S4, 24) == ScanResult(24, 25, true);
    assert ScanWord(w, 24) == ScanResult(24, 25, true);
    assert ScanWord(w, 23) == ScanResult(24, 25, true);
    assert w[24..25] == "9";
    assert Words(w, 23) == ["9"] + Words(w, 25);
    assert ScanRun(w, 26, S2, 25) == ScanResult(25, 26, true);
    assert ScanWord(w, 25) == ScanResult(25, 26, true);
    assert w[25..26] == ")";
    assert Words(w, 25) == [")"] + Words(w, 26);
    assert ScanRun(w, 27, S2, 26) == ScanResult(26, 27, true);
    assert ScanWord(w, 26) == ScanResult(26, 27, true);
    assert w[26..27] == ")";
    assert Words(w, 26) == [")"] + Words(w, 27);
  }

  /** The nested list of the scanner's tests gives the fifteen listed words. */
  lemma SegmentsNestedList(w: string)
    requires SpellsNestedExample(w)
    ensures Words(w, 0) ==
      ["(", "+", "10", "234", "(", "-", "56", "7", ")", "(", "*", "8", "9", ")", ")"]
  {
    SegmentsNestedFrom0(w);
    SegmentsNestedFrom5(w);
    SegmentsNestedFrom12(w);
    SegmentsNestedFrom18(w);
    SegmentsNestedFrom23(w);
    assert ScanWord(w, 27) == ScanResult(27, 27, true);
  }
}
