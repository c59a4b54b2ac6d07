/** Rune predicates and the rune-class alphabet of lexer/internal/runeclass/runeclass.go. */
module RuneClasses {

  /** The eleven rune classes. Go represents each one by a string constant (see `Name`). */
  datatype RuneClass =
    | Eos            // end of string
    | WhiteSpace     // word scan
    | LeftParen
    | RightParen
    | DoubleQuot
    | EscapeChar
    | Sign           // number scan
    | DigitZero
    | DigitNonzero
    | Point
    | AnyOther       // general scan

  /** The string value of each Go constant. */
  function Name(c: RuneClass): string
  {
    match c
    case Eos => "EOS"
    case WhiteSpace => "WHITE_SPACE"
    case LeftParen => "LEFT_PAREN"
    case RightParen => "RIGHT_PAREN"
    case DoubleQuot => "DOUBLE_QUOT"
    case EscapeChar => "ESCAPE_CHAR"
    case Sign => "SIGN"
    case DigitZero => "DIGIT_ZERO"
    case DigitNonzero => "DIGIT_NONZERO"
    case Point => "POINT"
    case AnyOther => "ANY_OTHER"
  }

  /** The eleven constants are pairwise distinct strings, so `RuneClass` loses nothing. */
  lemma NamesDistinct(a: RuneClass, b: RuneClass)
    ensures Name(a) == Name(b) <==> a == b
  {
  }

  /** The seven classes the word scanner works with. */
  predicate IsWordScanClass(c: RuneClass)
  {
    c in {Eos, WhiteSpace, LeftParen, RightParen, DoubleQuot, EscapeChar, AnyOther}
  }

  /**
   * Go's unicode.IsSpace: the Latin-1 spaces '\t', '\n', '\v', '\f', '\r', ' ', U+0085
   * and U+00A0, and above Latin-1 the code points with Unicode's White_Space property.
   */
  predicate IsWhitespace(r: char)
  {
    if r <= '\U{FF}' then
      r == '\t' || r == '\n' || r == '\U{B}' || r == '\U{C}' || r == '\r' || r == ' '
      || r == '\U{85}' || r == '\U{A0}'
    else
      r == '\U{1680}' || ('\U{2000}' <= r <= '\U{200A}') || r == '\U{2028}' || r == '\U{2029}'
      || r == '\U{202F}' || r == '\U{205F}' || r == '\U{3000}'
  }

  /** None of the runes the scanners treat specially counts as whitespace. */
  lemma SpecialRunesAreNotWhitespace(r: char)
    requires r in {'\0', '(', ')', '"', '\\', '#', '+', '-', '.'} || '0' <= r <= '9'
    ensures !IsWhitespace(r)
  {
  }

  /** The Go array `digits`. */
  const Digits: seq<char> := ['0', '1', '2', '3', '4', '5', '6', '7', '8', '9']

  /** What `IsDigit` decides: an ASCII decimal digit. */
  predicate IsDecimalDigit(r: char)
  {
    '0' <= r <= '9'
  }

  /** What `IsNonZeroDigit` decides. */
  predicate IsNonZeroDecimalDigit(r: char)
  {
    '1' <= r <= '9'
  }

  /** IsDigit: linear search of `digits`, stopping at the first match. */
  method IsDigit(r: char) returns (found: bool)
    ensures found <==> IsDecimalDigit(r)
  {
    found := false;
    var i := 0;
    while i < |Digits|
      invariant 0 <= i <= |Digits|
      invariant !found
      invariant forall j :: 0 <= j < i ==> Digits[j] != r
    {
      if r == Digits[i] {
        found := true;
        break;
      }
      i := i + 1;
    }
    DigitsAreInOrder();
    assert IsDecimalDigit(r) ==> Digits[r as int - '0' as int] == r;
  }

  /** `digits[j]` is the digit of value `j`. */
  lemma DigitsAreInOrder()
    ensures forall j :: 0 <= j < |Digits| ==> Digits[j] as int == '0' as int + j
  {
  }

  function IsZeroDigit(r: char): (b: bool)
    ensures b ==> IsDecimalDigit(r)
  {
    r == '0'
  }

  /** IsNonZeroDigit: linear search of `digits[1:]`. */
  method IsNonZeroDigit(r: char) returns (found: bool)
    ensures found <==> IsNonZeroDecimalDigit(r)
  {
    found := false;
    var rest := Digits[1..];
    var i := 0;
    while i < |rest|
      invariant 0 <= i <= |rest|
      invariant !found
      invariant forall j :: 0 <= j < i ==> rest[j] != r
    {
      if r == rest[i] {
        found := true;
        break;
      }
      i := i + 1;
    }
    DigitsAreInOrder();
    assert IsNonZeroDecimalDigit(r) ==> rest[r as int - '1' as int] == r;
  }

  /** A digit is either zero or non-zero, never both. */
  lemma DigitIsZeroOrNonZero(r: char)
    ensures IsDecimalDigit(r) <==> IsZeroDigit(r) || IsNonZeroDecimalDigit(r)
    ensures !(IsZeroDigit(r) && IsNonZeroDecimalDigit(r))
  {
  }
}
