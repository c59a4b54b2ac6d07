// Tokens (token/token.go): a token type, the literal text of the word and
// the Scheme value the word denotes.

module Tokens {
  import opened Wrappers
  import opened Scheme

  datatype TokenType =
    | LPAREN | RPAREN | QUOTE | EMPTY_LIST | BOOLEAN | NUMBER | STRING | SYMBOL | ILLEGAL

  /** The string each token type stands for. */
  function TypeName(tt: TokenType): string
  {
    match tt
    case LPAREN => "LPAREN"
    case RPAREN => "RPAREN"
    case QUOTE => "QUOTE"
    case EMPTY_LIST => "EMPTY_LIST"
    case BOOLEAN => "BOOLEAN"
    case NUMBER => "NUMBER"
    case STRING => "STRING"
    case SYMBOL => "SYMBOL"
    case ILLEGAL => "ILLEGAL"
  }

  /** The token type a name stands for, if any. */
  function TypeNamed(name: string): Option<TokenType>
  {
    if name == "LPAREN" then Some(LPAREN)
    else if name == "RPAREN" then Some(RPAREN)
    else if name == "QUOTE" then Some(QUOTE)
    else if name == "EMPTY_LIST" then Some(EMPTY_LIST)
    else if name == "BOOLEAN" then Some(BOOLEAN)
    else if name == "NUMBER" then Some(NUMBER)
    else if name == "STRING" then Some(STRING)
    else if name == "SYMBOL" then Some(SYMBOL)
    else if name == "ILLEGAL" then Some(ILLEGAL)
    else None
  }

  /** The nine type names are pairwise distinct: each names back its own type. */
  lemma TypeNamesDistinct(tt: TokenType, other: TokenType)
    ensures TypeNamed(TypeName(tt)) == Some(tt)
    ensures TypeName(tt) == TypeName(other) <==> tt == other
    ensures ',' !in TypeName(tt)
  {
  }

  datatype Token = Token(tokenType: TokenType, literal: string, value: Object)

  /** NewToken: a token holding exactly the given type, literal and value. */
  function NewToken(tt: TokenType, lit: string, val: Object): (t: Token)
    ensures t.tokenType == tt && t.literal == lit && t.value == val
  {
    Token(tt, lit, val)
  }

  /** NewIllegalToken: an ILLEGAL token whose value is the empty list. */
  function NewIllegalToken(lit: string): (t: Token)
    ensures t.tokenType == ILLEGAL && t.literal == lit && t.value == EmptyList
  {
    NewToken(ILLEGAL, lit, EmptyList)
  }

  /** String(): "[type:T, literal:L, value:V]" with V the value's own rendering. */
  function Render(t: Token, fmt: FloatFormat): (r: string)
    ensures "[type:" <= r && r[|r| - 1] == ']'
    ensures |r| > |TypeName(t.tokenType)| + |t.literal| + |Scheme.Render(t.value, fmt)|
  {
    "[type:" + TypeName(t.tokenType) + ", literal:" + t.literal + ", value:" +
      Scheme.Render(t.value, fmt) + "]"
  }

  /** The position of the first c in s, or |s| when there is none. */
  function FirstIndex(s: string, c: char): (k: nat)
    ensures k <= |s|
    ensures forall j :: 0 <= j < k ==> s[j] != c
    ensures k < |s| ==> s[k] == c
  {
    if |s| == 0 || s[0] == c then 0 else 1 + FirstIndex(s[1..], c)
  }

  /** Reads the token type back from a rendering: the name between "[type:" and the first comma. */
  function ReadType(s: string): Option<TokenType>
  {
    if |s| >= 6 && s[..6] == "[type:" then
      var body := s[6..];
      TypeNamed(body[..FirstIndex(body, ',')])
    else None
  }

  lemma {:induction false} FirstIndexOfPrefix(p: string, q: string, c: char)
    requires c !in p && |q| > 0 && q[0] == c
    ensures FirstIndex(p + q, c) == |p|
    decreases |p|
  {
    if |p| > 0 {
      assert (p + q)[1..] == p[1..] + q;
      FirstIndexOfPrefix(p[1..], q, c);
    } else {
      assert p + q == q;
    }
  }

  /** The type of a token can be read back from its rendering. */
  lemma RenderKeepsType(t: Token, fmt: FloatFormat)
    ensures ReadType(Render(t, fmt)) == Some(t.tokenType)
  {
    var name := TypeName(t.tokenType);
    var tail := ", literal:" + t.literal + ", value:" + Scheme.Render(t.value, fmt) + "]";
    var s := Render(t, fmt);
    assert s == "[type:" + (name + tail);
    assert s[6..] == name + tail;
    TypeNamesDistinct(t.tokenType, t.tokenType);
    FirstIndexOfPrefix(name, tail, ',');
    assert (name + tail)[..|name|] == name;
  }
}
