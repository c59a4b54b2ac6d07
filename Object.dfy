// Scheme data objects (scheme/object.go): the tagged variants, the validating
// factory NewSchemeObject, and the cooking of string literals.

module Scheme {
  import opened Wrappers
  import opened Tags

  // ---------------------------------------------------------------------
  // Go values handed to the factory (the dynamic type behind `any`)
  // ---------------------------------------------------------------------

  newtype Int8 = x: int | -0x80 <= x < 0x80
  newtype Int16 = x: int | -0x8000 <= x < 0x8000
  newtype Int32 = x: int | -0x8000_0000 <= x < 0x8000_0000
  newtype Int64 = x: int | -0x8000_0000_0000_0000 <= x < 0x8000_0000_0000_0000
  newtype Uint8 = x: int | 0 <= x < 0x100
  newtype Uint16 = x: int | 0 <= x < 0x1_0000
  newtype Uint32 = x: int | 0 <= x < 0x1_0000_0000
  newtype Uint64 = x: int | 0 <= x < 0x1_0000_0000_0000_0000

  /** An IEEE-754 double, kept opaque: only its bit pattern is known. */
  datatype Float64 = Float64(bits: bv64)
  /** A complex number made of two doubles. */
  datatype Complex128 = Complex128(re: Float64, im: Float64)

  /**
   * The dynamic kinds a value of Go type `any` can have here. Go's `int` and
   * `uint` are taken to be 64 bits wide. A float32 (complex64) is held as its
   * float64 (complex128) widening, which is exact. GoOther stands for every
   * other dynamic type (structs, slices, pointers, ...).
   */
  datatype GoValue =
    | GoInt(intValue: Int64)
    | GoInt8(int8: Int8)
    | GoInt16(int16: Int16)
    | GoInt32(int32: Int32)
    | GoInt64(int64: Int64)
    | GoUint(uint: Uint64)
    | GoUint8(uint8: Uint8)
    | GoUint16(uint16: Uint16)
    | GoUint32(uint32: Uint32)
    | GoUint64(uint64: Uint64)
    | GoFloat32(float32: Float64)
    | GoFloat64(float64: Float64)
    | GoComplex64(complex64: Complex128)
    | GoComplex128(complex128: Complex128)
    | GoBool(boolValue: bool)
    | GoString(text: string)
    | GoNil
    | GoOther
  {
    predicate IsInteger() {
      GoInt? || GoInt8? || GoInt16? || GoInt32? || GoInt64? ||
      GoUint? || GoUint8? || GoUint16? || GoUint32? || GoUint64?
    }
    predicate IsNumeric() {
      IsInteger() || GoFloat32? || GoFloat64? || GoComplex64? || GoComplex128?
    }
  }

  /** Go's conversion int64(u) of an unsigned 64-bit value: values above 2^63-1 wrap. */
  function WrapToInt64(u: Uint64): (i: Int64)
    ensures (i as int - u as int) % 0x1_0000_0000_0000_0000 == 0
    ensures u < 0x8000_0000_0000_0000 ==> i as int == u as int
    ensures u >= 0x8000_0000_0000_0000 ==> i < 0
  {
    if u < 0x8000_0000_0000_0000 then u as int as Int64
    else (u as int - 0x1_0000_0000_0000_0000) as Int64
  }

  // ---------------------------------------------------------------------
  // Scheme objects
  // ---------------------------------------------------------------------

  /** The payload of a Number: always an int64, a float64 or a complex128. */
  datatype NumValue = IntVal(i: Int64) | FloatVal(f: Float64) | ComplexVal(c: Complex128)

  /**
   * A Scheme object. Nil is the one empty list (EmptyList); a String holds its
   * cooked text.
   */
  datatype Object =
    | Nil
    | Boolean(b: bool)
    | Str(s: string)
    | Symbol(name: string)
    | Number(num: NumValue)

  const EmptyList: Object := Nil

  /** The tag stored in a Number for its payload. */
  function NumTag(n: NumValue): (t: Tag)
    ensures ClassOf(t) == BitsNumber()
    ensures t in {INT, FLOAT, COMPLEX}
  {
    match n
    case IntVal(_) => INT
    case FloatVal(_) => FLOAT
    case ComplexVal(_) => COMPLEX
  }

  /** Tag(): the data-class tag; every Number answers NUMBER whatever its subclass. */
  function TagOf(o: Object): (t: Tag)
    ensures t in {NIL, BOOLEAN, STRING, SYMBOL, NUMBER}
    ensures SubClassOf(t) == 0
    ensures o.Number? <==> ClassOf(t) == BitsNumber()
  {
    match o
    case Nil => NIL
    case Boolean(_) => BOOLEAN
    case Str(_) => STRING
    case Symbol(_) => SYMBOL
    case Number(_) => NUMBER
  }

  /** SubClass(): the subclass bits of a Number's stored tag, 0 for everything else. */
  function SubClassOfObject(o: Object): (s: SubClass)
    ensures o.Number? ==> s in {BitsInt(), BitsFloat(), BitsComplex()}
    ensures !o.Number? ==> s == 0
  {
    match o
    case Number(n) => SubClassOf(NumTag(n))
    case _ => 0
  }

  /** Value(): the Go value an object carries. */
  function ValueOf(o: Object): (v: GoValue)
    ensures o.Number? <==> v.IsNumeric()
    ensures o.Str? || o.Symbol? <==> v.GoString?
    ensures o.Nil? <==> v.GoNil?
    ensures o.Boolean? <==> v.GoBool?
  {
    match o
    case Nil => GoNil
    case Boolean(b) => GoBool(b)
    case Str(s) => GoString(s)
    case Symbol(name) => GoString(name)
    case Number(IntVal(i)) => GoInt64(i)
    case Number(FloatVal(f)) => GoFloat64(f)
    case Number(ComplexVal(c)) => GoComplex128(c)
  }

  /** IsClass(bits): whether the object belongs to the given data class. */
  predicate IsClass(o: Object, bits: Class)
  {
    match o
    case Nil => bits == BitsNil()
    case Boolean(_) => bits == BitsBoolean()
    case Str(_) => bits == BitsString()
    case Symbol(_) => bits == BitsSymbol()
    case Number(_) => bits == BitsNumber()
  }

  // ---------------------------------------------------------------------
  // Rendering
  // ---------------------------------------------------------------------

  /** The "%g" renderings of doubles and complex numbers, which the model does not define. */
  datatype FloatFormat = FloatFormat(float: Float64 -> string, complex: Complex128 -> string)

  function DigitChar(d: nat): char
    requires d < 10
  {
    ('0' as int + d) as char
  }

  function DigitValue(c: char): int
  {
    c as int - '0' as int
  }

  /** The decimal numeral of a natural number, without leading zeros. */
  function NatDigits(n: nat): (s: string)
    ensures |s| > 0
    ensures forall k :: 0 <= k < |s| ==> '0' <= s[k] <= '9'
    ensures s[0] == '0' <==> n == 0
    decreases n
  {
    if n < 10 then [DigitChar(n)] else NatDigits(n / 10) + [DigitChar(n % 10)]
  }

  /** The value of a string of decimal digits. */
  function ParseNat(s: string): int
  {
    if |s| == 0 then 0 else ParseNat(s[..|s| - 1]) * 10 + DigitValue(s[|s| - 1])
  }

  /** Go's "%d": an optional minus sign followed by the digits of the magnitude. */
  function Decimal(i: int): string
  {
    if i < 0 then "-" + NatDigits(-i) else NatDigits(i)
  }

  /** Reads back an optionally negative decimal numeral. */
  function ParseDecimal(s: string): int
  {
    if |s| > 0 && s[0] == '-' then -ParseNat(s[1..]) else ParseNat(s)
  }

  /** String(): the printed form of an object. */
  function Render(o: Object, fmt: FloatFormat): (r: string)
    ensures o.Boolean? ==> r in {"#t", "#f"}
    ensures o.Str? ==> |r| == |o.s| + 2 && r[0] == '"' && r[|r| - 1] == '"'
    ensures o.Number? && o.num.IntVal? ==> |r| > 0 && (r[0] == '-' <==> o.num.i < 0)
  {
    match o
    case Nil => "()"
    case Boolean(b) => if b then "#t" else "#f"
    case Str(s) => "\"" + s + "\""
    case Symbol(name) => name
    case Number(IntVal(i)) => Decimal(i as int)
    case Number(FloatVal(f)) => fmt.float(f)
    case Number(ComplexVal(c)) => fmt.complex(c)
  }

  // ---------------------------------------------------------------------
  // Cooking string literals
  // ---------------------------------------------------------------------

  /**
   * The text of s with each backslash-quote pair replaced by a quote; every
   * other rune, a backslash not followed by a quote included, is copied.
   * None when s ends with a backslash that no quote follows.
   */
  function Unescaped(s: string): (r: Option<string>)
    ensures r.Some? ==> |r.value| <= |s|
    ensures r.Some? ==> (|r.value| == 0 <==> |s| == 0)
    decreases |s|
  {
    if |s| == 0 then Some("")
    else if s[0] != '\\' then
      match Unescaped(s[1..])
      case None => None
      case Some(t) => Some([s[0]] + t)
    else if |s| == 1 then None
    else if s[1] == '"' then
      match Unescaped(s[2..])
      case None => None
      case Some(t) => Some(['"'] + t)
    else
      match Unescaped(s[1..])
      case None => None
      case Some(t) => Some(['\\'] + t)
  }

  /** unescapeGoStr's result: empty input is refused as well. */
  function Cook(raw: string): (cooked: Option<string>)
    ensures |raw| == 0 ==> cooked.None?
    ensures cooked.Some? ==> 0 < |cooked.value| <= |raw|
  {
    if |raw| < 1 then None else Unescaped(raw)
  }

  /** Puts p in front of the text of an optional result. */
  function Prefixed(p: string, o: Option<string>): Option<string>
  {
    match o
    case None => None
    case Some(t) => Some(p + t)
  }

  /** unescapeGoStr: the loop over raw, appending one rune per step. */
  method UnescapeGoStr(raw: string) returns (cooked: string, ok: bool)
    ensures ok <==> Cook(raw).Some?
    ensures ok ==> cooked == Cook(raw).value
    ensures !ok ==> cooked == ""
  {
    var length := |raw|;
    if length < 1 {
      return "", false;
    }
    var result: string := [];
    var i := 0;
    assert raw[i..] == raw;
    PrefixedEmpty(Unescaped(raw));
    while i < length
      invariant 0 <= i <= length
      invariant Unescaped(raw) == Prefixed(result, Unescaped(raw[i..]))
    {
      var ch := raw[i];
      ghost var rest := raw[i..];
      if ch == '\\' {
        if i < length - 1 {
          if raw[i + 1] == '"' {
            assert rest[2..] == raw[i + 2..];
            i := i + 1;
          } else {
            assert rest[1..] == raw[i + 1..];
          }
          ch := raw[i];
        } else {
          return "", false;
        }
      } else {
        assert rest[1..] == raw[i + 1..];
      }
      PrefixedAppend(result, ch, Unescaped(raw[i + 1..]));
      result := result + [ch];
      i := i + 1;
    }
    assert raw[i..] == [];
    cooked, ok := result, true;
  }

  lemma PrefixedEmpty(o: Option<string>)
    ensures Prefixed([], o) == o
  {
    if o.Some? {
      assert [] + o.value == o.value;
    }
  }

  lemma PrefixedAppend(p: string, c: char, o: Option<string>)
    ensures Prefixed(p, Prefixed([c], o)) == Prefixed(p + [c], o)
  {
    if o.Some? {
      assert p + ([c] + o.value) == (p + [c]) + o.value;
    }
  }

  /** Cooking fails exactly on an empty text or one whose last rune is a backslash. */
  lemma {:induction false} UnescapedFailsIffTrailingBackslash(s: string)
    ensures Unescaped(s).None? <==> |s| > 0 && s[|s| - 1] == '\\'
    decreases |s|
  {
    if |s| == 0 {
    } else if s[0] != '\\' || (|s| > 1 && s[1] != '"') {
      UnescapedFailsIffTrailingBackslash(s[1..]);
      assert |s| > 1 ==> s[1..][|s[1..]| - 1] == s[|s| - 1];
    } else if |s| > 1 {
      UnescapedFailsIffTrailingBackslash(s[2..]);
      assert |s| > 2 ==> s[2..][|s[2..]| - 1] == s[|s| - 1];
    }
  }

  lemma CookSucceedsIff(raw: string)
    ensures Cook(raw).Some? <==> |raw| > 0 && raw[|raw| - 1] != '\\'
    ensures Cook(raw).Some? ==> |Cook(raw).value| <= |raw|
  {
    UnescapedFailsIffTrailingBackslash(raw);
  }

  /** Without any backslash, cooking copies the text unchanged. */
  lemma {:induction false} UnescapedIdentity(s: string)
    requires forall k :: 0 <= k < |s| ==> s[k] != '\\'
    ensures Unescaped(s) == Some(s)
    decreases |s|
  {
    if |s| > 0 {
      UnescapedIdentity(s[1..]);
      assert [s[0]] + s[1..] == s;
    }
  }

  /** Quotes every double quote with a backslash. */
  function Escape(s: string): (e: string)
    ensures |s| > 0 ==> |e| > 0 && e[0] != '"' && e[|e| - 1] == s[|s| - 1]
  {
    if |s| == 0 then ""
    else if s[0] == '"' then "\\\"" + Escape(s[1..])
    else [s[0]] + Escape(s[1..])
  }

  /** Cooking undoes Escape, unless the text ends with a lone backslash. */
  lemma {:induction false} UnescapedEscape(s: string)
    requires |s| == 0 || s[|s| - 1] != '\\'
    ensures Unescaped(Escape(s)) == Some(s)
    decreases |s|
  {
    if |s| > 0 {
      var e := Escape(s);
      var tail := Escape(s[1..]);
      UnescapedEscape(s[1..]);
      assert [s[0]] + s[1..] == s;
      if s[0] == '"' {
        assert e[2..] == tail;
        assert Unescaped(e) == Some(['"'] + s[1..]);
      } else if s[0] == '\\' {
        assert e[1..] == tail;
        assert |tail| > 0 && tail[0] != '"';
        assert Unescaped(e) == Some(['\\'] + s[1..]);
      } else {
        assert e[1..] == tail;
        assert Unescaped(e) == Some([s[0]] + s[1..]);
      }
    }
  }

  lemma CookEscape(s: string)
    requires |s| > 0 && s[|s| - 1] != '\\'
    ensures Cook(Escape(s)) == Some(s)
  {
    UnescapedEscape(s);
  }

  // ---------------------------------------------------------------------
  // The factory
  // ---------------------------------------------------------------------

  /** Why NewSchemeObject refused its input; each case keeps what was rejected. */
  datatype ObjectError =
    | IllegalBoolean(value: GoValue)
    | IllegalString(value: GoValue)
    | IllegalSymbol(value: GoValue)
    | IllegalNumber(value: GoValue)
    | IllegalTag(tag: Tag)

  /** The error message; `show` is Go's "%v" rendering of a value. */
  function Message(e: ObjectError, show: GoValue -> string): (m: string)
    ensures "illegal " <= m
    ensures !e.IllegalTag? ==> |m| >= |show(e.value)| && m[|m| - |show(e.value)|..] == show(e.value)
    ensures e.IllegalTag? ==> |m| >= |TagName(e.tag)| && m[|m| - |TagName(e.tag)|..] == TagName(e.tag)
  {
    match e
    case IllegalBoolean(v) => "illegal boolean value, " + show(v)
    case IllegalString(v) => "illegal string value, " + show(v)
    case IllegalSymbol(v) => "illegal symbol value, " + show(v)
    case IllegalNumber(v) => "illegal number value, " + show(v)
    case IllegalTag(t) => "illegal tag as Sobj, " + TagName(t)
  }

  /** newNil: never fails and always answers the shared empty list. */
  function NewNil(v: GoValue): (r: Option<Object>)
    ensures r.Some? && TagOf(r.value) == NIL
  {
    Some(EmptyList)
  }

  function NewBoolean(v: GoValue): (r: Option<Object>)
    ensures r.Some? <==> v.GoBool?
    ensures r.Some? ==> TagOf(r.value) == BOOLEAN && ValueOf(r.value) == v
  {
    if v.GoBool? then Some(Boolean(v.boolValue)) else None
  }

  function NewString(v: GoValue): (r: Option<Object>)
    ensures r.Some? <==> v.GoString? && Cook(v.text).Some?
    ensures r.Some? ==> TagOf(r.value) == STRING && |r.value.s| <= |v.text|
  {
    if v.GoString? then
      match Cook(v.text)
      case Some(cooked) => Some(Str(cooked))
      case None => None
    else None
  }

  function NewSymbol(v: GoValue): (r: Option<Object>)
    ensures r.Some? <==> v.GoString?
    ensures r.Some? ==> TagOf(r.value) == SYMBOL && ValueOf(r.value) == v
  {
    if v.GoString? then Some(Symbol(v.text)) else None
  }

  /** newNumber: integers become int64, floats float64, complexes complex128. */
  function NewNumber(v: GoValue): (r: Option<Object>)
    ensures r.Some? <==> v.IsNumeric()
    ensures r.Some? ==> TagOf(r.value) == NUMBER
    ensures v.GoInt64? || v.GoFloat64? || v.GoComplex128? ==> r.Some? && ValueOf(r.value) == v
    ensures v.IsInteger() ==> r.Some? && r.value.num.IntVal?
  {
    match v
    case GoInt(i) => Some(Number(IntVal(i)))
    case GoInt8(i) => Some(Number(IntVal(i as int as Int64)))
    case GoInt16(i) => Some(Number(IntVal(i as int as Int64)))
    case GoInt32(i) => Some(Number(IntVal(i as int as Int64)))
    case GoInt64(i) => Some(Number(IntVal(i)))
    case GoUint(u) => Some(Number(IntVal(WrapToInt64(u))))
    case GoUint8(u) => Some(Number(IntVal(u as int as Int64)))
    case GoUint16(u) => Some(Number(IntVal(u as int as Int64)))
    case GoUint32(u) => Some(Number(IntVal(u as int as Int64)))
    case GoUint64(u) => Some(Number(IntVal(WrapToInt64(u))))
    case GoFloat32(f) => Some(Number(FloatVal(f)))
    case GoFloat64(f) => Some(Number(FloatVal(f)))
    case GoComplex64(c) => Some(Number(ComplexVal(c)))
    case GoComplex128(c) => Some(Number(ComplexVal(c)))
    case _ => None
  }

  /** NewSchemeObject: builds the object a tag and a value describe, or says why not. */
  function NewSchemeObject(tag: Tag, v: GoValue): (r: Result<Object, ObjectError>)
    ensures r.Ok? ==> TagOf(r.value) == tag
    ensures r.Err? ==> (r.error.IllegalTag? <==> tag !in {NIL, BOOLEAN, STRING, SYMBOL, NUMBER})
    ensures r.Err? && !r.error.IllegalTag? ==> r.error.value == v
  {
    if tag == NIL then
      Ok(NewNil(v).value)
    else if tag == BOOLEAN then
      match NewBoolean(v) case Some(o) => Ok(o) case None => Err(IllegalBoolean(v))
    else if tag == STRING then
      match NewString(v) case Some(o) => Ok(o) case None => Err(IllegalString(v))
    else if tag == SYMBOL then
      match NewSymbol(v) case Some(o) => Ok(o) case None => Err(IllegalSymbol(v))
    else if tag == NUMBER then
      match NewNumber(v) case Some(o) => Ok(o) case None => Err(IllegalNumber(v))
    else
      Err(IllegalTag(tag))
  }

  // ---------------------------------------------------------------------
  // Properties of the factory and the accessors
  // ---------------------------------------------------------------------

  /** The NIL tag accepts any value and yields the empty list. */
  lemma NilFactory(v: GoValue)
    ensures NewSchemeObject(NIL, v) == Ok(EmptyList)
  {
  }

  /** BOOLEAN and SYMBOL accept exactly a bool, respectively a string, and keep it. */
  lemma BooleanAndSymbolFactories(v: GoValue)
    ensures NewSchemeObject(BOOLEAN, v).Ok? <==> v.GoBool?
    ensures v.GoBool? ==> NewSchemeObject(BOOLEAN, v).value == Boolean(v.boolValue)
    ensures NewSchemeObject(SYMBOL, v).Ok? <==> v.GoString?
    ensures v.GoString? ==> NewSchemeObject(SYMBOL, v).value == Symbol(v.text)
  {
  }

  /** STRING accepts exactly a string that cooks, and stores the cooked text. */
  lemma StringFactory(v: GoValue)
    ensures NewSchemeObject(STRING, v).Ok? <==>
      v.GoString? && |v.text| > 0 && v.text[|v.text| - 1] != '\\'
    ensures NewSchemeObject(STRING, v).Ok? ==>
      NewSchemeObject(STRING, v).value == Str(Cook(v.text).value)
  {
    if v.GoString? {
      CookSucceedsIff(v.text);
    }
  }

  /** Only the tags NIL, BOOLEAN, STRING, SYMBOL and NUMBER build objects. */
  lemma OtherTagsFail(tag: Tag, v: GoValue)
    requires tag !in {NIL, BOOLEAN, STRING, SYMBOL, NUMBER}
    ensures NewSchemeObject(tag, v) == Err(IllegalTag(tag))
  {
  }

  /** NUMBER accepts exactly the numeric kinds and files them under INT, FLOAT or COMPLEX. */
  lemma NumberFactory(v: GoValue)
    ensures NewSchemeObject(NUMBER, v).Ok? <==> v.IsNumeric()
    ensures v.IsInteger() ==> NewSchemeObject(NUMBER, v).value.num.IntVal?
    ensures v.GoFloat32? || v.GoFloat64? ==> NewSchemeObject(NUMBER, v).value.num.FloatVal?
    ensures v.GoComplex64? || v.GoComplex128? ==> NewSchemeObject(NUMBER, v).value.num.ComplexVal?
    ensures v.IsInteger() ==> SubClassOfObject(NewSchemeObject(NUMBER, v).value) == BitsInt()
    ensures v.GoFloat32? || v.GoFloat64? ==> SubClassOfObject(NewSchemeObject(NUMBER, v).value) == BitsFloat()
    ensures v.GoComplex64? || v.GoComplex128? ==>
      SubClassOfObject(NewSchemeObject(NUMBER, v).value) == BitsComplex()
  {
  }

  /** Every signed or narrow unsigned integer is stored as the int64 of the same value. */
  lemma NumberFactoryIntegers(v: GoValue)
    ensures v.GoInt? ==> NewSchemeObject(NUMBER, v) == Ok(Number(IntVal(v.intValue)))
    ensures v.GoInt8? ==> NewSchemeObject(NUMBER, v) == Ok(Number(IntVal(v.int8 as int as Int64)))
    ensures v.GoInt16? ==> NewSchemeObject(NUMBER, v) == Ok(Number(IntVal(v.int16 as int as Int64)))
    ensures v.GoInt32? ==> NewSchemeObject(NUMBER, v) == Ok(Number(IntVal(v.int32 as int as Int64)))
    ensures v.GoInt64? ==> NewSchemeObject(NUMBER, v) == Ok(Number(IntVal(v.int64)))
    ensures v.GoUint8? ==> NewSchemeObject(NUMBER, v) == Ok(Number(IntVal(v.uint8 as int as Int64)))
    ensures v.GoUint16? ==> NewSchemeObject(NUMBER, v) == Ok(Number(IntVal(v.uint16 as int as Int64)))
    ensures v.GoUint32? ==> NewSchemeObject(NUMBER, v) == Ok(Number(IntVal(v.uint32 as int as Int64)))
  {
  }

  /** float32 and complex64 are stored widened, float64 and complex128 as they are. */
  lemma NumberFactoryFloats(v: GoValue)
    ensures v.GoFloat32? ==> NewSchemeObject(NUMBER, v) == Ok(Number(FloatVal(v.float32)))
    ensures v.GoFloat64? ==> NewSchemeObject(NUMBER, v) == Ok(Number(FloatVal(v.float64)))
    ensures v.GoComplex64? ==> NewSchemeObject(NUMBER, v) == Ok(Number(ComplexVal(v.complex64)))
    ensures v.GoComplex128? ==> NewSchemeObject(NUMBER, v) == Ok(Number(ComplexVal(v.complex128)))
  {
  }

  /** Unsigned 64-bit values above 2^63-1 are stored wrapped to a negative int64. */
  lemma UnsignedWraps(u: Uint64)
    ensures NewSchemeObject(NUMBER, GoUint64(u)) == Ok(Number(IntVal(WrapToInt64(u))))
    ensures NewSchemeObject(NUMBER, GoUint(u)) == Ok(Number(IntVal(WrapToInt64(u))))
    ensures u == 0xffff_ffff_ffff_ffff ==> WrapToInt64(u) == -1
  {
  }

  /** Every object other than a string is rebuilt from its tag and its value. */
  lemma FactoryRoundTrip(o: Object)
    requires !o.Str?
    ensures NewSchemeObject(TagOf(o), ValueOf(o)) == Ok(o)
  {
  }

  /** A string object is rebuilt from its tag and the escaped form of its text. */
  lemma StringRoundTrip(s: string)
    requires |s| > 0 && s[|s| - 1] != '\\'
    ensures NewSchemeObject(STRING, GoString(Escape(s))) == Ok(Str(s))
  {
    CookEscape(s);
    assert NewString(GoString(Escape(s))) == Some(Str(s));
  }

  /** Each object belongs to exactly one data class: the class of its tag. */
  lemma IsClassExactlyOne(o: Object, bits: Class)
    ensures IsClass(o, bits) <==> bits == ClassOf(TagOf(o))
    ensures o.Number? ==> TagOf(o) == NUMBER && SubClassOfObject(o) in {1, 2, 3}
    ensures !o.Number? ==> SubClassOfObject(o) == 0
  {
  }

  /** The digits of n read back as n. */
  lemma {:induction false} ParseNatDigits(n: nat)
    ensures ParseNat(NatDigits(n)) == n
    decreases n
  {
    if n >= 10 {
      var s := NatDigits(n);
      ParseNatDigits(n / 10);
      assert s[..|s| - 1] == NatDigits(n / 10);
    }
  }

  /** An integer number is printed as a decimal numeral that reads back as its value. */
  lemma RenderInteger(i: Int64, fmt: FloatFormat)
    ensures ParseDecimal(Render(Number(IntVal(i)), fmt)) == i as int
    ensures |Render(Number(IntVal(i)), fmt)| > 0
  {
    var s := Render(Number(IntVal(i)), fmt);
    if i < 0 {
      ParseNatDigits(-(i as int));
      assert s[1..] == NatDigits(-(i as int));
    } else {
      ParseNatDigits(i as int);
    }
  }

  /** Nil, the booleans and strings print as "()", "#t"/"#f" and the text in quotes. */
  lemma RenderSimple(o: Object, fmt: FloatFormat)
    requires !o.Number? && !o.Symbol?
    ensures Render(o, fmt) == "()" <==> o.Nil?
    ensures o.Boolean? ==> Render(o, fmt) == (if o.b then "#t" else "#f")
    ensures o.Str? ==> Render(o, fmt) == "\"" + o.s + "\""
  {
  }

  /** A symbol prints bare, and its rendering never starts with a quote unless its name does. */
  lemma RenderSymbol(name: string, fmt: FloatFormat)
    ensures Render(Symbol(name), fmt) == name
    ensures Render(Symbol(name), fmt) != Render(Str(name), fmt)
  {
    assert |Render(Str(name), fmt)| == |name| + 2;
  }

  /** The factory cases of the object tests. */
  lemma FactoryExamples()
    ensures NewSchemeObject(NIL, GoNil) == Ok(Nil)
    ensures NewSchemeObject(BOOLEAN, GoBool(false)) == Ok(Boolean(false))
    ensures NewSchemeObject(STRING, GoString("x")) == Ok(Str("x"))
    ensures NewSchemeObject(SYMBOL, GoString("car")) == Ok(Symbol("car"))
    ensures NewSchemeObject(NUMBER, GoInt(0)) == Ok(Number(IntVal(0)))
    ensures NewSchemeObject(NUMBER, GoInt8(1)) == Ok(Number(IntVal(1)))
    ensures NewSchemeObject(NUMBER, GoUint64(9)) == Ok(Number(IntVal(9)))
  {
    UnescapedIdentity("x");
  }
}
