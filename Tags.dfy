// Type tags of Scheme objects: a 16-bit word whose second nibble holds the
// data class and whose low nibble holds the subclass (used by numbers).

module Tags {

  /** A tag; the high byte is reserved. */
  type Tag = bv16
  /** The data-class bits of a tag, shifted down to the low nibble. */
  type Class = bv16
  /** The subclass bits of a tag. */
  type SubClass = bv16

  const NIL: Tag := 0x0000
  const BOOLEAN: Tag := 0x0010
  const STRING: Tag := 0x0020
  const SYMBOL: Tag := 0x0030
  const CHARACTER: Tag := 0x0040
  const NUMBER: Tag := 0x0070
  const LIST: Tag := 0x0090
  const INT: Tag := 0x0071
  const FLOAT: Tag := 0x0072
  const COMPLEX: Tag := 0x0073
  const BIGINT: Tag := 0x0079

  const ClassMask: Tag := 0x00f0
  const SubClassMask: Tag := 0x000f

  /** The eleven tags that have a name of their own. */
  const NamedTags: set<Tag> :=
    {NIL, BOOLEAN, STRING, SYMBOL, CHARACTER, NUMBER, LIST, INT, FLOAT, COMPLEX, BIGINT}

  function BitsNil(): Class { NIL >> 4 }
  function BitsBoolean(): Class { BOOLEAN >> 4 }
  function BitsString(): Class { STRING >> 4 }
  function BitsSymbol(): Class { SYMBOL >> 4 }
  function BitsNumber(): Class { NUMBER >> 4 }
  function BitsList(): Class { LIST >> 4 }
  function BitsInt(): SubClass { INT & SubClassMask }
  function BitsFloat(): SubClass { FLOAT & SubClassMask }
  function BitsComplex(): SubClass { COMPLEX & SubClassMask }
  function BitsBigint(): SubClass { BIGINT & SubClassMask }

  /** The data class of a tag: bits 4 to 7, i.e. the second hexadecimal digit. */
  function ClassOf(t: Tag): (c: Class)
    ensures c < 16
    ensures c << 4 == t & ClassMask
  {
    (ClassMask & t) >> 4
  }

  /** The subclass of a tag: its lowest hexadecimal digit. */
  function SubClassOf(t: Tag): (s: SubClass)
    ensures s < 16
    ensures s | (t & ClassMask) == t & 0x00ff
  {
    SubClassMask & t
  }

  /**
   * The printable name of a tag; every unnamed tag is "illegal", and the name of every
   * named tag of the number class begins with "number".
   */
  function TagName(t: Tag): (name: string)
    ensures t !in NamedTags ==> name == "illegal"
    ensures t in NamedTags && ClassOf(t) == BitsNumber() ==> "number" <= name
  {
    if t == NIL then "nil"
    else if t == BOOLEAN then "boolean"
    else if t == STRING then "string"
    else if t == SYMBOL then "symbol"
    else if t == CHARACTER then "character"
    else if t == LIST then "list"
    else if t == NUMBER then "number"
    else if t == INT then "number(int)"
    else if t == FLOAT then "number(float)"
    else if t == COMPLEX then "number(complex)"
    else if t == BIGINT then "number(bigint)"
    else "illegal"
  }

  /** A tag whose reserved high byte is clear is rebuilt from its class and subclass. */
  lemma ClassAndSubClassDetermineTag(t: Tag)
    requires t < 0x100
    ensures (ClassOf(t) << 4) | SubClassOf(t) == t
  {
  }

  /** The simple data tags carry the class bits of their bitsX helper and subclass 0. */
  lemma SimpleTagBits()
    ensures ClassOf(NIL) == BitsNil() == 0 && SubClassOf(NIL) == 0
    ensures ClassOf(BOOLEAN) == BitsBoolean() == 1 && SubClassOf(BOOLEAN) == 0
    ensures ClassOf(STRING) == BitsString() == 2 && SubClassOf(STRING) == 0
    ensures ClassOf(SYMBOL) == BitsSymbol() == 3 && SubClassOf(SYMBOL) == 0
    ensures ClassOf(NUMBER) == BitsNumber() == 7 && SubClassOf(NUMBER) == 0
    ensures ClassOf(LIST) == BitsList() == 9 && SubClassOf(LIST) == 0
  {
  }

  /** The number subtypes all belong to the number class and differ in their subclass. */
  lemma NumberSubTagBits()
    ensures ClassOf(INT) == ClassOf(FLOAT) == ClassOf(COMPLEX) == ClassOf(BIGINT) == BitsNumber()
    ensures SubClassOf(INT) == BitsInt() == 1
    ensures SubClassOf(FLOAT) == BitsFloat() == 2
    ensures SubClassOf(COMPLEX) == BitsComplex() == 3
    ensures SubClassOf(BIGINT) == BitsBigint() == 9
  {
  }

  /** A tag is called "illegal" exactly when it is not one of the named tags. */
  lemma IllegalIffUnnamed(t: Tag)
    ensures TagName(t) == "illegal" <==> t !in NamedTags
  {
  }

  /** Distinct named tags have distinct names. */
  lemma TagNamesDistinct(a: Tag, b: Tag)
    requires a in NamedTags && b in NamedTags
    ensures TagName(a) == TagName(b) <==> a == b
  {
  }

  /** The cases of the tag-name test table. */
  lemma TagNameExamples()
    ensures TagName(NIL) == "nil" && TagName(BOOLEAN) == "boolean"
    ensures TagName(STRING) == "string" && TagName(SYMBOL) == "symbol"
    ensures TagName(CHARACTER) == "character" && TagName(LIST) == "list"
    ensures TagName(NUMBER) == "number" && TagName(INT) == "number(int)"
    ensures TagName(FLOAT) == "number(float)" && TagName(COMPLEX) == "number(complex)"
    ensures TagName(0xff) == "illegal"
  {
  }
}
