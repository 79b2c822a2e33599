/** The x86-64 System V (LP64) data representation: the size and alignment of
    every fundamental type the layouts use, and the C spellings and `<stdint.h>`
    names that select them. */
module Abi {
  import opened Common

  /** One constructor per distinct fundamental type. Spelling variants of one
      type (`short`, `short int`, `signed short int`) are one kind. */
  datatype ScalarKind =
    | Char | SignedChar | UnsignedChar
    | Short | UnsignedShort
    | Int | UnsignedInt
    | Long | UnsignedLong
    | LongLong | UnsignedLongLong
    | Float | Double | LongDouble

  predicate IsInteger(k: ScalarKind)
  {
    !(k.Float? || k.Double? || k.LongDouble?)
  }

  /** Plain `char` is signed on this ABI. */
  predicate IsSigned(k: ScalarKind)
  {
    k.Char? || k.SignedChar? || k.Short? || k.Int? || k.Long? || k.LongLong?
  }

  /** The `sizeof` column of the psABI's scalar table. */
  function ScalarSize(k: ScalarKind): nat
  {
    match k
    case Char | SignedChar | UnsignedChar => 1
    case Short | UnsignedShort => 2
    case Int | UnsignedInt => 4
    case Long | UnsignedLong => 8
    case LongLong | UnsignedLongLong => 8
    case Float => 4
    case Double => 8
    case LongDouble => 16
  }

  /** The alignment column of the psABI's scalar table. */
  function ScalarAlign(k: ScalarKind): nat
  {
    match k
    case Char | SignedChar | UnsignedChar => 1
    case Short | UnsignedShort => 2
    case Int | UnsignedInt | Float => 4
    case Long | UnsignedLong | LongLong | UnsignedLongLong | Double => 8
    case LongDouble => 16
  }

  /** Every pointer, whatever it points to, is 8 bytes and 8-aligned. */
  const PointerSize: nat := 8
  const PointerAlign: nat := 8

  /** On this ABI a scalar's alignment equals its size, and is a power of two. */
  lemma ScalarAlignIsSize(k: ScalarKind)
    ensures ScalarAlign(k) == ScalarSize(k)
    ensures PowerOfTwo(ScalarAlign(k))
  {
    assert PowerOfTwo(2);
    assert PowerOfTwo(4);
    assert PowerOfTwo(8);
    assert PowerOfTwo(16);
  }

  /** The C type-specifier spellings that name a fundamental type. */
  function KindOfSpelling(spelling: string): Option<ScalarKind>
  {
    match spelling
    case "char" => Some(Char)
    case "signed char" => Some(SignedChar)
    case "unsigned char" => Some(UnsignedChar)
    case "short" | "short int" | "signed short" | "signed short int" => Some(Short)
    case "unsigned short" | "unsigned short int" => Some(UnsignedShort)
    case "int" | "signed" | "signed int" => Some(Int)
    case "unsigned" | "unsigned int" => Some(UnsignedInt)
    case "long" | "long int" | "signed long" | "signed long int" => Some(Long)
    case "unsigned long" | "unsigned long int" => Some(UnsignedLong)
    case "long long" | "long long int" | "signed long long" | "signed long long int" => Some(LongLong)
    case "unsigned long long" | "unsigned long long int" => Some(UnsignedLongLong)
    case "float" => Some(Float)
    case "double" => Some(Double)
    case "long double" => Some(LongDouble)
    case _ => None
  }

  /** The kind that `intN_t` (signed) or `uintN_t` names on this ABI: the
      `<stdint.h>` of an LP64 system maps `int64_t` to `long`. */
  function FixedWidthKind(bits: nat, signed: bool): (r: Option<ScalarKind>)
    ensures r.Some? <==> bits == 8 || bits == 16 || bits == 32 || bits == 64
    ensures r.Some? ==> IsInteger(r.value) && 8 * ScalarSize(r.value) == bits
    ensures r.Some? ==> IsSigned(r.value) == signed && ScalarAlign(r.value) == ScalarSize(r.value)
  {
    if bits == 8 then Some(if signed then SignedChar else UnsignedChar)
    else if bits == 16 then Some(if signed then Short else UnsignedShort)
    else if bits == 32 then Some(if signed then Int else UnsignedInt)
    else if bits == 64 then Some(if signed then Long else UnsignedLong)
    else None
  }
}
