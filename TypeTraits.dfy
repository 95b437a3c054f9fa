/**
 * The type-to-conversion registry (`ptype_traits`): for every C++ type the
 * formatter accepts it gives a printf length modifier (`size_spec`), a
 * conversion character (`fmt_spec`) and a canonicalising `cast`.
 *
 * C++ resolves the registry at compile time by template specialisation; here
 * the argument's static type is a `CType` value and each trait is a total
 * function of it. Only the types that have a specialisation are `Registered`:
 * the primary template is declared but never defined, so any other type is a
 * compile error, which the model states as a precondition.
 *
 * Whether plain `char` is signed is left to the C++ implementation; it is the
 * parameter `charSigned` wherever it matters.
 */
module TypeTraits {

  /** The static types of values that reach the formatter. */
  datatype CType =
    | Bool
    | Char | SChar | UChar
    | Short | UShort
    | Int | UInt
    | Long | ULong
    | LongLong | ULongLong
    | Float | Double
    | CharPtr     // `char *`, a C string
    | VoidPtr     // `const void *`, an address

  /** Run-time values; integers are unbounded, reals stand for float/double. */
  datatype Value =
    | BoolV(b: bool)
    | IntV(i: int)
    | RealV(x: real)
    | StrV(s: string)
    | PtrV(addr: nat)

  /** A value together with the C++ type it is passed as. */
  datatype Typed = Typed(t: CType, v: Value)

  /** Types that have a `ptype_traits` specialisation. */
  predicate Registered(t: CType)
  {
    t != VoidPtr
  }

  predicate IsInteger(t: CType)
  {
    t in {Char, SChar, UChar, Short, UShort, Int, UInt, Long, ULong, LongLong, ULongLong}
  }

  predicate IsFloating(t: CType)
  {
    t == Float || t == Double
  }

  /** `std::numeric_limits<T>::is_signed`, the reference the conversion codes are checked against. */
  predicate IsSigned(t: CType, charSigned: bool)
  {
    match t
    case Char => charSigned
    case SChar | Short | Int | Long | LongLong | Float | Double => true
    case _ => false
  }

  /** `v` is a value of type `t` (widths are not modelled, only the sign of unsigned types). */
  predicate HasType(t: CType, v: Value)
  {
    match t
    case Bool => v.BoolV?
    case Char | SChar | Short | Int | Long | LongLong => v.IntV?
    case UChar | UShort | UInt | ULong | ULongLong => v.IntV? && v.i >= 0
    case Float | Double => v.RealV?
    case CharPtr => v.StrV?
    case VoidPtr => v.PtrV?
  }

  predicate WellTyped(a: Typed)
  {
    HasType(a.t, a.v)
  }

  /** Width class of an integer type, independent of how it is printed. */
  datatype IntWidth = CharWidth | ShortWidth | IntWidth | LongWidth | LongLongWidth

  function Width(t: CType): IntWidth
    requires IsInteger(t)
  {
    match t
    case Char | SChar | UChar => CharWidth
    case Short | UShort => ShortWidth
    case Int | UInt => IntWidth
    case Long | ULong => LongWidth
    case LongLong | ULongLong => LongLongWidth
  }

  /** The length modifier each width class is printed with: both char and short widths use "h". */
  function WidthModifier(w: IntWidth): string
  {
    match w
    case CharWidth | ShortWidth => "h"
    case IntWidth => ""
    case LongWidth => "l"
    case LongLongWidth => "ll"
  }

  /** `ptype_traits<T>::size_spec()`, one case per specialisation. */
  function SizeSpec(t: CType): (r: string)
    requires Registered(t)
    ensures IsInteger(t) ==> r == WidthModifier(Width(t))
    ensures !IsInteger(t) ==> r == ""
  {
    match t
    case Bool => ""
    case Char => "h"
    case Short => "h"
    case Int => ""
    case Long => "l"
    case LongLong => "ll"
    case SChar => "h"
    case UChar => "h"
    case UShort => "h"
    case UInt => ""
    case ULong => "l"
    case ULongLong => "ll"
    case Float => ""
    case Double => ""
    case CharPtr => ""
  }

  /** `ptype_traits<T>::fmt_spec()`, one case per specialisation. */
  function FmtSpec(t: CType, charSigned: bool): (c: char)
    requires Registered(t)
    ensures IsInteger(t) ==> (c == 'd' || c == 'u') && (c == 'd' <==> IsSigned(t, charSigned))
    ensures t == Bool ==> c == 'u'
    ensures IsFloating(t) ==> c == 'f'
    ensures t == CharPtr ==> c == 's'
  {
    match t
    case Bool => 'u'
    case Char => if charSigned then 'd' else 'u'
    case Short => 'd'
    case Int => 'd'
    case Long => 'd'
    case LongLong => 'd'
    case SChar => 'd'
    case UChar => 'u'
    case UShort => 'u'
    case UInt => 'u'
    case ULong => 'u'
    case ULongLong => 'u'
    case Float => 'f'
    case Double => 'f'
    case CharPtr => 's'
  }

  /** `ptype_traits<T>::cast`: `bool` becomes `unsigned int` 0 or 1, every other type passes unchanged. */
  function Cast(t: CType, v: Value): (r: Typed)
    requires Registered(t) && HasType(t, v)
    ensures WellTyped(r) && Registered(r.t)
    ensures t == Bool ==> r.t == UInt && (r.v == IntV(1) <==> v.b) && (r.v == IntV(0) <==> !v.b)
    ensures t != Bool ==> r == Typed(t, v)
  {
    if t == Bool then Typed(UInt, IntV(if v.b then 1 else 0)) else Typed(t, v)
  }

  /** Casting is canonicalising: a cast value casts to itself. */
  lemma CastIdempotent(t: CType, v: Value)
    requires Registered(t) && HasType(t, v)
    ensures Cast(Cast(t, v).t, Cast(t, v).v) == Cast(t, v)
  {
  }

  /**
   * The signed and unsigned type of one width share their length modifier and
   * differ only in the conversion code, 'd' against 'u'.
   */
  lemma SignedUnsignedPairs(s: CType, u: CType, charSigned: bool)
    requires (s, u) in {(SChar, UChar), (Short, UShort), (Int, UInt), (Long, ULong), (LongLong, ULongLong)}
    ensures SizeSpec(s) == SizeSpec(u)
    ensures FmtSpec(s, charSigned) == 'd' && FmtSpec(u, charSigned) == 'u'
  {
  }

  /** Plain `char` prints exactly like `signed char` or `unsigned char`, whichever it matches in sign. */
  lemma PlainCharFollowsSignedness(charSigned: bool)
    ensures SizeSpec(Char) == SizeSpec(SChar) == SizeSpec(UChar)
    ensures FmtSpec(Char, charSigned) == (if charSigned then FmtSpec(SChar, charSigned) else FmtSpec(UChar, charSigned))
  {
  }
}
