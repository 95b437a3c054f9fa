/**
 * The chainable formatter `pfmt`. Each consuming call chooses a conversion
 * directive (length modifier, conversion code, value) and hands it to
 * `format_element`, then returns the formatter itself.
 *
 * The body of `format_element` (the textual substitution) is not part of this
 * model. A formatter keeps a ghost record of the directives it was handed, in
 * order; what the substitution does to the text and to the argument counter
 * is left unspecified.
 */
module Formatter {
  import opened TypeTraits

  /** One argument of a formatting call, by the overload it selects. */
  datatype Arg =
    | Val(t: CType, v: Value)   // a value of a C++ primitive type, `const char *` or `const void *`
    | PStr(s: string)           // a `pstring`

  predicate ArgOk(a: Arg)
  {
    a.PStr? || HasType(a.t, a.v)
  }

  /** What `format_element` receives: length modifier, conversion code and the value passed through `...`. */
  datatype Directive = Directive(size: string, code: char, arg: Typed)

  /** Every argument of a list is well typed. */
  predicate ArgsOk(args: seq<Arg>)
  {
    forall a :: a in args ==> ArgOk(a)
  }

  /** The conversion codes a directive may carry. */
  predicate KnownCode(c: char)
  {
    c in {'d', 'u', 'f', 's', 'p', 'x', 'o', 'e', 'g'}
  }

  /**
   * The directive `pfmt::operator()` selects for one argument: a `pstring`
   * renders through its C string with 's', an address with 'p', and every
   * registered type through its traits and its cast.
   */
  function CallDirective(a: Arg, charSigned: bool): (d: Directive)
    requires ArgOk(a)
    ensures KnownCode(d.code) && WellTyped(d.arg)
  {
    match a
    case PStr(s) => Directive("", 's', Typed(CharPtr, StrV(s)))
    case Val(t, v) =>
      if t == VoidPtr then Directive("", 'p', Typed(VoidPtr, v))
      else Directive(SizeSpec(t), FmtSpec(t, charSigned), Cast(t, v))
  }

  /**
   * What `operator()` hands on, by kind of argument: strings and only strings
   * use 's', addresses and only addresses 'p'; integers keep their value and get
   * the modifier of their width and 'd' exactly when signed; `bool` becomes an
   * unsigned 'u'; float and double use 'f'; nothing but integers has a modifier.
   */
  lemma CallDirectiveByKind(a: Arg, charSigned: bool)
    requires ArgOk(a)
    ensures var d := CallDirective(a, charSigned);
      && (d.code == 's' <==> a.PStr? || a.t == CharPtr)
      && (d.code == 'p' <==> a.Val? && a.t == VoidPtr)
      && (a.Val? && IsInteger(a.t) ==>
            d.size == WidthModifier(Width(a.t)) && (d.code == 'd' <==> IsSigned(a.t, charSigned)) &&
            d.arg == Typed(a.t, a.v))
      && (a.Val? && a.t == Bool ==> d.size == "" && d.code == 'u' && d.arg.t == UInt)
      && (a.Val? && IsFloating(a.t) ==> d.size == "" && d.code == 'f' && d.arg == Typed(a.t, a.v))
      && (a.PStr? ==> d.size == "" && d.arg == Typed(CharPtr, StrV(a.s)))
      && (a.Val? && (a.t == CharPtr || a.t == VoidPtr) ==> d.size == "" && d.arg == Typed(a.t, a.v))
  {
  }

  /** `pfmt::x` and `pfmt::o`: the inferred length modifier of `t`, a forced 'x' or 'o', the value uncast. */
  function RadixDirective(code: char, t: CType, v: Value): (d: Directive)
    requires code == 'x' || code == 'o'
    requires Registered(t) && HasType(t, v)
    ensures KnownCode(d.code) && WellTyped(d.arg)
  {
    Directive(SizeSpec(t), code, Typed(t, v))
  }

  /** `pfmt::e` and `pfmt::g`: no length modifier, a forced 'e' or 'g', a float argument widened to double. */
  function FloatDirective(code: char, t: CType, x: real): (d: Directive)
    requires code == 'e' || code == 'g'
    requires IsFloating(t)
    ensures KnownCode(d.code) && WellTyped(d.arg) && d.arg.t == Double
  {
    Directive("", code, Typed(Double, RealV(x)))
  }

  /**
   * An explicit 'x' or 'o' overrides the code the traits would choose for any
   * registered type, keeps its length modifier, and passes the value uncast:
   * the value differs from the inferred one only for `bool`.
   */
  lemma RadixOverridesInferred(code: char, t: CType, v: Value, charSigned: bool)
    requires code == 'x' || code == 'o'
    requires Registered(t) && HasType(t, v)
    ensures RadixDirective(code, t, v).size == CallDirective(Val(t, v), charSigned).size
    ensures RadixDirective(code, t, v).code != CallDirective(Val(t, v), charSigned).code
    ensures RadixDirective(code, t, v).arg == CallDirective(Val(t, v), charSigned).arg <==> t != Bool
  {
  }

  /**
   * An explicit 'e' or 'g' overrides the inferred 'f' of float and double,
   * with the same (empty) length modifier; a double value passes unchanged.
   */
  lemma FloatOverridesInferred(code: char, t: CType, x: real, charSigned: bool)
    requires code == 'e' || code == 'g'
    requires IsFloating(t)
    ensures FloatDirective(code, t, x).size == CallDirective(Val(t, RealV(x)), charSigned).size
    ensures CallDirective(Val(t, RealV(x)), charSigned).code == 'f'
    ensures FloatDirective(code, t, x).arg.v == CallDirective(Val(t, RealV(x)), charSigned).arg.v
    ensures FloatDirective(code, t, x).arg == CallDirective(Val(t, RealV(x)), charSigned).arg <==> t == Double
  {
  }

  /**
   * What `format_element` itself receives of a directive: the length
   * modifier, the code and the value. The static type the value is passed as
   * is not among its parameters.
   */
  function Received(d: Directive): (string, char, Value)
  {
    (d.size, d.code, d.arg.v)
  }

  /**
   * Distinct C++ types whose values `operator()` hands on alike: the "h"
   * signed types (with plain `char` when it is signed), the "h" unsigned
   * types (with plain `char` when it is not), and float with double.
   */
  predicate SamePrintfClass(s: CType, t: CType, charSigned: bool)
  {
    s == t ||
    {s, t} <= {Short, SChar} + (if charSigned then {Char} else {}) ||
    {s, t} <= {UShort, UChar} + (if charSigned then {} else {Char}) ||
    {s, t} <= {Float, Double}
  }

  /**
   * Arguments of different overloads that `operator()` hands on alike: a
   * `bool` and the `unsigned int` 0 or 1 it is cast to, and a `pstring` and a
   * C string with the same text.
   */
  predicate CastTogether(a: Arg, b: Arg)
  {
    (a.Val? && a.t == Bool && a.v.BoolV? && b == Val(UInt, IntV(if a.v.b then 1 else 0))) ||
    (a.PStr? && b == Val(CharPtr, StrV(a.s)))
  }

  /**
   * Exactly these arguments are the ones `format_element` cannot tell apart:
   * equal values of types in one printf class, and the two cast pairs.
   */
  lemma CallDirectiveCollisions(a: Arg, b: Arg, charSigned: bool)
    requires ArgOk(a) && ArgOk(b)
    ensures Received(CallDirective(a, charSigned)) == Received(CallDirective(b, charSigned)) <==>
              (a.Val? && b.Val? && a.v == b.v && SamePrintfClass(a.t, b.t, charSigned)) ||
              (a.PStr? && a == b) || CastTogether(a, b) || CastTogether(b, a)
  {
    CallDirectiveByKind(a, charSigned);
    CallDirectiveByKind(b, charSigned);
  }

  /** The directives `xlog` hands on for an argument list, one per argument, left to right. */
  function Directives(args: seq<Arg>, charSigned: bool): (ds: seq<Directive>)
    requires ArgsOk(args)
    ensures |ds| == |args|
  {
    if args == [] then [] else [CallDirective(args[0], charSigned)] + Directives(args[1..], charSigned)
  }

  /** The i-th directive handed on is the one `operator()` selects for the i-th argument. */
  lemma {:induction false} DirectivesAt(args: seq<Arg>, i: nat, charSigned: bool)
    requires ArgsOk(args) && i < |args|
    ensures ArgOk(args[i])
    ensures Directives(args, charSigned)[i] == CallDirective(args[i], charSigned)
    decreases i
  {
    DirectivesCons(args, charSigned);
    if i > 0 {
      DirectivesAt(args[1..], i - 1, charSigned);
    }
  }

  /** The first argument is consumed first, then the rest. */
  lemma DirectivesCons(args: seq<Arg>, charSigned: bool)
    requires ArgsOk(args) && args != []
    ensures ArgOk(args[0]) && ArgsOk(args[1..])
    ensures Directives(args, charSigned) == [CallDirective(args[0], charSigned)] + Directives(args[1..], charSigned)
  {
    assert args[0] in args;
    forall a | a in args[1..] ensures ArgOk(a) { assert a in args; }
  }

  lemma ArgsOkAppend(xs: seq<Arg>, ys: seq<Arg>)
    requires ArgsOk(xs) && ArgsOk(ys)
    ensures ArgsOk(xs + ys)
  {
    forall a | a in xs + ys ensures ArgOk(a) {
      assert a in xs || a in ys;
    }
  }

  /** Consuming two argument lists one after the other is consuming their concatenation. */
  lemma {:induction false} DirectivesAppend(xs: seq<Arg>, ys: seq<Arg>, charSigned: bool)
    requires ArgsOk(xs) && ArgsOk(ys)
    ensures ArgsOk(xs + ys)
    ensures Directives(xs + ys, charSigned) == Directives(xs, charSigned) + Directives(ys, charSigned)
    decreases |xs|
  {
    ArgsOkAppend(xs, ys);
    if xs == [] {
      assert xs + ys == ys;
    } else {
      var rest := xs[1..];
      DirectivesCons(xs, charSigned);
      DirectivesAppend(rest, ys, charSigned);
      DirectivesCons(xs + ys, charSigned);
      assert (xs + ys)[0] == xs[0];
      assert (xs + ys)[1..] == rest + ys;
      ghost var d0 := CallDirective(xs[0], charSigned);
      calc {
        Directives(xs + ys, charSigned);
        [d0] + Directives(rest + ys, charSigned);
        [d0] + (Directives(rest, charSigned) + Directives(ys, charSigned));
        ([d0] + Directives(rest, charSigned)) + Directives(ys, charSigned);
      }
    }
  }

  /** Order matters: two arguments that select different directives cannot be swapped unnoticed. */
  lemma DirectivesOrderMatters(a: Arg, b: Arg, charSigned: bool)
    requires ArgOk(a) && ArgOk(b)
    requires CallDirective(a, charSigned) != CallDirective(b, charSigned)
    ensures Directives([a, b], charSigned) != Directives([b, a], charSigned)
  {
    assert a in [a, b] && b in [a, b];
    DirectivesAt([a, b], 0, charSigned);
    DirectivesAt([b, a], 0, charSigned);
  }

  /**
   * Worked examples: an `unsigned int` 3 then a C string select 'u' then 's';
   * `true` selects the unsigned 1; a negative `int` keeps its sign under 'd'.
   */
  lemma ExampleDirectives(charSigned: bool)
    ensures Directives([Val(UInt, IntV(3)), Val(CharPtr, StrV("widgets"))], charSigned) ==
              [Directive("", 'u', Typed(UInt, IntV(3))), Directive("", 's', Typed(CharPtr, StrV("widgets")))]
    ensures CallDirective(Val(Bool, BoolV(true)), charSigned) == Directive("", 'u', Typed(UInt, IntV(1)))
    ensures CallDirective(Val(Int, IntV(-5)), charSigned) == Directive("", 'd', Typed(Int, IntV(-5)))
  {
  }

  /** The formatter: the text being built, the argument counter and (ghost) the directives consumed. */
  class Pfmt {
    var str: string
    var arg: nat
    ghost var consumed: seq<Directive>

    constructor (fmt: string)
      ensures str == fmt && arg == 0 && consumed == []
    {
      str := fmt;
      arg := 0;
      consumed := [];
    }

    /** `operator pstring()`: reads back the text; being a function, it changes nothing. */
    function AsPString(): (s: string)
      reads this
      ensures s == str
    {
      str
    }

    /**
     * `format_element`: consumes one directive and returns the formatter.
     * Its effect on `str` and `arg` is not modelled, so the contract leaves them free.
     */
    method FormatElement(d: Directive) returns (r: Pfmt)
      modifies this
      ensures r == this
      ensures consumed == old(consumed) + [d]
    {
      consumed := consumed + [d];
      r := this;
    }

    /** `operator()` for every argument kind. */
    method Call(a: Arg, charSigned: bool) returns (r: Pfmt)
      requires ArgOk(a)
      modifies this
      ensures r == this
      ensures consumed == old(consumed) + [CallDirective(a, charSigned)]
    {
      match a
      case PStr(s) =>
        r := FormatElement(Directive("", 's', Typed(CharPtr, StrV(s))));
      case Val(t, v) =>
        if t == VoidPtr {
          r := FormatElement(Directive("", 'p', Typed(VoidPtr, v)));
        } else {
          r := FormatElement(Directive(SizeSpec(t), FmtSpec(t, charSigned), Cast(t, v)));
        }
    }

    /** `x(v)`: hexadecimal. */
    method X(t: CType, v: Value) returns (r: Pfmt)
      requires Registered(t) && HasType(t, v)
      modifies this
      ensures r == this
      ensures consumed == old(consumed) + [RadixDirective('x', t, v)]
    {
      r := FormatElement(Directive(SizeSpec(t), 'x', Typed(t, v)));
    }

    /** `o(v)`: octal. */
    method O(t: CType, v: Value) returns (r: Pfmt)
      requires Registered(t) && HasType(t, v)
      modifies this
      ensures r == this
      ensures consumed == old(consumed) + [RadixDirective('o', t, v)]
    {
      r := FormatElement(Directive(SizeSpec(t), 'o', Typed(t, v)));
    }

    /** `e(v)` for a float or a double: scientific notation. */
    method E(t: CType, x: real) returns (r: Pfmt)
      requires IsFloating(t)
      modifies this
      ensures r == this
      ensures consumed == old(consumed) + [FloatDirective('e', t, x)]
    {
      r := FormatElement(Directive("", 'e', Typed(Double, RealV(x))));
    }

    /** `g(v)` for a float or a double: general floating notation. */
    method G(t: CType, x: real) returns (r: Pfmt)
      requires IsFloating(t)
      modifies this
      ensures r == this
      ensures consumed == old(consumed) + [FloatDirective('g', t, x)]
    {
      r := FormatElement(Directive("", 'g', Typed(Double, RealV(x))));
    }
  }
}
