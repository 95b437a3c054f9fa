# pfmtlog: type-directed formatting and gated log channels

A model of `src/lib/netlist/plib/pfmtlog.h` from the netlist library. The header has three parts.

- **Type traits** (`ptype_traits`). For each supported primitive type, the traits give a printf length modifier (`size_spec`), a conversion character (`fmt_spec`) and a canonicalising `cast`. The model is module `TypeTraits`.
- **The formatter `pfmt`.** Each chained call (`operator()`, `x`, `o`, `e`, `g`) selects one directive and passes it to `format_element`. A directive is a length modifier, a code and a value, together with the static type the value is passed as; `format_element` receives only the first three. The model is module `Formatter`.
- **Writers, channels and the bundle** (`pfmt_writer_t`, `plog_channel`, `plog_base`). A write is gated by a build-time flag, an optional per-call flag and a run-time flag, and forwards `(severity, text)` to a dispatch object. The model is module `Logging`. The six severities are in module `Levels`.

Modelling choices:

- **Static types.** The C++ static type of an argument is a `CType` value. Each trait is a total function of it, guarded by `Registered`.
- **Unregistered types.** The header only declares the primary `ptype_traits` template (pfmtlog.h:44-45). An unregistered type is therefore a compile error, and the model does not fall back to an unsigned rendering. `ptype_traits_base` is only the base that the specialisations inherit their defaults from. Those defaults are the empty modifier, `'u'` and the identity cast.
- **Plain `char`.** Whether plain `char` is signed is implementation-defined. It is the parameter `charSigned`.
- **`format_element`.** Its definition is not part of this model. `Pfmt.FormatElement` appends the directive to the ghost sequence `consumed`. Its contract leaves the text and the argument counter free.
- **The sink.** The dispatch object is `Dispatch`. Its `VLog` only appends a `Record(level, text)` to the ghost sequence `records`. So "exactly one write" and "no write" are statements about that sequence.
- **`Channel`.** `pfmt_writer_t` and its one implementation `plog_channel` are a single class, `Channel`. The build flag and the level are `const` fields. `m_enabled` is the mutable field `enabled`. The per-call template flag of `log` and the build flag are ordinary booleans.

## Model

| member | source | states |
|---|---|---|
| Levels.AllLevels | src/lib/netlist/plib/pfmtlog.h:17-23 | the six severities DEBUG, INFO, VERBOSE, WARNING, ERROR, FATAL; the rank of each is its position in declaration order, and every severity appears |
| Levels.BelowIsStrictTotalOrder | src/lib/netlist/plib/pfmtlog.h:17-23 | severity order is irreflexive, transitive and total |
| TypeTraits.SizeSpec | src/lib/netlist/plib/pfmtlog.h:25-145 | an integer type's modifier is the one for its width class ("h" for char and short widths, "" for int, "l" for long, "ll" for long long); bool, float, double and `char *` have none |
| TypeTraits.FmtSpec | src/lib/netlist/plib/pfmtlog.h:25-145 | an integer type gets 'd' exactly when `numeric_limits` calls it signed, 'u' otherwise (plain char by the platform's signedness); bool gets 'u', float and double 'f', `char *` 's' |
| TypeTraits.Cast | src/lib/netlist/plib/pfmtlog.h:25-145 | bool becomes `unsigned int` 1 when true and 0 when false; every other registered type passes unchanged; the result is well typed |
| TypeTraits.CastIdempotent | src/lib/netlist/plib/pfmtlog.h:28-42 | casting an already cast value changes nothing |
| TypeTraits.SignedUnsignedPairs | src/lib/netlist/plib/pfmtlog.h:59-125 | each signed/unsigned pair of one width shares its modifier and differs only in 'd' against 'u' |
| TypeTraits.PlainCharFollowsSignedness | src/lib/netlist/plib/pfmtlog.h:52-57 | plain char has the modifier of signed/unsigned char and the code of whichever it matches in sign |
| Formatter.CallDirective | src/lib/netlist/plib/pfmtlog.h:166-179 | the directive of `operator()` carries one of the nine known codes and a well-typed value |
| Formatter.CallDirectiveByKind | src/lib/netlist/plib/pfmtlog.h:166-179 | 's' exactly for pstring and C string, 'p' exactly for `const void *`; integers keep their value, take their width's modifier and 'd' iff signed; bool is an unsigned 'u'; float/double use "" and 'f'; pstring passes its C string |
| Formatter.CallDirectiveCollisions | src/lib/netlist/plib/pfmtlog.h:166-194 | two arguments hand `format_element` the same modifier, code and value iff they are equal values of one printf class (short, signed char and a signed plain char; unsigned short, unsigned char and an unsigned plain char; float and double; otherwise one type), or one is a bool and the other the unsigned int 0/1 it casts to, or one is a pstring and the other a C string of the same text |
| Formatter.RadixDirective | src/lib/netlist/plib/pfmtlog.h:181-191 | `x`/`o` produce a known code and a well-typed value |
| Formatter.RadixOverridesInferred | src/lib/netlist/plib/pfmtlog.h:181-191 | `x`/`o` keep the inferred modifier of any registered type, always replace its inferred code, and pass the value uncast (different from the inferred value only for bool) |
| Formatter.FloatDirective | src/lib/netlist/plib/pfmtlog.h:160-164 | `e`/`g` produce a known code and always pass a double |
| Formatter.FloatOverridesInferred | src/lib/netlist/plib/pfmtlog.h:160-164 | `e`/`g` replace the inferred 'f' of float and double with the same empty modifier and the same value, widened to double |
| Formatter.Directives | src/lib/netlist/plib/pfmtlog.h:240-246 | the argument list yields exactly one directive per argument |
| Formatter.DirectivesAt | src/lib/netlist/plib/pfmtlog.h:240-246 | the i-th directive is the one `operator()` selects for the i-th argument |
| Formatter.DirectivesCons | src/lib/netlist/plib/pfmtlog.h:243-246 | the first argument is consumed before the rest |
| Formatter.DirectivesAppend | src/lib/netlist/plib/pfmtlog.h:240-246 | consuming two lists in turn is consuming their concatenation |
| Formatter.DirectivesOrderMatters | src/lib/netlist/plib/pfmtlog.h:240-246 | swapping two arguments with different directives changes the directive sequence |
| Formatter.ExampleDirectives | src/lib/netlist/plib/pfmtlog.h:166-173 | an unsigned int 3 then "widgets" give ("", 'u', 3) then ("", 's', "widgets"); true gives ("", 'u', 1); int -5 gives ("", 'd', -5) |
| Formatter.Pfmt.constructor | src/lib/netlist/plib/pfmtlog.h:150-153 | a new formatter holds the format text, argument counter 0, nothing consumed |
| Formatter.Pfmt.AsPString | src/lib/netlist/plib/pfmtlog.h:159 | the conversion to pstring returns the held text and, being a function, changes nothing |
| Formatter.Pfmt.FormatElement | src/lib/netlist/plib/pfmtlog.h:194 | consumes exactly the given directive, after all earlier ones, and returns the formatter itself |
| Formatter.Pfmt.Call | src/lib/netlist/plib/pfmtlog.h:166-179 | `operator()` consumes exactly `CallDirective` of its argument and returns the formatter itself |
| Formatter.Pfmt.X | src/lib/netlist/plib/pfmtlog.h:181-185 | consumes the hexadecimal directive of its argument and returns the formatter itself |
| Formatter.Pfmt.O | src/lib/netlist/plib/pfmtlog.h:187-191 | consumes the octal directive of its argument and returns the formatter itself |
| Formatter.Pfmt.E | src/lib/netlist/plib/pfmtlog.h:160-163 | consumes the 'e' directive with the value as a double and returns the formatter itself |
| Formatter.Pfmt.G | src/lib/netlist/plib/pfmtlog.h:161-164 | consumes the 'g' directive with the value as a double and returns the formatter itself |
| Logging.Dispatch.VLog | src/lib/netlist/plib/pfmtlog.h:273 | one call is recorded with its severity and text, after all earlier ones |
| Logging.Channel.constructor | src/lib/netlist/plib/pfmtlog.h:204-208 | a new channel has the given severity, build flag and dispatch pointer and is enabled at run time |
| Logging.Channel.SetEnabled | src/lib/netlist/plib/pfmtlog.h:228-231 | sets the run-time flag to the given value and changes nothing else |
| Logging.Channel.IsEnabled | src/lib/netlist/plib/pfmtlog.h:233 | returns the run-time flag |
| Logging.Channel.VDoWrite | src/lib/netlist/plib/pfmtlog.h:300-304 | the dispatch object records exactly one call, with the channel's severity and the given text |
| Logging.Channel.XLog | src/lib/netlist/plib/pfmtlog.h:240-246 | consumes the arguments' directives left to right, one `operator()` call each, and returns the same formatter; with no arguments the formatter's text and counter are unchanged |
| Logging.Channel.Call | src/lib/netlist/plib/pfmtlog.h:218-226 | when the build and run-time flags are both set, records exactly one write of the channel's severity with the text of a fresh formatter that consumed exactly the arguments' directives; otherwise records nothing; the run-time flag is unchanged |
| Logging.Channel.Log | src/lib/netlist/plib/pfmtlog.h:211-216 | the same as `Call`, also gated by the caller's flag |
| Logging.LogBase.constructor | src/lib/netlist/plib/pfmtlog.h:276-297 | six fresh channels with severities DEBUG to FATAL in that order. All share the one proxy and are enabled at run time. Only debug takes the `debug_enabled` build flag; the others are always build-enabled |
| Logging.WarningOffInfoOn | src/lib/netlist/plib/pfmtlog.h:281-304 | in a bundle with warning disabled, a warning call and then an info call leave exactly one new record on the shared sink, tagged INFO |

## Left out

- Formatter.Pfmt.FormatElement: does not state what happens to the text (`m_str`) or the argument counter (`m_arg`). The definition of `format_element` is not part of this model, so the marker syntax and the substitution are unknown.
- Logging.Channel.Call: the text written is the formatter's final text. That text is constrained only when there are no arguments, where it is the format string, because substitution is not modelled.
- Logging.Channel.Log: the same limit as `Call`. The header's `log` passes the temporary `pfmt(fmt)` to `xlog`, which takes `pfmt &`; standard C++ does not bind a temporary to a non-const reference, so `log` compiles only under a permissive compiler. `Log` models the evident intent, the named formatter that `operator()` uses.
- Rendering numbers, floats (`'f'`, `'e'`, `'g'`) and addresses (`'p'`) to text is left out. It is done by the C library.
- Integer widths and wrap-around are left out. Integers are unbounded; unsigned types hold non-negative values, and plain `char` holds any integer. No trait depends on a value's magnitude.
- Float and double values are reals. Widening float to double keeps the value, and only the passed type changes.
- C's default argument promotions are left out. Through `...`, char and short become int, and float becomes double. A directive records the type that `format_element` is called with.
- Pointers other than `char *` and `const void *` are left out. A non-const `void *` selects the `operator()(const T &)` template, which needs the undefined `ptype_traits<void *>`, so it does not compile. `operator()(const T *)` needs `ptype_traits<T *>`, and only `char *` is registered, so other pointer types do not compile. The overload-resolution details between the pointer and reference templates are also left out.
- `pstring` internals are left out. A pstring is its text, and `c_str()` is that text passed as a C string.
- The names that the `P_ENUM` macro generates are left out. Only the order of the six levels is modelled.
- `nocopyassignmove`, destructors and virtual dispatch are left out.
- The claim that a disabled build gate skips argument evaluation is left out. Nothing in the header shows it, and arguments here are values.
- Concurrency: the header has none.
