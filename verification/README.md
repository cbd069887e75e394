# py_option in Dafny

A model of the two Option implementations of `py_option`, a Python library
that offers a Rust-style optional value (`Some` / `Non`) with combinators.

- **Tuple-encoded Option** (`src/py_option/__init__.py`, module `TupleOption`).
  `Option.new(v)` builds `(OptionType.Some, v)` or, for `None`, the one-tuple
  `(OptionType.Non,)`. The combinators are static functions that accept any
  Python value. A value that is neither tuple is *foreign*: some combinators
  raise `TypeError` on it, others fall back to a default.
- **Class-based Option** (`py_option/option.py`, module `ClassOption`).
  `Some(val)` and `Non()` are subclasses of one abstract class, and each
  answers `is_some`, `is_non`, `is_some_and`, `unwrap`, `unwrap_or` and
  `__eq__` with its own body. `Option.new` picks the class.

Shared pieces (module `Python`):

- `Value<O>` is a Python value: `None`, `bool`, `int`, `str`, a tuple, or an
  option object `Opt(o)` of the library under study.
- `Error` lists the exceptions that occur.
- `Result` is "returns a value" or "raises".
- Caller-supplied functions are Dafny functions that return a `Result`, so a
  function that raises can be modelled.

Each implementation plugs its own option datatype into `Value`. This makes
`Some(Non)` and `Some((1, Some(2)))` expressible, and makes every other value
foreign.

Behaviour the code has and the model follows:

- `map` raises `TypeError` on `Non`, on `Some(Non)` and on foreign input. It
  does not pass `Non` through.
- `map_or` and `map_or_else` return the wrapped `Some(f(v))`, not the bare
  `f(v)`.
- Every error the tuple-encoded combinators raise themselves is a `TypeError`.
  There is no separate "empty value" error.
- In the `map` family, whatever the mapper raises is replaced by a bare
  `TypeError`.
- `filter`, `unwrap_or_else` and the fallback of `map_or_else` let the
  callback's own exception through unchanged.
- `Non().unwrap()` raises the undefined name `OptionTypeError`. Python reports
  this as a `NameError`, and the model says so.
- `Option.new(None)` and `Option.new()` cannot be told apart. Both give `Non`.

The class-based `__eq__` is modelled together with Python's `==` dispatch
(`ClassOption.Equals`, `ClassOption.ValueEq`):

- An instance on the left uses its own `__eq__`.
- An instance only on the right is asked by the reflected call, because
  `None`, numbers, strings and tuples return `NotImplemented` for it.
- A foreign right operand has no `is_some` / `is_non` method, so the
  comparison raises `AttributeError`.
- Tuples are compared element by element.

Against the reference `Norm` (each `bool` read as the `int` it equals), `==`
is proved to answer `True` exactly on equal normal forms. It is also proved
reflexive, symmetric (exceptions included) and transitive.

Module `Correspondence` encodes class instances as tuples. It proves that the
two implementations agree on `new`, `is_some`, `is_non`, `unwrap` and
`unwrap_or`.

## Model

| member | source | states |
|---|---|---|
| TupleOption.New | src/py_option/__init__.py:38-41 | the result is always an option; it is `Non` exactly when the argument is `None`, otherwise a `Some` holding the argument |
| TupleOptionLaws.NewRoundTrip | src/py_option/__init__.py:124-158 | for any `v` other than `None`, `new(v)` is a `Some` (not a `Non`) and both `unwrap` and `expect` return `v` |
| TupleOptionLaws.NewOfNoneIsNon | src/py_option/__init__.py:38-39 | `new(None)` is `Non`; `unwrap` then raises a bare `TypeError` and `expect` raises `TypeError(msg)` |
| TupleOption.IsSome | src/py_option/__init__.py:61-68 | true exactly for a value of the form `(OptionType.Some, v)`, for any `v`; every other value, a foreign one included, gives false instead of raising |
| TupleOption.IsNon | src/py_option/__init__.py:88-95 | true exactly for the one value `(OptionType.Non,)`; every other value gives false instead of raising |
| TupleOption.IsOption | src/py_option/__init__.py:493-497 | true exactly for the values built as options, `Some` or `Non`; false for every foreign value |
| TupleOptionLaws.RecognizersExclusive | src/py_option/__init__.py:61-95 | `is_some` and `is_non` never both hold; one of them holds exactly for the option values |
| TupleOptionLaws.ForeignValuesAreNeither | src/py_option/__init__.py:52-86 | `is_some(123)`, `is_non(123)`, `is_some(None)` and `is_non(None)` are all false |
| TupleOption.Expect | src/py_option/__init__.py:124-127 | returns normally exactly on a `Some`, and then returns its contents; any other input raises `TypeError` carrying the caller's message |
| TupleOption.Unwrap | src/py_option/__init__.py:155-158 | returns normally exactly on a `Some`, and then returns its contents; `Non` and foreign input raise a bare `TypeError` |
| TupleOption.UnwrapOr | src/py_option/__init__.py:181-184 | never raises; returns the contents of a `Some`, and `default` for `Non` and foreign input |
| TupleOption.UnwrapOrElse | src/py_option/__init__.py:207-210 | returns the contents of a `Some` without calling `f`; otherwise returns or raises whatever `f()` does |
| TupleOptionLaws.ExpectFollowsUnwrap | src/py_option/__init__.py:124-158 | `expect` succeeds on the same inputs as `unwrap` with the same value; with an empty message it is `unwrap` |
| TupleOptionLaws.FallbacksFollowUnwrap | src/py_option/__init__.py:155-210 | `unwrap_or` and `unwrap_or_else` fall back exactly where `unwrap` raises and return `unwrap`'s value elsewhere; `unwrap_or_else` with a constant function is `unwrap_or` |
| TupleOption.Map | src/py_option/__init__.py:244-256 | succeeds exactly on a `Some(v)` with `v` not `Non` when `f(v)` returns, giving `Some(f(v))`; every failure (`Non`, `Some(Non)`, foreign, raising `f`) is a bare `TypeError` |
| TupleOptionLaws.MapOfNew | src/py_option/__init__.py:244-256 | `map(new(v), f)` is `Some(f(v))` and unwraps to `f(v)`; it raises when `v` is `Non` or `f(v)` raises |
| TupleOptionLaws.MapRejectsNonAndForeign | src/py_option/__init__.py:244-256 | `map` on anything that is not a `Some` raises `TypeError`, whatever `f` is |
| TupleOption.MapOr | src/py_option/__init__.py:297-309 | equals `map` on the inputs `map` maps (a raising `f` still raises); on `Non`, `Some(Non)` and foreign input returns `default` |
| TupleOption.MapOrElse | src/py_option/__init__.py:350-362 | equals `map` on the inputs `map` maps; on every other input returns or raises what `default_f()` does |
| TupleOptionLaws.MapOrFamily | src/py_option/__init__.py:297-362 | `map_or` agrees with `map` wherever `map` succeeds; it raises exactly when `f` raises on a mappable `Some`; `map_or_else` with a constant fallback is `map_or` |
| TupleOptionLaws.MapOrWrapsResult | src/py_option/__init__.py:297-305 | on a mappable `Some(v)`, `map_or` gives the wrapped `Some(f(v))`, not the bare `f(v)` |
| TupleOption.AndOption | src/py_option/__init__.py:387-392 | `Non` gives itself; a `Some` gives `optb` unchanged and unchecked; foreign first input raises `TypeError` |
| TupleOptionLaws.AndOptionAssociative | src/py_option/__init__.py:387-392 | on options, `and_option(and_option(a, b), c)` equals `and_option(a, and_option(b, c))` |
| TupleOption.AndThen | src/py_option/__init__.py:420-425 | equals `map` on a `Some`, returns `Non` unchanged, and raises `TypeError` on foreign input |
| TupleOptionLaws.AndThenIsMapOrPassThrough | src/py_option/__init__.py:420-425 | `and_then` is `map` on a `Some` and `and_option(o, anything)` on a `Non`; both raise on foreign input |
| TupleOption.Zip | src/py_option/__init__.py:452-464 | raises exactly for a foreign first input or a `Some` paired with a foreign value; otherwise the result is an option, a `Some` exactly when both inputs are, and it holds the pair of their contents |
| TupleOptionLaws.ZipOfNew | src/py_option/__init__.py:452-460 | `zip(new(v1), new(v2)) == new((v1, v2))`; `Some` with `Non` gives `Non`; a `Non` first input gives `Non` whatever the second is |
| TupleOption.Flatten | src/py_option/__init__.py:499-509 | succeeds exactly on options and always returns an option; `Some(o)` with `o` an option gives `o`; every other option is returned unchanged |
| TupleOptionLaws.FlattenOfNestedNew | src/py_option/__init__.py:477-487 | `flatten(new(new(v))) == new(v)` for every `v`, and on three levels exactly one level is removed |
| TupleOptionLaws.FlattenUndoesMapWrap | src/py_option/__init__.py:499-507 | flattening the result of mapping the `Some` constructor over a mappable `Some` gives back the input |
| TupleOptionLaws.FlattenFixedPoints | src/py_option/__init__.py:499-507 | `Non` and a `Some` of a non-option are returned unchanged by `flatten` |
| TupleOption.Filter | src/py_option/__init__.py:543-555 | `Non` gives itself; a `Some` is kept exactly when the predicate returns `True` and becomes `Non` exactly when it returns `False`; the predicate's exception is raised unchanged; any other answer, and foreign input, raise `TypeError` |
| TupleOptionLaws.FilterConstant | src/py_option/__init__.py:543-555 | an always-`True` predicate keeps an option; an always-`False` one empties it; a non-`bool` answer on a `Some` raises `TypeError` |
| TupleOptionLaws.FilterIdempotent | src/py_option/__init__.py:543-555 | filtering a second time with the same predicate changes nothing |
| TupleOption.OrOption | src/py_option/__init__.py:582-592 | raises exactly for a foreign first input, or a `Non` paired with a foreign value; otherwise returns the first input if it is a `Some`, else `optb` |
| TupleOptionLaws.OrOptionAssociative | src/py_option/__init__.py:582-592 | on options, `or_option` is associative |
| TupleOptionLaws.OrOptionNonIdentity | src/py_option/__init__.py:582-592 | `Non` is the identity of `or_option` on either side |
| TupleOptionLaws.OrOptionShortCircuits | src/py_option/__init__.py:582-590 | a `Some` first input is returned without checking `optb`; `Non` with a foreign `optb` raises |
| TupleOptionLaws.DocumentedScenarios | tests/test_option.py:30-101 | the tests' and doctests' concrete cases: `unwrap`, `unwrap_or`, `map` of 123 with `x + 321`, `map_or` of `Some(Non)`, `and_then`, `zip` with `"world"`, `flatten((1, 2, 3))`, `filter` with a non-`bool` answer, `or_option` |
| ClassOption.New | py_option/option.py:96-100 | `Non` exactly for `None`, otherwise a `Some` holding the argument |
| ClassOption.IsSome | py_option/option.py:37-70 | true exactly for the instances of `Some`, whatever they hold |
| ClassOption.IsNon | py_option/option.py:43-76 | true exactly for the one `Non` instance value |
| ClassOptionLaws.NewUnwrap | py_option/option.py:96-100 | `new(v)` for `v` not `None` is a `Some` that `unwrap` and `unwrap_or` open to `v`; `new(None)` is `Non`, on which `unwrap` raises and `unwrap_or` gives the default |
| ClassOptionLaws.NewOfInstanceIsSome | tests/test_methods.py:7-15 | `new` of an instance, a `Non` instance included, is a `Some` holding that instance |
| ClassOptionLaws.Complementary | py_option/option.py:37-76 | every instance answers exactly one of `is_some` and `is_non` with true, and `is_some` is true exactly for `Some` |
| ClassOption.IsSomeAnd | py_option/option.py:40-73 | `Non` gives `False`; `Some(v)` gives exactly what `f(v)` returns or raises, with no coercion to `bool` |
| ClassOptionLaws.IsSomeAndRefinesIsSome | py_option/option.py:40-73 | an answer of exactly `True` implies `is_some`; on `Non` the answer does not depend on `f`; with an always-`True` predicate `is_some_and` is `is_some`; on a `Some` it is `f` of what `unwrap` returns |
| ClassOptionLaws.IsSomeAndReturnsCallbackResult | tests/test_methods.py:17-18 | `Some(123).is_some_and(lambda x: x + 321)` is `444` |
| ClassOption.Unwrap | py_option/option.py:46-79 | returns normally exactly on a `Some`, giving its value; `Non` raises (a `NameError`, since `OptionTypeError` is undefined) |
| ClassOption.UnwrapOr | py_option/option.py:49-82 | the value of a `Some`, ignoring `default`; `default` for `Non` |
| ClassOptionLaws.UnwrapOrFollowsUnwrap | py_option/option.py:46-82 | `unwrap_or` returns `unwrap`'s value where it succeeds and `default` exactly where it raises |
| ClassOption.Equals | py_option/option.py:56-88 | a foreign right operand raises; `Some == Non` is false; `Some(a) == Some(b)` is the held values' `a == b`, exceptions included; `Non == x` is `x.is_non()` for an instance `x` |
| ClassOption.ValueEq | py_option/option.py:56-58 | Python's `==` reached from line 58: an instance on the left decides; else an instance on the right decides by the reflected call; two tuples compare item by item, and tuples of different lengths are never equal; a tuple and a non-tuple are unequal; other values compare as `None`/`bool`/`int`/`str` do |
| ClassOption.ItemsEq | py_option/option.py:58 | tuple `==` on held tuples: an empty side decides by the lengths; a raising first pair raises the same exception; an unequal first pair gives `False`; `True` only for equal lengths (what happens after an equal pair is stated by `ClassOptionLaws.ItemsEqFirstDifference` and `ClassOptionLaws.ItemsEqCommonPrefix`) |
| ClassOptionLaws.EqualityMatchesNorm | py_option/option.py:56-88 | `a == b` is `True` exactly when `a` and `b` are equal once each `bool` is read as an `int`, at any depth of nesting |
| ClassOptionLaws.EqualsMatchesNorm | py_option/option.py:56-88 | the `__eq__` of an instance is `True` exactly when the normal forms of both sides are equal |
| ClassOptionLaws.ItemsEqFirstDifference | py_option/option.py:58 | tuple `==` walks the pairs in order: when the first `i` pairs compare `True` and pair `i` does not, pair `i` decides, so a later pair's exception (`(1, Non()) == (1, 2)` raising `AttributeError`) is raised and a later `False` gives `False` |
| ClassOptionLaws.ItemsEqCommonPrefix | py_option/option.py:58 | when every pair up to the shorter length compares `True`, the answer is whether the lengths are equal, so `(1,) == (1, 2)` is `False` and equal-length tuples of pairwise-equal items are equal |
| ClassOptionLaws.EqualityReflexive | py_option/option.py:56-88 | `x == x` is `True` for every value, nested instances included |
| ClassOptionLaws.EqualsOnInstances | py_option/option.py:56-88 | `Some(v) == Some(v)` and `Non == Non` are true; `Some(v) == Non` and `Non == Some(v)` are false; `Some(v) == Some(w)` is true exactly when `v == w` is |
| ClassOptionLaws.EqualitySymmetric | py_option/option.py:56-88 | `a == b` and `b == a` give the same answer or raise the same exception |
| ClassOptionLaws.EqualityTransitive | py_option/option.py:56-88 | `a == b` and `b == c` both true imply `a == c` true |
| ClassOptionLaws.InstanceAgainstForeign | py_option/option.py:56-88 | comparing an instance with a foreign value raises `AttributeError` on either side, naming `is_some` for `Some` and `is_non` for `Non` |
| Correspondence.NewCorresponds | py_option/option.py:96-100 | the tuple encoding of the class-based `new(v)` is the tuple-encoded `new` of the encoded `v` |
| Correspondence.RecognizersCorrespond | py_option/option.py:37-76 | the encoding of an instance is never foreign, and both implementations answer `is_some` and `is_non` alike |
| Correspondence.UnwrapCorresponds | py_option/option.py:46-82 | both `unwrap`s succeed on the same instances with corresponding values; on `Non` one raises `NameError` and the other a bare `TypeError`; both `unwrap_or`s correspond for every default |
| Correspondence.EncodeInjective | py_option/option.py:30-88 | the tuple encoding of class instances and the values they hold is injective, so nothing of a class-based value is lost in its tuple counterpart |
| Correspondence.TupleUnwrapDeterminesInstance | py_option/option.py:46-79 | two instances whose encodings give the same tuple-encoded `unwrap` outcome are the same instance, so the class-based `unwrap` outcome can be read back from the tuple one |

## Left out

- Recognising options by tuple unpacking is not modelled. The source treats
  any two-item iterable whose first item is `OptionType.Some` as a `Some`,
  and any one-item iterable holding `OptionType.Non` as a `Non`. That includes
  hand-built tuples and lists. In the model, only values built as options are
  options, and every other value is foreign.
- `OptionType.__iter__` (src/py_option/__init__.py:10-14) and the `typing`
  aliases are left out. They only serve type annotations.
- Exception texts are left out, except the `expect` message and the names in
  `AttributeError` / `NameError`. Exception classes are kept only as far as
  the `Error` datatype distinguishes them.
- `__repr__` of both classes is left out. It is presentation only.
- Caller-supplied functions are pure and always terminate. Side effects and
  non-termination are left out.
- Object identity is not modelled. `value is None` is a comparison with
  `None`. `result is True` / `is False` accept only `Bool(true)` /
  `Bool(false)`, so `1` is rejected. CPython's identity shortcut in tuple
  comparison cannot change an answer, because `==` is proved reflexive.
- Python values beyond `None`, `bool`, `int`, `str`, tuples and option objects
  are left out: floats, lists, dicts and user classes.
- Python `==` on tuple-encoded options, which the tests use, is not a member
  of the library and is not modelled. In the model, `==` on those options is
  Dafny's structural equality.
