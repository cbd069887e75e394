/** Properties of the tuple-encoded Option: how its combinators relate to one
    another and to `new` / `unwrap`, and the algebraic laws they keep.
 */
module TupleOptionLaws {
  import opened Python
  import opened TupleOption

  /** `new(v)` for a `v` other than `None` is a `Some` that `unwrap` and
      `expect` open back to `v`; `new()` is `Non`, on which both raise. */
  lemma NewRoundTrip(v: Val, msg: string)
    requires v != NoneValue
    ensures IsSome(New(v)) && !IsNon(New(v))
    ensures Unwrap(New(v)) == Ok(v)
    ensures Expect(New(v), msg) == Ok(v)
  {
  }

  lemma NewOfNoneIsNon(msg: string)
    ensures New(NoneValue) == Nothing
    ensures IsNon(New(NoneValue)) && !IsSome(New(NoneValue))
    ensures Unwrap(New(NoneValue)) == Err(Bare)
    ensures Expect(New(NoneValue), msg) == Err(TypeError(msg))
  {
  }

  /** `is_some` and `is_non` never hold together; exactly one holds for an
      option and neither for a foreign value. */
  lemma RecognizersExclusive(o: Val)
    ensures !(IsSome(o) && IsNon(o))
    ensures o.Opt? <==> IsSome(o) || IsNon(o)
  {
  }

  /** The doctests' foreign values: `is_some(123)` and `is_non(None)` are false. */
  lemma ForeignValuesAreNeither()
    ensures !IsSome(Int(123)) && !IsNon(Int(123))
    ensures !IsSome(NoneValue) && !IsNon(NoneValue)
  {
  }

  /** `expect` succeeds exactly when `unwrap` does, with the same value; only
      the message of the `TypeError` differs. */
  lemma ExpectFollowsUnwrap(o: Val, msg: string)
    ensures Expect(o, msg).Ok? == Unwrap(o).Ok?
    ensures Unwrap(o).Ok? ==> Expect(o, msg) == Unwrap(o)
    ensures Expect(o, "") == Unwrap(o)
  {
  }

  /** `unwrap_or` and `unwrap_or_else` fall back in exactly the cases where
      `unwrap` raises (`Non` and foreign values), and return what `unwrap`
      returns otherwise. */
  lemma FallbacksFollowUnwrap(o: Val, default: Val, f: Thunk)
    ensures UnwrapOr(o, default) == (if Unwrap(o).Ok? then Unwrap(o).value else default)
    ensures UnwrapOrElse(o, f) == (if Unwrap(o).Ok? then Unwrap(o) else f())
    ensures UnwrapOrElse(o, () => Ok(default)) == Ok(UnwrapOr(o, default))
  {
  }

  /** `map` on `new(v)`: `Some(f(v))` when `v` is not `Non` and `f` returns;
      `Some(Non)`, `Non`, and a raising `f` all give a bare `TypeError`. */
  lemma MapOfNew(v: Val, f: Callback)
    requires v != NoneValue
    ensures !IsNon(v) && f(v).Ok? ==> Map(New(v), f) == Ok(Opt(Some(f(v).value)))
    ensures !IsNon(v) && f(v).Ok? && f(v).value != NoneValue ==> Map(New(v), f) == Ok(New(f(v).value))
    ensures !IsNon(v) && f(v).Ok? ==> Unwrap(Map(New(v), f).value) == f(v)
    ensures IsNon(v) ==> Map(New(v), f) == Err(Bare)
    ensures f(v).Err? ==> Map(New(v), f) == Err(Bare)
  {
  }

  /** `map` raises on `Non` and on foreign values, whatever `f` is. */
  lemma MapRejectsNonAndForeign(o: Val, f: Callback)
    requires !IsSome(o)
    ensures Map(o, f) == Err(Bare)
  {
  }

  /** `map_or` and `map_or_else` agree with `map` wherever `map` does not
      reject the shape of its input, and fall back everywhere else; with a
      constant fallback function `map_or_else` is `map_or`. */
  lemma MapOrFamily(o: Val, default: Val, f: Callback)
    ensures Map(o, f).Ok? ==> MapOr(o, default, f) == Map(o, f)
    ensures MapOr(o, default, f).Err? <==> Mappable(o) && f(Contained(o)).Err?
    ensures MapOrElse(o, () => Ok(default), f) == MapOr(o, default, f)
  {
  }

  /** The result of `map_or` on a mappable `Some` is the wrapped `Some(f(v))`,
      not the bare `f(v)`. */
  lemma MapOrWrapsResult(v: Val, default: Val, f: Callback)
    requires v != NoneValue && !IsNon(v) && f(v).Ok?
    ensures MapOr(New(v), default, f) == Ok(Opt(Some(f(v).value)))
  {
  }

  /** `and_then` is `map` on a `Some` and `and_option(o, anything)` on a `Non`. */
  lemma AndThenIsMapOrPassThrough(o: Val, f: Callback, optb: Val)
    ensures IsSome(o) ==> AndThen(o, f) == Map(o, f)
    ensures IsNon(o) ==> AndThen(o, f) == AndOption(o, optb)
    ensures !IsOption(o) ==> AndThen(o, f).Err? && AndOption(o, optb).Err?
  {
  }

  /** `and_option` is associative on options. */
  lemma AndOptionAssociative(a: Val, b: Val, c: Val)
    requires IsOption(a) && IsOption(b)
    ensures AndOption(a, b).Ok?
    ensures AndOption(AndOption(a, b).value, c) ==
            (match AndOption(b, c)
             case Ok(bc) => AndOption(a, bc)
             case Err(e) => Err(e))
  {
  }

  /** `or_option` is associative on options, and `Non` is its identity on
      either side. */
  lemma OrOptionAssociative(a: Val, b: Val, c: Val)
    requires IsOption(a) && IsOption(b) && IsOption(c)
    ensures OrOption(a, b).Ok? && OrOption(b, c).Ok?
    ensures OrOption(OrOption(a, b).value, c) == OrOption(a, OrOption(b, c).value)
  {
  }

  lemma OrOptionNonIdentity(o: Val)
    requires IsOption(o)
    ensures OrOption(o, Nothing) == Ok(o)
    ensures OrOption(Nothing, o) == Ok(o)
  {
  }

  /** `or_option` only checks `optb` when the first argument is `Non`. */
  lemma OrOptionShortCircuits(v: Val, optb: Val)
    requires v != NoneValue
    ensures OrOption(New(v), optb) == Ok(New(v))
    ensures !IsOption(optb) ==> OrOption(Nothing, optb) == Err(Bare)
  {
  }

  /** `zip(new(v1), new(v2))` is `new((v1, v2))`; a `Non` on either side gives
      `Non`, and a `Non` first argument is returned whatever `optb` is. */
  lemma ZipOfNew(v1: Val, v2: Val, optb: Val)
    requires v1 != NoneValue && v2 != NoneValue
    ensures Zip(New(v1), New(v2)) == Ok(New(Tuple([v1, v2])))
    ensures Zip(New(v1), Nothing) == Ok(Nothing)
    ensures Zip(Nothing, optb) == Ok(Nothing)
  {
  }

  /** `flatten` undoes exactly one `new`: `flatten(new(new(v))) == new(v)` for
      every `v`, `None` included, so on three levels one level remains. */
  lemma FlattenOfNestedNew(v: Val)
    ensures Flatten(New(New(v))) == Ok(New(v))
    ensures Flatten(New(New(New(v)))) == Ok(New(New(v)))
  {
  }

  /** `flatten` after mapping the `Some` constructor gives back the input. */
  lemma FlattenUndoesMapWrap(o: Val)
    requires Mappable(o)
    ensures Map(o, (v: Val) => Ok(Opt(Some(v)))).Ok?
    ensures Flatten(Map(o, (v: Val) => Ok(Opt(Some(v)))).value) == Ok(o)
  {
  }

  /** A `Some` of a non-option and `Non` are fixed points of `flatten`. */
  lemma FlattenFixedPoints(o: Val)
    requires IsOption(o) && !(IsSome(o) && IsOption(Contained(o)))
    ensures Flatten(o) == Ok(o)
  {
  }

  /** `filter` with a predicate that always answers `True` keeps an option;
      one that always answers `False` empties it; one that answers anything
      else raises on a `Some`. */
  lemma FilterConstant(o: Val, answer: Val)
    requires IsOption(o)
    ensures Filter(o, (v: Val) => Ok(Bool(true))) == Ok(o)
    ensures Filter(o, (v: Val) => Ok(Bool(false))) == Ok(Nothing)
    ensures IsSome(o) && !answer.Bool? ==> Filter(o, (v: Val) => Ok(answer)) == Err(Bare)
  {
  }

  /** Filtering twice with the same predicate is filtering once. */
  lemma FilterIdempotent(o: Val, keep: Callback)
    ensures Filter(o, keep).Ok? ==> Filter(Filter(o, keep).value, keep) == Filter(o, keep)
  {
  }

  /** The tests' callback `lambda x: x + 321`. */
  const Plus321: Callback := (x: Val) => AddInt(x, 321)

  /** The doctests and tests of the module, on concrete values. */
  lemma DocumentedScenarios()
    ensures Unwrap(New(Int(123))) == Ok(Int(123))
    ensures UnwrapOr(New(Int(123)), Int(0)) == Int(123) && UnwrapOr(New(NoneValue), Int(0)) == Int(0)
    ensures UnwrapOr(Int(123), Int(0)) == Int(0)
    ensures Map(New(Int(123)), Plus321) == Ok(New(Int(444)))
    ensures Map(New(New(NoneValue)), Plus321) == Err(Bare)
    ensures Map(New(Str("Hello")), Plus321) == Err(Bare)
    ensures MapOr(New(New(NoneValue)), Int(0), Plus321) == Ok(Int(0))
    ensures MapOr(New(Int(123)), Int(0), Plus321) == Ok(New(Int(444)))
    ensures AndThen(New(Int(123)), Plus321) == Ok(New(Int(444)))
    ensures AndThen(New(NoneValue), Plus321) == Ok(New(NoneValue))
    ensures AndThen(Int(123), Plus321) == Err(Bare)
    ensures AndOption(New(Int(123)), New(New(NoneValue))) == Ok(New(New(NoneValue)))
    ensures Zip(New(Int(123)), New(Str("Hello"))) == Ok(New(Tuple([Int(123), Str("Hello")])))
    ensures Zip(New(Str("Hello")), Str("world")) == Err(Bare)
    ensures Flatten(Tuple([Int(1), Int(2), Int(3)])) == Err(Bare)
    ensures Filter(New(Int(123)), (x: Val) => Ok(Bool(x.Int? && x.i > 100))) == Ok(New(Int(123)))
    ensures Filter(New(Int(123)), (x: Val) => Ok(Bool(x.Int? && x.i < 100))) == Ok(Nothing)
    ensures Filter(New(Int(1)), Plus321) == Err(Bare)
    ensures OrOption(New(New(NoneValue)), Nothing) == Ok(New(New(NoneValue)))
    ensures OrOption(Nothing, Int(123)) == Err(Bare)
  {
  }
}
