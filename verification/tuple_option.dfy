/** The tuple-encoded Option of `src/py_option/__init__.py`.

    The library represents `Some` as the pair `(OptionType.Some, v)` and `Non`
    as the one-tuple `(OptionType.Non,)`, and every combinator is a static
    function taking such a tuple, or any other value, which then counts as
    foreign. Here the two tuples are the constructors of `Option`, an option is
    the value `Opt(o)`, and anything else is foreign. Every exception the
    combinators raise themselves is a `TypeError`.
 */
module TupleOption {
  import opened Python

  /** `(OptionType.Some, value)` or `(OptionType.Non,)`. */
  datatype Option = Some(value: Value<Option>) | Non

  type Val = Value<Option>

  /** A caller-supplied function of one argument; `Err` is what it raises. */
  type Callback = Val -> Result<Val>

  /** A caller-supplied function of no arguments. */
  type Thunk = () -> Result<Val>

  /** `raise TypeError`, with no message. */
  const Bare: Error := TypeError("")

  /** The value `(OptionType.Non,)`. */
  const Nothing: Val := Opt(Non)

  /** `Option.is_some`: the value is a `(OptionType.Some, v)` pair. */
  predicate IsSome(o: Val)
    ensures IsSome(o) <==> exists v :: o == Opt(Some(v))
  {
    o.Opt? && o.opt.Some?
  }

  /** `Option.is_non`: the value is the one-tuple `(OptionType.Non,)`. */
  predicate IsNon(o: Val)
    ensures IsNon(o) <==> o == Nothing
  {
    o.Opt? && o.opt.Non?
  }

  /** The helper `is_option` local to `flatten`: exactly the values built as
      options, so a foreign value is anything else. */
  predicate IsOption(o: Val)
    ensures IsOption(o) <==> o.Opt?
  {
    IsSome(o) || IsNon(o)
  }

  /** The value held by a `Some`. */
  function Contained(o: Val): Val
    requires IsSome(o)
  {
    o.opt.value
  }

  /** The shape `map` and its siblings apply their function to: a `Some`
      whose contents are not themselves `Non`. */
  predicate Mappable(o: Val) {
    IsSome(o) && !IsNon(Contained(o))
  }

  /** `Option.new`: `None` (also the default argument) gives `Non`, any other
      value is wrapped in `Some`. */
  function New(v: Val): (r: Val)
    ensures IsOption(r)
    ensures IsNon(r) <==> v == NoneValue
    ensures IsSome(r) ==> Contained(r) == v
  {
    if v == NoneValue then Opt(Non) else Opt(Some(v))
  }

  /** `Option.expect`: the contents of a `Some`, otherwise `TypeError(msg)`. */
  function Expect(o: Val, msg: string): (r: Result<Val>)
    ensures r.Ok? <==> IsSome(o)
    ensures r.Ok? ==> o == Opt(Some(r.value))
    ensures r.Err? ==> r.error == TypeError(msg)
  {
    if IsSome(o) then Ok(Contained(o)) else Err(TypeError(msg))
  }

  /** `Option.unwrap`: the contents of a `Some`, otherwise a bare `TypeError`. */
  function Unwrap(o: Val): (r: Result<Val>)
    ensures r.Ok? <==> IsSome(o)
    ensures r.Ok? ==> o == Opt(Some(r.value))
    ensures r.Err? ==> r.error == Bare
  {
    if IsSome(o) then Ok(Contained(o)) else Err(Bare)
  }

  /** `Option.unwrap_or`: never raises; `Non` and foreign values give `default`. */
  function UnwrapOr(o: Val, default: Val): (r: Val)
    ensures IsSome(o) ==> o == Opt(Some(r))
    ensures !IsSome(o) ==> r == default
  {
    if IsSome(o) then Contained(o) else default
  }

  /** `Option.unwrap_or_else`: `f` is called only when `o` is not a `Some`,
      and what it raises is raised. */
  function UnwrapOrElse(o: Val, f: Thunk): (r: Result<Val>)
    ensures IsSome(o) ==> r == Ok(Contained(o))
    ensures !IsSome(o) ==> r == f()
  {
    if IsSome(o) then Ok(Contained(o)) else f()
  }

  /** `Option.map`: `Some(f(v))` for a `Some(v)` whose `v` is not `Non`;
      `Non`, `Some(Non)` and foreign values raise, and whatever `f` raises
      is replaced by a bare `TypeError`. */
  function Map(o: Val, f: Callback): (r: Result<Val>)
    ensures r.Ok? <==> Mappable(o) && f(Contained(o)).Ok?
    ensures r.Ok? ==> r.value == Opt(Some(f(Contained(o)).value))
    ensures r.Err? ==> r.error == Bare
  {
    if IsSome(o) then
      if !IsNon(Contained(o)) then
        match f(Contained(o))
        case Ok(w) => Ok(Opt(Some(w)))
        case Err(_) => Err(Bare)
      else
        Err(Bare)
    else
      Err(Bare)
  }

  /** `Option.map_or`: behaves as `map` on the shapes `map` accepts (so the
      result is the wrapped `Some(f(v))`), and gives `default` on every other
      input instead of raising. */
  function MapOr(o: Val, default: Val, f: Callback): (r: Result<Val>)
    ensures Mappable(o) ==> r == Map(o, f)
    ensures !Mappable(o) ==> r == Ok(default)
  {
    if IsSome(o) then
      if !IsNon(Contained(o)) then
        match f(Contained(o))
        case Ok(w) => Ok(Opt(Some(w)))
        case Err(_) => Err(Bare)
      else
        Ok(default)
    else
      Ok(default)
  }

  /** `Option.map_or_else`: as `map_or`, with the fallback computed by
      `defaultF`, whose exception, if any, is raised unchanged. */
  function MapOrElse(o: Val, defaultF: Thunk, f: Callback): (r: Result<Val>)
    ensures Mappable(o) ==> r == Map(o, f)
    ensures !Mappable(o) ==> r == defaultF()
  {
    if IsSome(o) then
      if !IsNon(Contained(o)) then
        match f(Contained(o))
        case Ok(w) => Ok(Opt(Some(w)))
        case Err(_) => Err(Bare)
      else
        defaultF()
    else
      defaultF()
  }

  /** `Option.and_option`: `Non` gives itself, `Some` gives `optb` without
      looking at it, a foreign first argument raises. */
  function AndOption(o: Val, optb: Val): (r: Result<Val>)
    ensures r.Ok? <==> IsOption(o)
    ensures r.Ok? ==> r.value == (if IsNon(o) then o else optb)
    ensures r.Err? ==> r.error == Bare
  {
    if IsNon(o) then Ok(o)
    else if IsSome(o) then Ok(optb)
    else Err(Bare)
  }

  /** `Option.and_then`: `map` on a `Some`, `Non` unchanged, foreign raises. */
  function AndThen(o: Val, f: Callback): (r: Result<Val>)
    ensures IsSome(o) ==> r == Map(o, f)
    ensures IsNon(o) ==> r == Ok(o)
    ensures !IsOption(o) ==> r == Err(Bare)
  {
    if IsSome(o) then Map(o, f)
    else if IsNon(o) then Ok(o)
    else Err(Bare)
  }

  /** `Option.zip`: pairs the contents of two `Some`s. A `Non` first argument
      is returned without looking at `optb`; `Some` with `Non` gives `Non`;
      a foreign value where an option is needed raises. */
  function Zip(o: Val, optb: Val): (r: Result<Val>)
    ensures r.Err? <==> !IsOption(o) || (IsSome(o) && !IsOption(optb))
    ensures r.Err? ==> r.error == Bare
    ensures r.Ok? ==> IsOption(r.value)
    ensures r.Ok? ==> (IsSome(r.value) <==> IsSome(o) && IsSome(optb))
    ensures r.Ok? && IsSome(r.value) ==>
              Contained(r.value) == Tuple([Contained(o), Contained(optb)])
  {
    if IsNon(o) then Ok(o)
    else if IsSome(o) then
      if IsNon(optb) then Ok(Nothing)
      else if IsSome(optb) then Ok(Opt(Some(Tuple([Contained(o), Contained(optb)]))))
      else Err(Bare)
    else Err(Bare)
  }

  /** `Option.flatten`: removes at most one level of nesting. `Some(o)` with
      `o` an option gives `o`; a `Some` of anything else, and `Non`, are
      returned unchanged; a foreign value raises. */
  function Flatten(o: Val): (r: Result<Val>)
    ensures r.Ok? <==> IsOption(o)
    ensures r.Err? ==> r.error == Bare
    ensures r.Ok? ==> IsOption(r.value)
    ensures IsSome(o) && IsOption(Contained(o)) ==> r == Ok(Contained(o))
    ensures r.Ok? && !(IsSome(o) && IsOption(Contained(o))) ==> r.value == o
  {
    if IsOption(o) then
      if IsNon(o) then Ok(o)
      else if IsOption(Contained(o)) then Ok(Contained(o))
      else Ok(o)
    else
      Err(Bare)
  }

  /** `Option.filter`: keeps a `Some` when the predicate returns exactly
      `True` and gives `Non` when it returns exactly `False`; any other result
      raises `TypeError`, and an exception of the predicate is raised as is.
      `Non` is returned without calling the predicate. */
  function Filter(o: Val, keep: Callback): (r: Result<Val>)
    ensures !IsOption(o) ==> r == Err(Bare)
    ensures IsNon(o) ==> r == Ok(o)
    ensures IsSome(o) ==> (r == Ok(o) <==> keep(Contained(o)) == Ok(Bool(true)))
    ensures IsSome(o) ==> (r == Ok(Nothing) <==> keep(Contained(o)) == Ok(Bool(false)))
    ensures IsSome(o) && keep(Contained(o)).Err? ==> r == keep(Contained(o))
    ensures IsSome(o) && keep(Contained(o)).Ok? && !keep(Contained(o)).value.Bool? ==> r == Err(Bare)
    ensures r.Ok? ==> r.value == o || r.value == Nothing
  {
    if IsNon(o) then Ok(o)
    else if IsSome(o) then
      match keep(Contained(o))
      case Ok(Bool(true)) => Ok(o)
      case Ok(Bool(false)) => Ok(Nothing)
      case Ok(_) => Err(Bare)
      case Err(e) => Err(e)
    else Err(Bare)
  }

  /** `Option.or_option`: a `Some` gives itself without looking at `optb`;
      `Non` gives `optb` when that is a `Some`, itself when `optb` is `Non`,
      and raises when `optb` is foreign; a foreign first argument raises. */
  function OrOption(o: Val, optb: Val): (r: Result<Val>)
    ensures r.Err? <==> !IsOption(o) || (IsNon(o) && !IsOption(optb))
    ensures r.Err? ==> r.error == Bare
    ensures r.Ok? ==> IsOption(r.value)
    ensures r.Ok? ==> (IsSome(r.value) <==> IsSome(o) || IsSome(optb))
    ensures r.Ok? && IsSome(o) ==> r.value == o
    ensures r.Ok? && !IsSome(o) ==> r.value == optb
  {
    if IsSome(o) then Ok(o)
    else if IsNon(o) then
      if IsSome(optb) then Ok(optb)
      else if IsNon(optb) then Ok(o)
      else Err(Bare)
    else Err(Bare)
  }
}
