/** The class-based Option of `py_option/option.py`.

    `Some(val)` and `Non()` are the two subclasses of an abstract `OptionType`
    and each answers the same few methods with its own body; `Option.new`
    chooses between them. An instance is the value `Opt(o)`; every other value
    is foreign, and calling one of the classes' methods on it (which `__eq__`
    does with its right operand) raises `AttributeError`.
 */
module ClassOption {
  import opened Python

  /** An instance of `Some` (holding `val`) or of `Non`. */
  datatype Option = Some(val: Value<Option>) | Non

  type Val = Value<Option>

  /** A caller-supplied function of one argument; `Err` is what it raises. */
  type Callback = Val -> Result<Val>

  /** `Option.new`: `None` (also the default argument) gives `Non()`, any
      other value, an instance of `Non` included, gives `Some(val)`. */
  function New(v: Val): (r: Option)
    ensures r.Non? <==> v == NoneValue
    ensures r.Some? ==> r.val == v
  {
    if v == NoneValue then Non else Some(v)
  }

  /** `is_some`: `True` from every `Some`, `False` from every `Non`. */
  predicate IsSome(o: Option)
    ensures IsSome(o) <==> exists v :: o == Some(v)
  {
    o.Some?
  }

  /** `is_non`: `False` from every `Some`, `True` from every `Non`. */
  predicate IsNon(o: Option)
    ensures IsNon(o) <==> o == Non
  {
    o.Non?
  }

  /** `is_some_and`: `False` for `Non` without calling `f`; for `Some` the
      result of `f(val)` itself, since the left operand of its `and` is the
      bound method `self.is_some`, which is always true. */
  function IsSomeAnd(o: Option, f: Callback): (r: Result<Val>)
    ensures IsNon(o) ==> r == Ok(Bool(false))
    ensures IsSome(o) ==> r == f(o.val)
  {
    match o
    case Some(v) => f(v)
    case Non => Ok(Bool(false))
  }

  /** `unwrap`: the held value of a `Some`. `Non` raises the undefined name
      `OptionTypeError`, which Python reports as a `NameError`. */
  function Unwrap(o: Option): (r: Result<Val>)
    ensures r.Ok? <==> IsSome(o)
    ensures r.Ok? ==> o == Some(r.value)
    ensures r.Err? ==> r.error == NameError("OptionTypeError")
  {
    match o
    case Some(v) => Ok(v)
    case Non => Err(NameError("OptionTypeError"))
  }

  /** `unwrap_or`: the held value of a `Some`, ignoring `default`; `default`
      for `Non`. */
  function UnwrapOr(o: Option, default: Val): (r: Val)
    ensures IsSome(o) ==> o == Some(r)
    ensures IsNon(o) ==> r == default
  {
    match o
    case Some(v) => v
    case Non => default
  }

  /** Size measures, for the termination of Python's `==` below. */
  function Size(v: Val): nat {
    match v
    case Tuple(xs) => 1 + ItemsSize(xs)
    case Opt(o) => 1 + OptionSize(o)
    case _ => 1
  }

  function OptionSize(o: Option): nat {
    match o
    case Some(v) => 1 + Size(v)
    case Non => 1
  }

  function ItemsSize(xs: seq<Val>): nat {
    if |xs| == 0 then 0 else 1 + Size(xs[0]) + ItemsSize(xs[1..])
  }

  /** `__eq__` of the two classes, with `self` the instance and `rhs` any value.
      `Some` asks `rhs.is_some()` and then compares the held values with `==`;
      `Non` answers `rhs.is_non()`. A foreign `rhs` has neither method. */
  function Equals(self: Option, rhs: Val): (r: Result<bool>)
    ensures !rhs.Opt? ==> r.Err?
    ensures IsSome(self) && rhs.Opt? && IsNon(rhs.opt) ==> r == Ok(false)
    ensures IsNon(self) && rhs.Opt? ==> r == Ok(IsNon(rhs.opt))
    ensures IsSome(self) && rhs.Opt? && IsSome(rhs.opt) ==>
              assert Size(rhs) == 2 + Size(rhs.opt.val); r == ValueEq(self.val, rhs.opt.val)
    decreases OptionSize(self) + Size(rhs)
  {
    match self
    case Some(v) =>
      if !rhs.Opt? then Err(AttributeError("is_some"))
      else if IsSome(rhs.opt) then
        assert Size(rhs) == 2 + Size(rhs.opt.val);
        ValueEq(v, rhs.opt.val)
      else Ok(false)
    case Non =>
      if !rhs.Opt? then Err(AttributeError("is_non"))
      else Ok(IsNon(rhs.opt))
  }

  /** Python's `a == b` on values that may hold instances. An instance on the
      left decides with its `__eq__`; otherwise an instance on the right is
      asked by the reflected call `b.__eq__(a)`, because `None`, `bool`, `int`,
      `str` and `tuple` return `NotImplemented` for it. Two tuples compare
      element by element up to the first unequal pair, as CPython does. */
  function ValueEq(a: Val, b: Val): (r: Result<bool>)
    ensures a.Opt? ==> r == Equals(a.opt, b)
    ensures !a.Opt? && b.Opt? ==> r == Equals(b.opt, a)
    ensures a.Tuple? && b.Tuple? ==> r == ItemsEq(a.items, b.items)
    ensures a.Tuple? && b.Tuple? && |a.items| != |b.items| ==> r != Ok(true)
    ensures !a.Opt? && !b.Opt? && a.Tuple? != b.Tuple? ==> r == Ok(false)
    ensures !a.Opt? && !b.Opt? && !a.Tuple? && !b.Tuple? ==> r == Ok(PrimitiveEq(a, b))
    decreases Size(a) + Size(b)
  {
    if a.Opt? then Equals(a.opt, b)
    else if b.Opt? then Equals(b.opt, a)
    else if a.Tuple? && b.Tuple? then ItemsEq(a.items, b.items)
    else if a.Tuple? || b.Tuple? then Ok(false)
    else Ok(PrimitiveEq(a, b))
  }

  /** Tuple comparison: pairwise `==` until a pair differs or raises, then
      the lengths decide. */
  function ItemsEq(xs: seq<Val>, ys: seq<Val>): (r: Result<bool>)
    ensures r == Ok(true) ==> |xs| == |ys|
    ensures |xs| == 0 || |ys| == 0 ==> r == Ok(|xs| == |ys|)
    ensures |xs| != 0 && |ys| != 0 && ValueEq(xs[0], ys[0]).Err? ==> r == ValueEq(xs[0], ys[0])
    ensures |xs| != 0 && |ys| != 0 && ValueEq(xs[0], ys[0]) == Ok(false) ==> r == Ok(false)
    decreases ItemsSize(xs) + ItemsSize(ys)
  {
    if |xs| == 0 || |ys| == 0 then Ok(|xs| == |ys|)
    else
      match ValueEq(xs[0], ys[0])
      case Err(e) => Err(e)
      case Ok(same) => if same then ItemsEq(xs[1..], ys[1..]) else Ok(false)
  }
}
