/** The part of Python's object model that both Option implementations touch:
    the values a caller can hand them, the exceptions they raise, and a result
    type that stands for "returns normally" or "raises".
 */
module Python {

  /** A Python value. `O` is the type of the option objects built by the
      library under study, so that each implementation can nest its own
      options inside values (`Some(Non)`, `Some((1, Some(2)))`, ...).
      Every value that is not an `Opt` is foreign to that library. */
  datatype Value<+O> =
    | NoneValue                       // Python's `None`
    | Bool(b: bool)
    | Int(i: int)
    | Str(s: string)
    | Tuple(items: seq<Value<O>>)
    | Opt(opt: O)

  /** The exceptions the two implementations raise or let through. */
  datatype Error =
    | TypeError(message: string)      // `raise TypeError` has the empty message
    | AttributeError(name: string)    // a method looked up on a value that lacks it
    | NameError(name: string)         // a name that is not defined anywhere
    | Raised(exception: string)       // any other exception a caller-supplied function raises

  /** Either the value a Python call returns or the exception it raises. */
  datatype Result<+T> = Ok(value: T) | Err(error: Error)

  /** The integer a number stands for; `bool` is a subclass of `int` in Python. */
  function Number<O>(v: Value<O>): int
    requires v.Bool? || v.Int?
  {
    if v.Int? then v.i else if v.b then 1 else 0
  }

  /** Python's `x + n` with an `int` on the right: a number on the left (a
      `bool` included) adds, and every other left operand raises `TypeError`. */
  function AddInt<O>(x: Value<O>, n: int): (r: Result<Value<O>>)
    ensures r.Ok? <==> x.Bool? || x.Int?
    ensures r.Ok? ==> r.value.Int? && r.value.i - n == Number(x)
    ensures r.Err? ==> r.error.TypeError?
  {
    if x.Bool? || x.Int? then Ok(Int(Number(x) + n)) else Err(TypeError("unsupported operand"))
  }

  /** Python's `==` between two values neither of which is a tuple or an
      option object: `None` equals only `None`, numbers compare by value
      (so `True == 1`), strings by contents, and any other pair is unequal. */
  function PrimitiveEq<O>(a: Value<O>, b: Value<O>): (r: bool)
    requires !a.Tuple? && !a.Opt? && !b.Tuple? && !b.Opt?
    ensures a == b ==> r
    ensures r && a.Str? ==> b == a
  {
    if a.NoneValue? || b.NoneValue? then a.NoneValue? && b.NoneValue?
    else if a.Str? || b.Str? then a.Str? && b.Str? && a.s == b.s
    else Number(a) == Number(b)
  }

  /** Python's `==` on primitive values does not depend on the order of its operands. */
  lemma PrimitiveEqSymmetric<O>(a: Value<O>, b: Value<O>)
    requires !a.Tuple? && !a.Opt? && !b.Tuple? && !b.Opt?
    ensures PrimitiveEq(a, b) == PrimitiveEq(b, a)
  {
  }
}
