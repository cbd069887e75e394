/** The two implementations side by side. Every class instance has a tuple
    encoding (`Some(v)` becomes `(OptionType.Some, v')`, `Non()` becomes
    `(OptionType.Non,)`, recursively through held values and tuples), and the
    operations both implementations offer give corresponding answers.
 */
module Correspondence {
  import opened Python
  import C = ClassOption
  import T = TupleOption

  /** The tuple encoding of a value of the class-based world. */
  function Encode(v: C.Val): (r: T.Val)
    ensures r == NoneValue <==> v == NoneValue
    ensures r.Opt? <==> v.Opt?
    decreases C.Size(v)
  {
    match v
    case NoneValue => NoneValue
    case Bool(b) => Bool(b)
    case Int(i) => Int(i)
    case Str(s) => Str(s)
    case Tuple(xs) => Tuple(EncodeItems(xs))
    case Opt(o) => Opt(EncodeOption(o))
  }

  function EncodeOption(o: C.Option): (r: T.Option)
    ensures r.Some? <==> o.Some?
    decreases C.OptionSize(o)
  {
    match o
    case Some(v) => T.Some(Encode(v))
    case Non => T.Non
  }

  function EncodeItems(xs: seq<C.Val>): (r: seq<T.Val>)
    ensures |r| == |xs|
    decreases C.ItemsSize(xs)
  {
    if |xs| == 0 then [] else [Encode(xs[0])] + EncodeItems(xs[1..])
  }

  /** Different values have different encodings, so nothing is lost: the
      class-based value can always be read back from its tuple counterpart. */
  lemma {:induction false} EncodeInjective(a: C.Val, b: C.Val)
    requires Encode(a) == Encode(b)
    ensures a == b
    decreases C.Size(a)
  {
    match a
    case Tuple(xs) =>
      EncodeItemsInjective(xs, b.items);
    case Opt(o) =>
      if o.Some? {
        assert C.Size(a) == 2 + C.Size(o.val);
        EncodeInjective(o.val, b.opt.val);
      }
    case _ =>
  }

  lemma {:induction false} EncodeItemsInjective(xs: seq<C.Val>, ys: seq<C.Val>)
    requires EncodeItems(xs) == EncodeItems(ys)
    ensures xs == ys
    decreases C.ItemsSize(xs)
  {
    if |xs| != 0 {
      assert EncodeItems(xs)[0] == EncodeItems(ys)[0];
      assert EncodeItems(xs)[1..] == EncodeItems(ys)[1..];
      EncodeInjective(xs[0], ys[0]);
      EncodeItemsInjective(xs[1..], ys[1..]);
      assert xs == [xs[0]] + xs[1..];
      assert ys == [ys[0]] + ys[1..];
    }
  }

  /** Both factories turn `None` into `Non` and wrap everything else. */
  lemma NewCorresponds(v: C.Val)
    ensures Opt(EncodeOption(C.New(v))) == T.New(Encode(v))
  {
  }

  /** `is_some` and `is_non` agree on every instance, and the tuple encoding
      of an instance is never foreign. */
  lemma RecognizersCorrespond(o: C.Option)
    ensures T.IsSome(Opt(EncodeOption(o))) == C.IsSome(o)
    ensures T.IsNon(Opt(EncodeOption(o))) == C.IsNon(o)
    ensures T.IsOption(Opt(EncodeOption(o)))
  {
  }

  /** `unwrap` succeeds on the same instances and returns corresponding values;
      on `Non` both raise, a `NameError` on one side and a `TypeError` on the
      other. `unwrap_or` corresponds for every default. */
  lemma UnwrapCorresponds(o: C.Option, default: C.Val)
    ensures C.Unwrap(o).Ok? == T.Unwrap(Opt(EncodeOption(o))).Ok?
    ensures C.Unwrap(o).Ok? ==> T.Unwrap(Opt(EncodeOption(o))) == Ok(Encode(C.Unwrap(o).value))
    ensures C.Unwrap(o).Err? ==>
              C.Unwrap(o).error == NameError("OptionTypeError") && T.Unwrap(Opt(EncodeOption(o))).error == T.Bare
    ensures Encode(C.UnwrapOr(o, default)) == T.UnwrapOr(Opt(EncodeOption(o)), Encode(default))
  {
  }

  /** What the tuple-encoded `unwrap` returns on the encoding of an instance
      determines the instance, and with it what the class-based `unwrap`
      returns or raises. */
  lemma TupleUnwrapDeterminesInstance(o1: C.Option, o2: C.Option)
    requires T.Unwrap(Opt(EncodeOption(o1))) == T.Unwrap(Opt(EncodeOption(o2)))
    ensures o1 == o2
    ensures C.Unwrap(o1) == C.Unwrap(o2)
  {
    if o1.Some? && o2.Some? {
      EncodeInjective(o1.val, o2.val);
    }
  }
}
