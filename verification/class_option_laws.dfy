/** Properties of the class-based Option: its constructor and accessors, and
    Python's `==` on values that hold instances, which `__eq__` defines.
 */
module ClassOptionLaws {
  import opened Python
  import opened ClassOption

  /** `new(v)` for a `v` other than `None` is a `Some` that unwraps to `v`,
      whatever the default; `new(None)` is `Non`, which raises on `unwrap`. */
  lemma NewUnwrap(v: Val, default: Val)
    ensures v != NoneValue ==> IsSome(New(v)) && Unwrap(New(v)) == Ok(v)
    ensures v != NoneValue ==> UnwrapOr(New(v), default) == v
    ensures IsNon(New(NoneValue)) && Unwrap(New(NoneValue)).Err?
    ensures UnwrapOr(New(NoneValue), default) == default
  {
  }

  /** Wrapping an instance makes a `Some`, even when the instance is `Non`. */
  lemma NewOfInstanceIsSome(o: Option)
    ensures IsSome(New(Opt(o)))
    ensures Unwrap(New(Opt(o))) == Ok(Opt(o))
  {
  }

  /** Each class answers `is_some` and `is_non` with complementary constants. */
  lemma Complementary(o: Option)
    ensures IsSome(o) != IsNon(o)
    ensures IsSome(o) <==> o.Some?
  {
  }

  /** `unwrap_or` returns what `unwrap` returns whenever `unwrap` does not
      raise, and `default` exactly when it raises. */
  lemma UnwrapOrFollowsUnwrap(o: Option, default: Val)
    ensures UnwrapOr(o, default) == (if Unwrap(o).Ok? then Unwrap(o).value else default)
  {
  }

  /** `is_some_and` refines `is_some`: an answer of exactly `True` is only
      possible on a `Some`; with a predicate that always answers `True` it is
      `is_some` itself; on a `Some` it is `f` applied to what `unwrap` returns,
      and on `Non` it does not depend on `f` at all. */
  lemma IsSomeAndRefinesIsSome(o: Option, f: Callback, g: Callback)
    ensures IsSomeAnd(o, f) == Ok(Bool(true)) ==> IsSome(o)
    ensures IsNon(o) ==> IsSomeAnd(o, f) == IsSomeAnd(o, g)
    ensures IsSomeAnd(o, (x: Val) => Ok(Bool(true))) == Ok(Bool(IsSome(o)))
    ensures IsSome(o) ==> IsSomeAnd(o, f) == f(Unwrap(o).value)
  {
  }

  /** The scenario in the test suite: `Some(123).is_some_and(lambda x: x + 321)`
      is `444`, not `True`. */
  lemma IsSomeAndReturnsCallbackResult()
    ensures IsSomeAnd(New(Int(123)), (x: Val) => AddInt(x, 321))
            == Ok(Int(444))
  {
  }

  /** A reference for Python's `==`: the value with every `bool` replaced by the
      `int` it equals. */
  function Norm(v: Val): (r: Val)
    ensures r.Opt? <==> v.Opt?
    ensures r.Tuple? <==> v.Tuple?
    ensures r.NoneValue? <==> v.NoneValue?
    ensures r.Str? <==> v.Str?
    decreases Size(v)
  {
    match v
    case Bool(b) => Int(if b then 1 else 0)
    case Tuple(xs) => Tuple(NormItems(xs))
    case Opt(o) => Opt(NormOption(o))
    case _ => v
  }

  function NormOption(o: Option): (r: Option)
    ensures r.Some? <==> o.Some?
    decreases OptionSize(o)
  {
    match o
    case Some(v) => Some(Norm(v))
    case Non => Non
  }

  function NormItems(xs: seq<Val>): (r: seq<Val>)
    ensures |r| == |xs|
    decreases ItemsSize(xs)
  {
    if |xs| == 0 then [] else [Norm(xs[0])] + NormItems(xs[1..])
  }

  /** Python's `==` answers `True` exactly for values that are equal once every
      `bool` is read as an `int`; otherwise it answers `False` or raises. */
  lemma {:induction false} EqualityMatchesNorm(a: Val, b: Val)
    ensures ValueEq(a, b) == Ok(true) <==> Norm(a) == Norm(b)
    decreases Size(a) + Size(b), 1
  {
    if a.Opt? {
      EqualsMatchesNorm(a.opt, b);
    } else if b.Opt? {
      EqualsMatchesNorm(b.opt, a);
    } else if a.Tuple? && b.Tuple? {
      ItemsEqMatchesNorm(a.items, b.items);
    }
  }

  lemma {:induction false} EqualsMatchesNorm(o: Option, b: Val)
    ensures Equals(o, b) == Ok(true) <==> Norm(Opt(o)) == Norm(b)
    decreases OptionSize(o) + Size(b), 0
  {
    if o.Some? && b.Opt? && b.opt.Some? {
      assert Size(b) == 2 + Size(b.opt.val);
      EqualityMatchesNorm(o.val, b.opt.val);
    }
  }

  lemma {:induction false} ItemsEqMatchesNorm(xs: seq<Val>, ys: seq<Val>)
    ensures ItemsEq(xs, ys) == Ok(true) <==> NormItems(xs) == NormItems(ys)
    decreases ItemsSize(xs) + ItemsSize(ys)
  {
    if |xs| != 0 && |ys| != 0 {
      EqualityMatchesNorm(xs[0], ys[0]);
      ItemsEqMatchesNorm(xs[1..], ys[1..]);
      assert NormItems(xs) == [Norm(xs[0])] + NormItems(xs[1..]);
      assert NormItems(ys) == [Norm(ys[0])] + NormItems(ys[1..]);
      if NormItems(xs) == NormItems(ys) {
        assert NormItems(xs)[0] == NormItems(ys)[0];
        assert NormItems(xs)[1..] == NormItems(ys)[1..];
      }
    }
  }

  /** Tuple `==` walks the pairs in order: when the first `i` pairs compare
      `True` and pair `i` does not, pair `i` decides, its exception included,
      and no later pair is looked at. */
  lemma {:induction false} ItemsEqFirstDifference(xs: seq<Val>, ys: seq<Val>, i: nat)
    requires i < |xs| && i < |ys|
    requires forall j :: 0 <= j < i ==> ValueEq(xs[j], ys[j]) == Ok(true)
    requires ValueEq(xs[i], ys[i]) != Ok(true)
    ensures ItemsEq(xs, ys) == (if ValueEq(xs[i], ys[i]).Err? then ValueEq(xs[i], ys[i]) else Ok(false))
    decreases i
  {
    if i > 0 {
      assert forall j :: 0 <= j < i - 1 ==> xs[1..][j] == xs[j + 1] && ys[1..][j] == ys[j + 1];
      ItemsEqFirstDifference(xs[1..], ys[1..], i - 1);
    }
  }

  /** When every pair up to the shorter length compares `True`, the lengths
      decide: `(1,) == (1, 2)` is `False`. */
  lemma {:induction false} ItemsEqCommonPrefix(xs: seq<Val>, ys: seq<Val>)
    requires forall j :: 0 <= j < |xs| && j < |ys| ==> ValueEq(xs[j], ys[j]) == Ok(true)
    ensures ItemsEq(xs, ys) == Ok(|xs| == |ys|)
    decreases |xs|
  {
    if |xs| != 0 && |ys| != 0 {
      assert forall j :: 0 <= j < |xs| - 1 && j < |ys| - 1 ==> xs[1..][j] == xs[j + 1] && ys[1..][j] == ys[j + 1];
      ItemsEqCommonPrefix(xs[1..], ys[1..]);
    }
  }

  /** `x == x` holds for every value, instances at any depth included, so
      CPython's identity shortcut inside tuple comparison never changes an
      answer. */
  lemma EqualityReflexive(a: Val)
    ensures ValueEq(a, a) == Ok(true)
  {
    EqualityMatchesNorm(a, a);
  }

  /** `Some(v) == Some(v)`, `Non == Non`, and the two mixed comparisons, for
      any held value; two `Some`s are equal exactly when their held values are. */
  lemma EqualsOnInstances(v: Val, w: Val)
    ensures Equals(Some(v), Opt(Some(v))) == Ok(true)
    ensures Equals(Non, Opt(Non)) == Ok(true)
    ensures Equals(Some(v), Opt(Non)) == Ok(false)
    ensures Equals(Non, Opt(Some(v))) == Ok(false)
    ensures Equals(Some(v), Opt(Some(w))) == Ok(true) <==> ValueEq(v, w) == Ok(true)
  {
    EqualityReflexive(v);
  }

  /** `a == b` and `b == a` agree, exceptions included: an instance on either
      side is the one whose `__eq__` is called. */
  lemma {:induction false} EqualitySymmetric(a: Val, b: Val)
    ensures ValueEq(a, b) == ValueEq(b, a)
    decreases Size(a) + Size(b)
  {
    if a.Opt? && b.Opt? {
      if a.opt.Some? && b.opt.Some? {
        assert Size(a) == 2 + Size(a.opt.val);
        assert Size(b) == 2 + Size(b.opt.val);
        EqualitySymmetric(a.opt.val, b.opt.val);
      }
    } else if a.Tuple? && b.Tuple? {
      ItemsEqSymmetric(a.items, b.items);
    } else if !a.Opt? && !b.Opt? && !a.Tuple? && !b.Tuple? {
      PrimitiveEqSymmetric(a, b);
    }
  }

  lemma {:induction false} ItemsEqSymmetric(xs: seq<Val>, ys: seq<Val>)
    ensures ItemsEq(xs, ys) == ItemsEq(ys, xs)
    decreases ItemsSize(xs) + ItemsSize(ys)
  {
    if |xs| != 0 && |ys| != 0 {
      EqualitySymmetric(xs[0], ys[0]);
      ItemsEqSymmetric(xs[1..], ys[1..]);
    }
  }

  /** Values that `==` reports equal are interchangeable on either side. */
  lemma EqualityTransitive(a: Val, b: Val, c: Val)
    requires ValueEq(a, b) == Ok(true)
    requires ValueEq(b, c) == Ok(true)
    ensures ValueEq(a, c) == Ok(true)
  {
    EqualityMatchesNorm(a, b);
    EqualityMatchesNorm(b, c);
    EqualityMatchesNorm(a, c);
  }

  /** An instance compared with a foreign value raises `AttributeError`
      whichever side it is on. */
  lemma InstanceAgainstForeign(o: Option, x: Val)
    requires !x.Opt?
    ensures ValueEq(Opt(o), x).Err? && ValueEq(x, Opt(o)).Err?
    ensures ValueEq(Opt(o), x) == ValueEq(x, Opt(o))
    ensures ValueEq(Opt(o), x).error == AttributeError(if o.Some? then "is_some" else "is_non")
  {
  }
}
