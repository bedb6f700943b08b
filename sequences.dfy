/**
 * Facts about sequences built one element at a time, stated for an arbitrary
 * per-element function so that the per-element work never needs unfolding.
 */
module Sequences {
  lemma AppendAssoc<X>(x: seq<X>, y: seq<X>, z: seq<X>)
    ensures x + (y + z) == (x + y) + z
  {
  }

  /** `ys` holds `f` of each element of `xs`, position by position. */
  ghost predicate Pointwise<X, Y>(xs: seq<X>, ys: seq<Y>, f: X -> Y)
  {
    |ys| == |xs| && forall k :: 0 <= k < |xs| ==> ys[k] == f(xs[k])
  }

  lemma PointwiseSnoc<X, Y>(xs: seq<X>, ys: seq<Y>, f: X -> Y, x: X, y: Y)
    requires Pointwise(xs, ys, f) && y == f(x)
    ensures Pointwise(xs + [x], ys + [y], f)
  {
  }

  lemma PointwiseAppend<X, Y>(a: seq<X>, ya: seq<Y>, b: seq<X>, yb: seq<Y>, f: X -> Y)
    requires Pointwise(a, ya, f) && Pointwise(b, yb, f)
    ensures Pointwise(a + b, ya + yb, f)
  {
    forall k | 0 <= k < |a + b|
      ensures (ya + yb)[k] == f((a + b)[k])
    {
      if k >= |a| {
        assert (ya + yb)[k] == yb[k - |a|] && (a + b)[k] == b[k - |a|];
      }
    }
  }

  /** The union of `f` over the elements of `xs`. */
  function UnionOver<X, Y>(f: X -> set<Y>, xs: seq<X>): set<Y>
    decreases |xs|
  {
    if xs == [] then {} else UnionOver(f, xs[..|xs| - 1]) + f(xs[|xs| - 1])
  }

  lemma UnionOverSnoc<X, Y>(f: X -> set<Y>, xs: seq<X>, x: X)
    ensures UnionOver(f, xs + [x]) == UnionOver(f, xs) + f(x)
  {
    assert (xs + [x])[..|xs|] == xs;
  }

  lemma {:induction false} UnionOverAppend<X, Y>(f: X -> set<Y>, a: seq<X>, b: seq<X>)
    ensures UnionOver(f, a + b) == UnionOver(f, a) + UnionOver(f, b)
    decreases |b|
  {
    if b == [] {
      assert a + b == a;
    } else {
      var b', x := b[..|b| - 1], b[|b| - 1];
      assert b == b' + [x];
      assert a + b == (a + b') + [x];
      UnionOverAppend(f, a, b');
      UnionOverSnoc(f, a + b', x);
      UnionOverSnoc(f, b', x);
    }
  }

  /** The union holds what `f` gives for each element. */
  lemma {:induction false} UnionOverContains<X, Y>(f: X -> set<Y>, xs: seq<X>, k: int)
    requires 0 <= k < |xs|
    ensures f(xs[k]) <= UnionOver(f, xs)
    decreases |xs|
  {
    if k < |xs| - 1 {
      UnionOverContains(f, xs[..|xs| - 1], k);
    }
  }

  /**
   * Flag `k` tells whether `probe(xs[k])` was in `before` or was made by an
   * element ahead of position `k`.
   */
  ghost predicate SeenBefore<X, Y>(xs: seq<X>, flags: seq<bool>, probe: X -> Y, made: X -> set<Y>, before: set<Y>)
  {
    |flags| == |xs|
    && forall k :: 0 <= k < |xs| ==> flags[k] == (probe(xs[k]) in before + UnionOver(made, xs[..k]))
  }

  lemma SeenBeforeSnoc<X, Y>(xs: seq<X>, flags: seq<bool>, probe: X -> Y, made: X -> set<Y>, before: set<Y>,
                             x: X, flag: bool)
    requires SeenBefore(xs, flags, probe, made, before)
    requires flag == (probe(x) in before + UnionOver(made, xs))
    ensures SeenBefore(xs + [x], flags + [flag], probe, made, before)
  {
    var xs' := xs + [x];
    assert xs'[..|xs|] == xs;
    forall k | 0 <= k < |xs|
      ensures xs'[..k] == xs[..k]
    {
    }
  }

  lemma SeenBeforeAppend<X, Y>(a: seq<X>, fa: seq<bool>, b: seq<X>, fb: seq<bool>,
                               probe: X -> Y, made: X -> set<Y>, before: set<Y>)
    requires SeenBefore(a, fa, probe, made, before)
    requires SeenBefore(b, fb, probe, made, before + UnionOver(made, a))
    ensures SeenBefore(a + b, fa + fb, probe, made, before)
  {
    var ab := a + b;
    forall k | 0 <= k < |ab|
      ensures (fa + fb)[k] == (probe(ab[k]) in before + UnionOver(made, ab[..k]))
    {
      if k < |a| {
        assert ab[..k] == a[..k];
      } else {
        assert ab[..k] == a + b[..k - |a|];
        UnionOverAppend(made, a, b[..k - |a|]);
      }
    }
  }
}
