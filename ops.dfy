/**
 * The runtime traits: `PartialOps::and` and `PartialOps::or`, which take a
 * copy of `self`, update it with `set_and` or `set_or` and return it, and
 * the laws the merge and apply operations obey together.
 */
module Ops {
  import opened Wrappers
  import opened Generated

  /** `a.and(b)`: presence requires both, the value always comes from `b`. */
  method And<V>(a: Partial<V>, b: Partial<V>) returns (r: Partial<V>)
    requires |a| == |b|
    ensures r == AndOf(a, b)
    ensures |r| == |a|
    ensures forall i :: 0 <= i < |r| ==> (r[i].Some? <==> a[i].Some? && b[i].Some?)
    ensures forall i :: 0 <= i < |r| && r[i].Some? ==> r[i] == b[i]
  {
    var s := new PartialStruct(a);
    s.SetAnd(b);
    r := s.Value();
  }

  /** `a.or(b)`: `a`'s value where present, otherwise `b`'s; absent only where neither has one. */
  method Or<V>(a: Partial<V>, b: Partial<V>) returns (r: Partial<V>)
    requires |a| == |b|
    ensures r == OrOf(a, b)
    ensures |r| == |a|
    ensures forall i :: 0 <= i < |r| ==> (r[i].None? <==> a[i].None? && b[i].None?)
    ensures forall i :: 0 <= i < |r| && a[i].Some? ==> r[i] == a[i]
    ensures forall i :: 0 <= i < |r| && a[i].None? ==> r[i] == b[i]
  {
    var s := new PartialStruct(a);
    s.SetOr(b);
    r := s.Value();
  }

  /** The empty partial is a neutral element of `or` on both sides. */
  lemma OrEmptyNeutral<V>(p: Partial<V>)
    ensures OrOf(p, Empty(|p|)) == p
    ensures OrOf(Empty(|p|), p) == p
  {
  }

  /** The empty partial absorbs under `and` on both sides. */
  lemma AndEmptyAbsorbing<V>(p: Partial<V>)
    ensures IsEmpty(AndOf(Empty(|p|), p))
    ensures IsEmpty(AndOf(p, Empty(|p|)))
  {
  }

  /** `and` keeps the fields both operands have, in either order, but takes its values from the right. */
  lemma AndPresenceSymmetric<V>(a: Partial<V>, b: Partial<V>)
    requires |a| == |b|
    ensures forall i :: 0 <= i < |a| ==> (AndOf(a, b)[i].Some? <==> AndOf(b, a)[i].Some?)
  {
  }

  /** `and` is not commutative: with both fields present the result's value depends on the order. */
  lemma AndNotCommutative()
    ensures AndOf([Some(1)], [Some(2)]) != AndOf([Some(2)], [Some(1)])
  {
    assert AndOf([Some(1)], [Some(2)])[0] == Some(2);
  }

  lemma AndAssociative<V>(a: Partial<V>, b: Partial<V>, c: Partial<V>)
    requires |a| == |b| == |c|
    ensures AndOf(AndOf(a, b), c) == AndOf(a, AndOf(b, c))
  {
  }

  lemma OrAssociative<V>(a: Partial<V>, b: Partial<V>, c: Partial<V>)
    requires |a| == |b| == |c|
    ensures OrOf(OrOf(a, b), c) == OrOf(a, OrOf(b, c))
  {
  }

  lemma Idempotent<V>(p: Partial<V>)
    ensures AndOf(p, p) == p
    ensures OrOf(p, p) == p
  {
  }

  /** Each of `and` and `or` absorbs the other. */
  lemma Absorption<V>(a: Partial<V>, b: Partial<V>)
    requires |a| == |b|
    ensures OrOf(a, AndOf(a, b)) == a
    ensures AndOf(a, OrOf(a, b)) == a
  {
  }

  /** `and` with a full partial on the left yields the right operand unchanged; `or` yields the full one. */
  lemma FullOperand<V>(v: seq<V>, p: Partial<V>)
    requires |v| == |p|
    ensures AndOf(IntoPartial(v), p) == p
    ensures OrOf(IntoPartial(v), p) == IntoPartial(v)
  {
  }

  /** A materialized value is empty exactly when the struct has no fields. */
  lemma IntoPartialNonEmpty<V>(v: seq<V>)
    ensures IsEmpty(IntoPartial(v)) <==> |v| == 0
  {
    if |v| > 0 {
      assert IntoPartial(v)[0].Some?;
    }
  }

  /** `x.set(v.into_partial()) == v` for any `x` of the same shape. */
  lemma ApplyIntoPartial<V>(x: seq<V>, v: seq<V>)
    requires |x| == |v|
    ensures Apply(x, IntoPartial(v)) == v
  {
  }

  /** Applying the empty partial changes nothing. */
  lemma ApplyEmpty<V>(x: seq<V>)
    ensures Apply(x, Empty(|x|)) == x
  {
  }

  /** Applying `p` and then `q` is applying `q.or(p)`: later updates win, earlier ones fill the gaps. */
  lemma ApplyTwice<V>(x: seq<V>, p: Partial<V>, q: Partial<V>)
    requires |x| == |p| == |q|
    ensures Apply(Apply(x, p), q) == Apply(x, OrOf(q, p))
  {
  }

  /** Applying the same partial twice is applying it once. */
  lemma ApplyIdempotent<V>(x: seq<V>, p: Partial<V>)
    requires |x| == |p|
    ensures Apply(Apply(x, p), p) == Apply(x, p)
  {
    ApplyTwice(x, p, p);
    Idempotent(p);
  }

  /** Changing one field of a partial changes no other field of a merge or of an applied value. */
  lemma FieldIndependence<V>(x: seq<V>, a: Partial<V>, b: Partial<V>, j: nat, o: Option<V>)
    requires |x| == |a| == |b| && j < |a|
    ensures forall i :: 0 <= i < |a| && i != j ==>
      && AndOf(a[j := o], b)[i] == AndOf(a, b)[i]
      && AndOf(a, b[j := o])[i] == AndOf(a, b)[i]
      && OrOf(a[j := o], b)[i] == OrOf(a, b)[i]
      && OrOf(a, b[j := o])[i] == OrOf(a, b)[i]
      && Apply(x, a[j := o])[i] == Apply(x, a)[i]
  {
  }
}
