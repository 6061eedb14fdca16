/**
 * What the derive's generated code does, over the fields in declaration order.
 * A value of the source struct is a sequence of field values; a value of its
 * partial struct holds one optional slot per field. The field types are one
 * type parameter `V` here.
 */
module Generated {
  import opened Wrappers

  /** `Partial<T>`: the partial of a struct whose field values are `V`. */
  type Partial<V> = seq<Option<V>>

  /** `is_empty`: the conjunction of `is_none` over the fields, evaluated left to right. */
  function IsEmpty<V>(p: Partial<V>): (b: bool)
    ensures b <==> forall i :: 0 <= i < |p| ==> p[i].None?
  {
    if p == [] then true else p[0].None? && IsEmpty(p[1..])
  }

  /**
   * `is_empty` as emitted: the `&&`-joined repetition has no operand when there
   * are no fields, so the body is empty and yields no boolean (`None` here).
   */
  function IsEmptyEmitted<V>(p: Partial<V>): (r: Option<bool>)
    ensures r.Some? <==> |p| > 0
    ensures r.Some? ==> (r.value <==> forall i :: 0 <= i < |p| ==> p[i].None?)
  {
    if p == [] then None else Some(IsEmpty(p))
  }

  /** For a struct without fields, the emitted `is_empty` has no value where a boolean is due. */
  lemma ZeroFieldIsEmptyHasNoValue<V>()
    ensures IsEmptyEmitted<V>([]).None?
    ensures IsEmpty<V>([])
  {
  }

  /** `empty()`: every field absent. */
  function Empty<V>(n: nat): (r: Partial<V>)
    ensures |r| == n && IsEmpty(r)
  {
    seq(n, _ => None)
  }

  /** There is exactly one empty partial of each arity. */
  lemma EmptyUnique<V>(p: Partial<V>)
    requires IsEmpty(p)
    ensures p == Empty(|p|)
  {
  }

  /** `Default::default()`, which calls `empty()`. */
  function Default<V>(n: nat): (r: Partial<V>)
    ensures |r| == n && IsEmpty(r)
  {
    Empty(n)
  }

  /** `into_partial`: every field present with the source's value. */
  function IntoPartial<V>(v: seq<V>): (r: Partial<V>)
    ensures |r| == |v|
    ensures forall i :: 0 <= i < |v| ==> r[i].Some? && r[i].value == v[i]
  {
    seq(|v|, i requires 0 <= i < |v| => Some(v[i]))
  }

  /** `Option::and`: absent unless `x` is present, and then `y`. */
  function FieldAnd<V>(x: Option<V>, y: Option<V>): Option<V>
  {
    if x.Some? then y else None
  }

  /** The `is_none`-guarded assignment of `set_or`: `x` if present, otherwise `y`. */
  function FieldOr<V>(x: Option<V>, y: Option<V>): Option<V>
  {
    if x.None? then y else x
  }

  /** The fieldwise `and`: present only where both are, and then with `b`'s value. */
  function AndOf<V>(a: Partial<V>, b: Partial<V>): (r: Partial<V>)
    requires |a| == |b|
    ensures |r| == |a|
    ensures forall i :: 0 <= i < |r| ==> (r[i].Some? <==> a[i].Some? && b[i].Some?)
    ensures forall i :: 0 <= i < |r| && r[i].Some? ==> r[i] == b[i]
  {
    seq(|a|, i requires 0 <= i < |a| => FieldAnd(a[i], b[i]))
  }

  /** The fieldwise `or`: `a`'s value where it has one, otherwise `b`'s; absent only where both are. */
  function OrOf<V>(a: Partial<V>, b: Partial<V>): (r: Partial<V>)
    requires |a| == |b|
    ensures |r| == |a|
    ensures forall i :: 0 <= i < |r| ==> (r[i].None? <==> a[i].None? && b[i].None?)
    ensures forall i :: 0 <= i < |r| && a[i].Some? ==> r[i] == a[i]
    ensures forall i :: 0 <= i < |r| && a[i].None? ==> r[i] == b[i]
  {
    seq(|a|, i requires 0 <= i < |a| => FieldOr(a[i], b[i]))
  }

  /** `set` on a source value: present fields overwrite, absent ones leave the field as it was. */
  function Apply<V>(x: seq<V>, p: Partial<V>): (r: seq<V>)
    requires |x| == |p|
    ensures |r| == |x|
    ensures forall i :: 0 <= i < |x| && p[i].Some? ==> r[i] == p[i].value
    ensures forall i :: 0 <= i < |x| && p[i].None? ==> r[i] == x[i]
  {
    seq(|x|, i requires 0 <= i < |x| => if p[i].Some? then p[i].value else x[i])
  }

  /** A value of the generated partial struct, updated in place by `set_and` and `set_or`. */
  class PartialStruct<V> {
    var slots: array<Option<V>>

    constructor (init: Partial<V>)
      ensures fresh(slots) && slots[..] == init
    {
      slots := new Option<V>[|init|](i requires 0 <= i < |init| => init[i]);
    }

    function Value(): Partial<V>
      reads this, slots
    {
      slots[..]
    }

    /** `set_and`: each field in turn becomes `self.f.as_ref().and(other.f)`. */
    method SetAnd(other: Partial<V>)
      requires |other| == slots.Length
      modifies slots
      ensures Value() == AndOf(old(Value()), other)
    {
      for i := 0 to slots.Length
        invariant forall k :: 0 <= k < i ==> slots[k] == FieldAnd(old(slots[k]), other[k])
        invariant forall k :: i <= k < slots.Length ==> slots[k] == old(slots[k])
      {
        slots[i] := FieldAnd(slots[i], other[i]);
      }
    }

    /** `set_or`: each field that is absent in turn takes `other`'s. */
    method SetOr(other: Partial<V>)
      requires |other| == slots.Length
      modifies slots
      ensures Value() == OrOf(old(Value()), other)
    {
      for i := 0 to slots.Length
        invariant forall k :: 0 <= k < i ==> slots[k] == FieldOr(old(slots[k]), other[k])
        invariant forall k :: i <= k < slots.Length ==> slots[k] == old(slots[k])
      {
        if slots[i].None? {
          slots[i] := other[i];
        }
      }
    }
  }

  /** A value of the source struct, updated in place by `set`. */
  class SourceStruct<V> {
    var fields: array<V>

    constructor (init: seq<V>)
      ensures fresh(fields) && fields[..] == init
    {
      fields := new V[|init|](i requires 0 <= i < |init| => init[i]);
    }

    /** `set`: each field in turn is overwritten when the partial holds a value for it. */
    method Set(partial: Partial<V>)
      requires |partial| == fields.Length
      modifies fields
      ensures fields[..] == Apply(old(fields[..]), partial)
    {
      for i := 0 to fields.Length
        invariant forall k :: 0 <= k < i ==> fields[k] == if partial[k].Some? then partial[k].value else old(fields[k])
        invariant forall k :: i <= k < fields.Length ==> fields[k] == old(fields[k])
      {
        match partial[i]
        case Some(value) => fields[i] := value;
        case None =>
      }
    }
  }
}
