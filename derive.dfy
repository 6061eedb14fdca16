/**
 * The `Partial` derive itself: from a parsed type definition to the shape of
 * the generated partial struct, or to the error the derive reports instead.
 * Generic parameters and where-clauses are copied through unchanged by the
 * macro and are not part of this model.
 */
module Derive {
  import opened Wrappers
  import opened Config

  datatype Visibility = Public | Restricted(path: string) | Inherited

  /** A field type; `OptionOf(t)` stands for `::core::option::Option<t>`. */
  datatype Type = TypePath(path: string) | OptionOf(inner: Type)

  datatype Field = Field(attrs: seq<string>, vis: Visibility, ident: Option<string>, ty: Type)

  /** The three layouts of a struct body: `{ a: A, ... }`, `(A, ...)` and none. */
  datatype Fields = Named(named: seq<Field>) | Unnamed(unnamed: seq<Field>) | Unit
  {
    /** The fields in declaration order; a unit struct has none. */
    function List(): seq<Field>
    {
      match this
      case Named(fs) => fs
      case Unnamed(fs) => fs
      case Unit => []
    }
  }

  datatype Data = Struct(fields: Fields) | Enum | Union

  /** A parsed definition; `attrs` is the outcome of reading its `#[partial(...)]` options. */
  datatype DeriveInput = DeriveInput(attrs: Result<Args>, vis: Visibility, ident: string, data: Data)

  /** How generated code addresses a field: by its name, or by its position. */
  datatype Member = Ident(name: string) | Index(index: nat)

  /** What the derive emits for a struct. */
  datatype Expansion = Expansion(
    attributes: Attrs,
    vis: Visibility,
    name: string,
    fields: Fields,
    members: seq<Member>,
    parent: string)

  const EnumError: string := "enum not supported by partial derive"
  const UnionError: string := "union not supported by partial derive"

  /** The shape of a struct the compiler accepts: named bodies name every field, distinctly; tuple bodies name none. */
  ghost predicate WellFormed(fields: Fields)
  {
    match fields
    case Named(fs) =>
      (forall i :: 0 <= i < |fs| ==> fs[i].ident.Some?) &&
      (forall i, j :: 0 <= i < j < |fs| ==> fs[i].ident != fs[j].ident)
    case Unnamed(fs) => forall i :: 0 <= i < |fs| ==> fs[i].ident.None?
    case Unit => true
  }

  /** Same layout constructor. */
  predicate SameKind(a: Fields, b: Fields)
  {
    (a.Named? && b.Named?) || (a.Unnamed? && b.Unnamed?) || (a.Unit? && b.Unit?)
  }

  /** Each partial field is its source field with only the type wrapped in `Option`. */
  function PartialFields(fs: seq<Field>): (r: seq<Field>)
    ensures |r| == |fs|
    ensures forall i :: 0 <= i < |fs| ==>
      r[i].attrs == fs[i].attrs && r[i].vis == fs[i].vis &&
      r[i].ident == fs[i].ident && r[i].ty == OptionOf(fs[i].ty)
  {
    if fs == [] then []
    else [fs[0].(ty := OptionOf(fs[0].ty))] + PartialFields(fs[1..])
  }

  /** The original field list, read back from the partial one by unwrapping each `Option`. */
  function Unwrapped(fs: seq<Field>): (r: seq<Field>)
    requires forall i :: 0 <= i < |fs| ==> fs[i].ty.OptionOf?
    ensures |r| == |fs|
  {
    if fs == [] then [] else [fs[0].(ty := fs[0].ty.inner)] + Unwrapped(fs[1..])
  }

  /** Wrapping loses nothing: the source fields are recoverable from the partial ones. */
  lemma {:induction false} UnwrapPartialFields(fs: seq<Field>)
    ensures Unwrapped(PartialFields(fs)) == fs
  {
    if fs != [] {
      UnwrapPartialFields(fs[1..]);
      assert PartialFields(fs)[1..] == PartialFields(fs[1..]);
    }
  }

  /** The member of the field at position `i`. */
  function MemberOf(f: Field, i: nat): Member
  {
    match f.ident
    case Some(ident) => Ident(ident)
    case None => Index(i)
  }

  /** The members of `fs`, counting positions from `start`. */
  function MembersFrom(fs: seq<Field>, start: nat): (r: seq<Member>)
    ensures |r| == |fs|
    ensures forall i :: 0 <= i < |fs| ==> r[i] == MemberOf(fs[i], start + i)
  {
    if fs == [] then [] else [MemberOf(fs[0], start)] + MembersFrom(fs[1..], start + 1)
  }

  /** One member per field: its name if it has one, otherwise its position. */
  function Members(fs: seq<Field>): (r: seq<Member>)
    ensures |r| == |fs|
    ensures forall i :: 0 <= i < |fs| && fs[i].ident.Some? ==> r[i] == Ident(fs[i].ident.value)
    ensures forall i :: 0 <= i < |fs| && fs[i].ident.None? ==> r[i] == Index(i)
  {
    MembersFrom(fs, 0)
  }

  /** The members address the partial struct's fields exactly as they address the source's. */
  lemma MembersOfPartialFields(fs: seq<Field>)
    ensures Members(PartialFields(fs)) == Members(fs)
  {
  }

  /** In a well-formed body no two fields share a member, so each generated per-field statement touches its own field. */
  lemma MembersDistinct(fields: Fields)
    requires WellFormed(fields)
    ensures forall i, j :: 0 <= i < j < |fields.List()| ==> Members(fields.List())[i] != Members(fields.List())[j]
  {
  }

  /** The generated struct body: the same layout, with the partial field list. */
  function PartialStruct(fields: Fields): (r: Fields)
    ensures SameKind(fields, r)
    ensures r.List() == PartialFields(fields.List())
  {
    match fields
    case Named(fs) => Named(PartialFields(fs))
    case Unnamed(fs) => Unnamed(PartialFields(fs))
    case Unit => Unit
  }

  /** The generated body has the shape a struct body of its layout must have. */
  lemma PartialStructWellFormed(fields: Fields)
    requires WellFormed(fields)
    ensures WellFormed(PartialStruct(fields))
  {
  }

  /**
   * The derive: enums and unions are refused with their own message before the
   * options are looked at; a failure to read the options is reported next; a
   * `name` override that is not an identifier makes `Ident::new` panic; otherwise
   * the partial struct is emitted.
   */
  function Expand(input: DeriveInput): (r: Result<Expansion>)
    ensures input.data.Enum? ==> r == Err(EnumError)
    ensures input.data.Union? ==> r == Err(UnionError)
    ensures input.data.Struct? && input.attrs.Err? ==> r == Err(input.attrs.error)
    ensures input.data.Struct? && input.attrs.Ok? && input.attrs.value.name.Some? && !IsIdent(input.attrs.value.name.value) ==>
      r == Err(InvalidIdent(input.attrs.value.name.value))
    ensures r.Ok? <==>
      input.data.Struct? && input.attrs.Ok? &&
      (input.attrs.value.name.Some? ==> IsIdent(input.attrs.value.name.value))
    ensures r.Ok? ==>
      && Name(input.attrs.value, input.ident) == Ok(r.value.name)
      && r.value.attributes == Attributes(input.attrs.value, input.ident)
      && r.value.vis == input.vis
      && r.value.parent == input.ident
      && SameKind(input.data.fields, r.value.fields)
      && r.value.fields.List() == PartialFields(input.data.fields.List())
      && |r.value.members| == |input.data.fields.List()|
      && r.value.members == Members(r.value.fields.List())
  {
    match input.data
    case Enum => Err(EnumError)
    case Union => Err(UnionError)
    case Struct(fields) =>
      match input.attrs
      case Err(e) => Err(e)
      case Ok(args) =>
        match Name(args, input.ident)
        case Err(e) => Err(e)
        case Ok(name) =>
          MembersOfPartialFields(fields.List());
          Ok(Expansion(
            Attributes(args, input.ident),
            input.vis,
            name,
            PartialStruct(fields),
            Members(fields.List()),
            input.ident))
  }
}
