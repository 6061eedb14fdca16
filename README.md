# partial-rs, modelled in Dafny

`partial-rs` is a Rust derive macro. `#[derive(Partial)]` on a struct `S` emits a
companion struct (by default `PartialS`) whose fields are those of `S`, each
wrapped in `Option`. It also emits a small algebra over that struct:

- `empty` and `is_empty`, plus `Default`;
- `set_and` and `set_or`, with the trait methods `and` and `or` built on them;
- `into_partial` and `set` on `S`.

This project models what the macro decides and what the emitted code does.

- `Config` (`config.dfy`) covers the `#[partial(name = ..., derive(...))]`
  options. It builds the generated identifier, the doc string and the derive
  list. The derive list is the token sequence `Path, Comma, Path, ...` that
  `#(#derives),*` produces.
- `Derive` (`derive.dfy`) covers the derive itself. Enums and unions are
  refused with their own messages, before the options are read. A `name`
  override that is not an identifier makes the derive fail. For a struct
  it builds the partial field list, the member list and the body layout
  (named, tuple or unit).
- `Generated` (`generated.dfy`) covers the emitted operations. Each field is
  one slot. A source value is `seq<V>` and a partial is `seq<Option<V>>` of the
  same length. `empty`, `is_empty`, `Default` and `into_partial` are
  functions. `set_and`, `set_or` and `set` update `&mut self` one field at a
  time. They are methods of the classes `PartialStruct` and `SourceStruct`,
  which hold an array, and each runs a loop over the fields. Each method is
  proved against a specification function: `AndOf`, `OrOf` or `Apply`.
- `Ops` (`ops.dfy`) covers the `PartialOps` trait. `and` and `or` copy `self`,
  run `set_and` or `set_or` on the copy and return it. The module also holds
  the laws of the algebra: neutrality of `empty` for `or`, absorption by
  `empty` for `and`, the asymmetry of `and`, associativity, idempotence,
  absorption, the round trip `x.set(v.into_partial()) == v`, composition of
  two `set`s, and field independence.
- `Scenarios` (`scenarios.dfy`) re-states the crate's tests against the model.

Three behaviours of the code differ from what a reader of the crate might
expect. The model follows the code in each case.

- The code has no field-level `flatten` mode. Every field becomes `Option<T>`.
- Fields are cloned whole, so each field's own attributes are copied unchanged
  onto the partial field. Nothing is stripped.
- For a struct without fields, `is_empty` does not return `true`; see
  "## Findings".

## Model

| member | source | states |
|---|---|---|
| `Config.Name` | partial_macros/src/args.rs:16-21 | an override that is an identifier is used verbatim, and any other override fails with `Ident::new`'s error; without one, the identifier is `Partial` followed by the parent identifier with a raw `r#` dropped, as `format_ident!` formats it |
| `Config.IsIdent` | partial_macros/src/args.rs:19 | the strings `Ident::new` accepts: non-empty, not starting with a digit, and made only of identifier characters (no space, no `#`) |
| `Config.InvalidIdent` | partial_macros/src/args.rs:19 | the error for a refused override quotes that override |
| `Config.Unraw` | partial_macros/src/args.rs:20 | the part of the parent that `format_ident!` puts into the default name: the parent itself or the parent without a leading `r#`; a plain identifier is kept whole, and a plain or raw identifier always yields an identifier |
| `Config.DefaultNameIsIdent` | partial_macros/src/args.rs:20 | without an override the name never fails: for a plain or raw parent identifier, the default name is an identifier |
| `Config.DefaultNameInjective` | partial_macros/src/args.rs:20 | without an override, two parents get the same generated identifier exactly when they agree once a raw `r#` is dropped |
| `Config.Doc` | partial_macros/src/args.rs:25 | the doc string is ``Partial of [` ``, then the parent name as displayed (a raw `r#` kept), then `` `]. ``, and the parent can be read back from it |
| `Config.Separated` | partial_macros/src/args.rs:28 | the derive list is emitted as paths at even positions separated by commas, with `2n-1` tokens for `n` paths and none for an empty list |
| `Config.PathsOfSeparated` | partial_macros/src/args.rs:28 | reading the paths back from the emitted list gives the configured list, in order, with nothing added or dropped |
| `Config.Attributes` | partial_macros/src/args.rs:23-30 | the attributes carry the parent's doc string and exactly the configured derive paths; an absent `derive` gives an empty `#[derive()]` |
| `Derive.PartialFields` | partial_macros/src/lib.rs:44-50 | one partial field per source field, in order; each keeps its attributes, visibility and identifier, and only its type becomes `Option<T>` |
| `Derive.UnwrapPartialFields` | partial_macros/src/lib.rs:44-50 | unwrapping the `Option` of every partial field gives back the source field list |
| `Derive.Members` | partial_macros/src/lib.rs:52-60 | one member per field; member `i` is the field's name when it has one and position `i` otherwise |
| `Derive.MembersOfPartialFields` | partial_macros/src/lib.rs:44-60 | the members address the partial struct's fields exactly as they address the source struct's |
| `Derive.MembersDistinct` | partial_macros/src/lib.rs:52-60 | in a well-formed body no two fields share a member |
| `Derive.PartialStruct` | partial_macros/src/lib.rs:66-80 | the generated body keeps the source layout (named, tuple or unit) and holds the partial field list |
| `Derive.PartialStructWellFormed` | partial_macros/src/lib.rs:66-80 | a well-formed source body gives a well-formed generated body |
| `Derive.Expand` | partial_macros/src/lib.rs:19-80 | an enum gives `enum not supported by partial derive` and a union gives `union not supported by partial derive`, whatever its options; an option error comes next, then a `name` override that is not an identifier; the macro emits its expansion exactly when none of these occurs, and then the output has the configured name, attributes, visibility, layout, partial fields and one member per field |
| `Generated.IsEmpty` | partial_macros/src/lib.rs:99-101 | true exactly when every field is absent (corrected for zero fields; see Findings) |
| `Generated.IsEmptyEmitted` | partial_macros/src/lib.rs:99-101 | the emitted body yields a value only when the struct has fields, and then it is true exactly when every field is absent |
| `Generated.ZeroFieldIsEmptyHasNoValue` | partial_macros/src/lib.rs:100 | for zero fields the emitted `is_empty` has no value, while the corrected one is true |
| `Generated.Empty` | partial_macros/src/lib.rs:91-95 | `empty()` has one slot per field and `is_empty()` holds of it |
| `Generated.EmptyUnique` | partial_macros/src/lib.rs:91-101 | the only partial for which `is_empty` holds is `empty()` of that arity |
| `Generated.Default` | partial_macros/src/lib.rs:105-110 | `Default::default()` is empty, and so equals `empty()` |
| `Generated.IntoPartial` | partial_macros/src/lib.rs:142-146 | `into_partial` makes every field present with the source value |
| `Generated.AndOf` | partial_macros/src/lib.rs:125-127 | a field is present after `and` exactly when both operands have it, and its value is then the right operand's |
| `Generated.OrOf` | partial_macros/src/lib.rs:130-134 | after `or`, a field keeps the left value when present and otherwise takes the right one; it is absent only when both are |
| `Generated.Apply` | partial_macros/src/lib.rs:149-153 | `set` overwrites exactly the fields the partial has and leaves the others unchanged |
| `Generated.PartialStruct.SetAnd` | partial_macros/src/lib.rs:124-127 | updating field by field leaves `self` equal to `AndOf(old self, other)` |
| `Generated.PartialStruct.SetOr` | partial_macros/src/lib.rs:129-134 | updating each absent field from `other` leaves `self` equal to `OrOf(old self, other)` |
| `Generated.SourceStruct.Set` | partial_macros/src/lib.rs:148-153 | after `set(p)` the fields equal `Apply(old fields, p)` |
| `Ops.And` | partial/src/lib.rs:57-62 | `a.and(b)` is a copy of `a` after `set_and(b)`: a field is present when both have one, with `b`'s value |
| `Ops.Or` | partial/src/lib.rs:67-72 | `a.or(b)` is a copy of `a` after `set_or(b)`: each field holds a value from either partial, `a`'s first, and is absent only when neither has one |
| `Ops.OrEmptyNeutral` | partial/src/lib.rs:67 | `p.or(empty()) == p` and `empty().or(p) == p` |
| `Ops.AndEmptyAbsorbing` | partial/src/lib.rs:57 | `empty().and(p)` and `p.and(empty())` are empty |
| `Ops.AndPresenceSymmetric` | partial/src/lib.rs:57 | which fields survive `and` does not depend on the operand order |
| `Ops.AndNotCommutative` | partial/src/lib.rs:57 | the value after `and` does depend on the order: it is always the right operand's |
| `Ops.AndAssociative` | partial/src/lib.rs:57-62 | `(a.and(b)).and(c) == a.and(b.and(c))` |
| `Ops.OrAssociative` | partial/src/lib.rs:67-72 | `(a.or(b)).or(c) == a.or(b.or(c))` |
| `Ops.Idempotent` | partial/src/lib.rs:57-74 | `p.and(p) == p` and `p.or(p) == p` |
| `Ops.Absorption` | partial/src/lib.rs:57-74 | `a.or(a.and(b)) == a` and `a.and(a.or(b)) == a` |
| `Ops.FullOperand` | partial/src/lib.rs:57-74 | `v.into_partial().and(p) == p` and `v.into_partial().or(p) == v.into_partial()` |
| `Ops.IntoPartialNonEmpty` | partial_macros/src/lib.rs:142-146 | a materialized value is empty only when the struct has no fields |
| `Ops.ApplyIntoPartial` | partial_macros/src/lib.rs:142-153 | `x.set(v.into_partial())` leaves `x` equal to `v`, for any `x` of the same shape |
| `Ops.ApplyEmpty` | partial_macros/src/lib.rs:149-153 | `x.set(empty())` changes nothing |
| `Ops.ApplyTwice` | partial_macros/src/lib.rs:149-153 | `set(p)` then `set(q)` is `set(q.or(p))` |
| `Ops.ApplyIdempotent` | partial_macros/src/lib.rs:149-153 | applying the same partial twice is applying it once |
| `Ops.FieldIndependence` | partial_macros/src/lib.rs:124-153 | changing one field of an operand changes no other field of `and`, `or` or `set` |
| `Scenarios.SimpleTest` | partial/tests/test.rs:3-29 | `set` with `valid` and `id` present changes those two and keeps the default `name`; `empty()` is empty |
| `Scenarios.GenericTest` | partial/tests/test.rs:31-56 | `into_partial` gives both fields; `set_and` with only `value` present gives `name` absent and `value` 456 |
| `Scenarios.TupleTest` | partial/tests/test.rs:58-72 | the default tuple materializes to two present zeros; `and` with `(Some(123), None)` gives `(Some(123), None)` |
| `Scenarios.AttributesTest` | partial/tests/test.rs:74-89 | with `name = "MyPartial"` and `derive(Debug, Clone, PartialEq)`, the output is named `MyPartial`, derives those three in order, and keeps each field's visibility |
| `Scenarios.DefaultNames` | partial/tests/test.rs:50-69 | without a name option the partials are `PartialGeneric` and `PartialTuple` |
| `Scenarios.EnumRejected` | partial_macros/src/lib.rs:19-37 | an enum or a union is refused with its message, whatever its options hold |
| `Scenarios.InvalidOverrideRejected` | partial_macros/src/args.rs:16-21 | the overrides `"My Partial"`, `""` and `"1st"` make the derive fail instead of emitting a struct |
| `Scenarios.RawParent` | partial_macros/src/args.rs:20-25 | for the raw parent `r#match` the generated struct is `Partialmatch`, while the doc string keeps `r#match` |

## Left out

- Token construction is not modelled: `quote!`, `Type::Verbatim`, spans, `into_compile_error` and the proc-macro entry point. An error is modelled as `Err(message)` and the output as a record of what the macro emits.
- `Config.IsIdent` accepts only ASCII identifiers: an ASCII letter or `_`, then ASCII letters, digits or `_`. `Ident::new` also accepts Unicode identifier characters, which are not modelled, so the model rejects some non-ASCII overrides that the macro accepts.
- `Derive.Expand` does not decide whether the emitted code compiles. Two known cases emit code the compiler then refuses. The first is a keyword `name` override such as `"match"` or `"_"`, which `Ident::new` accepts but `struct match { .. }` does not parse. The second is a struct with no fields, whose `is_empty` has an empty body (see "## Findings").
- `Config.InvalidIdent` approximates the panic message of `Ident::new`. That message belongs to the compiler, not to this crate.
- Reading `#[partial(...)]` through `attribute_derive::FromAttr` is not modelled. The options arrive as an already-parsed `Result<Args>`, and a parse error is passed through unchanged.
- Generic parameters, lifetimes and where-clauses are copied through the `split_for_impl` output without inspection, so they are not modelled.
- Field types are one type parameter `V`, not Rust's heterogeneous types. The scenarios use a small `Value` datatype.
- `Partial<T>` is the type synonym `Generated.Partial<V>`. That it implements `PartialOps` is a fact about types, with no behaviour beyond the operations modelled.
- The inherent `empty`/`is_empty` and the `PartialOps` ones are the same function here, because the trait versions only delegate. `#[inline]`, `const fn` and `#[automatically_derived]` have no behaviour.
- Ownership is not modelled. `other` in `set_and`/`set_or` and the partial in `set` are moved in Rust; here they are passed as values.
- Equal arity of both operands is a requirement (`requires |a| == |b|`), because Rust's types guarantee it.
- The host's derived `Debug`, `Clone` and `PartialEq` on the generated type are not modelled.
- The crate-level doc example is not modelled. It is `no_run` and uses an undeclared `value`.

## Findings

| source | as written | input that shows it | evidently intended | confidence | as-written member | corrected member |
|---|---|---|---|---|---|---|
| partial_macros/src/lib.rs:99-101 | `is_empty` is `#( self.#members.is_none() )&&*`. With no members the repetition expands to nothing, so the `-> bool` function has an empty body of type `()` | a unit struct `struct S;`, or `struct S {}` or `struct S()`: the emitted `is_empty` does not type-check, so the derive fails for such a struct | an empty conjunction is `true`: a struct with no fields is always empty | not executed | `Generated.IsEmptyEmitted`, `Generated.ZeroFieldIsEmptyHasNoValue` | `Generated.IsEmpty` |
