/**
 * The crate's own test cases, restated against the model and checked by the
 * verifier: each method returns the values the test inspects, and its
 * postcondition is the test's expectation.
 */
module Scenarios {
  import opened Wrappers
  import opened Config
  import opened Derive
  import opened Generated
  import opened Ops

  /** The field values of the test structs. */
  datatype Value = Bool(b: bool) | Int(n: int) | Str(s: string)

  /** `simple`: `set` overwrites `valid` and `id` and keeps the default `name`; `empty()` is empty. */
  method SimpleTest() returns (test: seq<Value>, emptyIsEmpty: bool)
    ensures test == [Bool(true), Int(123), Str("")]
    ensures emptyIsEmpty
  {
    var t := new SourceStruct([Bool(false), Int(0), Str("")]);
    t.Set([Some(Bool(true)), Some(Int(123)), None]);
    test := t.fields[..];
    emptyIsEmpty := IsEmpty(Empty<Value>(3));
  }

  /** `generic`: `into_partial` makes both fields present; `set_and` keeps only `value`, with the other side's value. */
  method GenericTest() returns (converted: Partial<Value>, merged: Partial<Value>)
    ensures converted == [Some(Str("foo")), Some(Int(123))]
    ensures merged == [None, Some(Int(456))]
  {
    converted := IntoPartial([Str("foo"), Int(123)]);
    var partial := new PartialStruct(converted);
    partial.SetAnd([None, Some(Int(456))]);
    merged := partial.Value();
  }

  /** `tuple`: the default tuple materializes to two present zeros; `and` keeps position 0 with the right value and drops 1. */
  method TupleTest() returns (converted: Partial<Value>, merged: Partial<Value>)
    ensures converted == [Some(Int(0)), Some(Int(0))]
    ensures merged == [Some(Int(123)), None]
  {
    converted := IntoPartial([Int(0), Int(0)]);
    merged := And(converted, [Some(Int(123)), None]);
  }

  /** The struct of the `attributes` test, with its two `#[partial(...)]` options. */
  function AttributesInput(): DeriveInput
  {
    var i32 := TypePath("i32");
    DeriveInput(
      Ok(Args(Some("MyPartial"), ["Debug", "Clone", "PartialEq"])),
      Inherited,
      "MyStruct",
      Struct(Named([
        Field([], Inherited, Some("private"), i32),
        Field([], Public, Some("public"), i32),
        Field([], Restricted("crate"), Some("restricted"), i32)])))
  }

  /**
   * `attributes`: the generated struct is called `MyPartial`, derives the three
   * listed traits in order, and keeps each field's visibility.
   */
  lemma AttributesTest()
    ensures Expand(AttributesInput()).Ok?
    ensures Expand(AttributesInput()).value.name == "MyPartial"
    ensures Paths(Expand(AttributesInput()).value.attributes.derive) == ["Debug", "Clone", "PartialEq"]
    ensures Expand(AttributesInput()).value.fields == Named([
      Field([], Inherited, Some("private"), OptionOf(TypePath("i32"))),
      Field([], Public, Some("public"), OptionOf(TypePath("i32"))),
      Field([], Restricted("crate"), Some("restricted"), OptionOf(TypePath("i32")))])
    ensures Expand(AttributesInput()).value.members == [Ident("private"), Ident("public"), Ident("restricted")]
  {
  }

  /** Without a `name` option the tests' partials are `PartialGeneric` and `PartialTuple`. */
  lemma DefaultNames()
    ensures Name(Args(None, []), "Generic") == Ok("PartialGeneric")
    ensures Name(Args(None, []), "Tuple") == Ok("PartialTuple")
  {
    assert "Generic"[..2][0] != 'r' && "Tuple"[..2][0] != 'r';
    assert Prefix + "Generic" == "PartialGeneric";
    assert Prefix + "Tuple" == "PartialTuple";
  }

  /** An enum is refused before its options are read, even when they are malformed. */
  lemma EnumRejected(vis: Visibility, ident: string, attrs: Result<Args>)
    ensures Expand(DeriveInput(attrs, vis, ident, Enum)) == Err("enum not supported by partial derive")
    ensures Expand(DeriveInput(attrs, vis, ident, Union)) == Err("union not supported by partial derive")
  {
  }

  /** An override that is not an identifier makes the derive fail with `Ident::new`'s message. */
  lemma InvalidOverrideRejected(vis: Visibility, ident: string, fields: Fields)
    ensures Expand(DeriveInput(Ok(Args(Some("My Partial"), [])), vis, ident, Struct(fields))).Err?
    ensures Expand(DeriveInput(Ok(Args(Some(""), [])), vis, ident, Struct(fields))).Err?
    ensures Expand(DeriveInput(Ok(Args(Some("1st"), [])), vis, ident, Struct(fields))) == Err(InvalidIdent("1st"))
  {
    assert !IsIdentContinue("My Partial"[2]);
    assert !IsIdent("My Partial");
    assert !IsIdentStart("1st"[0]);
    assert !IsIdent("1st");
  }

  /** For a raw parent `r#match` the generated struct is `Partialmatch`, while the doc keeps `r#match`. */
  lemma RawParent()
    ensures Name(Args(None, []), "r#match") == Ok("Partialmatch")
    ensures Doc("r#match") == "Partial of [`r#match`]."
  {
    assert Unraw("r#match") == "match";
    assert Prefix + "match" == "Partialmatch";
  }
}
