/**
 * The struct-level `#[partial(...)]` options and what they contribute to the
 * generated type: its identifier, its doc comment and its derive list.
 * The options arrive already parsed; parsing them is not part of this module.
 */
module Config {
  import opened Wrappers

  /** `#[partial(name = "...")]` and `#[partial(derive(...))]`; `derive` defaults to empty. */
  datatype Args = Args(name: Option<string>, derive: seq<string>)

  /** The marker put before the parent's identifier when no name is given. */
  const Prefix: string := "Partial"

  const DocOpen: string := "Partial of [`"
  const DocClose: string := "`]."

  /** A character that may start an identifier: an ASCII letter or `_`. */
  predicate IsIdentStart(c: char)
  {
    ('a' <= c <= 'z') || ('A' <= c <= 'Z') || c == '_'
  }

  /** A character that may continue an identifier: an ASCII letter, a digit or `_`. */
  predicate IsIdentContinue(c: char)
  {
    IsIdentStart(c) || ('0' <= c <= '9')
  }

  /** The strings `Ident::new` accepts: a start character followed by continue characters. */
  predicate IsIdent(s: string)
    ensures IsIdent(s) ==> |s| > 0 && !('0' <= s[0] <= '9')
    ensures IsIdent(s) ==> forall i :: 0 <= i < |s| ==> IsIdentContinue(s[i]) && s[i] != ' ' && s[i] != '#'
  {
    |s| > 0 && IsIdentStart(s[0]) && forall i :: 1 <= i < |s| ==> IsIdentContinue(s[i])
  }

  /** The panic message of `Ident::new` for a string that is not an identifier, quoting that string. */
  function InvalidIdent(s: string): (r: string)
    ensures |r| > |s| + 2 && r[2..|s| + 2] == s
  {
    "`\"" + s + "\"` is not a valid identifier"
  }

  /** A raw identifier `r#x` without its `r#`; any other identifier unchanged. */
  function Unraw(ident: string): (r: string)
    ensures r == ident || "r#" + r == ident
    ensures IsIdent(ident) ==> r == ident
    ensures IsParsedIdent(ident) ==> IsIdent(r)
  {
    if |ident| >= 2 && ident[..2] == "r#" then
      assert "r#" + ident[2..] == ident;
      assert ident[1] == '#' && !IsIdent(ident);
      ident[2..]
    else
      ident
  }

  /** An identifier as the parser hands it over: plain, or raw (`r#` then an identifier). */
  predicate IsParsedIdent(ident: string)
  {
    IsIdent(ident) || (|ident| >= 2 && ident[..2] == "r#" && IsIdent(ident[2..]))
  }

  /**
   * The identifier of the generated struct: the override, which `Ident::new`
   * refuses unless it is an identifier, or `Partial` followed by the parent's
   * identifier, from which `format_ident!` drops a raw `r#`.
   */
  function Name(args: Args, parent: string): (r: Result<string>)
    ensures args.name.Some? && IsIdent(args.name.value) ==> r == Ok(args.name.value)
    ensures args.name.Some? && !IsIdent(args.name.value) ==> r == Err(InvalidIdent(args.name.value))
    ensures args.name.None? ==>
      r.Ok? && |r.value| == |Prefix| + |Unraw(parent)| &&
      r.value[..|Prefix|] == Prefix && r.value[|Prefix|..] == Unraw(parent)
  {
    match args.name
    case Some(name) => if IsIdent(name) then Ok(name) else Err(InvalidIdent(name))
    case None => Ok(Prefix + Unraw(parent))
  }

  /** Without an override the generated name is an identifier for any parent, plain or raw, so the default never fails. */
  lemma DefaultNameIsIdent(args: Args, parent: string)
    requires args.name.None? && IsParsedIdent(parent)
    ensures Name(args, parent).Ok? && IsIdent(Name(args, parent).value)
  {
    var u := Unraw(parent);
    var r := Name(args, parent).value;
    forall i | 1 <= i < |r| ensures IsIdentContinue(r[i]) {
      if i >= |Prefix| {
        assert r[i] == u[i - |Prefix|];
      }
    }
  }

  /** Without an override, two parents get the same generated identifier exactly when they agree once a raw `r#` is dropped. */
  lemma DefaultNameInjective(args: Args, p: string, q: string)
    requires args.name.None?
    ensures Name(args, p) == Name(args, q) <==> Unraw(p) == Unraw(q)
  {
    if Name(args, p) == Name(args, q) {
      assert Unraw(p) == Name(args, p).value[|Prefix|..];
    }
  }

  /** The doc string naming the parent type, from which the parent can be read back. */
  function Doc(parent: string): (r: string)
    ensures |r| == |DocOpen| + |parent| + |DocClose|
    ensures r[..|DocOpen|] == DocOpen
    ensures r[|DocOpen|..|r| - |DocClose|] == parent
    ensures r[|r| - |DocClose|..] == DocClose
  {
    DocOpen + parent + DocClose
  }

  /** A token of the emitted `#[derive(...)]` list. */
  datatype Token = Path(path: string) | Comma

  /** The comma-separated repetition `#(#derives),*`: paths at even positions, commas between. */
  function Separated(paths: seq<string>): (r: seq<Token>)
    ensures |r| == if paths == [] then 0 else 2 * |paths| - 1
    ensures forall i :: 0 <= i < |r| ==> r[i] == if i % 2 == 0 then Path(paths[i / 2]) else Comma
  {
    if paths == [] then []
    else if |paths| == 1 then [Path(paths[0])]
    else [Path(paths[0]), Comma] + Separated(paths[1..])
  }

  /** The paths a reader of a derive list sees, in order. */
  function Paths(tokens: seq<Token>): seq<string>
  {
    if tokens == [] then []
    else (if tokens[0].Path? then [tokens[0].path] else []) + Paths(tokens[1..])
  }

  /** Reading the emitted derive list back gives exactly the configured list: same order, nothing added or dropped. */
  lemma {:induction false} PathsOfSeparated(paths: seq<string>)
    ensures Paths(Separated(paths)) == paths
  {
    if |paths| > 1 {
      var r := Separated(paths);
      var rest := Separated(paths[1..]);
      assert r[1..][1..] == rest;
      PathsOfSeparated(paths[1..]);
      assert Paths(r[1..]) == Paths(rest);
    }
  }

  /** The attributes put on the generated struct: `#[doc = ...]` and `#[derive(...)]`. */
  datatype Attrs = Attrs(doc: string, derive: seq<Token>)

  /** The doc names the parent and the derive list carries the configured paths verbatim; an absent list gives `#[derive()]`. */
  function Attributes(args: Args, parent: string): (r: Attrs)
    ensures r.doc == Doc(parent)
    ensures Paths(r.derive) == args.derive
    ensures r.derive == [] <==> args.derive == []
  {
    PathsOfSeparated(args.derive);
    Attrs(Doc(parent), Separated(args.derive))
  }
}
