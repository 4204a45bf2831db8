/**
 * Client code of the generated builder, written against the contracts alone: the
 * usage the derive is meant for, and the structs it refuses.
 */
module Scenarios {

  import opened Wrappers
  import opened Syntax
  import opened Derivation
  import opened DeriveSpec
  import opened DeriveLemmas
  import opened DeriveAborts
  import opened Generated
  import opened BuildLemmas

  /** Field values of the example structs. */
  datatype Val = Int(i: int) | Str(s: string)

  function Plain(name: string): Ty {
    TypePath(Segment(name, NoArguments), [])
  }

  function Wrapped(wrapper: string, inner: Ty): Ty {
    TypePath(Segment(wrapper, AngleBracketed([TypeArgument(inner)])), [])
  }

  /** `#[builder(each = "<name>")]` */
  function Each(name: string): Attribute {
    Attribute("builder", MetaList(Assignment(OtherExpr, LitExpr(StrLit("\"" + name + "\"")))))
  }

  /** `struct Command { x: i32, y: Option<String> }` */
  function CommandInput(): DeriveInput {
    DeriveInput("Command", Struct([
      Field(Some("x"), Plain("i32"), []),
      Field(Some("y"), Wrapped("Option", Plain("String")), [])]))
  }

  /** `struct Post { #[builder(each = "tag")] tags: Vec<String> }` */
  function PostInput(): DeriveInput {
    DeriveInput("Post", Struct([Field(Some("tags"), Wrapped("Vec", Plain("String")), [Each("tag")])]))
  }

  /** What the derive emits for `Command`. */
  function CommandSchema(): BuilderSchema {
    BuilderSchema("Command", "CommandBuilder",
      [StorageField("x", SlotOf(Plain("i32"))), StorageField("y", SlotOf(Plain("String")))],
      [NoneValue, NoneValue],
      [Mutator("x", Plain("i32"), "x", Overwrite), Mutator("y", Plain("String"), "y", Overwrite)],
      [BuildRule("x", CloneOrMissing), BuildRule("y", CloneAsIs)])
  }

  lemma CommandDerives()
    ensures Derive(CommandInput()) == Success(CommandSchema())
  {
    var input := CommandInput();
    assert FieldDerivable(input.data.fields[0]) && FieldDerivable(input.data.fields[1]);
    DeriveSucceedsIff(input);
    DeriveSchema(input);
    assert KindOf(input.data.fields[0]) == Required(Plain("i32"));
    assert KindOf(input.data.fields[1]) == Optional(Plain("String"));
    var s, t := Derive(input).value, CommandSchema();
    assert s.storage == t.storage && s.init == t.init;
    assert s.mutators == t.mutators && s.rules == t.rules;
    assert s.builderName == "CommandBuilder";
  }

  /** A required and an optional field: the setter fills the slot, the optional field
      is absent unless set, and building twice gives the same record. */
  method RequiredAndOptional()
  {
    CommandDerives();
    var s := CommandSchema();
    DerivedIsWellFormed(CommandInput());

    var b := new Builder<Val>(s);
    assert b.cells == [Slot(None), Slot(None)];
    var missing := b.Build();
    assert Missing(s, b.cells, 0);
    assert missing == Failure(MissingField("x"));

    var chain := b.Set(0, Int(5));
    assert b.cells == [Slot(Some(Int(5))), Slot(None)];
    var built := b.Build();
    AssembledFields(s, b.cells);
    assert built.value == [Value(Int(5)), MaybeValue(None)];
    var again := b.Build();
    assert again == built;
  }

  /** A later setter call overwrites the earlier value. */
  method Overwritten()
  {
    CommandDerives();
    var s := CommandSchema();
    DerivedIsWellFormed(CommandInput());

    var b := new Builder<Val>(s);
    var chain := b.Set(0, Int(5));
    chain := chain.Set(0, Int(7));
    chain := chain.Set(1, Str("hi"));
    assert b.cells == [Slot(Some(Int(7))), Slot(Some(Str("hi")))];
    var built := b.Build();
    AssembledFields(s, b.cells);
    assert built.value == [Value(Int(7)), MaybeValue(Some(Str("hi")))];
  }

  /** Calls the accessor of field `i` once per element of `vs`, in order. */
  method PushEach<V>(b: Builder<V>, i: nat, vs: seq<V>)
    requires b.Valid() && i < |b.cells| && b.schema.mutators[i].mode == Append
    modifies b
    ensures b.Valid() && old(b.cells)[i].List?
    ensures b.cells == old(b.cells)[i := PushedAll(old(b.cells)[i], vs)]
  {
    assert old(b.cells)[i].List?;
    var n := 0;
    assert old(b.cells)[i] == List(old(b.cells)[i].items + vs[..0]);
    while n < |vs|
      invariant 0 <= n <= |vs| && b.Valid() && |b.cells| == |old(b.cells)|
      invariant b.cells == old(b.cells)[i := List(old(b.cells)[i].items + vs[..n])]
    {
      var chain := b.Push(i, vs[n]);
      assert old(b.cells)[i].items + vs[..n + 1] == (old(b.cells)[i].items + vs[..n]) + [vs[n]];
      n := n + 1;
    }
    assert vs[..n] == vs;
    PushedAllAppends(old(b.cells)[i], vs);
  }

  /** An accumulated field: the accessor is named by the attribute, and the built list
      is exactly the accessor arguments in call order. */
  method Accumulated(vs: seq<Val>)
  {
    var input := PostInput();
    AccessorNameUnquotes("tag");
    assert FieldDerivable(input.data.fields[0]);
    DeriveSucceedsIff(input);
    DeriveSchema(input);
    var s := Derive(input).value;
    assert s.mutators[0] == Mutator("tag", Plain("String"), "tags", Append);
    DerivedIsWellFormed(input);

    var b := new Builder<Val>(s);
    PushEach(b, 0, vs);
    PushedAllFromEmpty(vs);
    assert b.cells == [List(vs)];
    var built := b.Build();
    AssembledFields(s, b.cells);
    assert built.value == [Values(vs)];
  }

  /** Structs the derive refuses. */
  method Refused()
  {
    // An attribute on a field that is not a `Vec`.
    var notVec := DeriveInput("Post", Struct([Field(Some("tag"), Plain("String"), [Each("tag")])]));
    FieldAborts(notVec, 0);
    assert Derive(notVec).Failure?;

    // An attribute on an `Option`.
    var onOption := DeriveInput("Post", Struct([
      Field(Some("tag"), Wrapped("Option", Plain("String")), [Each("tag")])]));
    FieldAborts(onOption, 0);
    assert Derive(onOption).Failure?;

    // A doc comment is an attribute too, and not a list.
    var documented := DeriveInput("Post", Struct([
      Field(Some("x"), Plain("i32"), [Attribute("doc", MetaNameValue)])]));
    FieldAborts(documented, 0);
    assert Derive(documented).Failure?;

    // Two attributes on one field.
    var twice := DeriveInput("Post", Struct([
      Field(Some("tags"), Wrapped("Vec", Plain("String")), [Each("tag"), Each("t")])]));
    FieldAborts(twice, 0);
    assert Derive(twice).Failure?;
  }
}
