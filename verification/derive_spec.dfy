/**
 * What the derive promises, stated without reference to its passes: which structs
 * it accepts, how it classifies each field, and the builder it then describes.
 * The lemmas connect this reference to `Derivation.Derive`.
 */
module DeriveSpec {

  import opened Wrappers
  import opened Syntax
  import opened Derivation

  /** The first generic argument of a path whose first segment is `wrapper`, when
      that argument is a type: `T` in `Vec<T>`. */
  function TypeArgumentOf(ty: Ty, wrapper: string): Option<Ty> {
    if ty.TypePath? && ty.head.ident == wrapper && ty.head.arguments.AngleBracketed?
       && |ty.head.arguments.args| > 0 && ty.head.arguments.args[0].TypeArgument?
    then Some(ty.head.arguments.args[0].ty)
    else None
  }

  /** `path(key = "literal")`, with a literal token that has two characters to strip. */
  predicate WellFormedAttribute(a: Attribute) {
    a.meta.MetaList? && a.meta.body.Assignment? &&
    a.meta.body.right.LitExpr? && a.meta.body.right.lit.StrLit? &&
    |a.meta.body.right.lit.token| >= 2
  }

  /** A field the derive accepts: it is named, has at most one attribute, an optional
      field has a type argument, and an attributed field is a `Vec<T>` (never an
      `Option`) carrying a well-formed attribute. */
  predicate FieldDerivable(f: Field) {
    f.ident.Some? && |f.attrs| <= 1 &&
    (IsOptional(f.ty) ==> TypeArgumentOf(f.ty, "Option").Some?) &&
    (|f.attrs| == 1 ==>
      WellFormedAttribute(f.attrs[0]) && !IsOptional(f.ty) && TypeArgumentOf(f.ty, "Vec").Some?)
  }

  /** An item the derive accepts: a struct all of whose fields are accepted. */
  predicate Derivable(input: DeriveInput) {
    input.data.Struct? &&
    forall i :: 0 <= i < |input.data.fields| ==> FieldDerivable(input.data.fields[i])
  }

  /** The three mutually exclusive kinds of field. */
  datatype FieldKind =
    | Required(ty: Ty)
    | Optional(inner: Ty)
    | Accumulated(elem: Ty, accessor: string)

  /** The kind of an accepted field: attributed fields accumulate `Vec` elements under
      the attribute's name, `Option` fields are optional, the rest are required. */
  function KindOf(f: Field): FieldKind
    requires FieldDerivable(f)
  {
    if |f.attrs| == 1 then
      Accumulated(TypeArgumentOf(f.ty, "Vec").value,
                  AccessorName(f.attrs[0].meta.body.right.lit.token).value)
    else if IsOptional(f.ty) then Optional(TypeArgumentOf(f.ty, "Option").value)
    else Required(f.ty)
  }

  /** Storage per kind: a list of elements, or a slot of the (inner) type. */
  function StorageOfKind(k: FieldKind): Storage {
    match k
    case Required(t) => SlotOf(t)
    case Optional(t) => SlotOf(t)
    case Accumulated(e, _) => ListOf(e)
  }

  /** Mutator per kind: an accessor named by the attribute that appends, or a setter
      named after the field that overwrites. */
  function MutatorOfKind(name: string, k: FieldKind): Mutator {
    match k
    case Required(t) => Mutator(name, t, name, Overwrite)
    case Optional(t) => Mutator(name, t, name, Overwrite)
    case Accumulated(e, accessor) => Mutator(accessor, e, name, Append)
  }

  /** Initial value per kind: lists start empty, slots start `None`. */
  function InitOfKind(k: FieldKind): InitValue {
    if k.Accumulated? then EmptyList else NoneValue
  }

  /** Read rule per kind: only a required field can be missing. */
  function RuleOfKind(name: string, k: FieldKind): BuildRule {
    if k.Required? then BuildRule(name, CloneOrMissing) else BuildRule(name, CloneAsIs)
  }

  // ---------------------------------------------------------------- one field

  /** Classification fails only on a field with several attributes or a malformed one;
      otherwise the field is optional exactly when its type is a path whose first
      segment is `Option`, and carries an attribute exactly when it has one. */
  lemma ClassifyMeaning(f: Field)
    ensures Classify(f).Success? <==>
      |f.attrs| == 0 || (|f.attrs| == 1 && AttributeLiteral(f.attrs[0]).Success?)
    ensures |f.attrs| > 1 ==> Classify(f) == Failure(MultipleAttributes)
    ensures Classify(f).Success? ==>
      (Classify(f).value.isOptional <==> f.ty.TypePath? && f.ty.head.ident == "Option") &&
      (Classify(f).value.hasBuilderAttr.FieldAttr? <==> |f.attrs| == 1)
  {
  }

  /** The attribute is accepted exactly in the form `path(key = "literal")`. */
  lemma AttributeLiteralMeaning(a: Attribute)
    ensures AttributeLiteral(a).Success? <==>
      a.meta.MetaList? && a.meta.body.Assignment? &&
      a.meta.body.right.LitExpr? && a.meta.body.right.lit.StrLit?
    ensures AttributeLiteral(a).Success? ==> AttributeLiteral(a).value == a.meta.body.right.lit.token
  {
  }

  /** A field passes all three fallible passes exactly when it is accepted, and then
      each pass produces what its kind prescribes. */
  lemma FieldPlan(f: Field)
    ensures FieldDerivable(f) <==>
      Classify(f).Success? &&
      DeclarationFor((Classify(f).value, f)).Success? &&
      MutatorFor((Classify(f).value, f)).Success?
    ensures FieldDerivable(f) ==>
      var m, n, k := Classify(f).value, f.ident.value, KindOf(f);
      DeclarationFor((m, f)) == Success(StorageField(n, StorageOfKind(k))) &&
      MutatorFor((m, f)) == Success(MutatorOfKind(n, k)) &&
      InitFor(m) == InitOfKind(k) &&
      RuleFor((m, f)) == RuleOfKind(n, k)
  {
  }
}

module DeriveLemmas {

  import opened Wrappers
  import opened Syntax
  import opened Derivation
  import opened DeriveSpec

  /** The derive produces a builder exactly for the structs all of whose fields are
      accepted; enums, unions and any struct with a rejected field abort. */
  lemma DeriveSucceedsIff(input: DeriveInput)
    ensures Derive(input).Success? <==> Derivable(input)
  {
    match input.data
    case Enum =>
    case Union =>
    case Struct(fields) =>
      var metas := Traverse(fields, Classify);
      if Derivable(input) {
        forall i | 0 <= i < |fields| ensures Classify(fields[i]).Success? {
          FieldPlan(fields[i]);
        }
        var entries := Zip(metas.value, fields);
        forall i | 0 <= i < |entries|
          ensures DeclarationFor(entries[i]).Success? && MutatorFor(entries[i]).Success?
        {
          FieldPlan(fields[i]);
        }
      } else if Derive(input).Success? {
        var i :| 0 <= i < |fields| && !FieldDerivable(fields[i]);
        var entries := Zip(metas.value, fields);
        assert entries[i] == (Classify(fields[i]).value, fields[i]);
        assert DeclarationFor(entries[i]).Success?;
        assert MutatorFor(entries[i]).Success?;
        FieldPlan(fields[i]);
        assert false;
      }
  }

  /** On success, the builder is named after the record, has one storage field, one
      initial value, one method and one `build` rule per field, in declaration order,
      each as the field's kind prescribes. */
  lemma DeriveSchema(input: DeriveInput)
    requires Derive(input).Success?
    ensures Derivable(input)
    ensures var s, fs := Derive(input).value, input.data.fields;
      s.recordName == input.ident &&
      s.builderName == input.ident + "Builder" &&
      |s.storage| == |fs| && |s.init| == |fs| && |s.mutators| == |fs| && |s.rules| == |fs| &&
      forall i :: 0 <= i < |fs| ==>
        var n, k := fs[i].ident.value, KindOf(fs[i]);
        s.storage[i] == StorageField(n, StorageOfKind(k)) &&
        s.init[i] == InitOfKind(k) &&
        s.mutators[i] == MutatorOfKind(n, k) &&
        s.rules[i] == RuleOfKind(n, k)
  {
    DeriveSucceedsIff(input);
    var fields := input.data.fields;
    var metas := Traverse(fields, Classify).value;
    var entries := Zip(metas, fields);
    forall i | 0 <= i < |fields|
      ensures var n, k := fields[i].ident.value, KindOf(fields[i]);
        Derive(input).value.storage[i] == StorageField(n, StorageOfKind(k)) &&
        Derive(input).value.init[i] == InitOfKind(k) &&
        Derive(input).value.mutators[i] == MutatorOfKind(n, k) &&
        Derive(input).value.rules[i] == RuleOfKind(n, k)
    {
      FieldPlan(fields[i]);
      assert entries[i] == (Classify(fields[i]).value, fields[i]);
    }
  }

  /** Every schema the derive produces is well formed. */
  lemma DerivedIsWellFormed(input: DeriveInput)
    requires Derive(input).Success?
    ensures WellFormed(Derive(input).value)
  {
    DeriveSchema(input);
  }
}

module DeriveAborts {

  import opened Wrappers
  import opened Syntax
  import opened Derivation
  import opened DeriveSpec
  import opened DeriveLemmas

  /** Enums and unions are refused outright. */
  lemma NonStructAborts(input: DeriveInput)
    requires !input.data.Struct?
    ensures Derive(input) == Failure(NotAStruct(if input.data.Enum? then EnumData else UnionData))
  {
  }

  /** Each way a single field makes the whole derive abort. */
  lemma FieldAborts(input: DeriveInput, k: nat)
    requires input.data.Struct? && k < |input.data.fields|
    ensures var f := input.data.fields[k];
      (f.ident.None? ==> Derive(input).Failure?) &&
      (|f.attrs| > 1 ==> Derive(input).Failure?) &&
      (|f.attrs| == 1 && !WellFormedAttribute(f.attrs[0]) ==> Derive(input).Failure?) &&
      (|f.attrs| == 1 && IsOptional(f.ty) ==> Derive(input).Failure?) &&
      (|f.attrs| == 1 && TypeArgumentOf(f.ty, "Vec").None? ==> Derive(input).Failure?) &&
      (IsOptional(f.ty) && TypeArgumentOf(f.ty, "Option").None? ==> Derive(input).Failure?)
  {
    DeriveSucceedsIff(input);
  }

  /** Every field is classified before anything is emitted: the first field whose
      classification fails is the one reported, whatever later passes would say of
      earlier fields. */
  lemma ClassificationAbortsFirst(input: DeriveInput, k: nat)
    requires input.data.Struct? && k < |input.data.fields|
    requires Classify(input.data.fields[k]).Failure?
    requires forall j :: 0 <= j < k ==> Classify(input.data.fields[j]).Success?
    ensures Derive(input) == Failure(FieldAbort(k, Classify(input.data.fields[k]).error))
  {
  }

  /** The accessor's name is the attribute's string with its quotes removed. */
  lemma AccessorNameUnquotes(name: string)
    ensures AccessorName("\"" + name + "\"") == Success(name)
  {
    var token := "\"" + name + "\"";
    assert token[1..|token| - 1] == name;
  }

  /** Only the first path segment is looked at, so `std::option::Option<T>` is a
      required field stored in a slot of the whole declared type. */
  lemma QualifiedOptionIsRequired(f: Field, inner: Ty)
    requires f.ident.Some? && f.attrs == []
    requires f.ty == TypePath(Segment("std", NoArguments),
                              [Segment("option", NoArguments),
                               Segment("Option", AngleBracketed([TypeArgument(inner)]))])
    ensures FieldDerivable(f) && KindOf(f) == Required(f.ty)
    ensures StorageOfKind(KindOf(f)) == SlotOf(f.ty)
  {
  }

  /** Neither the attribute's path nor the key on the left of `=` is inspected. */
  lemma AttributeKeyIgnored(p1: string, p2: string, left1: Expr, left2: Expr, right: Expr)
    ensures AttributeLiteral(Attribute(p1, MetaList(Assignment(left1, right)))) ==
            AttributeLiteral(Attribute(p2, MetaList(Assignment(left2, right))))
  {
  }
}
