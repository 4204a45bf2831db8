/**
 * The derivation performed by `#[derive(Builder)]` (builder/src/lib.rs): from a
 * struct's fields to the description of the builder it emits.  Every `panic!`,
 * failed `assert!` and failed `unwrap()` of the macro is a `Failure` here; token
 * emission is replaced by the `BuilderSchema` value that the emitted code spells out.
 */
module Derivation {

  import opened Wrappers
  import opened Syntax

  /** Whether a field carries an attribute, and the literal token it supplied. */
  datatype HasFieldAttr = NoAttr | FieldAttr(literal: string)

  /** What the classification pass records about each field. */
  datatype FieldMetadata = FieldMetadata(isOptional: bool, hasBuilderAttr: HasFieldAttr)

  /** The reasons for which the macro aborts on a field, one per abort site. */
  datatype FieldFault =
    | MultipleAttributes          // `assert!(field.attrs.len() == 1)`
    | AttributeNotList            // the attribute is not of the form `path(...)`
    | AttributeNotAssignment      // the list body does not parse as `left = right`
    | AttributeValueNotLiteral    // the right-hand side is not a literal
    | AttributeValueNotString     // the literal is not a string literal
    | UnnamedField                // `field.ident.unwrap()` on a tuple-struct field
    | WrapperMismatch(expected: string)   // the `assert!` on the first path segment
    | EmptyTypeArguments          // `args.args.first().unwrap()` on `Wrapper<>`
    | NoInnerType(wrapper: string)        // "Failed to extract inner type from ..."
    | AccessorSliceOutOfRange     // slicing the quotes off a token shorter than two

  datatype DataKind = EnumData | UnionData

  /** Why no builder is generated: the item is not a struct, or field `index` aborted. */
  datatype SchemaError = NotAStruct(kind: DataKind) | FieldAbort(index: nat, fault: FieldFault)

  /** Builder storage for one field: `Option<T>` or `Vec<T>`. */
  datatype Storage = SlotOf(ty: Ty) | ListOf(ty: Ty)

  datatype StorageField = StorageField(name: string, storage: Storage)

  /** A setter overwrites its slot; an accessor pushes onto its list. */
  datatype WriteMode = Overwrite | Append

  /** A generated builder method: its name, parameter type, the field it writes and how. */
  datatype Mutator = Mutator(name: string, param: Ty, target: string, mode: WriteMode)

  /** The value a field of the builder starts with: `None` or `vec![]`. */
  datatype InitValue = NoneValue | EmptyList

  /** How `build` reads a field: `.clone()`, or `.clone().ok_or(..)?`. */
  datatype ReadMode = CloneAsIs | CloneOrMissing

  datatype BuildRule = BuildRule(field: string, mode: ReadMode)

  /** Everything the emitted code is made of; the four sequences are in field order. */
  datatype BuilderSchema = BuilderSchema(
    recordName: string,
    builderName: string,
    storage: seq<StorageField>,
    init: seq<InitValue>,
    mutators: seq<Mutator>,
    rules: seq<BuildRule>)

  const BuilderSuffix := "Builder"

  // ---------------------------------------------------------------- classification

  /** A type is optional when it is a path whose first segment is `Option`. */
  function IsOptional(ty: Ty): bool {
    match ty
    case TypePath(head, _) => head.ident == "Option"
    case NonPathType(_) => false
  }

  /** The string-literal token of an attribute `path(left = "literal")`; its path and
      left-hand side are not looked at. */
  function AttributeLiteral(a: Attribute): Result<string, FieldFault> {
    match a.meta
    case MetaList(body) =>
      (match body
       case NotAnAssignment => Failure(AttributeNotAssignment)
       case Assignment(_, right) =>
         match right
         case OtherExpr => Failure(AttributeValueNotLiteral)
         case LitExpr(lit) =>
           match lit
           case StrLit(token) => Success(token)
           case OtherLit => Failure(AttributeValueNotString))
    case MetaPath => Failure(AttributeNotList)
    case MetaNameValue => Failure(AttributeNotList)
  }

  /** The classification closure applied to one field. */
  function Classify(f: Field): Result<FieldMetadata, FieldFault> {
    if |f.attrs| == 0 then
      Success(FieldMetadata(IsOptional(f.ty), NoAttr))
    else if |f.attrs| != 1 then
      Failure(MultipleAttributes)
    else
      var literal :- AttributeLiteral(f.attrs[0]);
      Success(FieldMetadata(IsOptional(f.ty), FieldAttr(literal)))
  }

  // ---------------------------------------------------------------- inner types

  /** `extract_inner_type_from_outer_type`: the first generic argument of a path whose
      first segment must be `outer`.  `Success(None)` is the closure returning `None`;
      `Failure` is the closure itself panicking. */
  function ExtractInner(ty: Ty, outer: string): Result<Option<Ty>, FieldFault> {
    match ty
    case NonPathType(_) => Success(None)
    case TypePath(head, _) =>
      if head.ident != outer then Failure(WrapperMismatch(outer))
      else
        match head.arguments
        case AngleBracketed(args) =>
          if |args| == 0 then Failure(EmptyTypeArguments)
          else
            (match args[0]
             case TypeArgument(inner) => Success(Some(inner))
             case OtherArgument => Success(None))
        case NoArguments => Success(None)
        case Parenthesized => Success(None)
  }

  /** A call of `ExtractInner` whose `None` arm panics. */
  function InnerOrAbort(ty: Ty, outer: string): Result<Ty, FieldFault> {
    var inner :- ExtractInner(ty, outer);
    match inner
    case Some(t) => Success(t)
    case None => Failure(NoInnerType(outer))
  }

  // ---------------------------------------------------------------- per-field maps

  /** The identifier of a field as the emitted code spells it; a tuple-struct field
      has none (and the declaration pass has aborted on it before it is spelled). */
  function Name(f: Field): string {
    match f.ident
    case Some(n) => n
    case None => ""
  }

  /** The builder struct's field declaration for one classified field. */
  function DeclarationFor(entry: (FieldMetadata, Field)): Result<StorageField, FieldFault> {
    var (meta, f) := entry;
    if f.ident.None? then Failure(UnnamedField)
    else
      var ty :-
        if meta.isOptional then InnerOrAbort(f.ty, "Option")
        else if meta.hasBuilderAttr != NoAttr then InnerOrAbort(f.ty, "Vec")
        else Success(f.ty);
      Success(StorageField(Name(f), if meta.hasBuilderAttr != NoAttr then ListOf(ty) else SlotOf(ty)))
  }

  /** The field's value in `Record::builder()`. */
  function InitFor(meta: FieldMetadata): InitValue {
    if meta.hasBuilderAttr != NoAttr then EmptyList else NoneValue
  }

  /** The accessor's name: the literal token without its first and last character. */
  function AccessorName(literal: string): Result<string, FieldFault> {
    if |literal| < 2 then Failure(AccessorSliceOutOfRange)
    else Success(literal[1..|literal| - 1])
  }

  /** The builder method generated for one classified field. */
  function MutatorFor(entry: (FieldMetadata, Field)): Result<Mutator, FieldFault> {
    var (meta, f) := entry;
    var fieldType :- if meta.isOptional then InnerOrAbort(f.ty, "Option") else Success(f.ty);
    match meta.hasBuilderAttr
    case FieldAttr(literal) =>
      var accessor :- AccessorName(literal);
      var inner :- InnerOrAbort(f.ty, "Vec");
      Success(Mutator(accessor, inner, Name(f), Append))
    case NoAttr =>
      Success(Mutator(Name(f), fieldType, Name(f), Overwrite))
  }

  /** How `build` reads one classified field. */
  function RuleFor(entry: (FieldMetadata, Field)): BuildRule {
    var (meta, f) := entry;
    if meta.isOptional then BuildRule(Name(f), CloneAsIs)
    else if meta.hasBuilderAttr != NoAttr then BuildRule(Name(f), CloneAsIs)
    else BuildRule(Name(f), CloneOrMissing)
  }

  // ---------------------------------------------------------------- passes

  /** Applies `f` to every element in order; the first element on which `f` fails
      aborts the whole pass, and no later element is looked at. */
  function Traverse<A, B>(xs: seq<A>, f: A -> Result<B, FieldFault>): (r: Result<seq<B>, SchemaError>)
    ensures r.Success? <==> forall i :: 0 <= i < |xs| ==> f(xs[i]).Success?
    ensures r.Success? ==> |r.value| == |xs| && forall i :: 0 <= i < |xs| ==> r.value[i] == f(xs[i]).value
    ensures r.Failure? ==>
      r.error.FieldAbort? && r.error.index < |xs| &&
      f(xs[r.error.index]) == Failure(r.error.fault) &&
      forall j :: 0 <= j < r.error.index ==> f(xs[j]).Success?
  {
    if |xs| == 0 then Success([])
    else
      var front := xs[..|xs| - 1];
      var done :- Traverse(front, f);
      assert forall i :: 0 <= i < |front| ==> front[i] == xs[i];
      var last := f(xs[|xs| - 1]);
      if last.Failure? then Failure(FieldAbort(|xs| - 1, last.error))
      else Success(done + [last.value])
  }

  /** Pairs each field's metadata with the field, as the passes iterate them. */
  function Zip<A, B>(xs: seq<A>, ys: seq<B>): (r: seq<(A, B)>)
    requires |xs| == |ys|
    ensures |r| == |xs| && forall i :: 0 <= i < |xs| ==> r[i] == (xs[i], ys[i])
  {
    if |xs| == 0 then [] else [(xs[0], ys[0])] + Zip(xs[1..], ys[1..])
  }

  /** The whole derive: classify every field, then emit the declarations, the
      initial values, the methods and the `build` fields, in the order the
      emitted token stream consumes them. */
  function Derive(input: DeriveInput): Result<BuilderSchema, SchemaError> {
    match input.data
    case Enum => Failure(NotAStruct(EnumData))
    case Union => Failure(NotAStruct(UnionData))
    case Struct(fields) =>
      var metas :- Traverse(fields, Classify);
      var entries := Zip(metas, fields);
      var storage :- Traverse(entries, DeclarationFor);
      var init := seq(|entries|, i requires 0 <= i < |entries| => InitFor(metas[i]));
      var mutators :- Traverse(entries, MutatorFor);
      var rules := seq(|entries|, i requires 0 <= i < |entries| => RuleFor(entries[i]));
      Success(BuilderSchema(input.ident, input.ident + BuilderSuffix, storage, init, mutators, rules))
  }

  // ---------------------------------------------------------------- well-formed schemas

  /** The four per-field sequences describe the same fields and agree with each other. */
  predicate WellFormed(s: BuilderSchema) {
    |s.init| == |s.storage| && |s.mutators| == |s.storage| && |s.rules| == |s.storage| &&
    forall i :: 0 <= i < |s.storage| ==> FieldAgrees(s.storage[i], s.init[i], s.mutators[i], s.rules[i])
  }

  /** One field's storage, initial value, method and read rule fit together: lists are
      appended to, start empty and are never missing; slots are overwritten and start `None`. */
  predicate FieldAgrees(st: StorageField, init: InitValue, m: Mutator, rule: BuildRule) {
    m.target == st.name && rule.field == st.name && m.param == st.storage.ty &&
    (m.mode == Append <==> st.storage.ListOf?) &&
    (init == EmptyList <==> st.storage.ListOf?) &&
    (rule.mode == CloneOrMissing ==> st.storage.SlotOf?)
  }
}
