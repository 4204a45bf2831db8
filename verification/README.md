# A verified model of `#[derive(Builder)]`

`builder/src/lib.rs` is a Rust procedural macro. Applied to a struct, it emits a
companion `<Struct>Builder` type. The builder has one storage field per struct
field, a setter or accessor method per field, `Struct::builder()`, and a
`build(&self)` that assembles the struct or reports the first required field left
unset.

The model has two layers, as the macro does.

* **Derivation** (pure, modules `Syntax`, `Derivation`, `DeriveSpec`,
  `DeriveLemmas`, `DeriveAborts`). The parsed struct is plain data (`Syntax`):
  a type is a path with a first segment, or some other type, and an attribute is
  one of the three `Meta` forms. `Derivation.Derive` follows the macro's passes in
  the order the emitted token stream consumes them. First every field is
  classified. Then come the storage declarations, the initial values, the methods
  and the `build` read rules. Every `panic!`, failed `assert!` and failed
  `unwrap()` is a `Failure` naming the abort site and the field's position. The
  result is a `BuilderSchema`: what the emitted code spells out. `DeriveSpec`
  states independently which structs are accepted and what each field's kind
  (required, optional, accumulated) prescribes. The lemmas prove that
  `Derive` agrees with it.
* **The generated builder** (imperative, module `Generated`). `Builder<V>` is a
  class whose `cells` hold one `Option` slot or `Vec` per field. Its constructor is
  `Struct::builder()`. `Set` overwrites a slot and `Push` appends to a list; both
  return the builder for chaining. `Build` reads only: it walks the fields in
  declaration order and returns at the first empty required slot. `BuildLemmas`
  proves what `build` and the accessors promise, and `Scenarios` holds client
  code that uses only the contracts.

The model follows the code as written:

* Every attribute on a field is processed, not only `#[builder(...)]`. A field
  with a doc comment (`#[doc = "..."]`, a name-value attribute) therefore aborts
  the derive.
* The key on the left of `=` and the attribute's path are never inspected
  (`DeriveAborts.AttributeKeyIgnored`).
* Only the first path segment is compared. So `std::option::Option<T>` is a
  required field (`DeriveAborts.QualifiedOptionIsRequired`).
* An attribute on an `Option<T>` field aborts. The declaration pass takes
  `Option`'s inner type; the method pass then asserts that the first segment is
  `Vec`, and that assertion fails.
* Each abort site has its own `FieldFault` constructor (derive.dfy:19-29). The
  macro also aborts on a `Wrapper<>` with no generic arguments, and on a tuple
  struct that has fields.

## Model

| member | source | states |
|---|---|---|
| `DeriveSpec.ClassifyMeaning` | builder/src/lib.rs:29-66 | specifies `Derivation.Classify` (the classification closure) and `Derivation.IsOptional`: classification fails only on several attributes (with `MultipleAttributes`) or a malformed one; a field is optional iff its type is a path whose first segment is `Option`; it has an attribute iff it has exactly one |
| `DeriveSpec.AttributeLiteralMeaning` | builder/src/lib.rs:41-57 | specifies `Derivation.AttributeLiteral`: an attribute is accepted iff it is a list whose body is an assignment with a string literal on the right, and yields that literal's token |
| `DeriveSpec.FieldPlan` | builder/src/lib.rs:84-191 | specifies the per-field maps `Derivation.DeclarationFor` (84-114), `Derivation.MutatorFor` (116-153), `Derivation.RuleFor` (155-174) and `Derivation.InitFor` (176-191), through `Derivation.InnerOrAbort`/`Derivation.ExtractInner` (69-82): a field passes classification, declaration and method generation iff it is accepted; its storage, method, initial value and read rule are then those its kind prescribes |
| `DeriveLemmas.DeriveSucceedsIff` | builder/src/lib.rs:14-214 | specifies when `Derivation.Derive` succeeds: the derive yields a builder iff the item is a struct all of whose fields are accepted |
| `DeriveLemmas.DeriveSchema` | builder/src/lib.rs:22-214 | specifies what `Derivation.Derive` produces: on success the builder is named record name + `Builder`; it has one storage field, initial value, method and read rule per field, in declaration order: attribute fields get a `Vec` of the inner type, an accessor named by the attribute that appends, `vec![]` and a plain clone; other fields get an `Option` slot of the `Option` inner or declared type, a setter named after the field that overwrites, `None`, and fail-if-empty only when required |
| `DeriveLemmas.DerivedIsWellFormed` | builder/src/lib.rs:84-191 | every derived schema is well formed: lists are appended to, start empty and are never missing; slots are overwritten and start `None`; each method's parameter is the storage's element type |
| `DeriveAborts.NonStructAborts` | builder/src/lib.rs:17-21 | enums and unions are refused |
| `DeriveAborts.FieldAborts` | builder/src/lib.rs:39-137 | the aborts of `Derivation.Classify`, `Derivation.InnerOrAbort` (assert at 72, panics at 94, 99, 126, 137), `Derivation.DeclarationFor` and `Derivation.MutatorFor`: the derive aborts on an unnamed field, on several attributes, on a malformed attribute, on an attribute over an `Option` or over anything but `Vec<T>`, and on an `Option` with no type argument |
| `DeriveAborts.ClassificationAbortsFirst` | builder/src/lib.rs:25-67 | every field is classified before anything is emitted, so the first field whose classification fails is the one reported |
| `DeriveAborts.AccessorNameUnquotes` | builder/src/lib.rs:134 | specifies `Derivation.AccessorName`: the accessor is named by the attribute's string with the surrounding quotes removed |
| `DeriveAborts.QualifiedOptionIsRequired` | builder/src/lib.rs:30-37 | `std::option::Option<T>` is a required field stored in a slot of the whole declared type |
| `DeriveAborts.AttributeKeyIgnored` | builder/src/lib.rs:41-54 | neither the attribute's path nor the key on the left of `=` affects the result |
| `Derivation.Traverse` | builder/src/lib.rs:25-67 | a pass over the fields succeeds iff every field succeeds, yields one result per field in order, and otherwise reports the first failing field |
| `Derivation.Zip` | builder/src/lib.rs:84-88 | pairs each field's metadata with the field, position by position |
| `Generated.InitialCells` | builder/src/lib.rs:176-191 | the builder starts with one cell per field, each `vec![]` or `None`, matching the storage the schema declares |
| `Generated.AssembleFrom` | builder/src/lib.rs:165-172 | `build` succeeds iff no required slot is empty, and then yields one value per field |
| `Generated.Builder.constructor` | builder/src/lib.rs:198-204 | `Struct::builder()` starts from the initial cells |
| `Generated.Builder.Set` | builder/src/lib.rs:145-151 | the setter puts `Some(value)` in its field's slot, overwriting any earlier value, leaves every other field unchanged and returns the builder |
| `Generated.Builder.Push` | builder/src/lib.rs:132-144 | the accessor appends its argument to the end of its field's list, leaves every other field unchanged and returns the builder |
| `Generated.Builder.Build` | builder/src/lib.rs:209-213 | `build` reads only and returns exactly `Assemble` of the current cells; it succeeds iff every required slot is filled |
| `BuildLemmas.AssembledFieldsFrom` | builder/src/lib.rs:160-172 | specifies `Generated.TakeField` through `Generated.AssembleFrom`: each field of a built record is copied from the builder: a list as it stands, an optional slot as it stands, a required slot's value |
| `BuildLemmas.AssembledFields` | builder/src/lib.rs:160-172 | the built record has one value per field in declaration order, each copied as its read rule says |
| `BuildLemmas.StopsAtFirstMissingFrom` | builder/src/lib.rs:171 | fail-fast: fields after the first missing one are not examined |
| `BuildLemmas.StopsAtFirstMissing` | builder/src/lib.rs:209-213 | two builders that agree up to the first missing required field build the same failure |
| `BuildLemmas.FirstMissingReportedFrom` | builder/src/lib.rs:171 | the error names the first empty required field from a given position on |
| `BuildLemmas.FirstMissingReported` | builder/src/lib.rs:209-213 | the error names the first empty required field in declaration order |
| `BuildLemmas.PushedAllAppends` | builder/src/lib.rs:141 | n accessor calls with v1..vn append exactly [v1, ..., vn] in call order |
| `BuildLemmas.PushedAllFromEmpty` | builder/src/lib.rs:184 | from a fresh builder, the list holds exactly the accessor arguments |
| `Scenarios.PushEach` | builder/src/lib.rs:139-143 | calling an accessor once per element leaves the list extended by exactly those elements |
| `Scenarios.CommandDerives` | builder/src/lib.rs:84-191 | `struct Command { x: i32, y: Option<String> }` yields slots of `i32` and `String`, setters `x` and `y`, and fail-if-empty for `x` only |

## Left out

- Parsing is not modelled: `syn::DeriveInput`, `Meta::List`, `ExprAssign` and `Lit::Str` are abstract datatypes. Whether the tokens in `builder(...)` parse as an assignment is an input.
- Token emission is not modelled: `quote!` and `format_ident!` are replaced by the `BuilderSchema` value. The `proc_macro` entry point is left out too.
- `format_ident!` panics on a name that is not a Rust identifier, such as an empty accessor name or one left from a raw string literal. Identifier validity belongs to `proc_macro2` and is not modelled.
- The slice at line 134 works on bytes; the model works on characters. Unsuffixed literal tokens begin and end with ASCII characters, so both give the same name. A suffixed literal (`"tag"é`) makes the byte slice panic off a character boundary, while the model returns the sliced characters.
- Panic messages are left out. Each abort is a `SchemaError` naming its site and the field's position.
- The text of `build`'s error (`stringify!` and the `Box<dyn Error>` conversion) is left out. It is `MissingField(name)`.
- The Rust compiler's checks on the emitted code are not modelled. One example is two generated methods with the same name.
- Generated methods are addressed by field position, not by name. Rust resolves the names statically.
- All field values share one type parameter `V`. `clone()` of an immutable value is the value itself.
- There is no concurrency, I/O or floating point in the core.
