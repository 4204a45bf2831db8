/**
 * The part of a parsed Rust item that the derive macro looks at.  The macro
 * receives this from its parser; here it is plain data.  Only the shapes the
 * macro distinguishes are kept: anything it treats alike is one constructor.
 */
module Syntax {

  import opened Wrappers

  /** A declared type: a path such as `Vec<String>` or `std::option::Option<u8>`, or
      any other kind of type (reference, tuple, array, ...).  A parsed path always has
      at least one segment, so the first segment is a field of its own. */
  datatype Ty =
    | TypePath(head: Segment, tail: seq<Segment>)
    | NonPathType(text: string)

  /** One path segment: its identifier and what follows it. */
  datatype Segment = Segment(ident: string, arguments: PathArguments)

  datatype PathArguments =
    | NoArguments                                   // `Vec`
    | AngleBracketed(args: seq<GenericArgument>)    // `Vec<T, ..>`, possibly `Vec<>`
    | Parenthesized                                 // `Fn(A) -> B`

  /** A generic argument is a type, or something else (lifetime, constant, binding). */
  datatype GenericArgument = TypeArgument(ty: Ty) | OtherArgument

  /** The right-hand side of `key = value`: a literal, or any other expression. */
  datatype Expr = LitExpr(lit: Lit) | OtherExpr

  /** A string literal keeps its source token, quotes included (`"arg"`). */
  datatype Lit = StrLit(token: string) | OtherLit

  /** What the tokens inside `name(...)` parse as: an assignment `left = right`,
      or nothing the parser accepts as one. */
  datatype ListBody = Assignment(left: Expr, right: Expr) | NotAnAssignment

  /** The three forms of an attribute's content: `#[path]`, `#[path(...)]`, `#[path = e]`. */
  datatype Meta = MetaPath | MetaList(body: ListBody) | MetaNameValue

  /** An attribute written on a field.  Its path (`builder`, `doc`, `serde`, ...) is
      recorded but, like the macro, nothing below inspects it. */
  datatype Attribute = Attribute(path: string, meta: Meta)

  /** A field: named fields have an identifier, tuple-struct fields do not. */
  datatype Field = Field(ident: Option<string>, ty: Ty, attrs: seq<Attribute>)

  datatype Data = Struct(fields: seq<Field>) | Enum | Union

  /** The item the derive is applied to. */
  datatype DeriveInput = DeriveInput(ident: string, data: Data)
}
