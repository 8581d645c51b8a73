/**
 * The parsed Rust syntax the derive macro receives, reduced to the parts that the macro reads.
 * These mirror the `syn` and `proc_macro2` values handed over by the compiler front end: a type
 * expression, the token trees of an attribute, a field and the derive input itself.
 */
module Syntax {

  import opened Wrappers

  /** A type expression (`syn::Type`). Only path types are looked into; every other kind of type
      (reference, tuple, slice, array, ...) is kept as an opaque description. */
  datatype Ty =
    | PathTy(qself: Option<QSelf>, leadingColon: bool, segments: seq<PathSegment>)
    | OtherTy(kind: string)

  /** The `<T as Trait>` part of a qualified path such as `<T as Trait>::Item`. */
  datatype QSelf = QSelf(ty: Ty, position: nat)

  /** One `ident<args>` step of a path. */
  datatype PathSegment = PathSegment(ident: string, arguments: PathArguments)

  datatype PathArguments =
    | NoArguments
    | AngleBracketed(args: seq<GenericArgument>)
    | Parenthesized(inputs: seq<Ty>, output: Option<Ty>)

  datatype GenericArgument =
    | TypeArg(ty: Ty)
    | LifetimeArg(name: string)
    | ConstArg(expr: string)
    | BindingArg(ident: string, ty: Ty)

  datatype Delimiter = Parenthesis | Brace | Bracket | NoDelimiter

  /** A `proc_macro2::TokenTree`. A literal keeps its source text, quotes included. */
  datatype TokenTree =
    | Group(delimiter: Delimiter, stream: seq<TokenTree>)
    | Ident(name: string)
    | Punct(ch: char)
    | Literal(text: string)

  /** An outer attribute `#[path tokens]`, e.g. `#[builder(each = "arg")]`. */
  datatype Attribute = Attribute(path: seq<PathSegment>, tokens: seq<TokenTree>)

  /** A struct field; tuple-struct fields have no identifier. */
  datatype Field = Field(attrs: seq<Attribute>, ident: Option<string>, ty: Ty)

  datatype Data =
    | StructData(fields: seq<Field>)
    | EnumData(variants: seq<string>)
    | UnionData(fields: seq<Field>)

  /** The item the derive is attached to. */
  datatype DeriveInput = DeriveInput(ident: string, data: Data)

  /** The path type `name<arg>`, written without qualification or leading `::`. */
  function Generic(name: string, arg: Ty): Ty
  {
    PathTy(None, false, [PathSegment(name, AngleBracketed([TypeArg(arg)]))])
  }

  /** The path type `name`, e.g. `String`. */
  function Named(name: string): Ty
  {
    PathTy(None, false, [PathSegment(name, NoArguments)])
  }
}
