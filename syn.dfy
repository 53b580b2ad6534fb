/**
 * The part of the `syn` syntax tree the two derives look at, as plain values.
 * Spans, visibility, generics and tokens are dropped; a type that is not a path
 * and an attribute argument list syn could not parse keep only a description.
 */
module Syn {
  import opened Wrappers

  /** `syn::Type`: only `Type::Path` is inspected; every other kind is opaque. */
  datatype Type =
    | TypePath(qself: bool, path: Path)   // `qself` is true for `<T as Trait>::X`
    | OtherType(text: string)             // references, tuples, arrays, ...

  /** `syn::Path`: an optional leading `::` and the `::`-separated segments. */
  datatype Path = Path(leadingColon: bool, segments: seq<PathSegment>)

  datatype PathSegment = PathSegment(ident: string, arguments: PathArguments)

  /** `syn::PathArguments`: nothing, `<...>` or `(...) -> ...`. */
  datatype PathArguments =
    | NoArguments
    | AngleBracketed(args: seq<GenericArgument>)
    | Parenthesized(inputs: seq<Type>)

  /** `syn::GenericArgument`: a type, or anything else (lifetime, const, binding). */
  datatype GenericArgument = TypeArg(ty: Type) | NonTypeArg(text: string)

  datatype Lit = LitStr(value: string) | OtherLit(text: string)

  datatype Expr = ExprLit(lit: Lit) | OtherExpr(text: string)

  /** `syn::MetaNameValue`: `path = value`. */
  datatype MetaNameValue = MetaNameValue(path: Path, value: Expr)

  /**
   * What `parse_args_with(Punctuated::parse_terminated)` makes of an attribute:
   * the comma-separated name/value pairs, or the parser's failure message.
   */
  datatype AttrArgs = Pairs(pairs: seq<MetaNameValue>) | Unparsable(reason: string)

  datatype Attribute = Attribute(path: Path, args: AttrArgs)

  datatype Field = Field(attrs: seq<Attribute>, ident: Option<string>, ty: Type)

  datatype Fields = Named(named: seq<Field>) | Unnamed(unnamed: seq<Field>) | Unit

  datatype Data = Struct(fields: Fields) | Enum | Union

  datatype DeriveInput = DeriveInput(ident: string, data: Data)

  const OnlyStructSupported: string := "Only struct supported"

  /** `Path::is_ident`: no leading `::`, one segment without arguments, named `name`. */
  predicate IsIdent(p: Path, name: string) {
    !p.leadingColon && |p.segments| == 1 && p.segments[0] == PathSegment(name, NoArguments)
  }

  /** The single-identifier path `name`. */
  function IdentPath(name: string): (p: Path)
    ensures IsIdent(p, name)
  {
    Path(false, [PathSegment(name, NoArguments)])
  }

  lemma IsIdentExactly(p: Path, name: string)
    ensures IsIdent(p, name) <==> p == IdentPath(name)
  {
    if IsIdent(p, name) {
      assert p.segments == [p.segments[0]];
    }
  }

  /**
   * The shape check both derives open with: `Data::Struct` whose fields are
   * `Fields::Named`; the named fields in declaration order, or None for an
   * enum, a union, a tuple struct or a unit struct.
   */
  function NamedFields(input: DeriveInput): (r: Option<seq<Field>>)
    ensures r.Some? <==> input.data.Struct? && input.data.fields.Named?
    ensures r.Some? ==> r.value == input.data.fields.named
  {
    match input.data
    case Struct(Named(fs)) => Some(fs)
    case _ => None
  }

  /** The `unwrap`/`expect` on field identifiers never fires: named fields carry an identifier. */
  predicate FieldsHaveIdents(input: DeriveInput) {
    input.data.Struct? && input.data.fields.Named? ==>
      forall f :: f in input.data.fields.named ==> f.ident.Some?
  }
}
