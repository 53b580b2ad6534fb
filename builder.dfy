/**
 * The analysis behind `#[derive(Builder)]`: sort each field by the shape of its
 * type, read its `builder(each = "...")` attribute, choose its initial slot and
 * its setter, and assemble the builder declaration.
 */
module Builder {
  import opened Wrappers
  import opened Syn

  /** `FieldType`: a plain field, `Option<T>` or `Vec<T>` (constructors carry `T`). */
  datatype FieldType = Raw | OptionOf(inner: Type) | VecOf(inner: Type)

  /** The type `name<t>` written as a bare single-segment path. */
  function WrapperType(name: string, t: Type): Type {
    TypePath(false, Path(false, [PathSegment(name, AngleBracketed([TypeArg(t)]))]))
  }

  /**
   * `determine_field_type`: purely by path shape. The result is `Option(t)` or
   * `Vec(t)` exactly when the type is written `Option<t>` or `Vec<t>` as a bare
   * one-segment path with a single type argument; anything else is Raw.
   */
  function DetermineFieldType(ty: Type): (k: FieldType)
    ensures k.OptionOf? ==> ty == WrapperType("Option", k.inner)
    ensures k.VecOf? ==> ty == WrapperType("Vec", k.inner)
    ensures k.Raw? ==> forall t :: ty != WrapperType("Option", t) && ty != WrapperType("Vec", t)
  {
    if ty.TypePath? && !ty.qself && !ty.path.leadingColon && |ty.path.segments| == 1 then
      var seg := ty.path.segments[0];
      if seg.arguments.AngleBracketed? && |seg.arguments.args| == 1
         && seg.arguments.args[0].TypeArg? then
        var t := seg.arguments.args[0].ty;
        assert ty.path.segments == [seg];
        assert seg.arguments.args == [TypeArg(t)];
        if seg.ident == "Option" then OptionOf(t)
        else if seg.ident == "Vec" then VecOf(t)
        else Raw
      else Raw
    else Raw
  }

  /** The classifier is exact: it recognises `Option<t>`/`Vec<t>` and nothing else. */
  lemma ClassifierExact(ty: Type, t: Type)
    ensures DetermineFieldType(ty) == OptionOf(t) <==> ty == WrapperType("Option", t)
    ensures DetermineFieldType(ty) == VecOf(t) <==> ty == WrapperType("Vec", t)
  {
    var k := DetermineFieldType(ty);
    if ty == WrapperType("Option", t) {
      assert ty.path.segments[0].arguments.args[0] == TypeArg(t);
    } else if ty == WrapperType("Vec", t) {
      assert ty.path.segments[0].arguments.args[0] == TypeArg(t);
    }
  }

  /** Only the outer wrapper is seen: `Option<Option<T>>` is an option of `Option<T>`. */
  lemma OuterWrapperOnly(t: Type)
    ensures DetermineFieldType(WrapperType("Option", WrapperType("Option", t)))
            == OptionOf(WrapperType("Option", t))
    ensures DetermineFieldType(WrapperType("Vec", WrapperType("Option", t)))
            == VecOf(WrapperType("Option", t))
  {
    ClassifierExact(WrapperType("Option", WrapperType("Option", t)), WrapperType("Option", t));
    ClassifierExact(WrapperType("Vec", WrapperType("Option", t)), WrapperType("Option", t));
  }

  const EachShapeError: string := "expected `builder(each = \"...\")`"

  function ParseFailure(reason: string): string {
    "failed to parse builder attribute: " + reason
  }

  /** The attribute `#[builder(each = "name")]`. */
  function EachAttribute(name: string): Attribute {
    Attribute(IdentPath("builder"), Pairs([MetaNameValue(IdentPath("each"), ExprLit(LitStr(name)))]))
  }

  /**
   * `inspect_each`: an attribute that is not `builder` gives no name; a `builder`
   * attribute gives a name exactly when it is `builder(each = "name")`, and every
   * other `builder` attribute is rejected with one of the two messages.
   */
  function InspectEach(attr: Attribute): (r: Result<Option<string>>)
    ensures !IsIdent(attr.path, "builder") ==> r == Ok(None)
    ensures IsIdent(attr.path, "builder") ==> r != Ok(None)
    ensures forall name :: r == Ok(Some(name)) <==> attr == EachAttribute(name)
    ensures r.Err? ==>
      if attr.args.Unparsable? then r.error == ParseFailure(attr.args.reason)
      else r.error == EachShapeError
  {
    if !IsIdent(attr.path, "builder") then Ok(None)
    else
      match attr.args
      case Unparsable(reason) => Err(ParseFailure(reason))
      case Pairs(pairs) =>
        if |pairs| != 1 then Err(EachShapeError)
        else if !IsIdent(pairs[0].path, "each") then Err(EachShapeError)
        else
          match pairs[0].value
          case ExprLit(LitStr(name)) =>
            IsIdentExactly(attr.path, "builder");
            IsIdentExactly(pairs[0].path, "each");
            assert pairs == [pairs[0]];
            Ok(Some(name))
          case _ => Err(EachShapeError)
  }

  /** The per-field attribute reading: only the first attribute is inspected. */
  function FirstAttrEach(f: Field): Result<Option<string>> {
    if |f.attrs| == 0 then Ok(None) else InspectEach(f.attrs[0])
  }

  /** Attributes after the first never change what is read from a field. */
  lemma OnlyFirstAttributeCounts(f: Field, extra: seq<Attribute>)
    requires |f.attrs| > 0
    ensures FirstAttrEach(f.(attrs := f.attrs + extra)) == FirstAttrEach(f)
  {
    assert (f.attrs + extra)[0] == f.attrs[0];
  }

  /**
   * `.collect::<Result<Vec<_>>>()` over the fields: one entry per field when every
   * first attribute is acceptable, otherwise the first field's error.
   */
  function EachAttributes(fields: seq<Field>): (r: Result<seq<Option<string>>>)
    ensures r.Ok? <==> forall i :: 0 <= i < |fields| ==> FirstAttrEach(fields[i]).Ok?
    ensures r.Ok? ==> |r.value| == |fields|
                      && forall i :: 0 <= i < |fields| ==> r.value[i] == FirstAttrEach(fields[i]).value
    ensures r.Err? ==> exists k :: 0 <= k < |fields| && FirstAttrEach(fields[k]) == Err(r.error)
                                   && forall j :: 0 <= j < k ==> FirstAttrEach(fields[j]).Ok?
  {
    if |fields| == 0 then Ok([])
    else
      match FirstAttrEach(fields[0])
      case Err(e) => Err(e)
      case Ok(each) =>
        var rest := EachAttributes(fields[1..]);
        if rest.Err? then
          assert forall i :: 1 <= i < |fields| ==> fields[i] == fields[1..][i - 1];
          Err(rest.error)
        else
          assert forall i :: 1 <= i < |fields| ==> fields[i] == fields[1..][i - 1];
          Ok([each] + rest.value)
  }

  /** A value of the generated code: a scalar, an `Option<_>` or a `Vec<_>`. */
  datatype Value = Scalar(bits: int) | OptionValue(opt: Option<Value>) | VecValue(items: seq<Value>)

  /** The compiler's type check, at the level the builder cares about. */
  predicate Fits(v: Value, k: FieldType) {
    match k
    case Raw => true
    case OptionOf(_) => v.OptionValue?
    case VecOf(_) => v.VecValue?
  }

  /**
   * `builder_init_field`: the slot starts empty only for a Raw field; an Option
   * field starts as `Some(None)` and a Vec field as `Some(vec![])`, a present
   * value that holds nothing.
   */
  function InitialSlot(k: FieldType): (s: Option<Value>)
    ensures s.None? <==> k.Raw?
    ensures s.Some? ==> Fits(s.value, k)
    ensures s.Some? ==> s.value == OptionValue(None) || s.value == VecValue([])
  {
    match k
    case OptionOf(_) => Some(OptionValue(None))
    case VecOf(_) => Some(VecValue([]))
    case Raw => None
  }

  /** What a generated setter does with its argument. */
  datatype SetterBody =
    | StoreSome        // self.f = Some(x)
    | StoreSomeSome    // self.f = Some(Some(x))
    | PushOnto         // self.f.as_mut().map(|v| v.push(x))

  /** A generated setter: `fn name(&mut self, name: param) -> &mut Self { body }`. */
  datatype Setter = Setter(name: string, param: Type, body: SetterBody)

  /**
   * `impl_builder_method`: an Option field gets a setter taking the inner type
   * (any `each` is ignored); a Vec field with `each` gets only the per-element
   * method taking the element type; every other field gets a whole-value setter
   * taking the field's own type. In each case the argument, stored the way the
   * body stores it, has the field's type.
   */
  function ImplBuilderMethod(ident: string, ty: Type, each: Option<string>): (m: Setter)
    ensures m.body == StoreSomeSome <==> DetermineFieldType(ty).OptionOf?
    ensures m.body == PushOnto <==> DetermineFieldType(ty).VecOf? && each.Some?
    ensures m.body == StoreSomeSome ==> ty == WrapperType("Option", m.param)
    ensures m.body == PushOnto ==> ty == WrapperType("Vec", m.param)
    ensures m.body == StoreSome ==> m.param == ty
    ensures m.name == if m.body == PushOnto then each.value else ident
  {
    match DetermineFieldType(ty)
    case OptionOf(inner) => Setter(ident, inner, StoreSomeSome)
    case VecOf(inner) =>
      if each.Some? then Setter(each.value, inner, PushOnto) else Setter(ident, ty, StoreSome)
    case Raw => Setter(ident, ty, StoreSome)
  }

  /** One field of the target struct as the builder sees it. */
  datatype FieldDecl = FieldDecl(ident: string, ty: Type)

  /**
   * The declaration `impl_builder` emits: `struct <Ident>Builder` with one
   * `Option<ty>` slot per field, its setters, `build`, and `<Ident>::builder()`
   * returning the initial slots.
   */
  datatype BuilderImpl = BuilderImpl(
    structName: string,
    builderName: string,
    fields: seq<FieldDecl>,
    inits: seq<Option<Value>>,
    methods: seq<Setter>)

  /**
   * `m` is the setter `impl_builder_method` generates for field `f`: the `each`
   * name only matters when the setter is the per-element method, whose name it is.
   */
  predicate SetterFor(m: Setter, f: FieldDecl) {
    m == ImplBuilderMethod(f.ident, f.ty, if m.body == PushOnto then Some(m.name) else None)
  }

  /** Every setter `impl_builder_method` can generate is recognised by SetterFor. */
  lemma SetterForGenerated(f: FieldDecl, each: Option<string>)
    ensures SetterFor(ImplBuilderMethod(f.ident, f.ty, each), f)
  {
  }

  /** The relation `impl_builder` establishes between fields, initial slots and setters. */
  predicate Generated(b: BuilderImpl) {
    && |b.inits| == |b.fields|
    && |b.methods| == |b.fields|
    && (forall i :: 0 <= i < |b.fields| ==> b.inits[i] == InitialSlot(DetermineFieldType(b.fields[i].ty)))
    && (forall i :: 0 <= i < |b.fields| ==> SetterFor(b.methods[i], b.fields[i]))
  }

  /**
   * `impl_builder`: anything but a struct with named fields is refused with
   * "Only struct supported"; the first unacceptable field attribute aborts the
   * derive with its error; otherwise the builder is named `<Ident>Builder` and
   * has, per field in declaration order, its name and type, its initial slot and
   * the setter chosen for it.
   */
  method ImplBuilder(input: DeriveInput) returns (r: Result<BuilderImpl>)
    requires FieldsHaveIdents(input)
    ensures NamedFields(input).None? ==> r == Err(OnlyStructSupported)
    ensures NamedFields(input).Some? && EachAttributes(NamedFields(input).value).Err? ==>
              r == Err(EachAttributes(NamedFields(input).value).error)
    ensures r.Ok? <==> NamedFields(input).Some? && EachAttributes(NamedFields(input).value).Ok?
    ensures r.Ok? ==>
      var named := NamedFields(input).value;
      var eaches := EachAttributes(named).value;
      && r.value.structName == input.ident
      && r.value.builderName == input.ident + "Builder"
      && |r.value.fields| == |named|
      && |r.value.inits| == |named|
      && |r.value.methods| == |named|
      && (forall i :: 0 <= i < |named| ==>
            && r.value.fields[i] == FieldDecl(named[i].ident.value, named[i].ty)
            && r.value.inits[i] == InitialSlot(DetermineFieldType(named[i].ty))
            && r.value.methods[i] == ImplBuilderMethod(named[i].ident.value, named[i].ty, eaches[i]))
    ensures r.Ok? ==> Generated(r.value)
  {
    if !(input.data.Struct? && input.data.fields.Named?) {
      return Err(OnlyStructSupported);
    }
    var named := input.data.fields.named;
    var fields: seq<FieldDecl> := [];
    for i := 0 to |named|
      invariant |fields| == i
      invariant forall j :: 0 <= j < i ==> fields[j] == FieldDecl(named[j].ident.value, named[j].ty)
    {
      assert named[i] in named;
      fields := fields + [FieldDecl(named[i].ident.value, named[i].ty)];
    }
    var inits := seq(|fields|, i requires 0 <= i < |fields| => InitialSlot(DetermineFieldType(fields[i].ty)));
    var eaches :- EachAttributes(named);
    var methods := seq(|fields|, i requires 0 <= i < |fields| =>
                         ImplBuilderMethod(fields[i].ident, fields[i].ty, eaches[i]));
    forall i | 0 <= i < |fields| ensures SetterFor(methods[i], fields[i]) {
      SetterForGenerated(fields[i], eaches[i]);
    }
    r := Ok(BuilderImpl(input.ident, input.ident + "Builder", fields, inits, methods));
  }
}
