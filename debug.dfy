/**
 * `#[derive(CustomDebug)]`: for a struct with named fields, the `Debug`
 * implementation is `f.debug_struct("<Ident>")` followed by one
 * `.field("<name>", &self.<name>)` per field, in declaration order.
 */
module Debug {
  import opened Wrappers
  import opened Syn

  /** One `.field("<name>", &self.<accessor>)` call. */
  datatype FieldEntry = FieldEntry(name: string, accessor: string)

  /** The generated `fmt`: the `debug_struct` name and its field entries, in order. */
  datatype DebugImpl = DebugImpl(structName: string, entries: seq<FieldEntry>)

  /** The field identifiers of a list of named fields, in order. */
  function FieldIdents(fields: seq<Field>): (ids: seq<string>)
    requires forall f :: f in fields ==> f.ident.Some?
    ensures |ids| == |fields|
    ensures forall i :: 0 <= i < |fields| ==> ids[i] == fields[i].ident.value
  {
    seq(|fields|, i requires 0 <= i < |fields| => assert fields[i] in fields; fields[i].ident.value)
  }

  /**
   * The derive (`derive_builder` in the debug crate): "Only struct supported"
   * for anything but a struct with named fields; otherwise the struct's name and
   * exactly one entry per field, in declaration order, whose label is the
   * field's identifier and which refers to that same field.
   */
  function DeriveDebug(input: DeriveInput): (r: Result<DebugImpl>)
    requires FieldsHaveIdents(input)
    ensures r.Err? <==> NamedFields(input).None?
    ensures r.Err? ==> r.error == OnlyStructSupported
    ensures r.Ok? ==>
      var named := NamedFields(input).value;
      && r.value.structName == input.ident
      && |r.value.entries| == |named|
      && forall i :: 0 <= i < |named| ==>
           r.value.entries[i].name == named[i].ident.value
           && r.value.entries[i].accessor == r.value.entries[i].name
  {
    match input.data
    case Struct(Named(named)) =>
      var ids := FieldIdents(named);
      Ok(DebugImpl(input.ident, seq(|ids|, i requires 0 <= i < |ids| => FieldEntry(ids[i], ids[i]))))
    case _ => Err(OnlyStructSupported)
  }

  /** The labels of the generated entries, in order. */
  function Labels(entries: seq<FieldEntry>): (labels: seq<string>)
    ensures |labels| == |entries|
    ensures forall i :: 0 <= i < |entries| ==> labels[i] == entries[i].name
  {
    if |entries| == 0 then [] else [entries[0].name] + Labels(entries[1..])
  }

  /** The labels are the field identifiers, in declaration order, with nothing added or dropped. */
  lemma LabelsAreFieldIdents(input: DeriveInput)
    requires FieldsHaveIdents(input) && NamedFields(input).Some?
    ensures DeriveDebug(input).Ok?
    ensures Labels(DeriveDebug(input).value.entries) == FieldIdents(NamedFields(input).value)
  {
  }

  /**
   * Field types and field attributes are never consulted: two structs with the
   * same name and the same field identifiers get the same implementation.
   */
  lemma {:induction false} OnlyNamesMatter(a: DeriveInput, b: DeriveInput)
    requires FieldsHaveIdents(a) && FieldsHaveIdents(b)
    requires a.ident == b.ident
    requires NamedFields(a).Some? <==> NamedFields(b).Some?
    requires NamedFields(a).Some? ==>
      FieldIdents(NamedFields(a).value) == FieldIdents(NamedFields(b).value)
    ensures DeriveDebug(a) == DeriveDebug(b)
  {
    if NamedFields(a).Some? {
      var ea, eb := DeriveDebug(a).value.entries, DeriveDebug(b).value.entries;
      var ids := FieldIdents(NamedFields(a).value);
      assert |ea| == |eb| == |ids|;
      forall i | 0 <= i < |ea| ensures ea[i] == eb[i] {
        assert ea[i] == FieldEntry(ids[i], ids[i]);
      }
    }
  }
}
