/**
 * The code `#[derive(Builder)]` emits, run: `<Ident>::builder()` creates the
 * builder with its initial slots, setters overwrite a slot, the per-element
 * method pushes onto a vector in place, and `build(&mut self)` `take()`s the
 * slots in declaration order, stopping at the first empty one.
 */
module Generated {
  import opened Wrappers
  import opened Syn
  import opened Builder

  /** The error of the generated `build`: `"<field> is not provided"`. */
  function NotProvided(field: string): string {
    field + " is not provided"
  }

  /** Index of the first empty slot, or the number of slots when none is empty. */
  function FirstMissing(slots: seq<Option<Value>>): (k: nat)
    ensures k <= |slots|
    ensures forall j :: 0 <= j < k ==> slots[j].Some?
    ensures k < |slots| ==> slots[k].None?
  {
    if |slots| == 0 then 0
    else if slots[0].None? then 0
    else 1 + FirstMissing(slots[1..])
  }

  /**
   * The outcome of `build`: the error naming the first field whose slot is empty,
   * or every slot's content in declaration order.
   */
  function BuildResult(names: seq<string>, slots: seq<Option<Value>>): (r: Result<seq<Value>>)
    requires |names| == |slots|
    ensures r.Ok? <==> forall i :: 0 <= i < |slots| ==> slots[i].Some?
    ensures r.Ok? ==> |r.value| == |slots| && forall i :: 0 <= i < |slots| ==> r.value[i] == slots[i].value
    ensures r.Err? ==> exists k :: 0 <= k < |slots| && slots[k].None? && r.error == NotProvided(names[k])
                                   && forall j :: 0 <= j < k ==> slots[j].Some?
  {
    var k := FirstMissing(slots);
    if k < |slots| then Err(NotProvided(names[k]))
    else Ok(seq(|slots|, i requires 0 <= i < |slots| => slots[i].value))
  }

  /**
   * The slots after `build`: every slot up to the first empty one has been taken
   * (so is empty), later slots are untouched; after a success all are empty.
   */
  function SlotsAfterBuild(slots: seq<Option<Value>>): (s: seq<Option<Value>>)
    ensures |s| == |slots|
    ensures forall i :: 0 <= i < |slots| ==> s[i] == if i <= FirstMissing(slots) then None else slots[i]
  {
    var k := FirstMissing(slots);
    seq(|slots|, i requires 0 <= i < |slots| => if i <= k then None else slots[i])
  }

  /** The body of the per-element method: push when the slot holds a vector, else nothing. */
  function Push(slot: Option<Value>, x: Value): Option<Value> {
    if slot.Some? && slot.value.VecValue? then Some(VecValue(slot.value.items + [x])) else slot
  }

  /** Calling the per-element method once per element of `xs`, in order. */
  function PushAll(slot: Option<Value>, xs: seq<Value>): Option<Value>
    decreases |xs|
  {
    if |xs| == 0 then slot else PushAll(Push(slot, xs[0]), xs[1..])
  }

  /** Per-element appends keep call order: `each(a); each(b); each(c)` yields `items + [a, b, c]`. */
  lemma {:induction false} PushAllAppends(items: seq<Value>, xs: seq<Value>)
    ensures PushAll(Some(VecValue(items)), xs) == Some(VecValue(items + xs))
    decreases |xs|
  {
    if |xs| == 0 {
      assert items + xs == items;
    } else {
      assert Push(Some(VecValue(items)), xs[0]) == Some(VecValue(items + [xs[0]]));
      PushAllAppends(items + [xs[0]], xs[1..]);
      assert items + [xs[0]] + xs[1..] == items + xs;
    }
  }

  /** On a taken (empty) slot the per-element method does nothing, however often it is called. */
  lemma {:induction false} PushAllOnEmpty(xs: seq<Value>)
    ensures PushAll(None, xs) == None
    decreases |xs|
  {
    if |xs| > 0 {
      PushAllOnEmpty(xs[1..]);
    }
  }

  function FieldNames(b: BuilderImpl): (names: seq<string>)
    ensures |names| == |b.fields|
    ensures forall i :: 0 <= i < |b.fields| ==> names[i] == b.fields[i].ident
  {
    seq(|b.fields|, i requires 0 <= i < |b.fields| => b.fields[i].ident)
  }

  function Kinds(b: BuilderImpl): (kinds: seq<FieldType>)
    ensures |kinds| == |b.fields|
    ensures forall i :: 0 <= i < |b.fields| ==> kinds[i] == DetermineFieldType(b.fields[i].ty)
  {
    seq(|b.fields|, i requires 0 <= i < |b.fields| => DetermineFieldType(b.fields[i].ty))
  }

  /** Every Option and Vec slot still holds a value (true until `build` takes them). */
  predicate WrappersPresent(kinds: seq<FieldType>, slots: seq<Option<Value>>)
    requires |kinds| == |slots|
  {
    forall i :: 0 <= i < |slots| && !kinds[i].Raw? ==> slots[i].Some?
  }

  /** The initial slots of `<Ident>::builder()` leave no Option or Vec slot empty. */
  lemma InitialSlotsPresent(b: BuilderImpl)
    requires Generated(b)
    ensures WrappersPresent(Kinds(b), b.inits)
  {
  }

  /**
   * While the Option and Vec slots are present, `build` can only fail on a Raw
   * field: the field it names is the first Raw field left unset.
   */
  lemma {:induction false} OnlyRawFieldsMissing(names: seq<string>, kinds: seq<FieldType>, slots: seq<Option<Value>>)
    requires |names| == |kinds| == |slots|
    requires WrappersPresent(kinds, slots)
    ensures BuildResult(names, slots).Err? ==>
      exists k :: 0 <= k < |slots| && kinds[k].Raw? && slots[k].None?
                  && BuildResult(names, slots).error == NotProvided(names[k])
  {
    var k := FirstMissing(slots);
    if k < |slots| {
      assert kinds[k].Raw?;
    }
  }

  /**
   * Leaving out exactly one field's value makes `build` name that field, and
   * supplying all of them makes it return exactly the supplied values.
   */
  lemma BuildNamesTheOmittedField(names: seq<string>, slots: seq<Option<Value>>, k: nat)
    requires |names| == |slots| && k < |slots|
    requires slots[k].None?
    requires forall j :: 0 <= j < |slots| && j != k ==> slots[j].Some?
    ensures BuildResult(names, slots) == Err(NotProvided(names[k]))
    ensures forall j :: 0 <= j < |slots| ==> SlotsAfterBuild(slots)[j] == if j <= k then None else slots[j]
  {
    assert FirstMissing(slots) == k;
  }

  /** Supplying every field makes `build` return exactly the supplied values and empty every slot. */
  lemma BuildReturnsSupplied(names: seq<string>, values: seq<Value>)
    requires |names| == |values|
    ensures BuildResult(names, seq(|values|, i requires 0 <= i < |values| => Some(values[i]))) == Ok(values)
    ensures SlotsAfterBuild(seq(|values|, i requires 0 <= i < |values| => Some(values[i])))
            == seq(|values|, i => None)
  {
    var slots := seq(|values|, i requires 0 <= i < |values| => Some(values[i]));
    assert BuildResult(names, slots).value == values;
    assert FirstMissing(slots) == |slots|;
  }

  /** The builder `<Ident>Builder`: one `Option` slot per field of the target struct. */
  class GeneratedBuilder {
    const decl: BuilderImpl
    var slots: seq<Option<Value>>

    ghost predicate Valid()
      reads this
    {
      && Generated(decl)
      && |slots| == |decl.fields|
      && forall i :: 0 <= i < |slots| && slots[i].Some? ==>
           Fits(slots[i].value, DetermineFieldType(decl.fields[i].ty))
    }

    /** `<Ident>::builder()`: every slot at its initial value. */
    constructor (b: BuilderImpl)
      requires Generated(b)
      ensures Valid() && decl == b && slots == b.inits
    {
      decl := b;
      slots := b.inits;
    }

    /** The setter of an Option field: stores `Some(Some(x))`. */
    method SetOption(i: nat, x: Value)
      requires Valid() && i < |slots| && decl.methods[i].body == StoreSomeSome
      modifies this
      ensures Valid() && slots == old(slots)[i := Some(OptionValue(Some(x)))]
    {
      slots := slots[i := Some(OptionValue(Some(x)))];
    }

    /** The whole-value setter of a Raw field or a Vec field without `each`: stores `Some(x)`. */
    method Set(i: nat, x: Value)
      requires Valid() && i < |slots| && decl.methods[i].body == StoreSome
      requires Fits(x, DetermineFieldType(decl.fields[i].ty))
      modifies this
      ensures Valid() && slots == old(slots)[i := Some(x)]
    {
      slots := slots[i := Some(x)];
    }

    /** The per-element method of a Vec field with `each`: pushes `x` in place. */
    method PushEach(i: nat, x: Value)
      requires Valid() && i < |slots| && decl.methods[i].body == PushOnto
      modifies this
      ensures Valid() && slots == old(slots)[i := Push(old(slots)[i], x)]
    {
      if slots[i].Some? && slots[i].value.VecValue? {
        var v := slots[i].value.items;
        slots := slots[i := Some(VecValue(v + [x]))];
      }
    }

    /**
     * `build(&mut self)`: takes the slots in declaration order; fails naming the
     * first field whose slot is empty, otherwise returns every slot's content.
     */
    method Build() returns (r: Result<seq<Value>>)
      requires Valid()
      modifies this
      ensures Valid()
      ensures r == BuildResult(FieldNames(decl), old(slots))
      ensures slots == SlotsAfterBuild(old(slots))
    {
      var i := 0;
      var out: seq<Value> := [];
      while i < |slots|
        invariant Valid()
        invariant 0 <= i <= |slots| == |old(slots)|
        invariant forall j :: 0 <= j < i ==> old(slots)[j].Some?
        invariant |out| == i && forall j :: 0 <= j < i ==> out[j] == old(slots)[j].value
        invariant forall j :: 0 <= j < |slots| ==> slots[j] == if j < i then None else old(slots)[j]
      {
        var taken := slots[i];
        slots := slots[i := None];
        if taken.None? {
          assert FirstMissing(old(slots)) == i;
          assert FieldNames(decl)[i] == decl.fields[i].ident;
          return Err(NotProvided(decl.fields[i].ident));
        }
        out := out + [taken.value];
        i := i + 1;
      }
      assert FirstMissing(old(slots)) == |slots|;
      assert out == BuildResult(FieldNames(decl), old(slots)).value;
      r := Ok(out);
    }
  }

  /** What the derive reads from the three fields of `Command`. */
  lemma CommandFields(str: Type, named: seq<Field>)
    requires str == TypePath(false, IdentPath("String"))
    requires named == [
      Field([], Some("executable"), str),
      Field([EachAttribute("arg")], Some("args"), WrapperType("Vec", str)),
      Field([], Some("current_dir"), WrapperType("Option", str))]
    ensures DetermineFieldType(named[0].ty) == Raw
    ensures DetermineFieldType(named[1].ty) == VecOf(str)
    ensures DetermineFieldType(named[2].ty) == OptionOf(str)
    ensures EachAttributes(named) == Ok([None, Some("arg"), None])
  {
    ClassifierExact(WrapperType("Vec", str), str);
    ClassifierExact(WrapperType("Option", str), str);
    assert InspectEach(EachAttribute("arg")) == Ok(Some("arg"));
    var e := EachAttributes(named);
    assert e.Ok?;
    assert e.value == [None, Some("arg"), None];
  }

  /** `#[derive(Builder)]` on `Command`: Raw, Vec-with-`arg` and Option fields, in that order. */
  method DeriveCommand() returns (d: BuilderImpl)
    ensures Generated(d) && |d.fields| == 3
    ensures d.builderName == "CommandBuilder"
    ensures d.inits == [None, Some(VecValue([])), Some(OptionValue(None))]
    ensures d.methods[0].body == StoreSome && d.methods[1].body == PushOnto
    ensures d.methods[1].name == "arg"
    ensures DetermineFieldType(d.fields[0].ty) == Raw
    ensures FieldNames(d) == ["executable", "args", "current_dir"]
  {
    var str := TypePath(false, IdentPath("String"));
    var named := [
      Field([], Some("executable"), str),
      Field([EachAttribute("arg")], Some("args"), WrapperType("Vec", str)),
      Field([], Some("current_dir"), WrapperType("Option", str))];
    CommandFields(str, named);
    var derived := ImplBuilder(DeriveInput("Command", Struct(Named(named))));
    d := derived.value;
    assert d.inits == [None, Some(VecValue([])), Some(OptionValue(None))];
    assert FieldNames(d) == ["executable", "args", "current_dir"];
  }

  /**
   * The builder of `Command` after `arg(a)`, `arg(b)`, `arg(c)`: the arguments
   * are in call order, `executable` is still unset and `current_dir` untouched.
   */
  method CommandWithArgs(a: Value, b: Value, c: Value) returns (builder: GeneratedBuilder)
    ensures builder.Valid() && fresh(builder)
    ensures FieldNames(builder.decl) == ["executable", "args", "current_dir"]
    ensures builder.decl.methods[0].body == StoreSome
    ensures DetermineFieldType(builder.decl.fields[0].ty) == Raw
    ensures builder.slots == [None, Some(VecValue([a, b, c])), Some(OptionValue(None))]
  {
    var d := DeriveCommand();
    builder := new GeneratedBuilder(d);
    var dir := Some(OptionValue(None));
    builder.PushEach(1, a);
    assert [] + [a] == [a];
    assert builder.slots == [None, Some(VecValue([a])), dir];
    builder.PushEach(1, b);
    assert [a] + [b] == [a, b];
    assert builder.slots == [None, Some(VecValue([a, b])), dir];
    builder.PushEach(1, c);
    assert [a, b] + [c] == [a, b, c];
  }

  /**
   * Setting `executable` as well, `build` yields the supplied executable, the
   * arguments in call order and an absent `current_dir`.
   */
  method CommandComplete(a: Value, b: Value, c: Value, exe: Value) returns (r: Result<seq<Value>>)
    ensures r == Ok([exe, VecValue([a, b, c]), OptionValue(None)])
  {
    var builder := CommandWithArgs(a, b, c);
    builder.Set(0, exe);
    var values := [exe, VecValue([a, b, c]), OptionValue(None)];
    assert builder.slots == seq(3, i requires 0 <= i < 3 => Some(values[i]));
    BuildReturnsSupplied(FieldNames(builder.decl), values);
    r := builder.Build();
  }

  /** Without `executable`, `build` fails naming it, although Vec and Option fields were never set. */
  method CommandMissingExecutable(a: Value, b: Value, c: Value) returns (r: Result<seq<Value>>)
    ensures r == Err("executable is not provided")
  {
    var builder := CommandWithArgs(a, b, c);
    BuildNamesTheOmittedField(FieldNames(builder.decl), builder.slots, 0);
    r := builder.Build();
  }
}
