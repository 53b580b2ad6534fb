# Builder and CustomDebug derives, modelled in Dafny

This project models the two procedural macros of a proc-macro workshop:

- `#[derive(Builder)]` (`builder/src/lib.rs`) reads a struct with named fields. It classifies each field's type as plain, `Option<T>` or `Vec<T>`, by the shape of its path alone. It reads the field's first attribute, which may be `builder(each = "name")`. It then emits a companion `<Ident>Builder` with one `Option` slot per field, a setter per field (or a per-element method), `build(&mut self)`, and `<Ident>::builder()`.
- `#[derive(CustomDebug)]` (`debug/src/lib.rs`) emits `f.debug_struct("<Ident>")` followed by one `.field("<name>", &self.<name>)` per field.

The `syn` tree is modelled as small datatypes (`Syn`). The derive logic is modelled as functions and one method (`Builder`, `Debug`). The code the builder derive emits is modelled as a class whose methods change its slots (`Generated.GeneratedBuilder`), so its run-time behaviour can be proved:

- untouched `Option`/`Vec` fields never make `build` fail;
- per-element calls append in call order;
- `build` names the first missing field.

Files: `wrappers.dfy` (Option, Result), `syn.dfy` (syntax tree, shape check), `builder.dfy` (derive analysis), `generated.dfy` (the emitted builder at run time), `debug.dfy` (CustomDebug).

The model follows the code in two places where one might expect more:

- A `Vec` field with `each` gets only the per-element method. No whole-vector setter is emitted for it.
- `CustomDebug` registers no helper attribute and reads no `debug = "..."` attribute. Every field uses the default rendering.

## Model

| member | source | states |
|---|---|---|
| Builder.DetermineFieldType | builder/src/lib.rs:219-247 | `Option(t)`/`Vec(t)` only for a type written exactly `Option<t>`/`Vec<t>` (no qself, no leading `::`, one segment, one type argument); anything else is Raw, never an error |
| Builder.ClassifierExact | builder/src/lib.rs:219-247 | both directions: the classifier yields `Option(t)` iff the type is `Option<t>`, and `Vec(t)` iff it is `Vec<t>` |
| Builder.OuterWrapperOnly | builder/src/lib.rs:228-240 | only the outer wrapper is inspected: `Option<Option<T>>` is an option of `Option<T>`, and `Vec<Option<T>>` is a vector of `Option<T>` |
| Builder.InspectEach | builder/src/lib.rs:249-288 | a non-`builder` attribute gives `Ok(None)`; a `builder` attribute gives `Ok(Some(n))` iff it is exactly `builder(each = "n")`, and any other `builder` attribute gives an error; an unparsable argument list gives "failed to parse builder attribute: …", and every other malformed shape gives the `expected builder(each = "...")` message |
| Builder.OnlyFirstAttributeCounts | builder/src/lib.rs:99-102 | attributes after a field's first never change what is read from it |
| Builder.EachAttributes | builder/src/lib.rs:97-103 | the collected `Result`: Ok with one entry per field (each the reading of its first attribute) iff every field is acceptable, otherwise the error of the first unacceptable field |
| Builder.InitialSlot | builder/src/lib.rs:187-199 | the initial slot is empty iff the field is Raw; Option and Vec fields start with a present value of their kind that holds nothing (`Some(None)`, `Some(vec![])`) |
| Builder.ImplBuilderMethod | builder/src/lib.rs:154-185 | Option fields get the `Some(Some(x))` setter; a Vec field with `each` gets only the push method, named by `each`; every other field gets a `Some(x)` setter; in each case the argument, stored as the body stores it, has the field's type |
| Builder.ImplBuilder | builder/src/lib.rs:70-146 | "Only struct supported" unless the input is a struct with named fields; the first attribute error aborts the derive; otherwise `<Ident>Builder` with each field's name and type, initial slot and setter, in declaration order |
| Generated.FirstMissing | builder/src/lib.rs:124-131 | the index of the first empty slot: every earlier slot is present |
| Generated.BuildResult | builder/src/lib.rs:120-132 | `build` succeeds iff every slot is present, with each output field equal to its slot; otherwise it fails with "<field> is not provided" for the first empty slot |
| Generated.SlotsAfterBuild | builder/src/lib.rs:127 | after `build`, the slots up to the failing one (all of them on success) are empty, and later slots are untouched |
| Generated.PushAllAppends | builder/src/lib.rs:171 | repeated per-element calls append their arguments in call order |
| Generated.PushAllOnEmpty | builder/src/lib.rs:171 | on an empty (taken) slot, per-element calls do nothing |
| Generated.InitialSlotsPresent | builder/src/lib.rs:135-141 | `<Ident>::builder()` leaves no Option or Vec slot empty |
| Generated.OnlyRawFieldsMissing | builder/src/lib.rs:127-129 | while Option and Vec slots are present, a failing `build` names a Raw field whose slot is empty |
| Generated.BuildNamesTheOmittedField | builder/src/lib.rs:124-131 | with exactly one field unset, `build` fails naming that field; the slots up to it are left empty and later slots are untouched |
| Generated.BuildReturnsSupplied | builder/src/lib.rs:124-131 | with every field set, `build` returns exactly the supplied values and empties every slot |
| Generated.GeneratedBuilder.constructor | builder/src/lib.rs:135-141 | `<Ident>::builder()` starts every slot at its initial value |
| Generated.GeneratedBuilder.SetOption | builder/src/lib.rs:158-164 | the Option setter stores `Some(Some(x))` in its slot and changes nothing else |
| Generated.GeneratedBuilder.Set | builder/src/lib.rs:176-182 | the whole-value setter replaces its slot with `Some(x)` and changes nothing else |
| Generated.GeneratedBuilder.PushEach | builder/src/lib.rs:167-174 | the per-element method pushes onto its slot's vector in place, or does nothing when the slot is empty |
| Generated.GeneratedBuilder.Build | builder/src/lib.rs:120-132 | `build(&mut self)` returns the outcome above and leaves the slots as above, keeping the builder's invariant |
| Generated.DeriveCommand | builder/src/lib.rs:70-146 | the derive on a Raw, a Vec-with-`arg` and an Option field yields `CommandBuilder`, the initial slots `None`, `Some(vec![])`, `Some(None)`, and the method `arg` |
| Generated.CommandComplete | builder/src/lib.rs:120-174 | `arg(a)`, `arg(b)`, `arg(c)` and `executable(e)`, then `build`, give `e`, `[a, b, c]` and an absent `current_dir` |
| Generated.CommandMissingExecutable | builder/src/lib.rs:120-131 | without `executable`, `build` fails with "executable is not provided" |
| Debug.DeriveDebug | debug/src/lib.rs:38-69 | "Only struct supported" iff the input is not a struct with named fields; otherwise `debug_struct` gets the struct name and one entry per field in declaration order, each labelled with the field's identifier and referring to that same field |
| Debug.Labels | debug/src/lib.rs:50-55 | the labels of the entries, one per entry, in order |
| Debug.LabelsAreFieldIdents | debug/src/lib.rs:47-61 | the emitted labels are exactly the field identifiers, in order |
| Debug.OnlyNamesMatter | debug/src/lib.rs:47-55 | field types and attributes are never consulted: the same struct name and field identifiers give the same implementation |

## Left out

- Token handling is not modelled: `TokenStream` conversion, `parse_macro_input!`, `quote!` emission, `into_compile_error` and spans. Errors are their message strings.
- Parsing of attribute arguments (`parse_args_with(Punctuated::parse_terminated)`) belongs to `syn`. It is modelled by its outcome: either the list of name/value pairs, or a failure carrying syn's message. `#[builder]` and `#[builder = "..."]` are among the failures.
- `format_ident!` on the `each` string panics when the string is not a valid identifier. The model does not check identifier syntax.
- Raw identifiers (`r#name`) and turbofish paths (`Option::<T>`) are not distinguished from their plain forms.
- The generated struct's slot types (`Option<ty>`) are implied by the field types and are not stored. Values of the generated code are modelled at kind level (`Value`, `Fits`): a scalar, an `Option` or a `Vec`.
- The generated setters return `&mut Self` for chaining. The model's methods return nothing.
- `std::fmt::Formatter::debug_struct` and `{:?}` rendering are library behaviour. The debug model stops at the ordered name/field list.
- `main.rs` is a demo executable. Its `#[debug = "0b{:08b}"]` override is not implemented in `debug/src/lib.rs`, so format-string overrides are not modelled.
- Debug.DeriveDebug, Builder.ImplBuilder: the `unwrap`/`expect` on field identifiers is a precondition (`FieldsHaveIdents`), because named fields always carry an identifier.
