# Builder derive macro, modelled in Dafny

This project models `#[derive(Builder)]` from `builder/src/lib.rs`. For a struct `Command`, the
macro generates a `CommandBuilder` with one slot per named field. It also generates
`Command::builder()`, a setter per non-`Vec` field, an `each` appender for annotated `Vec` fields, and a
`build` method that either assembles the struct or reports missing fields.

The model has two halves:

- The macro itself is pure. Each field's declared type is classified as `Vec<T>`, `Option<T>` or
  neither (`Classify`). `#[builder(tag = "value")]` attributes are parsed (`Attributes`). Named
  fields are collected in declaration order (`Fields`). Six emitters turn each field into an
  abstract fragment standing for the Rust tokens it would print (`Emit`).
- The generated builder changes state. It is the class `Runtime.Builder`. Its constructor is
  `builder()`, its `Set` and `Append` methods are the emitted setters and appenders, and its
  `Build` method runs the emitted absence checks and field assignments. `Build` is proved equal
  to the specification function `BuildOutcome`, and the lemmas beside it state what `build`
  returns.

The `syn`/`proc_macro2` inputs are plain datatypes in `Syntax`. The struct's fields are a sequence
of `Field` values, each with an optional identifier. `Scenarios` holds client code that derives
two small structs and drives their builders.

## Behaviour as written

The model follows the code where it departs from the intended design of "required fields must
be set, optional fields never block `build`":

- Only `Option`-classified fields get an absence check (lib.rs:178). An unset `Option` field is
  reported as missing, so `build` fails with `"Missing fields: b"` (`Scenarios.OnlyRequiredSet`).
- Fields that are neither `Option` nor `Vec` are never checked. They are unwrapped during
  assembly (lib.rs:227), so an unset one makes `build` panic instead of failing
  (`Scenarios.OnlyOptionalSet`, `Runtime.BuildOutcomeCases`).
- Every slot is declared `Option<declared type>` (lib.rs:142), Vec fields included
  (`Emit.FieldDefinition`). Yet `builder()` initialises a Vec slot with `Vec::new()`
  (lib.rs:150-151). At run time the model gives a Vec slot the vector that `builder()` puts
  there, and `.clone().unwrap()` on it yields those elements.
- The name of an `each` appender goes through `format_ident!` (lib.rs:202). That macro panics
  when the value is not an identifier, which aborts the whole expansion. The model emits an
  `IdentPanic` fragment for that case (`Emit.Each`, `Emit.EachPanicsOnNonIdentifier`).

## Model

| member | source | states |
|---|---|---|
| `Classify.SpecialFieldInfo` | builder/src/lib.rs:279-320 | A type is `Option(inner)` exactly when it is an unqualified path with no leading `::` whose first segment is `Option` and whose first angle-bracketed argument is the type `inner`. The same holds for `Vec`. Otherwise the result is none. |
| `Classify.WrappersExclusive` | builder/src/lib.rs:293-304 | No type looks like both wrappers, and a wrapper's inner type is unique. |
| `Classify.UnrecognisedShapes` | builder/src/lib.rs:282-320 | These shapes yield none: a qualified path, a leading `::`, no segments, no arguments, empty angle brackets, a non-type first argument, parenthesised arguments, a non-path type. |
| `Classify.OnlyFirstSegmentAndArgument` | builder/src/lib.rs:292-296 | Later path segments and later generic arguments never change the classification. |
| `Classify.OneLevelOnly` | builder/src/lib.rs:293-317 | Only one wrapper level is peeled: `Option<Vec<T>>` is an `Option` of `Vec<T>`. Any other identifier is no wrapper. |
| `Attributes.StripQuotes` | builder/src/lib.rs:260 | The result has no `"`. It is no longer than the input. Every other character occurs as often as in the input. |
| `Attributes.StripQuotesAppend` | builder/src/lib.rs:260 | Quote removal distributes over concatenation, so the other characters keep their order. |
| `Attributes.StripQuotesUnchanged` | builder/src/lib.rs:260 | Text without quotes is unchanged. |
| `Attributes.StripQuotesOfLiteral` | builder/src/lib.rs:260 | Stripping the printed literal `"v"` gives back `v` when `v` has no quotes. |
| `Attributes.ParseAttribute` | builder/src/lib.rs:241-276 | An attribute parses exactly when it has a path segment and its first token tree is a group of exactly `Ident`, `Punct('=')`, `Literal`. The result holds the first path segment, the identifier as tag and the literal with quotes removed as value. |
| `Attributes.ParseTagValue` | builder/src/lib.rs:250-275 | `#[name(tag = "value")]` parses to `(name, tag, value)`. |
| `Attributes.TrailingTokensIgnored` | builder/src/lib.rs:250 | Only the first token tree is inspected. |
| `Attributes.MalformedDropped` | builder/src/lib.rs:257-268 | A missing `=`, other punctuation, a fourth token, a non-literal value, a non-group first token or no tokens all yield no attribute, and no error. |
| `Fields.FilterMap` | builder/src/lib.rs:86-90 | `map(f).flatten().collect()` keeps no more items than there are inputs, and every item kept is a `Some` result of `f`. |
| `Fields.FilterMapAppend` | builder/src/lib.rs:86-90 | Collection distributes over concatenation, so declaration order is kept. |
| `Fields.FilterMapAllSome` | builder/src/lib.rs:118-122 | When nothing is dropped, the output is position-for-position the `Some` values. |
| `Fields.FilterMapSkips` | builder/src/lib.rs:86-90 | An element mapped to `None` contributes nothing, wherever it stands. |
| `Fields.NewFieldInfo` | builder/src/lib.rs:117-135 | The result is none exactly for a field without an identifier. Otherwise it holds the name, the declared type, that type's classification and the parsed attributes in order. |
| `Fields.StructInfoFrom` | builder/src/lib.rs:82-100 | The struct name is kept. An enum or union has no fields. A struct's fields are the collected named fields. |
| `Fields.NamedFieldsCollectedInOrder` | builder/src/lib.rs:84-91 | With all fields named, field i of the result is field i of the struct: same name, type and classification. |
| `Fields.UnnamedFieldDropped` | builder/src/lib.rs:124-134 | Removing an unnamed field anywhere does not change the collected fields. |
| `Fields.DataFromFields` | builder/src/lib.rs:67-74 | One emitted item per field, item i being the emitter applied to field i. |
| `Emit.FieldDefinition` | builder/src/lib.rs:137-144 | Every field gets a slot under its own name, whose type classifies as `Option` of the declared type. |
| `Emit.DefaultBuilder` | builder/src/lib.rs:146-157 | A default under the field's name that is an empty vector exactly for Vec-classified fields, and `None` otherwise. |
| `Emit.Setter` | builder/src/lib.rs:159-174 | A setter taking the full declared type exactly for non-Vec fields. Nothing for Vec fields. |
| `Emit.Validation` | builder/src/lib.rs:176-189 | An absence check exactly for `Option`-classified fields. Nothing otherwise. |
| `Emit.FindEach` | builder/src/lib.rs:196-198 | An `each` attribute is found exactly when one exists, and it is the first attribute tagged `each`. |
| `Emit.Each` | builder/src/lib.rs:191-216 | An appender exactly for a Vec-classified field whose first `each` attribute has an identifier as its value. It is named by that value, pushes onto the field's slot and takes the Vec's inner type. When the value is not an identifier, `format_ident!` panics instead. A field with no such attribute gets nothing. |
| `Emit.Build` | builder/src/lib.rs:218-230 | An assignment under the field's name that copies the slot as stored exactly for `Option`-classified fields, and unwraps it otherwise. |
| `Emit.Derive` | builder/src/lib.rs:11-21 | The builder is named `<struct>Builder`. Each of the six passes has one fragment per collected field, and fragment i of each pass is that pass's emitter applied to field i, in declaration order. |
| `Emit.DerivePassesAgree` | builder/src/lib.rs:16-21 | Per field: slot, default and assignment carry its name. There is a setter exactly when the default is `None`. An appender only where there is no setter and the default is an empty vector. An absence check exactly where `build` copies the slot as stored. |
| `Emit.EachFromAttribute` | builder/src/lib.rs:191-216 | `#[builder(each = "name")]` on `Vec<T>` yields the appender `name(T)` when `name` is an identifier, and the `format_ident!` panic otherwise. A Vec field whose attributes are all malformed gets no appender. |
| `Emit.EachPanicsOnNonIdentifier` | builder/src/lib.rs:202 | `each = ""`, `each = "a b"` and `each = "5"` make `format_ident!` panic. |
| `Text.Join` | builder/src/lib.rs:52 | Joining one name gives that name, and joining none gives the empty string. |
| `Text.SplitJoin` | builder/src/lib.rs:52 | When no name contains the separator, splitting the joined names gives them back. |
| `Runtime.InitialSlot` | builder/src/lib.rs:150-155 | A default evaluates to an empty vector exactly for `Vec::new()`, and to `None` otherwise. |
| `Runtime.Extract` | builder/src/lib.rs:221-228 | `clone()` copies the stored option. `clone().unwrap()` yields the value and panics exactly on `None`. A vector slot yields its elements. |
| `Runtime.MissingFields` | builder/src/lib.rs:43-45 | The names pushed by the emitted checks (lib.rs:176-189), run in field order. There are no more names than fields, and each is the name of an `Option`-classified field whose slot is `None`. |
| `Runtime.MissingMessage` | builder/src/lib.rs:52 | The message is `"Missing fields: "` followed by the names joined by `,`. |
| `Runtime.Assemble` | builder/src/lib.rs:47-50 | The emitted assignments (lib.rs:218-230) evaluated in field order. The result is never a missing-fields failure. On success it has one value per field. A panic names a non-`Option` field whose slot is `None`. |
| `Runtime.BuildOutcome` | builder/src/lib.rs:42-53 | `build` fails exactly when the missing list is non-empty, with the missing-fields message. Otherwise it is the assembly of the slots. |
| `Runtime.Builder.CollectMissing` | builder/src/lib.rs:43-45 | Running the emitted checks over the slots pushes exactly the names of `MissingFields`. |
| `Runtime.Builder.AssembleSlots` | builder/src/lib.rs:47-50 | Evaluating the emitted assignments over the slots gives exactly `Assemble`, stopping at the first panicking `unwrap()`. |
| `Runtime.MissingFieldsAppend` | builder/src/lib.rs:43-45 | The checks of consecutive fields push their names one run after the other, so the missing list follows field order. |
| `Runtime.MissingFieldsMembers` | builder/src/lib.rs:176-189 | A name is reported exactly for an `Option`-classified field whose slot is `None`. |
| `Runtime.NothingMissing` | builder/src/lib.rs:178-184 | Once every `Option`-classified field holds a value, nothing is reported. |
| `Runtime.AssemblePanicStays` | builder/src/lib.rs:227 | After one `unwrap()` panics, assembly ends in that panic. |
| `Runtime.AssembleCases` | builder/src/lib.rs:47-50 | Assembly succeeds exactly when no non-`Option` field is `None`. On success value i is what field i's assignment gives. Otherwise it panics on the first such field. |
| `Runtime.BuildOutcomeCases` | builder/src/lib.rs:42-53 | `build` fails exactly when the missing list is non-empty, with `"Missing fields: "` plus the names joined by `,`. It succeeds exactly when, in addition, nothing panics. `Option` fields are then copied as stored, Vec fields give their elements and every other field is unwrapped. |
| `Runtime.MissingMessageNames` | builder/src/lib.rs:52 | The message starts with `"Missing fields: "`, and splitting the rest at commas gives back the missing names. |
| `Runtime.Builder.constructor` | builder/src/lib.rs:33-38 | `builder()` gives each slot what its emitted default evaluates to: an empty vector for Vec fields and `None` for the rest. |
| `Runtime.Builder.Set` | builder/src/lib.rs:167-170 | A setter stores `Some(value)` in its own slot, leaves every other slot unchanged and returns the same builder. |
| `Runtime.Builder.Append` | builder/src/lib.rs:205-208 | An appender pushes one element onto its own slot, leaves every other slot unchanged and returns the same builder. |
| `Runtime.Builder.Build` | builder/src/lib.rs:42-54 | `build` returns `BuildOutcome` of the current slots. It runs the checks in field order, then, when nothing is missing, the assignments. It changes nothing, so repeated calls give equal results. |
| `Scenarios.RequiredAndOptionalFields` | builder/src/lib.rs:82-100 | `struct { a: String, b: Option<String> }` collects to a plain `a` and an `Option`-classified `b`. |
| `Scenarios.RepeatedWithEachFields` | builder/src/lib.rs:117-135 | `#[builder(each = "item")] items: Vec<String>` collects to a Vec field carrying the `each` attribute. |
| `Scenarios.OnlyRequiredSet` | builder/src/lib.rs:176-189 | With `a` set and `b` unset, `build` fails with exactly `"Missing fields: b"`. |
| `Scenarios.OnlyOptionalSet` | builder/src/lib.rs:227 | With only `b` set, nothing is reported and `build` panics on `a`. |
| `Scenarios.BothSet` | builder/src/lib.rs:47-50 | With both set, `build` gives the unwrapped `a` and the stored `b`. |
| `Scenarios.ItemsAppender` | builder/src/lib.rs:191-216 | The `items` field gets the appender `item(String)`. |
| `Scenarios.BuildItems` | builder/src/lib.rs:42-53 | Building over a Vec slot yields exactly its elements. |

## Left out

- Parsing source text into `DeriveInput` (`parse_macro_input!`, lib.rs:9) is not modelled; its output is the `Syntax` datatypes. Named, tuple and unit field lists are one sequence of fields with optional identifiers.
- `quote!`, `format_ident!` and `stringify!` are not modelled, and neither is token construction or hygiene. Emitted code is represented by `Emit.Fragment` values. The one failure kept is the panic of `format_ident!` on a value that is not an identifier (`Emit.IdentPanic`).
- The `println!` output of the appenders and the commented-out `eprintln!` (lib.rs:23-26, 62) are development I/O.
- The `#[proc_macro_derive]` registration and `result.into()` (lib.rs:7, 64) belong to the compiler interface.
- Whether the generated Rust type-checks is not modelled. That includes the `Option<Vec<T>>` slot initialised with `Vec::new()`, `.unwrap()` on a Vec, and `Option` fields stored as `Option<Option<T>>`. Run-time values are a type parameter `V`, not checked against declared types.
- Runtime.Builder.Set: the generated methods are picked by field position rather than by name, so name clashes are not modelled (an appender named like another field's setter is a compile error in Rust).
- Runtime.Builder.Append: same as `Set`.
- Escape sequences in string literals are not interpreted, as in `AttributeInfo::new` (lib.rs:260). A literal is its printed text, and only `"` characters are removed.
- The attribute's path is recorded (`AttributeInfo.ident`) but never checked to be `builder`, as in `AttributeInfo::new` (lib.rs:245-248).
- Emit.Each: identifier validity is approximated. Every non-ASCII character counts as a letter, whereas `format_ident!` accepts only Unicode identifier characters. A raw `r#name` value counts as invalid, whereas `format_ident!` accepts it as a raw identifier. The panic itself is modelled as a fragment, not as the abortion of `Emit.Derive`.
