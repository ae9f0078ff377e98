# FFI-call translation core of the GObject binding generator, in Dafny

This project models the part of the `gir` binding generator that turns resolved
descriptors into fragments of Rust source text for calls into a GObject C library:

- **Bounds** (`bound.dfy`, from `src/codegen/bound.rs`): for a generic parameter of a
  generated function, the reference used at the call site
  (`full_type_parameter_reference`), the trait bound it must satisfy (`trait_bound`)
  and its `T: Bound` definition (`type_parameter_definition`). The three combinations
  the code refuses with a panic (`IsA` with a lifetime in an async call, `AsRef` with a
  lifetime, `ToGlibPtr` without one) are `Failure` results.
- **TranslateToGlib** (`translate_to_glib.dfy`, from `src/codegen/translate_to_glib.rs`):
  the conversion expression for each `TransformationType`, and the `(prefix, suffix)`
  table `to_glib_xxx` chooses for pointers from the transfer mode, the ref mode and an
  explicit target type. The catch-all `unreachable!` arm is a `Failure` result.
- **Functions** (`functions.dfy`, from `src/analysis/functions.rs`): the per-class loop
  that builds one `Info` summary per declared function, in order, with the `comented`
  flag set when the return type has no known classification. It is imperative, as in
  the source: a method with a loop that appends to the result, and a method that sets a
  mutable flag.
- **ParameterFfiCallIn** (`parameter_ffi_call_in.dfy`, from
  `src/chunk/parameter_ffi_call_in.rs`): the FFI-call parameter descriptor and its
  field-for-field constructor.
- `library.dfy` holds the records of the generator's `library` that the core reads, and
  the `Env` of lookups; `wrappers.dfy` holds `Option` and `Result`.

Strings are `seq<char>`; lifetimes are the `char` that names them, rendered `'a`.

Notes on the code's behaviour that the model keeps as written:

- `trait_bound` for `ToGlibPtr` with a lifetime does not refuse an async call: the
  async rendering simply replaces the lifetime by `'static`. Only `IsA` refuses
  async together with a lifetime (`AsyncLifetimeOnlyRejectedForIsA`).
- The pointer table is not one-to-one: `RefMode::None` and `ByRefMut` give the same
  text, and `Full` and `Container` ignore the ref mode (`ToGlibXxxEqualIff`).
- For a pointer, `to_glib_extra` goes between the name and the table's suffix, not after
  the suffix; for the instance parameter it is dropped together with the name.
- `full_type_parameter_reference` for `ToGlibPtr` with a lifetime renders a leading
  space then the alias when the reference prefix is empty.
- The entries for `RefMode::None` and `ByRefFake` under `Transfer::None` are ordinary
  results, as in the code, although comments there mark them as unreachable.

## Model

| member | source | states |
|---|---|---|
| `Bounds.TypeParameterReference` | src/codegen/bound.rs:12-14 | the type parameter is referred to by its alias, unchanged |
| `Bounds.FullTypeParameterReference` | src/codegen/bound.rs:18-47 | the call-site reference is never empty and ends with the alias, or with `>` exactly for a nullable `IsA` |
| `Bounds.IsAReferenceShape` | src/codegen/bound.rs:27-30 | an `IsA` reference is the ref prefix and the alias, wrapped in `Option<..>` exactly when nullable; lifetime and async flag have no effect |
| `Bounds.ToGlibPtrReferenceShape` | src/codegen/bound.rs:31-39 | a `ToGlibPtr` reference with a lifetime starts with the ref prefix and ends with a space and the alias; empty prefix gives just that; otherwise `'static` when async, else ` 'l` |
| `Bounds.PlainReferenceIsAlias` | src/codegen/bound.rs:43-45 | `NoWrapper`, `AsRef` and `ToGlibPtr` without lifetime are referred to by the bare alias, whatever ref mode, nullability or async flag |
| `Bounds.TraitBound` | src/codegen/bound.rs:57-93 | the trait bound fails exactly for async `IsA` with a lifetime, `AsRef` with a lifetime and `ToGlibPtr` without one, each with the source's reason |
| `Bounds.TypeParameterDefinition` | src/codegen/bound.rs:51-53 | the definition fails exactly when the trait bound does; otherwise it is the alias, `": "` and the trait bound |
| `Bounds.PlainTraitBounds` | src/codegen/bound.rs:58-73 | `NoWrapper` gives the type verbatim and `AsRef` without lifetime gives `AsRef<type>`, in either context |
| `Bounds.IsABoundShape` | src/codegen/bound.rs:60-71 | `IsA<type>`, extended by ` + 'l` for a declared lifetime outside async, and by ` + Clone + 'static` inside async |
| `Bounds.ToGlibPtrBoundShape` | src/codegen/bound.rs:74-90 | the `ToGlibPtr` bound ignores the type and alias, ignores the lifetime when async, and is `ToGlibPtr<L, *mut/const libc::c_char> + ?Sized` plus the async or lifetime suffix |
| `Bounds.AsyncLifetimeOnlyRejectedForIsA` | src/codegen/bound.rs:60-91 | async with a lifetime is refused for `IsA` and accepted for `ToGlibPtr` |
| `TranslateToGlib.Translate` | src/codegen/translate_to_glib.rs:10-43 | a translation fails exactly for the unhandled variants, naming the variant |
| `TranslateToGlib.ToGlibXxx` | src/codegen/translate_to_glib.rs:46-66 | only a borrowed (`Transfer::None`) value gets a prefix, and the suffix is empty exactly for a borrowed `ByRefFake` |
| `TranslateToGlib.ToGlibXxxFollowsConversion` | src/codegen/translate_to_glib.rs:46-66 | the table is the text of the conversion the ownership rules select: owned and container transfers by transfer alone, borrows by ref mode |
| `TranslateToGlib.ToGlibXxxEqualIff` | src/codegen/translate_to_glib.rs:48-65 | two table entries are equal exactly when they select the same conversion (and the same explicit type) |
| `TranslateToGlib.ExplicitTargetRecoverable` | src/codegen/translate_to_glib.rs:52-56 | an explicit target type can be read back from the `ToGlibPtr::<T>::to_glib_none(` prefix |
| `TranslateToGlib.InstanceParameterIsSelf` | src/codegen/translate_to_glib.rs:29-34 | the instance parameter translates like a parameter named `self` with no extra text |
| `TranslateToGlib.PointerLayout` | src/codegen/translate_to_glib.rs:29-34 | a non-instance pointer is prefix, name, extra, suffix and cast, each readable at its position |
| `TranslateToGlib.TransferredIgnoresRefMode` | src/codegen/translate_to_glib.rs:63-64 | owned and container transfers translate alike whatever the ref mode or explicit type |
| `TranslateToGlib.ScalarNullableAddsInto` | src/codegen/translate_to_glib.rs:14-19 | a scalar gets `.to_glib()`; a nullable one is the scalar `name.into()` |
| `TranslateToGlib.WrapperShapes` | src/codegen/translate_to_glib.rs:13-40 | direct, stash, unknown, `Some`, boxed and borrow translations have their fixed shapes |
| `TranslateToGlib.NameIsRecoverable` | src/codegen/translate_to_glib.rs:13-40 | for every name-carrying non-pointer translation, distinct names give distinct expressions |
| `TranslateToGlib.PointerScenarios` | src/codegen/translate_to_glib.rs:29-64 | a borrowed `ByRef` value `val` is `val.to_glib_none().0`; an owned instance parameter is `self.to_glib_full()` plus its cast |
| `Functions.AnalyzeFunction` | src/analysis/functions.rs:29-48 | the summary copies name, C identifier, kind and return descriptor, takes the class's Rust name, and is flagged exactly when the return type is unclassified |
| `Functions.Analyze` | src/analysis/functions.rs:18-27 | one summary per declared function, in declaration order, flagged ones included, all with the same class name |
| `Functions.SummaryIsUnique` | src/analysis/functions.rs:40-47 | a function has exactly one summary |
| `Functions.AnalysisIsDeterministic` | src/analysis/functions.rs:18-27 | two analyses of the same class agree |
| `ParameterFfiCallIn.New` | src/chunk/parameter_ffi_call_in.rs:18-30 | every field of the descriptor is the same field of the analyzed parameter |
| `ParameterFfiCallIn.NewIsBijective` | src/chunk/parameter_ffi_call_in.rs:18-30 | the copy loses nothing and every descriptor is the copy of some parameter |

## Left out

- `RefMode::for_rust_type` is not part of this model: the bound functions take the
  reference prefix it renders as the string `refStr`, with no assumption on its value.
- The library lookups `type_`, `to_type_kind` and `to_rust_type` are foreign code: `Env`
  carries them as caller-supplied functions from a type id to a classification and to
  a Rust name. `TypeKind` distinguishes only `Unknown`; other classifications are kept
  by name.
- The `eprintln!` of the type string in `trait_bound` writes to stderr and has no effect
  on the result; it is not modelled, nor is the commented-out `format!` beside it.
- The `Debug` text of the `unreachable!` message: the variants `translate_to_glib` does
  not handle are one constructor, `Untranslated`, carrying the variant's name.
- Panics are `Failure` values: the model does not capture that they abort generation.
- Cloning, borrowing and `&'static str` lifetimes of Rust: strings are values.
- `Nullable` is a plain `bool`; `library::Parameter`, `library::Function`,
  `library::Class` and `CParameter` keep only the fields the core reads or copies (plus
  a C type name), and the function parameters the analysis does not yet summarise.
- Emission, formatting, parsing of the introspection data and the command line.
