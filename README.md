# cbt binding generator, modelled in Dafny

cbt reads a parsed Rust crate and writes two texts: a C header, and the source
of a wrapper crate of `#[no_mangle] pub extern "C"` functions that forward to the
crate's own functions. This project models the generator core, `src/lib.rs`, and
proves properties of that model. Parsing, file I/O and the case conversion are
left out; the model receives them as values.

- `syntax.dfy` (`Syntax`) is the slice of `syn`'s item tree that the generator reads:
  - functions, structs and modules, and their visibility;
  - the three shapes of type the mappers tell apart: a path, a reference, and anything else.
- `visibility.dfy` (`Visibility`) holds the three export rules.
- `type_map.dfy` (`TypeMap`) holds the two type tables: the header's C spelling, and the wrapper's `extern "C"` type. Both are keyed on the first path segment only.
- `fn_binding.dfy` (`FnBinding`) is the function generator:
  - the header prototype `ret name(c1, …, cn, void*);`;
  - the wrapper: its prologue, one conversion statement per parameter, the call, the return conversion and the closing brace.

  The argument loop and the two `push_str` phases are methods. Each method is proved equal to the specification functions. Those functions are then proved against independent readings: `ParsePrototype` reads a header line back into its return type, name and parameter types.
- `struct_binding.dfy` (`StructBinding`) is the struct generator:
  - the `typedef struct` with one line per named field;
  - the `_new` and `_free` prototypes;
  - the wrapper that boxes `T::default()` and frees the box unless the handle is null.

  The field loop is a method; the header's line structure is proved through `Split`.
- `traversal.dfy` (`Traversal`) is the recursive traversal and the external-module resolver:
  - The filesystem is a map from path components to what the path holds: items that parse, a file that cannot be read, or a file that does not parse.
  - The traversal is the method `GenerateCApiAndRustExports`. Its loop is proved to compute the function `Generate`, and `Generate`'s properties are lemmas.
  - A read or parse failure, where the generator panics, is an `Err` result.
- `text.dfy` (`Text`) holds `Join`, `Split` and the lemmas that make each the inverse of the other. Every statement about line and list structure is built on them.

The generator recurses into module files without any bound of its own. Each level of that recursion is an ordinary, non-tail call that keeps its parsed tree, so a cycle of module files recurses until the stack overflows and the process aborts. The model gives the recursion a fuel parameter: running out of fuel is the result `NestingTooDeep`, which is how the model shows that abort. `GenerateFuel` proves that more fuel never changes a run that has not run out. `SelfReferentialModule` shows the cycle.

Behaviours of the code that the model keeps as written:
- The return conversion is left out exactly when the wrapper type is `void`. That happens for a type that is not a path, and also for a path whose first segment is `void`.
- A function without a return type still ends with `transmute::<_, ()>(result)`.
- The `Vec` wrapper type is `*mut cor:::ffi::c_void`, with the code's typo.
- An unknown path type is spelled in the header exactly as its identifier is written, followed by `*`.
- The crate and module names are snake-cased again at every level of the recursion, and never extended with the module's own name. Structs are qualified with the crate name and functions with the module name.
- Every nested traversal's wrapper text carries its own `extern crate alloc;` line.
- For `name.rs`, the items are resolved from the directory of that file, which is the same base. For `name/mod.rs` they are resolved from `name`.

The example wrapper crate in the repository writes `core::mem::transmute` and `core::ffi::CStr`, where the code emits `std::`. The worked cases here follow the code.

## Model

| member | source | states |
|---|---|---|
| Visibility.IsPublicFunction | src/lib.rs:98-103 | a function is exported iff it is `pub` or the caller passes the inherited flag; otherwise the result is the flag |
| Visibility.IsPublicStruct | src/lib.rs:106-111 | a struct is exported iff it is `pub` or the caller passes the inherited flag; otherwise the result is the flag |
| Visibility.IsPublicMod | src/lib.rs:114-116 | a module is entered iff it is itself `pub`; no flag is consulted |
| Visibility.RestrictedActsAsInherited | src/lib.rs:98-116 | `pub(crate)`-style restricted visibility is exported exactly when no marker would be, for functions and structs; such a module is never entered |
| TypeMap.RustTypeToC | src/lib.rs:361-382 | the header spelling agrees with the C column of the independent table `KnownTypes` of the seven recognised first segments; any other path is its first segment as written followed by `*`; a type that is not a path is `void*` |
| TypeMap.RustTypeToRustExternC | src/lib.rs:384-404 | the wrapper type agrees with the wrapper column of `KnownTypes` (including the `cor:::` typo for `Vec`); any other path is its first segment; a type that is not a path is `void` |
| TypeMap.FirstSegmentOnly | src/lib.rs:361-404 | two paths with the same first segment map to the same C type and the same wrapper type |
| TypeMap.ExternVoidIff | src/lib.rs:384-404 | the wrapper type is `void` iff the type is not a path or its first segment is `void` |
| TypeMap.ExternCCharIff | src/lib.rs:384-404 | for identifier segments, the wrapper type is the C-string pointer iff the first segment is `String` |
| TypeMap.CTypeIsToken | src/lib.rs:361-382 | every C type the header uses is non-empty, does not start with a blank, and holds no `,` `(` `)` `;` or line break |
| FnBinding.GenerateCBindingAndRustWrapper | src/lib.rs:158-293 | never declines a function; the header line is `ret name(params);` with the collected arguments' C types plus `void*`; the wrapper is prologue, conversions, call, return lines and `}\n`, with the two loops proved against `Arguments` and `Conversions` |
| FnBinding.PushConversions | src/lib.rs:220-266 | appends exactly the conversion statements of all arguments, in parameter order |
| FnBinding.PushReturn | src/lib.rs:278-288 | appends exactly `ReturnLines` of the wrapper return type, following the nested conditions |
| FnBinding.ConversionLine | src/lib.rs:224-265 | a parameter gets no statement iff it is a reference to a path whose first segment is not `str`; any statement rebinds the parameter's own name inside `unsafe { … };` |
| FnBinding.StrRefConversion | src/lib.rs:225-233 | a `&str` parameter is rebound to the borrowed `CStr::from_ptr(name).to_str().unwrap()` |
| FnBinding.OtherRefConversion | src/lib.rs:225-234 | a reference to any other path gets no statement at all |
| FnBinding.NonPathRefConversion | src/lib.rs:235-241 | a reference to a type that is not a path is rebound with `transmute::<void, _>(name)` |
| FnBinding.StringConversion | src/lib.rs:243-249 | a `String` parameter is rebound to the owned copy `CStr::from_ptr(name).to_string_lossy().into_owned()` |
| FnBinding.TransmuteConversion | src/lib.rs:250-264 | any other path, and any type that is neither a path nor a reference, is rebound with `transmute::<wrapper type, _>(name)` |
| FnBinding.ReturnLines | src/lib.rs:278-288 | nothing follows the call iff the wrapper return type is `void` |
| FnBinding.ArgumentsAppend | src/lib.rs:168-179 | argument collection distributes over a split of the parameter list |
| FnBinding.ArgumentsSkipReceiver | src/lib.rs:168-179 | a `self` parameter contributes no argument, wherever it stands |
| FnBinding.ArgumentsKeepTyped | src/lib.rs:168-179 | a typed parameter contributes its own argument in its own place |
| FnBinding.ArgumentCount | src/lib.rs:168-179 | there are exactly as many arguments as typed parameters |
| FnBinding.ArgumentsMapped | src/lib.rs:172-177 | every argument carries both table entries of its own type |
| FnBinding.PrototypeArity | src/lib.rs:192-201 | the header list has one entry more than there are typed parameters and one more than the wrapper list; the last is `void*`, and entry k is the C type of argument k |
| FnBinding.ParsePrototypeOf | src/lib.rs:192-201 | any line `ret name(p1, …, pn);` whose parts hold no separators reads back into exactly `ret`, `name` and the list |
| FnBinding.PrototypeRoundTrip | src/lib.rs:192-201 | for a well-formed function, the header line reads back as its C return type, its own name and its argument C types followed by `void*` |
| FnBinding.ReturnOmittedIff | src/lib.rs:278-288 | there is no return conversion iff a return type is declared and it is not a path, or its first segment is `void` |
| FnBinding.UnitReturnConversion | src/lib.rs:182-189 | a missing return type is `void` in the header, and the wrapper still emits `transmute::<_, ()>(result)` |
| FnBinding.StringReturnConversion | src/lib.rs:279-281 | a `String` result is copied into a fresh C string, then returned |
| FnBinding.PathReturnConversion | src/lib.rs:282-287 | any other path result is reinterpreted, with `transmute`, as its wrapper type |
| FnBinding.ConversionsAppend | src/lib.rs:220-266 | the conversions of a split argument list are those of each part, in order |
| FnBinding.AddTransmute | src/lib.rs:250-256 | an `i32` parameter gets `let name = unsafe { std::mem::transmute::<i32, _>(name) };` |
| FnBinding.AddArguments | examples/test_crate/src/lib.rs:12-14 | `add(a: i32, b: i32)` yields the arguments `a` and `b`, each with the types `int` and `i32` |
| FnBinding.AddPrototype | examples/test_crate/src/lib.rs:12-14 | the header line of `pub fn add(a: i32, b: i32) -> i32` reads back as `int add(int, int, void*);` |
| FnBinding.AddConversions | examples/test_crate/src/lib.rs:12-14 | the wrapper of `add` reinterprets `a`, then `b`, with `std::mem::transmute::<i32, _>` |
| FnBinding.AddCallAndReturn | examples/test_crate/c_api/src/lib.rs:25-26 | the wrapper of `add` calls `add(a, b)`, then returns `transmute::<_, i32>(result)` |
| StructBinding.GenerateCStructField | src/lib.rs:354-358 | a field yields a line iff it has a name |
| StructBinding.CollectFieldLines | src/lib.rs:305-310 | the loop collects exactly `FieldLines` of the fields |
| StructBinding.GenerateCStructBindingAndRustWrapper | src/lib.rs:296-351 | never declines a struct; the header is the typedef of the collected field lines, then the constructor and destructor prototypes; the wrapper is the box template for the snake-cased name |
| StructBinding.FieldLinesAppend | src/lib.rs:305-310 | field lines distribute over a split of the field list |
| StructBinding.UnnamedFieldDropped | src/lib.rs:305-310 | a field without a name leaves no line, wherever it stands |
| StructBinding.NamedFieldKept | src/lib.rs:354-358 | a named field gives `    <C type> <name>;` in its own place |
| StructBinding.FieldLineCount | src/lib.rs:305-310 | there are exactly as many field lines as named fields |
| StructBinding.FieldLinesAreLines | src/lib.rs:305-317 | for identifier names and types, no field line contains a line break |
| StructBinding.HeaderAsJoin | src/lib.rs:312-324 | the header is the join by line breaks of the typedef line, the field lines (or one empty line), the closing line and the two prototypes |
| StructBinding.HeaderLines | src/lib.rs:312-324 | read back line by line, the header is `typedef struct s {`, each field line, `} s;`, `s* s_new();` and `void s_free(s* obj);` |
| StructBinding.StructHeaderLines | src/lib.rs:300-324 | for a well-formed struct, the header's lines are these, with one line per named field in declaration order |
| StructBinding.MyStructFields | examples/test_crate/src/lib.rs:1-4 | `x: i32, y: i32` yields the lines `    int x;` and `    int y;` |
| StructBinding.MyStructExample | examples/test_crate/src/lib.rs:1-4 | with `MyStruct` snake-cased to `my_struct`, the header is exactly six given lines, joined by line breaks |
| Traversal.GenerateCApiAndRustExports | src/lib.rs:20-95 | the loop computes `Generate`: the names are snake-cased, each item's pieces are appended in order, the first failure aborts, and the header and wrapper fragments are joined |
| Traversal.ItemExports | src/lib.rs:34-87 | one loop step yields exactly the item's pieces |
| Traversal.FnExports | src/lib.rs:35-44 | a function step yields the function's binding iff it is exported, and nothing otherwise |
| Traversal.StructExports | src/lib.rs:74-85 | a struct step yields the struct's binding iff it is exported, and nothing otherwise |
| Traversal.ModExports | src/lib.rs:45-73 | a module step yields nothing unless the module is entered, then the inline traversal's result or the external module's outcome |
| Traversal.ProcessExternalModAndGenerateRust | src/lib.rs:119-155 | the external step is `ExternalModExports`: no file, a read or parse failure, or the traversal of its items from the file's directory, with the flag set |
| Traversal.PiecesAppend | src/lib.rs:33-88 | the items are walked in declaration order: a concatenation has the front's pieces, then the back's, and a failure in front wins |
| Traversal.PiecesPrefixFails | src/lib.rs:33-88 | once a prefix of the items fails, the whole list fails the same way |
| Traversal.GenerateFailsWithPrefix | src/lib.rs:140-145 | a failure anywhere aborts the whole traversal with that failure |
| Traversal.ItemPieceCount | src/lib.rs:34-87 | each item contributes at most one piece, and an entered inline module exactly one |
| Traversal.FnItemPieces | src/lib.rs:35-44 | a function contributes its binding, qualified by the module name, iff it is `pub` or the flag is set |
| Traversal.StructItemPieces | src/lib.rs:74-85 | a struct contributes its binding, qualified by the crate name, iff it is `pub` or the flag is set |
| Traversal.SkippedItemPieces | src/lib.rs:45-86 | a module that is not `pub`, or an item of another kind, contributes nothing |
| Traversal.ModuleIgnoresParent | src/lib.rs:45-58 | a module's contribution does not depend on the caller's flag; an entered inline module's items are walked with the flag set |
| Traversal.QualifiedNames | src/lib.rs:35-85 | a function's piece does not depend on the crate name, and a struct's piece does not depend on the module name |
| Traversal.PrivateFunctionInPublicModule | src/lib.rs:47-58 | a private function alone at top level gives nothing; inside a `pub mod` it is exported, with two `alloc` prefixes and a module name snake-cased twice |
| Traversal.EmptyPublicModule | src/lib.rs:47-58 | an entered empty inline module still contributes an empty header line and one more `alloc` prefix |
| Traversal.ModulePathResolution | src/lib.rs:127-137 | `name.rs` is tried first, then `name/mod.rs`, and nothing is found iff neither exists; items are then resolved from `base` or from `base/name` |
| Traversal.ExternalModuleOutcome | src/lib.rs:131-155 | an entered external module gives no piece when no file exists, the read or parse failure of the file found, and otherwise one piece |
| Traversal.GenerateFuel | src/lib.rs:148-154 | more fuel never changes a run that did not run out of it |
| Traversal.SelfReferentialModule | src/lib.rs:128-154 | a file `name.rs` that declares `pub mod name;` resolves to itself; the generator recurses until its stack overflows, shown as `NestingTooDeep` for every fuel |

## Left out

- `src/main.rs` is the command line and I/O glue, and is not part of this model. It parses arguments, creates directories, writes `Cargo.toml`, `lib.rs` and `bindings.h`, and runs `rustfmt` and `clang-format`. It passes the input file's own path as the base directory. The base is a parameter here, so that call is one case of the model.
- Parsing with `syn` and reading files are left out. The item tree is given. The filesystem is a map, and the panics on a failed read or parse are `Err` results.
- A directory at a candidate path counts as existing. When the read then fails, the model shows it as `Unreadable`.
- The text of an argument pattern, which the code renders with `quote!`, is a given string.
- The `convert_case` snake-case conversion is a parameter. Only `MyStructExample` pins it, to `MyStruct` ↦ `my_struct`.
- `Generate`: the unbounded recursion through module files is bounded by fuel. A chain of module files deeper than the fuel ends with `NestingTooDeep` instead of recursing further.
- Generic arguments, lifetimes and the mutability of references are not kept in `Type`, because no part of the generator reads them.
- `StructBinding.GenerateCStructBindingAndRustWrapper`: the wrapper text is stated as the template filled with the names. No further property of that template is proved.
- `FnBinding.GenerateCBindingAndRustWrapper`: the wrapper text is stated as the sequence of its parts. The parts' properties are the separate lemmas above.
- `Traversal.ExternalModuleOutcome`: states how many pieces a parsed module file gives, not their text. The text is `Generate` of the file's items.
