/** The struct binding generator: a C `typedef struct` with the named fields,
    a constructor and a destructor prototype for the header, and the two
    `extern "C"` functions that allocate a default value and free it. */
module StructBinding {
  import opened Text
  import opened Syntax
  import opened TypeMap

  /** The header line of one field; a field without a name has none. */
  function GenerateCStructField(field: Field): (line: Option<string>)
    ensures line.None? <==> field.ident.None?
  {
    match field.ident
    case None => None
    case Some(name) => Some("    " + RustTypeToC(field.ty) + " " + name + ";")
  }

  /** The field lines the generator collects, in declaration order. */
  function FieldLines(fields: seq<Field>): seq<string>
  {
    if |fields| == 0 then []
    else
      FieldLines(fields[..|fields| - 1]) +
      match GenerateCStructField(fields[|fields| - 1])
      case Some(line) => [line]
      case None => []
  }

  function CStruct(snake: string, fieldLines: seq<string>): string
  {
    "typedef struct " + snake + " {\n" + Join(fieldLines, "\n") + "\n} " + snake + ";"
  }

  function Constructor(snake: string): string
  {
    snake + "* " + snake + "_new();"
  }

  function Destructor(snake: string): string
  {
    "void " + snake + "_free(" + snake + "* obj);"
  }

  /** The header text: the typedef, then the two prototypes, one per line. */
  function StructHeader(snake: string, fieldLines: seq<string>): string
  {
    CStruct(snake, fieldLines) + "\n" + Constructor(snake) + "\n" + Destructor(snake)
  }

  /** The wrapper text: import of the real struct from `modName`, a
      constructor boxing `T::default()`, and a destructor that reclaims the box
      unless the handle is null. */
  function StructWrapper(modName: string, name: Ident, snake: string): string
  {
    "\nuse alloc::boxed::Box;\nuse " + modName + "::" + name + ";\n\n#[no_mangle]\npub extern \"C\" fn " +
    snake + "_new() -> *mut " + name + " {\n    Box::into_raw(Box::new(" + name + "::default()))\n}\n\n" +
    "#[no_mangle]\npub extern \"C\" fn " + snake + "_free(obj: *mut " + name + ") {\n" +
    "    if !obj.is_null() {\n        unsafe {\n            let _ = Box::from_raw(obj);\n        }\n    }\n}\n"
  }

  function StructBindingOf(structItem: ItemStruct, modName: string, toSnake: string -> string): Binding
  {
    var snake := toSnake(structItem.ident);
    Binding(StructHeader(snake, FieldLines(structItem.fields)), StructWrapper(modName, structItem.ident, snake))
  }

  /** Collects the field lines in a loop and fills the two templates; never
      declines a struct. `toSnake` is the case conversion to lower-case words
      joined by underscores. */
  method GenerateCStructBindingAndRustWrapper(structItem: ItemStruct, modName: string, toSnake: string -> string)
    returns (binding: Option<Binding>)
    ensures binding.Some?
    ensures binding.value.c ==
      StructHeader(toSnake(structItem.ident), FieldLines(structItem.fields))
    ensures binding.value.rust == StructWrapper(modName, structItem.ident, toSnake(structItem.ident))
  {
    var structNameC := toSnake(structItem.ident);
    var fields := CollectFieldLines(structItem.fields);
    var cStruct := "typedef struct " + structNameC + " {\n" + Join(fields, "\n") + "\n} " + structNameC + ";";
    var newPrototype := structNameC + "* " + structNameC + "_new();";
    var freePrototype := "void " + structNameC + "_free(" + structNameC + "* obj);";
    var bindings := cStruct + "\n" + newPrototype + "\n" + freePrototype;
    var rustStructWrapper := StructWrapper(modName, structItem.ident, structNameC);
    binding := Some(Binding(bindings, rustStructWrapper));
  }

  /** The field loop: each named field's line, in order. */
  method CollectFieldLines(structFields: seq<Field>) returns (fields: seq<string>)
    ensures fields == FieldLines(structFields)
  {
    fields := [];
    var i := 0;
    while i < |structFields|
      invariant 0 <= i <= |structFields|
      invariant fields == FieldLines(structFields[..i])
    {
      assert structFields[..i + 1][..i] == structFields[..i];
      var fieldBinding := GenerateCStructField(structFields[i]);
      if fieldBinding.Some? {
        fields := fields + [fieldBinding.value];
      }
      i := i + 1;
    }
    assert structFields[..i] == structFields;
  }

  /** Number of named fields, counted from the front. */
  function NamedCount(fields: seq<Field>): nat
  {
    if |fields| == 0 then 0 else (if fields[0].ident.Some? then 1 else 0) + NamedCount(fields[1..])
  }

  lemma {:induction false} FieldLinesAppend(a: seq<Field>, b: seq<Field>)
    ensures FieldLines(a + b) == FieldLines(a) + FieldLines(b)
  {
    if |b| == 0 {
      assert a + b == a;
    } else {
      var b' := b[..|b| - 1];
      assert (a + b)[..|a + b| - 1] == a + b';
      assert (a + b)[|a + b| - 1] == b[|b| - 1];
      FieldLinesAppend(a, b');
    }
  }

  /** A field without a name leaves no line, wherever it stands. */
  lemma UnnamedFieldDropped(before: seq<Field>, ty: Type, after: seq<Field>)
    ensures FieldLines(before + [Field(None, ty)] + after) == FieldLines(before + after)
  {
    FieldLinesAppend(before + [Field(None, ty)], after);
    FieldLinesAppend(before, [Field(None, ty)]);
    FieldLinesAppend(before, after);
    assert FieldLines([Field(None, ty)]) == [];
  }

  /** A named field gives the line `    <C type> <name>;` in its own place. */
  lemma NamedFieldKept(before: seq<Field>, name: Ident, ty: Type, after: seq<Field>)
    ensures FieldLines(before + [Field(Some(name), ty)] + after) ==
            FieldLines(before) + ["    " + RustTypeToC(ty) + " " + name + ";"] + FieldLines(after)
  {
    FieldLinesAppend(before + [Field(Some(name), ty)], after);
    FieldLinesAppend(before, [Field(Some(name), ty)]);
    assert FieldLines([Field(Some(name), ty)]) == ["    " + RustTypeToC(ty) + " " + name + ";"];
  }

  lemma {:induction false} FieldLineCount(fields: seq<Field>)
    ensures |FieldLines(fields)| == NamedCount(fields)
  {
    if |fields| > 0 {
      assert fields == [fields[0]] + fields[1..];
      FieldLinesAppend([fields[0]], fields[1..]);
      FieldLineCount(fields[1..]);
    }
  }

  /** No field line holds a line break, so each is one line of the header. */
  lemma {:induction false} FieldLinesAreLines(fields: seq<Field>)
    requires forall k :: 0 <= k < |fields| ==>
      WellFormedType(fields[k].ty) && (fields[k].ident.Some? ==> IsIdentifier(fields[k].ident.value))
    ensures forall k :: 0 <= k < |FieldLines(fields)| ==> '\n' !in FieldLines(fields)[k]
  {
    if |fields| > 0 {
      var init := fields[..|fields| - 1];
      var last := fields[|fields| - 1];
      FieldLinesAreLines(init);
      if last.ident.Some? {
        CTypeIsToken(last.ty);
        IdentifierHasNo(last.ident.value, '\n');
      }
    }
  }

  /** Helper for `HeaderAsJoin`: the typedef around its joined field lines. */
  lemma CStructParts(snake: string, fieldLines: seq<string>)
    ensures CStruct(snake, fieldLines) ==
      ("typedef struct " + snake + " {") + "\n" + Join(fieldLines, "\n") + "\n" + ("} " + snake + ";")
  {
  }

  /** The header is the join of its lines. */
  lemma HeaderAsJoin(snake: string, fieldLines: seq<string>)
    ensures Join(["typedef struct " + snake + " {"] + (if |fieldLines| == 0 then [""] else fieldLines) +
                 ["} " + snake + ";", Constructor(snake), Destructor(snake)], "\n") ==
            StructHeader(snake, fieldLines)
  {
    var opening := "typedef struct " + snake + " {";
    var closing := "} " + snake + ";";
    var body := if |fieldLines| == 0 then [""] else fieldLines;
    var tail := [closing, Constructor(snake), Destructor(snake)];
    var j := Join(fieldLines, "\n");
    assert Join(body, "\n") == j;
    JoinAppend([opening], body, "\n");
    JoinAppend([opening] + body, tail, "\n");
    JoinThree(closing, Constructor(snake), Destructor(snake), "\n");
    CStructParts(snake, fieldLines);
    Regroup(opening + "\n" + j + "\n", closing, "\n", Constructor(snake), Destructor(snake));
  }

  /** Helper for `HeaderAsJoin`: regrouping a concatenation of five texts. */
  lemma Regroup(p: string, y: string, n: string, c: string, d: string)
    ensures p + (y + n + c + n + d) == p + y + n + c + n + d
  {
  }

  /** The header read line by line: the `typedef` line, one line per named
      field (a single empty line when there is none), the closing line naming
      the type, then the constructor and destructor prototypes. */
  lemma HeaderLines(snake: string, fieldLines: seq<string>)
    requires '\n' !in snake
    requires forall k :: 0 <= k < |fieldLines| ==> '\n' !in fieldLines[k]
    ensures Split(StructHeader(snake, fieldLines), '\n') ==
      ["typedef struct " + snake + " {"] +
      (if |fieldLines| == 0 then [""] else fieldLines) +
      ["} " + snake + ";", Constructor(snake), Destructor(snake)]
  {
    var all := ["typedef struct " + snake + " {"] + (if |fieldLines| == 0 then [""] else fieldLines) +
               ["} " + snake + ";", Constructor(snake), Destructor(snake)];
    HeaderAsJoin(snake, fieldLines);
    forall k | 0 <= k < |all|
      ensures '\n' !in all[k]
    {
    }
    SplitJoinExact(all, '\n');
  }

  /** The header of a well-formed struct, line by line. */
  lemma StructHeaderLines(structItem: ItemStruct, modName: string, toSnake: string -> string)
    requires WellFormedStruct(structItem)
    requires '\n' !in toSnake(structItem.ident)
    ensures var snake := toSnake(structItem.ident);
      var lines := FieldLines(structItem.fields);
      Split(StructBindingOf(structItem, modName, toSnake).c, '\n') ==
      ["typedef struct " + snake + " {"] + (if |lines| == 0 then [""] else lines) +
      ["} " + snake + ";", snake + "* " + snake + "_new();", "void " + snake + "_free(" + snake + "* obj);"]
  {
    FieldLinesAreLines(structItem.fields);
    HeaderLines(toSnake(structItem.ident), FieldLines(structItem.fields));
  }

  lemma MyStructFields()
    ensures FieldLines([Field(Some("x"), Path(["i32"])), Field(Some("y"), Path(["i32"]))]) ==
            ["    int x;", "    int y;"]
  {
    var fields := [Field(Some("x"), Path(["i32"])), Field(Some("y"), Path(["i32"]))];
    assert fields[..1] == [fields[0]];
    assert fields[..1][..0] == [];
    assert RustTypeToC(Path(["i32"])) == "int";
    assert fields[0].ident == Some("x") && fields[0].ty == Path(["i32"]);
    assert GenerateCStructField(fields[0]) == Some("    " + "int" + " " + "x" + ";");
    assert "    " + "int" + " " + "x" + ";" == "    int x;";
    assert GenerateCStructField(fields[1]) == Some("    " + "int" + " " + "y" + ";");
    assert "    " + "int" + " " + "y" + ";" == "    int y;";
    assert FieldLines([fields[0]]) == ["    int x;"];
  }

  lemma MyStructHeaderLines()
    ensures Split(StructHeader("my_struct", ["    int x;", "    int y;"]), '\n') ==
      ["typedef struct my_struct {", "    int x;", "    int y;", "} my_struct;",
       "my_struct* my_struct_new();", "void my_struct_free(my_struct* obj);"]
  {
    var lines := ["    int x;", "    int y;"];
    HeaderLines("my_struct", lines);
    MyStructLineTexts();
    var got := ["typedef struct " + "my_struct" + " {"] + lines +
      ["} " + "my_struct" + ";", Constructor("my_struct"), Destructor("my_struct")];
    assert got == ["typedef struct my_struct {", "    int x;", "    int y;", "} my_struct;",
       "my_struct* my_struct_new();", "void my_struct_free(my_struct* obj);"];
  }

  /** `pub struct MyStruct { x: i32, y: i32 }` as a worked case: the header is
      these six lines joined by line breaks. */
  lemma MyStructExample(toSnake: string -> string)
    requires toSnake("MyStruct") == "my_struct"
    ensures var item := ItemStruct(Public, "MyStruct", [Field(Some("x"), Path(["i32"])), Field(Some("y"), Path(["i32"]))]);
      var lines := ["typedef struct my_struct {", "    int x;", "    int y;", "} my_struct;",
                    "my_struct* my_struct_new();", "void my_struct_free(my_struct* obj);"];
      Split(StructBindingOf(item, "my_crate", toSnake).c, '\n') == lines &&
      StructBindingOf(item, "my_crate", toSnake).c == Join(lines, "\n")
  {
    MyStructFields();
    MyStructHeaderLines();
    JoinSplit(StructHeader("my_struct", ["    int x;", "    int y;"]), '\n');
  }

  /** Helper for the worked case: the four template lines filled with
      `my_struct`, each built up in short steps. */
  lemma MyStructLineTexts()
    ensures "typedef struct " + "my_struct" + " {" == "typedef struct my_struct {"
    ensures "} " + "my_struct" + ";" == "} my_struct;"
    ensures "my_struct" + "* " + "my_struct" + "_new();" == "my_struct* my_struct_new();"
    ensures "void " + "my_struct" + "_free(" + "my_struct" + "* obj);" == "void my_struct_free(my_struct* obj);"
  {
    assert "typedef struct " + "my_struct" == "typedef struct my_struct";
    assert "typedef struct my_struct" + " {" == "typedef struct my_struct {";
    assert "} " + "my_struct" + ";" == "} my_struct;";
    assert "my_struct" + "* " == "my_struct* ";
    assert "my_struct* " + "my_struct" == "my_struct* my_struct";
    assert "my_struct* my_struct" + "_new();" == "my_struct* my_struct_new();";
    assert "void " + "my_struct" == "void my_struct";
    assert "void my_struct" + "_free(" == "void my_struct_free(";
    assert "void my_struct_free(" + "my_struct" == "void my_struct_free(my_struct";
    assert "void my_struct_free(my_struct" + "* obj);" == "void my_struct_free(my_struct* obj);";
  }
}
