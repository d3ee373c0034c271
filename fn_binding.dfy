/** The function binding generator: one C prototype for the header and one
    `#[no_mangle] pub extern "C"` wrapper that converts the parameters, calls
    the real function and converts its result. */
module FnBinding {
  import opened Text
  import opened Syntax
  import opened TypeMap

  /** What the generator records for each typed parameter. */
  datatype Argument = Argument(name: Ident, ty: Type, cTy: string, externCTy: string)

  function ArgumentOf(pat: Ident, ty: Type): Argument
  {
    Argument(pat, ty, RustTypeToC(ty), RustTypeToRustExternC(ty))
  }

  /** The arguments of a parameter list: one per typed parameter, in order;
      `self` contributes none. */
  function Arguments(inputs: seq<FnArg>): seq<Argument>
  {
    if |inputs| == 0 then []
    else
      Arguments(inputs[..|inputs| - 1]) +
      match inputs[|inputs| - 1]
      case Typed(pat, ty) => [ArgumentOf(pat, ty)]
      case Receiver => []
  }

  function ReturnCType(output: ReturnType): string
  {
    match output
    case Default => "void"
    case Returns(ty) => RustTypeToC(ty)
  }

  function ReturnExternType(output: ReturnType): string
  {
    match output
    case Default => "()"
    case Returns(ty) => RustTypeToRustExternC(ty)
  }

  /** The header's parameter list: each argument's C type, then the reserved
      `void*` slot. */
  function CParams(args: seq<Argument>): seq<string>
  {
    seq(|args|, k requires 0 <= k < |args| => args[k].cTy) + ["void*"]
  }

  /** The wrapper's parameter list: `name: type` for each argument, with no
      reserved slot. */
  function WrapperParams(args: seq<Argument>): seq<string>
  {
    seq(|args|, k requires 0 <= k < |args| => args[k].name + ": " + args[k].externCTy)
  }

  function ArgNames(args: seq<Argument>): seq<string>
  {
    seq(|args|, k requires 0 <= k < |args| => args[k].name)
  }

  /** The header line `ret name(c1, …, cn, void*);`. */
  function CPrototype(func: ItemFn): string
  {
    ReturnCType(func.output) + " " + func.ident + "(" + Join(CParams(Arguments(func.inputs)), ", ") + ");"
  }

  /** The wrapper's opening: attribute, signature and the `use` of the real
      function from `moduleName`. */
  function WrapperPrologue(func: ItemFn, moduleName: string, args: seq<Argument>, rustRet: string): string
  {
    "\n#[no_mangle]\npub extern \"C\" fn " + func.ident + "(" + Join(WrapperParams(args), ", ") + ") -> " +
    rustRet + " {\n    use " + moduleName + "::" + func.ident + ";\n"
  }

  /** A statement that rebinds `name` to `expr` inside `unsafe`. */
  function LetUnsafe(name: string, expr: string): (stmt: string)
    ensures var open := "    let " + name + " = unsafe { ";
      |open| + 4 <= |stmt| && stmt[..|open|] == open && stmt[|stmt| - 4..] == " };\n"
  {
    var open := "    let " + name + " = unsafe { ";
    var stmt := open + expr + " };\n";
    assert stmt == open + (expr + " };\n");
    stmt
  }

  /** The raw reinterpretation of the wrapper value as the real type. */
  function TransmuteArg(arg: Argument): string
  {
    "std::mem::transmute::<" + arg.externCTy + ", _>(" + arg.name + ")"
  }

  /** The conversion statement emitted for one argument, empty when none is.
      A statement, when there is one, always rebinds the parameter's own
      name; none is emitted only for a reference to a path other than `str`. */
  function ConversionLine(arg: Argument): (line: string)
    ensures line == "" <==> arg.ty.Reference? && arg.ty.elem.Path? && arg.ty.elem.segments[0] != "str"
    ensures line != "" ==>
      var open := "    let " + arg.name + " = unsafe { ";
      |open| + 4 <= |line| && line[..|open|] == open && line[|line| - 4..] == " };\n"
  {
    match arg.ty
    case Reference(Path(segments)) =>
      if segments[0] == "str" then
        LetUnsafe(arg.name, "std::ffi::CStr::from_ptr(" + arg.name + ").to_str().unwrap()")
      else ""
    case Reference(_) => LetUnsafe(arg.name, TransmuteArg(arg))
    case Path(segments) =>
      if segments[0] == "String" then
        LetUnsafe(arg.name, "std::ffi::CStr::from_ptr(" + arg.name + ").to_string_lossy().into_owned()")
      else LetUnsafe(arg.name, TransmuteArg(arg))
    case OtherType => LetUnsafe(arg.name, TransmuteArg(arg))
  }

  /** The conversion statements of all arguments, in parameter order. */
  function Conversions(args: seq<Argument>): string
  {
    if |args| == 0 then "" else Conversions(args[..|args| - 1]) + ConversionLine(args[|args| - 1])
  }

  function CallLine(ident: Ident, args: seq<Argument>): string
  {
    "    let result = " + ident + "(" + Join(ArgNames(args), ", ") + ");\n"
  }

  /** What follows the call: nothing when the wrapper returns `void`, a copy
      into a fresh C string for the C-string pointer, otherwise a raw
      reinterpretation into the wrapper's return type. */
  function ReturnLines(rustRet: string): (lines: string)
    ensures lines == "" <==> rustRet == "void"
  {
    if rustRet != "void" then
      if rustRet == CCharPointer then
        "    let result = std::ffi::CString::new(result).unwrap().into_raw();\n" + "    result\n"
      else
        "    unsafe { std::mem::transmute::<_, " + rustRet + ">(result) }\n"
    else ""
  }

  /** The whole wrapper text of a function. */
  function RustWrapper(func: ItemFn, moduleName: string): string
  {
    var args := Arguments(func.inputs);
    var rustRet := ReturnExternType(func.output);
    WrapperPrologue(func, moduleName, args, rustRet) + Conversions(args) + CallLine(func.ident, args) +
    ReturnLines(rustRet) + "}\n"
  }

  function FunctionBinding(func: ItemFn, moduleName: string): Binding
  {
    Binding(CPrototype(func), RustWrapper(func, moduleName))
  }

  /** Appends each argument's conversion statement to `wrapper`, in order. */
  method PushConversions(wrapper: string, args: seq<Argument>) returns (extended: string)
    ensures extended == wrapper + Conversions(args)
  {
    extended := wrapper;
    var j := 0;
    while j < |args|
      invariant 0 <= j <= |args|
      invariant extended == wrapper + Conversions(args[..j])
    {
      assert args[..j + 1][..j] == args[..j];
      AppendAssoc(wrapper, Conversions(args[..j]), ConversionLine(args[j]));
      extended := extended + ConversionLine(args[j]);
      j := j + 1;
    }
    assert args[..j] == args;
  }

  /** Appends what follows the call, as the source's nested `if` does. */
  method PushReturn(wrapper: string, rustRetType: string) returns (extended: string)
    ensures extended == wrapper + ReturnLines(rustRetType)
  {
    extended := wrapper;
    if rustRetType != "void" {
      if rustRetType == CCharPointer {
        extended := extended + "    let result = std::ffi::CString::new(result).unwrap().into_raw();\n";
        extended := extended + "    result\n";
        AppendAssoc(wrapper, "    let result = std::ffi::CString::new(result).unwrap().into_raw();\n", "    result\n");
      } else {
        extended := extended + "    unsafe { std::mem::transmute::<_, " + rustRetType + ">(result) }\n";
      }
    }
  }

  /** Builds the argument list in one loop and the wrapper's conversion
      statements in a second; never declines a function. */
  method GenerateCBindingAndRustWrapper(func: ItemFn, moduleName: string) returns (binding: Option<Binding>)
    ensures binding.Some?
    ensures binding.value.c ==
      ReturnCType(func.output) + " " + func.ident + "(" + Join(CParams(Arguments(func.inputs)), ", ") + ");"
    ensures binding.value.rust ==
      WrapperPrologue(func, moduleName, Arguments(func.inputs), ReturnExternType(func.output)) +
      Conversions(Arguments(func.inputs)) + CallLine(func.ident, Arguments(func.inputs)) +
      ReturnLines(ReturnExternType(func.output)) + "}\n"
  {
    var funcNameC := func.ident;
    var args: seq<Argument> := [];
    var i := 0;
    while i < |func.inputs|
      invariant 0 <= i <= |func.inputs|
      invariant args == Arguments(func.inputs[..i])
    {
      assert func.inputs[..i + 1][..i] == func.inputs[..i];
      match func.inputs[i] {
        case Typed(pat, ty) =>
          args := args + [Argument(pat, ty, RustTypeToC(ty), RustTypeToRustExternC(ty))];
        case Receiver =>
      }
      i := i + 1;
    }
    assert func.inputs[..i] == func.inputs;

    var retType := match func.output case Default => "void" case Returns(ty) => RustTypeToC(ty);
    var rustRetType := match func.output case Default => "()" case Returns(ty) => RustTypeToRustExternC(ty);

    var cBinding := retType + " " + funcNameC + "(" + Join(CParams(args), ", ") + ");";

    var rustWrapper := WrapperPrologue(func, moduleName, args, rustRetType);
    rustWrapper := PushConversions(rustWrapper, args);

    rustWrapper := rustWrapper + CallLine(funcNameC, args);
    rustWrapper := PushReturn(rustWrapper, rustRetType);
    rustWrapper := rustWrapper + "}\n";

    binding := Some(Binding(cBinding, rustWrapper));
  }

  /** Number of typed parameters, counted from the front. */
  function TypedCount(inputs: seq<FnArg>): nat
  {
    if |inputs| == 0 then 0 else (if inputs[0].Typed? then 1 else 0) + TypedCount(inputs[1..])
  }

  /** Collecting arguments distributes over a split of the parameter list. */
  lemma {:induction false} ArgumentsAppend(a: seq<FnArg>, b: seq<FnArg>)
    ensures Arguments(a + b) == Arguments(a) + Arguments(b)
  {
    if |b| == 0 {
      assert a + b == a;
    } else {
      var b' := b[..|b| - 1];
      assert (a + b)[..|a + b| - 1] == a + b';
      assert (a + b)[|a + b| - 1] == b[|b| - 1];
      ArgumentsAppend(a, b');
    }
  }

  /** A `self` parameter contributes no argument wherever it stands. */
  lemma ArgumentsSkipReceiver(before: seq<FnArg>, after: seq<FnArg>)
    ensures Arguments(before + [Receiver] + after) == Arguments(before + after)
  {
    ArgumentsAppend(before + [Receiver], after);
    ArgumentsAppend(before, [Receiver]);
    ArgumentsAppend(before, after);
    assert Arguments([Receiver]) == [];
  }

  /** A typed parameter contributes its own argument, in its own place. */
  lemma ArgumentsKeepTyped(before: seq<FnArg>, pat: Ident, ty: Type, after: seq<FnArg>)
    ensures Arguments(before + [Typed(pat, ty)] + after) == Arguments(before) + [ArgumentOf(pat, ty)] + Arguments(after)
  {
    ArgumentsAppend(before + [Typed(pat, ty)], after);
    ArgumentsAppend(before, [Typed(pat, ty)]);
    assert Arguments([Typed(pat, ty)]) == [ArgumentOf(pat, ty)];
  }

  lemma {:induction false} ArgumentCount(inputs: seq<FnArg>)
    ensures |Arguments(inputs)| == TypedCount(inputs)
  {
    if |inputs| > 0 {
      assert inputs == [inputs[0]] + inputs[1..];
      ArgumentsAppend([inputs[0]], inputs[1..]);
      ArgumentCount(inputs[1..]);
    }
  }

  /** Every argument is a typed parameter's name and type with both table
      entries filled in. */
  lemma {:induction false} ArgumentsMapped(inputs: seq<FnArg>)
    ensures forall k :: 0 <= k < |Arguments(inputs)| ==>
      Arguments(inputs)[k] == ArgumentOf(Arguments(inputs)[k].name, Arguments(inputs)[k].ty)
  {
    if |inputs| > 0 {
      ArgumentsMapped(inputs[..|inputs| - 1]);
    }
  }

  /** The arguments' types stay well formed. */
  lemma {:induction false} ArgumentsWellFormed(inputs: seq<FnArg>)
    requires forall k :: 0 <= k < |inputs| && inputs[k].Typed? ==> WellFormedType(inputs[k].ty)
    ensures forall k :: 0 <= k < |Arguments(inputs)| ==> WellFormedType(Arguments(inputs)[k].ty)
  {
    if |inputs| > 0 {
      var front := inputs[..|inputs| - 1];
      assert forall k :: 0 <= k < |front| ==> front[k] == inputs[k];
      ArgumentsWellFormed(front);
    }
  }

  /** The header lists the C type of every argument, in order, then exactly
      one more entry, `void*`; the wrapper lists one entry per argument. */
  lemma PrototypeArity(func: ItemFn)
    ensures var args := Arguments(func.inputs);
      && |CParams(args)| == TypedCount(func.inputs) + 1
      && |CParams(args)| == |WrapperParams(args)| + 1
      && CParams(args)[|args|] == "void*"
      && forall k :: 0 <= k < |args| ==> CParams(args)[k] == RustTypeToC(args[k].ty)
  {
    ArgumentCount(func.inputs);
    ArgumentsMapped(func.inputs);
  }

  /** A header prototype read back into its return type, name and parameter
      types. */
  datatype Prototype = Prototype(ret: string, name: string, params: seq<string>)

  function ParsePrototype(line: string): Option<Prototype>
  {
    var halves := Split(line, '(');
    if |halves| != 2 then None else ParseHalves(halves[0], halves[1])
  }

  /** The parts before and after the opening parenthesis: `ret name` and
      `list);`. */
  function ParseHalves(head: string, tail: string): Option<Prototype>
  {
    var words := Split(head, ' ');
    if |tail| < 2 || tail[|tail| - 2..] != ");" || |words| < 2 then None
    else Some(Prototype(Join(words[..|words| - 1], " "), words[|words| - 1], ParseList(tail[..|tail| - 2])))
  }

  lemma ParamsAreTokens(func: ItemFn)
    requires WellFormedFn(func)
    ensures forall k :: 0 <= k < |CParams(Arguments(func.inputs))| ==>
      CParams(Arguments(func.inputs))[k] != "" && ',' !in CParams(Arguments(func.inputs))[k] &&
      '(' !in CParams(Arguments(func.inputs))[k]
  {
    var args := Arguments(func.inputs);
    ArgumentsMapped(func.inputs);
    ArgumentsWellFormed(func.inputs);
    forall k | 0 <= k < |args|
      ensures var c := CParams(args)[k]; c != "" && ',' !in c && '(' !in c
    {
      CTypeIsToken(args[k].ty);
    }
  }

  /** The last blank-separated word of `ret name` is `name`; the words before
      it join back into `ret`. */
  lemma LastWord(ret: string, name: string)
    requires ' ' !in name
    ensures var words := Split(ret + " " + name, ' ');
      |words| >= 2 && Join(words[..|words| - 1], " ") == ret && words[|words| - 1] == name
  {
    assert ret + " " + name == ret + [' '] + name;
    SplitAtDelimiter(ret, ' ', name);
    SplitNoDelimiter(name, ' ');
    var words := Split(ret + " " + name, ' ');
    assert words[..|words| - 1] == Split(ret, ' ');
    JoinSplit(ret, ' ');
    assert " " == [' '];
  }

  lemma ParseHalvesOf(ret: string, name: string, params: seq<string>)
    requires ' ' !in name
    requires forall k :: 0 <= k < |params| ==> params[k] != "" && ',' !in params[k]
    ensures ParseHalves(ret + " " + name, Join(params, ", ") + ");") == Some(Prototype(ret, name, params))
  {
    var list := Join(params, ", ");
    var tail := list + ");";
    assert tail[|tail| - 2..] == ");";
    assert tail[..|tail| - 2] == list;
    LastWord(ret, name);
    ParseListJoin(params);
  }

  /** Helper for `PrototypeCut`: the line as the texts around its `(`. */
  lemma PrototypeHalves(ret: string, name: string, list: string)
    ensures ret + " " + name + "(" + list + ");" == (ret + " " + name) + ['('] + (list + ");")
  {
    AppendAssoc(ret + " " + name + "(", list, ");");
  }

  /** Any line of the prototype's form reads back into its three parts. */
  lemma ParsePrototypeOf(ret: string, name: string, params: seq<string>)
    requires '(' !in ret && '(' !in name && ' ' !in name
    requires forall k :: 0 <= k < |params| ==> params[k] != "" && ',' !in params[k] && '(' !in params[k]
    ensures ParsePrototype(ret + " " + name + "(" + Join(params, ", ") + ");") == Some(Prototype(ret, name, params))
  {
    JoinExcludes(params, ", ", '(');
    PrototypeCut(ret, name, Join(params, ", "));
    ParseHalvesOf(ret, name, params);
  }

  /** The prototype's only opening parenthesis is the one after the name. */
  lemma PrototypeCut(ret: string, name: string, list: string)
    requires '(' !in ret && '(' !in name && '(' !in list
    ensures ParsePrototype(ret + " " + name + "(" + list + ");") == ParseHalves(ret + " " + name, list + ");")
  {
    var head := ret + " " + name;
    var tail := list + ");";
    assert '(' !in head;
    assert '(' !in tail;
    PrototypeHalves(ret, name, list);
    CutAtParen(head, tail);
  }

  /** A line with one opening parenthesis is read as the two texts around it. */
  lemma CutAtParen(head: string, tail: string)
    requires '(' !in head && '(' !in tail
    ensures ParsePrototype(head + ['('] + tail) == ParseHalves(head, tail)
  {
    SplitTwo(head, '(', tail);
  }

  /** The header line says exactly what the function is: reading it back gives
      the C return type, the function's own name, and the argument C types
      followed by `void*`. */
  lemma PrototypeRoundTrip(func: ItemFn)
    requires WellFormedFn(func)
    ensures ParsePrototype(CPrototype(func)) ==
            Some(Prototype(ReturnCType(func.output), func.ident, CParams(Arguments(func.inputs))))
  {
    ParamsAreTokens(func);
    if func.output.Returns? {
      CTypeIsToken(func.output.ty);
    }
    IdentifierHasNo(func.ident, '(');
    IdentifierHasNo(func.ident, ' ');
    ParsePrototypeOf(ReturnCType(func.output), func.ident, CParams(Arguments(func.inputs)));
  }

  /** The return statement is left out exactly when the declared return type
      is not a path, or is a path whose first segment is `void`. */
  lemma ReturnOmittedIff(output: ReturnType)
    ensures ReturnLines(ReturnExternType(output)) == "" <==>
            output.Returns? && (!output.ty.Path? || output.ty.segments[0] == "void")
  {
    if output.Returns? {
      ExternVoidIff(output.ty);
    }
  }

  /** A function without a return type is `void` in the header, and its
      wrapper still reinterprets the `()` result. */
  lemma UnitReturnConversion()
    ensures ReturnCType(Default) == "void"
    ensures ReturnLines(ReturnExternType(Default)) == "    unsafe { std::mem::transmute::<_, ()>(result) }\n"
  {
    assert "()" != CCharPointer;
    assert "    unsafe { std::mem::transmute::<_, " + "()" + ">(result) }\n" ==
           "    unsafe { std::mem::transmute::<_, ()>(result) }\n";
  }

  /** An owned string is copied into a fresh C string handed to the caller. */
  lemma StringReturnConversion(ty: Type)
    requires ty.Path? && ty.segments[0] == "String"
    ensures ReturnLines(ReturnExternType(Returns(ty))) ==
      "    let result = std::ffi::CString::new(result).unwrap().into_raw();\n" + "    result\n"
  {
    assert RustTypeToRustExternC(ty) == CCharPointer;
    assert |CCharPointer| != |"void"|;
  }

  /** Every other path is reinterpreted as its wrapper type. */
  lemma PathReturnConversion(ty: Type)
    requires WellFormedType(ty) && ty.Path? && ty.segments[0] != "String" && ty.segments[0] != "void"
    ensures ReturnLines(ReturnExternType(Returns(ty))) ==
      "    unsafe { std::mem::transmute::<_, " + RustTypeToRustExternC(ty) + ">(result) }\n"
  {
    ExternCCharIff(ty);
    ExternVoidIff(ty);
  }

  /** A `&str` parameter is borrowed from the C string it points to. */
  lemma StrRefConversion(name: Ident, segments: Segments)
    requires segments[0] == "str"
    ensures ConversionLine(ArgumentOf(name, Reference(Path(segments)))) ==
      LetUnsafe(name, "std::ffi::CStr::from_ptr(" + name + ").to_str().unwrap()")
  {
  }

  /** A reference to any other path gets no statement: the parameter is used
      as it arrives. */
  lemma OtherRefConversion(name: Ident, segments: Segments)
    requires segments[0] != "str"
    ensures ConversionLine(ArgumentOf(name, Reference(Path(segments)))) == ""
  {
  }

  /** A reference to a type that is not a path is reinterpreted from the
      wrapper type `void`. */
  lemma NonPathRefConversion(name: Ident, elem: Type)
    requires !elem.Path?
    ensures ConversionLine(ArgumentOf(name, Reference(elem))) ==
      LetUnsafe(name, "std::mem::transmute::<" + "void" + ", _>(" + name + ")")
  {
  }

  /** A `String` parameter is an owned copy of the C string it points to. */
  lemma StringConversion(name: Ident, segments: Segments)
    requires segments[0] == "String"
    ensures ConversionLine(ArgumentOf(name, Path(segments))) ==
      LetUnsafe(name, "std::ffi::CStr::from_ptr(" + name + ").to_string_lossy().into_owned()")
  {
  }

  /** Any other path, and any type that is neither a path nor a reference,
      is reinterpreted from its wrapper type. */
  lemma TransmuteConversion(name: Ident, ty: Type)
    requires (ty.Path? && ty.segments[0] != "String") || ty.OtherType?
    ensures ConversionLine(ArgumentOf(name, ty)) ==
      LetUnsafe(name, "std::mem::transmute::<" + RustTypeToRustExternC(ty) + ", _>(" + name + ")")
  {
  }

  /** Conversion statements for a split argument list are those of each part,
      in order. */
  lemma {:induction false} ConversionsAppend(a: seq<Argument>, b: seq<Argument>)
    ensures Conversions(a + b) == Conversions(a) + Conversions(b)
  {
    if |b| == 0 {
      assert a + b == a;
    } else {
      var b' := b[..|b| - 1];
      assert (a + b)[..|a + b| - 1] == a + b';
      assert (a + b)[|a + b| - 1] == b[|b| - 1];
      ConversionsAppend(a, b');
      AppendAssoc(Conversions(a), Conversions(b'), ConversionLine(b[|b| - 1]));
    }
  }

  lemma AddArguments()
    ensures Arguments([Typed("a", Path(["i32"])), Typed("b", Path(["i32"]))]) ==
            [Argument("a", Path(["i32"]), "int", "i32"), Argument("b", Path(["i32"]), "int", "i32")]
  {
    var inputs := [Typed("a", Path(["i32"])), Typed("b", Path(["i32"]))];
    assert inputs[..1] == [inputs[0]];
    assert inputs[..1][..0] == [];
  }

  lemma AddTransmute(name: string)
    ensures ConversionLine(Argument(name, Path(["i32"]), "int", "i32")) ==
            LetUnsafe(name, "std::mem::transmute::<i32, _>(" + name + ")")
  {
    var arg := Argument(name, Path(["i32"]), "int", "i32");
    assert arg.ty.segments[0] == "i32";
    assert "std::mem::transmute::<" + "i32" + ", _>(" == "std::mem::transmute::<i32, _>(";
  }

  function AddFn(): ItemFn
  {
    ItemFn(Public, "add", [Typed("a", Path(["i32"])), Typed("b", Path(["i32"]))], Returns(Path(["i32"])))
  }

  /** `pub fn add(a: i32, b: i32) -> i32` as a worked case: the header line
      reads back as `int add(int, int, void*);`. */
  lemma AddPrototype()
    ensures ParsePrototype(CPrototype(AddFn())) == Some(Prototype("int", "add", ["int", "int", "void*"]))
  {
    AddArguments();
    var a := Argument("a", Path(["i32"]), "int", "i32");
    var b := Argument("b", Path(["i32"]), "int", "i32");
    assert CParams([a, b]) == ["int", "int", "void*"];
    assert IsIdentifier("add") && IsIdentifier("i32");
    assert WellFormedFn(AddFn());
    PrototypeRoundTrip(AddFn());
  }

  /** The wrapper of `add` reinterprets both parameters, in order. */
  lemma AddConversions()
    ensures Conversions(Arguments(AddFn().inputs)) ==
      LetUnsafe("a", "std::mem::transmute::<i32, _>(a)") + LetUnsafe("b", "std::mem::transmute::<i32, _>(b)")
  {
    AddArguments();
    ConversionsTwo(Argument("a", Path(["i32"]), "int", "i32"), Argument("b", Path(["i32"]), "int", "i32"));
    AddTransmute("a");
    AddTransmute("b");
  }

  lemma ConversionsTwo(a: Argument, b: Argument)
    ensures Conversions([a, b]) == ConversionLine(a) + ConversionLine(b)
  {
    assert [a, b][..1] == [a];
    assert [a][..0] == [];
    assert Conversions([a]) == "" + ConversionLine(a) == ConversionLine(a);
  }

  /** The wrapper of `add` calls it with both names and reinterprets the
      result as `i32`. */
  lemma AddCallAndReturn()
    ensures CallLine("add", Arguments(AddFn().inputs)) == "    let result = add(" + "a, b" + ");\n"
    ensures ReturnLines(ReturnExternType(AddFn().output)) ==
            "    unsafe { std::mem::transmute::<_, " + "i32" + ">(result) }\n"
  {
    AddArguments();
    var a := Argument("a", Path(["i32"]), "int", "i32");
    var b := Argument("b", Path(["i32"]), "int", "i32");
    assert ArgNames([a, b]) == ["a", "b"];
    assert ["a", "b"][1..] == ["b"];
    assert Join(["a", "b"], ", ") == "a" + ", " + "b" == "a, b";
    assert RustTypeToRustExternC(Path(["i32"])) == "i32";
  }
}
