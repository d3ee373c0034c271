/** The recursive traversal: walks a list of items in declaration order,
    collects the header and wrapper fragment of every exported function and
    struct, descends into public inline modules and into public modules kept
    in their own files, and joins the fragments. */
module Traversal {
  import opened Text
  import opened Syntax
  import opened Visibility
  import opened FnBinding
  import opened StructBinding

  /** A filesystem path as its components. */
  type FsPath = seq<string>

  /** What is found at a path that exists: a file that reads and parses into
      items, one that cannot be read (a directory, a permission problem), or
      one whose text does not parse. */
  datatype SourceFile = Parsed(items: seq<Item>) | Unreadable | Unparsable

  /** The world the traversal sees: the paths that exist, and the case
      conversion to lower-case words joined by underscores. */
  datatype Env = Env(files: map<FsPath, SourceFile>, toSnake: string -> string)

  /** Why a run ends without output: a module file that cannot be read or
      parsed aborts the whole run; `NestingTooDeep` stands for a chain of module
      files longer than the fuel. A cycle of module files makes the generator
      recurse, one stack frame and one parsed tree per level, until its stack
      overflows and the process aborts; in the model that abort is
      `NestingTooDeep`. */
  datatype Failure = ReadFailed(path: FsPath) | ParseFailed(path: FsPath) | NestingTooDeep

  datatype Result<T> = Ok(value: T) | Err(failure: Failure)

  /** The header fragments of the pieces, in order. */
  function HeaderParts(pieces: seq<Binding>): seq<string>
  {
    seq(|pieces|, k requires 0 <= k < |pieces| => pieces[k].c)
  }

  /** The wrapper fragments of the pieces, in order. */
  function WrapperParts(pieces: seq<Binding>): seq<string>
  {
    seq(|pieces|, k requires 0 <= k < |pieces| => pieces[k].rust)
  }

  /** The prefix every traversal's wrapper text starts with. */
  const AllocPrefix: string := "extern crate alloc;\n"

  /** The result of one traversal from its pieces: header fragments joined by
      line breaks, and wrapper fragments joined by line breaks after the
      `alloc` prefix. */
  function Assemble(pieces: seq<Binding>): Binding
  {
    Binding(Join(HeaderParts(pieces), "\n"), AllocPrefix + Join(WrapperParts(pieces), "\n"))
  }

  /** The two candidate files of `mod name;`, in the order they are tried. */
  function FileCandidate(base: FsPath, name: Ident): FsPath
  {
    base + [name + ".rs"]
  }

  function FolderCandidate(base: FsPath, name: Ident): FsPath
  {
    base + [name, "mod.rs"]
  }

  /** The first candidate that exists, if any. */
  function ModulePath(base: FsPath, name: Ident, files: map<FsPath, SourceFile>): (found: Option<FsPath>)
  {
    if FileCandidate(base, name) in files then Some(FileCandidate(base, name))
    else if FolderCandidate(base, name) in files then Some(FolderCandidate(base, name))
    else None
  }

  /** The directory that holds a file. */
  function Parent(path: FsPath): FsPath
    requires |path| > 0
  {
    path[..|path| - 1]
  }

  /** One traversal: the names are snake-cased on entry (again at every level,
      since every level is a call of its own), then the items' pieces are
      assembled. */
  function Generate(items: seq<Item>, base: FsPath, parentPublic: bool, crateName: string, modName: string,
                    env: Env, fuel: nat): Result<Binding>
    decreases fuel, ItemsSize(items), 2
  {
    var crate := env.toSnake(crateName);
    var m := env.toSnake(modName);
    match Pieces(items, base, parentPublic, crate, m, env, fuel)
    case Ok(pieces) => Ok(Assemble(pieces))
    case Err(f) => Err(f)
  }

  /** Pieces in sequence: the first failure wins, otherwise the pieces of
      both in order. */
  function Then(first: Result<seq<Binding>>, second: Result<seq<Binding>>): Result<seq<Binding>>
  {
    match first
    case Err(f) => Err(f)
    case Ok(front) =>
      match second
      case Err(f) => Err(f)
      case Ok(back) => Ok(front + back)
  }

  lemma ThenAssoc(x: Result<seq<Binding>>, y: Result<seq<Binding>>, z: Result<seq<Binding>>)
    ensures Then(Then(x, y), z) == Then(x, Then(y, z))
  {
    if x.Ok? && y.Ok? && z.Ok? {
      assert x.value + y.value + z.value == x.value + (y.value + z.value);
    }
  }

  /** The pieces of a list of items, in declaration order; the first failure
      in that order ends the walk. */
  function Pieces(items: seq<Item>, base: FsPath, parentPublic: bool, crate: string, m: string,
                  env: Env, fuel: nat): Result<seq<Binding>>
    decreases fuel, ItemsSize(items), 1
  {
    if |items| == 0 then Ok([])
    else
      Then(Pieces(items[..|items| - 1], base, parentPublic, crate, m, env, fuel),
           ItemPieces(items[|items| - 1], base, parentPublic, crate, m, env, fuel))
  }

  /** What one item contributes: nothing, one piece, or a failure. */
  function ItemPieces(item: Item, base: FsPath, parentPublic: bool, crate: string, m: string,
                      env: Env, fuel: nat): Result<seq<Binding>>
    decreases fuel, ItemSize(item), 0
  {
    match item
    case Fn(func) =>
      if IsPublicFunction(func, parentPublic) then Ok([FunctionBinding(func, m)]) else Ok([])
    case Struct(structItem) =>
      if IsPublicStruct(structItem, parentPublic) then Ok([StructBindingOf(structItem, crate, env.toSnake)])
      else Ok([])
    case Mod(modItem) =>
      (if !IsPublicMod(modItem) then Ok([])
       else
         match modItem.content
         case Inline(children) =>
           (match Generate(children, base, true, crate, m, env, fuel)
            case Ok(b) => Ok([b])
            case Err(f) => Err(f))
         case External =>
           (match ExternalModExports(modItem, base, crate, m, env, fuel)
            case Ok(None) => Ok([])
            case Ok(Some(b)) => Ok([b])
            case Err(f) => Err(f)))
    case OtherItem => Ok([])
  }

  /** An external module: nothing when neither candidate exists, a failure
      when the file found cannot be read or parsed, otherwise the traversal of
      its items from the file's directory with every item counted as public. */
  function ExternalModExports(modItem: ItemMod, base: FsPath, crate: string, m: string,
                              env: Env, fuel: nat): Result<Option<Binding>>
    decreases fuel, 0, 0
  {
    match ModulePath(base, modItem.ident, env.files)
    case None => Ok(None)
    case Some(path) =>
      match env.files[path]
      case Unreadable => Err(ReadFailed(path))
      case Unparsable => Err(ParseFailed(path))
      case Parsed(items) =>
        if fuel == 0 then Err(NestingTooDeep)
        else
          match Generate(items, Parent(path), true, crate, m, env, fuel - 1)
          case Ok(b) => Ok(Some(b))
          case Err(f) => Err(f)
  }

  /** The traversal as the generator performs it: a loop over the items that
      pushes each item's fragments onto the two lists, then the two joins. */
  method GenerateCApiAndRustExports(items: seq<Item>, base: FsPath, parentPublic: bool,
                                    crateName: string, modName: string, env: Env, fuel: nat)
    returns (result: Result<Binding>)
    ensures result == Generate(items, base, parentPublic, crateName, modName, env, fuel)
    decreases fuel, ItemsSize(items), 2
  {
    var crate := env.toSnake(crateName);
    var m := env.toSnake(modName);
    var cBindings: seq<string> := [];
    var rustExports: seq<string> := [];
    ghost var pieces: seq<Binding> := [];
    var i := 0;
    while i < |items|
      invariant 0 <= i <= |items|
      invariant Pieces(items[..i], base, parentPublic, crate, m, env, fuel) == Ok(pieces)
      invariant cBindings == HeaderParts(pieces) && rustExports == WrapperParts(pieces)
    {
      assert items[..i + 1][..i] == items[..i];
      assert items[..i + 1][i] == items[i];
      ItemSizeBound(items, i);
      var exports := ItemExports(items[i], base, parentPublic, crate, m, env, fuel);
      if exports.Err? {
        PiecesPrefixFails(items, i + 1, base, parentPublic, crate, m, env, fuel);
        return Err(exports.failure);
      }
      PartsAppend(pieces, exports.value);
      cBindings := cBindings + HeaderParts(exports.value);
      rustExports := rustExports + WrapperParts(exports.value);
      pieces := pieces + exports.value;
      i := i + 1;
    }
    assert items[..i] == items;
    var rustBindings := AllocPrefix + Join(rustExports, "\n");
    var cText := Join(cBindings, "\n");
    result := Ok(Binding(cText, rustBindings));
  }

  /** The body of the traversal's loop for one item: the fragments it pushes
      (none or one pair), or the failure that aborts the run. */
  method ItemExports(item: Item, base: FsPath, parentPublic: bool, crate: string, m: string,
                     env: Env, fuel: nat)
    returns (exports: Result<seq<Binding>>)
    ensures exports == ItemPieces(item, base, parentPublic, crate, m, env, fuel)
    decreases fuel, ItemSize(item), 1
  {
    match item {
      case Fn(func) =>
        exports := FnExports(func, parentPublic, m);
        FnItemPieces(func, base, parentPublic, crate, m, env, fuel);
      case Mod(modItem) =>
        exports := ModExports(modItem, base, parentPublic, crate, m, env, fuel);
      case Struct(structItem) =>
        exports := StructExports(structItem, parentPublic, crate, env);
        StructItemPieces(structItem, base, parentPublic, crate, m, env, fuel);
      case OtherItem =>
        exports := Ok([]);
    }
  }

  /** The loop body for a function item. */
  method FnExports(func: ItemFn, parentPublic: bool, m: string) returns (exports: Result<seq<Binding>>)
    ensures exports == Ok(if func.vis == Public || parentPublic then [FunctionBinding(func, m)] else [])
  {
    exports := Ok([]);
    if IsPublicFunction(func, parentPublic) {
      var binding := GenerateCBindingAndRustWrapper(func, m);
      if binding.Some? {
        assert binding.value == FunctionBinding(func, m);
        exports := Ok([binding.value]);
      }
    }
  }

  /** The loop body for a struct item. */
  method StructExports(structItem: ItemStruct, parentPublic: bool, crate: string, env: Env)
    returns (exports: Result<seq<Binding>>)
    ensures exports == Ok(if structItem.vis == Public || parentPublic then [StructBindingOf(structItem, crate, env.toSnake)] else [])
  {
    exports := Ok([]);
    if IsPublicStruct(structItem, parentPublic) {
      var binding := GenerateCStructBindingAndRustWrapper(structItem, crate, env.toSnake);
      if binding.Some? {
        exports := Ok([binding.value]);
      }
    }
  }

  /** The loop body for a module item: nothing when it is not entered, else
      the traversal of its inline items or of its file. */
  method ModExports(modItem: ItemMod, base: FsPath, parentPublic: bool, crate: string, m: string,
                    env: Env, fuel: nat)
    returns (exports: Result<seq<Binding>>)
    ensures exports == ItemPieces(Mod(modItem), base, parentPublic, crate, m, env, fuel)
    decreases fuel, ItemSize(Mod(modItem)), 0
  {
    exports := Ok([]);
    if IsPublicMod(modItem) {
      if modItem.content.Inline? {
        var moduleResult := GenerateCApiAndRustExports(modItem.content.items, base, true, crate, m, env, fuel);
        if moduleResult.Err? {
          return Err(moduleResult.failure);
        }
        exports := Ok([moduleResult.value]);
      } else {
        var moduleResult := ProcessExternalModAndGenerateRust(modItem, base, crate, m, env, fuel);
        if moduleResult.Err? {
          return Err(moduleResult.failure);
        }
        if moduleResult.value.Some? {
          exports := Ok([moduleResult.value.value]);
        }
      }
    }
  }

  /** The external-module step as the generator performs it. */
  method ProcessExternalModAndGenerateRust(modItem: ItemMod, base: FsPath, crate: string, m: string,
                                           env: Env, fuel: nat)
    returns (result: Result<Option<Binding>>)
    ensures result == ExternalModExports(modItem, base, crate, m, env, fuel)
    decreases fuel, 0, 0
  {
    var moduleName := modItem.ident;
    var modFilePath := base + [moduleName + ".rs"];
    var modFolderPath := base + [moduleName, "mod.rs"];
    var modPath: FsPath;
    if modFilePath in env.files {
      modPath := modFilePath;
    } else if modFolderPath in env.files {
      modPath := modFolderPath;
    } else {
      return Ok(None);
    }
    var source := env.files[modPath];
    if source.Unreadable? {
      return Err(ReadFailed(modPath));
    }
    if source.Unparsable? {
      return Err(ParseFailed(modPath));
    }
    if fuel == 0 {
      return Err(NestingTooDeep);
    }
    var moduleResult := GenerateCApiAndRustExports(source.items, modPath[..|modPath| - 1], true, crate, m, env, fuel - 1);
    if moduleResult.Err? {
      return Err(moduleResult.failure);
    }
    result := Ok(Some(moduleResult.value));
  }

  lemma PartsAppend(a: seq<Binding>, b: seq<Binding>)
    ensures HeaderParts(a + b) == HeaderParts(a) + HeaderParts(b)
    ensures WrapperParts(a + b) == WrapperParts(a) + WrapperParts(b)
  {
  }

  /** Once a prefix of the items fails, the whole list fails the same way. */
  lemma {:induction false} PiecesPrefixFails(items: seq<Item>, j: nat, base: FsPath, parentPublic: bool,
                                             crate: string, m: string, env: Env, fuel: nat)
    requires j <= |items|
    requires Pieces(items[..j], base, parentPublic, crate, m, env, fuel).Err?
    ensures Pieces(items, base, parentPublic, crate, m, env, fuel) ==
            Pieces(items[..j], base, parentPublic, crate, m, env, fuel)
    decreases |items|
  {
    if j < |items| {
      var init := items[..|items| - 1];
      assert init[..j] == items[..j];
      PiecesPrefixFails(init, j, base, parentPublic, crate, m, env, fuel);
    } else {
      assert items[..j] == items;
    }
  }

  /** Items are walked in declaration order: the pieces of a concatenation
      are the pieces of the front followed by those of the back, and a failure
      in the front wins over anything in the back. */
  lemma {:induction false} PiecesAppend(a: seq<Item>, b: seq<Item>, base: FsPath, parentPublic: bool,
                                        crate: string, m: string, env: Env, fuel: nat)
    ensures Pieces(a + b, base, parentPublic, crate, m, env, fuel) ==
            Then(Pieces(a, base, parentPublic, crate, m, env, fuel), Pieces(b, base, parentPublic, crate, m, env, fuel))
    decreases |b|
  {
    var pa := Pieces(a, base, parentPublic, crate, m, env, fuel);
    if |b| == 0 {
      assert a + b == a;
      if pa.Ok? {
        assert pa.value + [] == pa.value;
      }
    } else {
      var b' := b[..|b| - 1];
      assert (a + b)[..|a + b| - 1] == a + b';
      assert (a + b)[|a + b| - 1] == b[|b| - 1];
      PiecesAppend(a, b', base, parentPublic, crate, m, env, fuel);
      ThenAssoc(pa, Pieces(b', base, parentPublic, crate, m, env, fuel),
                ItemPieces(b[|b| - 1], base, parentPublic, crate, m, env, fuel));
    }
  }

  /** A failure anywhere aborts the whole traversal with that failure. */
  lemma GenerateFailsWithPrefix(items: seq<Item>, j: nat, base: FsPath, parentPublic: bool,
                                crateName: string, modName: string, env: Env, fuel: nat)
    requires j <= |items|
    requires Pieces(items[..j], base, parentPublic, env.toSnake(crateName), env.toSnake(modName), env, fuel).Err?
    ensures Generate(items, base, parentPublic, crateName, modName, env, fuel) ==
      Err(Pieces(items[..j], base, parentPublic, env.toSnake(crateName), env.toSnake(modName), env, fuel).failure)
  {
    PiecesPrefixFails(items, j, base, parentPublic, env.toSnake(crateName), env.toSnake(modName), env, fuel);
  }

  /** Every item contributes at most one piece: an exported function or
      struct and an entered inline module exactly one, an item of any other
      kind and a module that is not `pub` none. */
  lemma ItemPieceCount(item: Item, base: FsPath, parentPublic: bool, crate: string, m: string,
                       env: Env, fuel: nat)
    ensures var r := ItemPieces(item, base, parentPublic, crate, m, env, fuel);
      r.Ok? ==> |r.value| <= 1
    ensures item.Mod? && item.modItem.vis == Public && item.modItem.content.Inline? ==>
      var r := ItemPieces(item, base, parentPublic, crate, m, env, fuel);
      r.Ok? ==> |r.value| == 1
  {
    match item
    case Fn(func) => FnItemPieces(func, base, parentPublic, crate, m, env, fuel);
    case Struct(structItem) => StructItemPieces(structItem, base, parentPublic, crate, m, env, fuel);
    case Mod(modItem) =>
    case OtherItem =>
  }

  /** A function contributes its binding exactly when it is exported. */
  lemma FnItemPieces(func: ItemFn, base: FsPath, parentPublic: bool, crate: string, m: string,
                     env: Env, fuel: nat)
    ensures ItemPieces(Fn(func), base, parentPublic, crate, m, env, fuel) ==
      Ok(if func.vis == Public || parentPublic then [FunctionBinding(func, m)] else [])
  {
  }

  /** A struct contributes its binding exactly when it is exported. */
  lemma StructItemPieces(structItem: ItemStruct, base: FsPath, parentPublic: bool, crate: string, m: string,
                         env: Env, fuel: nat)
    ensures ItemPieces(Struct(structItem), base, parentPublic, crate, m, env, fuel) ==
      Ok(if structItem.vis == Public || parentPublic then [StructBindingOf(structItem, crate, env.toSnake)] else [])
  {
  }

  /** A module that is not `pub`, and an item of any other kind, contribute
      nothing, whatever the module contains. */
  lemma SkippedItemPieces(item: Item, base: FsPath, parentPublic: bool, crate: string, m: string,
                          env: Env, fuel: nat)
    requires item.OtherItem? || (item.Mod? && item.modItem.vis != Public)
    ensures ItemPieces(item, base, parentPublic, crate, m, env, fuel) == Ok([])
  {
  }

  /** Whether a module is entered, and what it yields, does not depend on
      the caller's flag: its items are always walked as public. */
  lemma ModuleIgnoresParent(modItem: ItemMod, base: FsPath, crate: string, m: string, env: Env, fuel: nat)
    ensures ItemPieces(Mod(modItem), base, true, crate, m, env, fuel) ==
            ItemPieces(Mod(modItem), base, false, crate, m, env, fuel)
    ensures modItem.vis == Public && modItem.content.Inline? ==>
      ItemPieces(Mod(modItem), base, false, crate, m, env, fuel) ==
      (match Generate(modItem.content.items, base, true, crate, m, env, fuel)
       case Ok(b) => Ok([b])
       case Err(f) => Err(f))
  {
  }

  /** Functions are qualified with the module name only and structs with the
      crate name only. */
  lemma QualifiedNames(func: ItemFn, structItem: ItemStruct, base: FsPath, parentPublic: bool,
                       crate: string, crate': string, m: string, m': string, env: Env, fuel: nat)
    ensures ItemPieces(Fn(func), base, parentPublic, crate, m, env, fuel) ==
            ItemPieces(Fn(func), base, parentPublic, crate', m, env, fuel)
    ensures ItemPieces(Struct(structItem), base, parentPublic, crate, m, env, fuel) ==
            ItemPieces(Struct(structItem), base, parentPublic, crate, m', env, fuel)
  {
  }

  /** An entered module exports everything inside it: a function that is not
      `pub`, alone in a `pub mod` at a level where nothing is inherited, is
      exported. The wrapper then carries the `alloc` prefix twice, and the
      module name the function is imported from has been snake-cased twice. */
  lemma PrivateFunctionInPublicModule(func: ItemFn, name: Ident, base: FsPath, crateName: string,
                                      modName: string, env: Env, fuel: nat)
    requires func.vis != Public
    ensures Generate([Fn(func)], base, false, crateName, modName, env, fuel) == Ok(Binding("", AllocPrefix))
    ensures Generate([Mod(ItemMod(Public, name, Inline([Fn(func)])))], base, false, crateName, modName, env, fuel) ==
      Ok(Binding(CPrototype(func),
                 AllocPrefix + (AllocPrefix + RustWrapper(func, env.toSnake(env.toSnake(modName))))))
  {
    var crate := env.toSnake(crateName);
    var m := env.toSnake(modName);
    var inner := [Fn(func)];
    SingleItemPieces(Fn(func), base, false, crate, m, env, fuel);
    assert ItemPieces(Fn(func), base, false, crate, m, env, fuel) == Ok([]);
    assert HeaderParts([]) == [] && WrapperParts([]) == [];
    assert AllocPrefix + "" == AllocPrefix;
    var crate2 := env.toSnake(crate);
    var m2 := env.toSnake(m);
    SingleItemPieces(Fn(func), base, true, crate2, m2, env, fuel);
    assert ItemPieces(Fn(func), base, true, crate2, m2, env, fuel) == Ok([FunctionBinding(func, m2)]);
    var piece := Binding(CPrototype(func), AllocPrefix + RustWrapper(func, m2));
    assert HeaderParts([FunctionBinding(func, m2)]) == [CPrototype(func)];
    assert WrapperParts([FunctionBinding(func, m2)]) == [RustWrapper(func, m2)];
    assert Generate(inner, base, true, crate, m, env, fuel) == Ok(piece);
    var item := Mod(ItemMod(Public, name, Inline(inner)));
    SingleItemPieces(item, base, false, crate, m, env, fuel);
    assert ItemPieces(item, base, false, crate, m, env, fuel) == Ok([piece]);
    assert HeaderParts([piece]) == [piece.c];
    assert WrapperParts([piece]) == [piece.rust];
  }

  /** A list of one item has that item's pieces. */
  lemma SingleItemPieces(item: Item, base: FsPath, parentPublic: bool, crate: string, m: string,
                         env: Env, fuel: nat)
    ensures Pieces([item], base, parentPublic, crate, m, env, fuel) ==
            ItemPieces(item, base, parentPublic, crate, m, env, fuel)
  {
    assert [item][..0] == [];
    match ItemPieces(item, base, parentPublic, crate, m, env, fuel)
    case Err(f) =>
    case Ok(more) =>
      assert [] + more == more;
  }

  /** An entered inline module contributes a piece even when it is empty:
      an empty header line and one more `alloc` prefix. */
  lemma EmptyPublicModule(name: Ident, base: FsPath, parentPublic: bool, crateName: string,
                          modName: string, env: Env, fuel: nat)
    ensures Generate([Mod(ItemMod(Public, name, Inline([])))], base, parentPublic, crateName, modName, env, fuel) ==
            Ok(Binding("", AllocPrefix + AllocPrefix))
  {
    var item := Mod(ItemMod(Public, name, Inline([])));
    var crate := env.toSnake(crateName);
    var m := env.toSnake(modName);
    var piece := Binding("", AllocPrefix + "");
    assert HeaderParts([]) == [] && WrapperParts([]) == [];
    assert Generate([], base, true, crate, m, env, fuel) == Ok(piece);
    SingleItemPieces(item, base, parentPublic, crate, m, env, fuel);
    assert HeaderParts([piece]) == [""];
    assert WrapperParts([piece]) == [AllocPrefix + ""];
    assert AllocPrefix + "" == AllocPrefix;
  }

  /** The resolver tries the file form first, then the folder form, and
      resolves to nothing when neither exists; the directory the module's own
      items are resolved from is the base itself for the file form and the
      module's folder for the folder form. */
  lemma ModulePathResolution(base: FsPath, name: Ident, files: map<FsPath, SourceFile>)
    ensures var found := ModulePath(base, name, files);
      && (found.None? <==> base + [name + ".rs"] !in files && base + [name, "mod.rs"] !in files)
      && (base + [name + ".rs"] in files ==> found == Some(base + [name + ".rs"]))
      && (found.Some? ==> found.value in files && |found.value| > 0)
      && (found == Some(base + [name + ".rs"]) ==> Parent(found.value) == base)
      && (found == Some(base + [name, "mod.rs"]) ==> Parent(found.value) == base + [name])
  {
    if ModulePath(base, name, files) == Some(base + [name, "mod.rs"]) {
      assert (base + [name, "mod.rs"])[..|base| + 1] == base + [name];
    }
  }

  /** How an entered external module ends: no piece when neither file exists,
      the read or parse failure of the file found, otherwise one piece. */
  lemma ExternalModuleOutcome(name: Ident, base: FsPath, parentPublic: bool, crate: string, m: string,
                              env: Env, fuel: nat)
    ensures var r := ItemPieces(Mod(ItemMod(Public, name, External)), base, parentPublic, crate, m, env, fuel);
      var found := ModulePath(base, name, env.files);
      && (found.None? ==> r == Ok([]))
      && (found.Some? && env.files[found.value].Unreadable? ==> r == Err(ReadFailed(found.value)))
      && (found.Some? && env.files[found.value].Unparsable? ==> r == Err(ParseFailed(found.value)))
      && (found.Some? && env.files[found.value].Parsed? && r.Ok? ==> |r.value| == 1)
  {
  }

  /** More fuel changes nothing once a run has ended without exhausting it:
      the fuel only stands in for the unbounded recursion of the source. */
  lemma {:induction false} GenerateFuel(items: seq<Item>, base: FsPath, parentPublic: bool, crateName: string,
                                        modName: string, env: Env, fuel: nat)
    requires Generate(items, base, parentPublic, crateName, modName, env, fuel) != Err(NestingTooDeep)
    ensures Generate(items, base, parentPublic, crateName, modName, env, fuel + 1) ==
            Generate(items, base, parentPublic, crateName, modName, env, fuel)
    decreases fuel, ItemsSize(items), 2
  {
    PiecesFuel(items, base, parentPublic, env.toSnake(crateName), env.toSnake(modName), env, fuel);
  }

  lemma {:induction false} PiecesFuel(items: seq<Item>, base: FsPath, parentPublic: bool, crate: string, m: string,
                                      env: Env, fuel: nat)
    requires Pieces(items, base, parentPublic, crate, m, env, fuel) != Err(NestingTooDeep)
    ensures Pieces(items, base, parentPublic, crate, m, env, fuel + 1) ==
            Pieces(items, base, parentPublic, crate, m, env, fuel)
    decreases fuel, ItemsSize(items), 1
  {
    if |items| > 0 {
      var init := items[..|items| - 1];
      PiecesFuel(init, base, parentPublic, crate, m, env, fuel);
      if Pieces(init, base, parentPublic, crate, m, env, fuel).Ok? {
        ItemPiecesFuel(items[|items| - 1], base, parentPublic, crate, m, env, fuel);
      }
    }
  }

  lemma {:induction false} ItemPiecesFuel(item: Item, base: FsPath, parentPublic: bool, crate: string, m: string,
                                          env: Env, fuel: nat)
    requires ItemPieces(item, base, parentPublic, crate, m, env, fuel) != Err(NestingTooDeep)
    ensures ItemPieces(item, base, parentPublic, crate, m, env, fuel + 1) ==
            ItemPieces(item, base, parentPublic, crate, m, env, fuel)
    decreases fuel, ItemSize(item), 0
  {
    if item.Mod? && IsPublicMod(item.modItem) {
      match item.modItem.content
      case Inline(children) =>
        GenerateFuel(children, base, true, crate, m, env, fuel);
      case External =>
        ExternalFuel(item.modItem, base, crate, m, env, fuel);
    }
  }

  lemma {:induction false} ExternalFuel(modItem: ItemMod, base: FsPath, crate: string, m: string,
                                        env: Env, fuel: nat)
    requires ExternalModExports(modItem, base, crate, m, env, fuel) != Err(NestingTooDeep)
    ensures ExternalModExports(modItem, base, crate, m, env, fuel + 1) ==
            ExternalModExports(modItem, base, crate, m, env, fuel)
    decreases fuel, 0, 0
  {
    match ModulePath(base, modItem.ident, env.files)
    case None =>
    case Some(path) =>
      if env.files[path].Parsed? && fuel > 0 {
        GenerateFuel(env.files[path].items, Parent(path), true, crate, m, env, fuel - 1);
      }
  }

  /** A module file that declares a public module of its own name resolves
      to itself: the generator recurses until its stack overflows and the
      process aborts, which the model shows as `NestingTooDeep` for every
      fuel. */
  lemma {:induction false} SelfReferentialModule(name: Ident, base: FsPath, crate: string, m: string,
                                                 env: Env, fuel: nat)
    requires env.files[base + [name + ".rs"] := Parsed([Mod(ItemMod(Public, name, External))])] == env.files
    ensures ExternalModExports(ItemMod(Public, name, External), base, crate, m, env, fuel) == Err(NestingTooDeep)
    decreases fuel
  {
    var path := base + [name + ".rs"];
    assert path in env.files && env.files[path] == Parsed([Mod(ItemMod(Public, name, External))]);
    assert Parent(path) == base;
    if fuel > 0 {
      var item := Mod(ItemMod(Public, name, External));
      SelfReferentialModule(name, base, env.toSnake(crate), env.toSnake(m), env, fuel - 1);
      SingleItemPieces(item, base, true, env.toSnake(crate), env.toSnake(m), env, fuel - 1);
      assert Generate([item], base, true, crate, m, env, fuel - 1) == Err(NestingTooDeep);
    }
  }
}
