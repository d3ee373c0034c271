/** The slice of Rust's parsed item tree that the generator reads: free
    functions, structs and modules, their visibility, and the shapes of type
    that the type mappers tell apart. Parsing text into this tree happens
    outside the model. */
module Syntax {
  import opened Text

  type Ident = string

  datatype Option<T> = None | Some(value: T)

  /** `pub`, `pub(crate)`/`pub(super)`/`pub(in …)`, or no marker at all. */
  datatype Vis = Public | Restricted | Inherited

  /** A parsed path never has zero segments. */
  type Segments = s: seq<Ident> | |s| > 0 witness [""]

  /** A path type such as `i32` or `Vec<u8>` (only the segment identifiers are
      kept: generic arguments play no part), a reference `&T`/`&mut T`, or any
      other type form (tuple, slice, pointer, `impl Trait`, …). */
  datatype Type = Path(segments: Segments) | Reference(elem: Type) | OtherType

  /** A typed parameter (its pattern's text and its type) or `self`. */
  datatype FnArg = Typed(pat: Ident, ty: Type) | Receiver

  /** `-> T`, or no return type at all. */
  datatype ReturnType = Default | Returns(ty: Type)

  /** A struct field; tuple-struct fields have no name. */
  datatype Field = Field(ident: Option<Ident>, ty: Type)

  datatype ItemFn = ItemFn(vis: Vis, ident: Ident, inputs: seq<FnArg>, output: ReturnType)

  datatype ItemStruct = ItemStruct(vis: Vis, ident: Ident, fields: seq<Field>)

  /** `mod name { … }` carries its items inline; `mod name;` does not. */
  datatype ModContent = Inline(items: seq<Item>) | External

  datatype ItemMod = ItemMod(vis: Vis, ident: Ident, content: ModContent)

  /** Every other kind of item (`use`, `impl`, `enum`, `const`, …) is `OtherItem`. */
  datatype Item = Fn(func: ItemFn) | Struct(structItem: ItemStruct) | Mod(modItem: ItemMod) | OtherItem

  /** Number of tree nodes, the measure that makes recursion through inline
      modules terminate. */
  function ItemsSize(items: seq<Item>): nat
  {
    if |items| == 0 then 0 else ItemsSize(items[..|items| - 1]) + ItemSize(items[|items| - 1])
  }

  function ItemSize(item: Item): (n: nat)
    ensures n >= 1
  {
    match item
    case Mod(ItemMod(_, _, Inline(children))) => 1 + ItemsSize(children)
    case _ => 1
  }

  lemma {:induction false} ItemSizeBound(items: seq<Item>, i: nat)
    requires i < |items|
    ensures ItemSize(items[i]) <= ItemsSize(items)
  {
    if i < |items| - 1 {
      ItemSizeBound(items[..|items| - 1], i);
    }
  }

  /** Every identifier the type mentions is an identifier's text. */
  predicate WellFormedType(ty: Type)
  {
    match ty
    case Path(segments) => forall k :: 0 <= k < |segments| ==> IsIdentifier(segments[k])
    case Reference(elem) => WellFormedType(elem)
    case OtherType => true
  }

  /** The function's name is an identifier's text and every type it mentions
      is well formed, as the parser delivers them; parameter patterns (such as
      `mut x`) may be any text. */
  predicate WellFormedFn(func: ItemFn)
  {
    && IsIdentifier(func.ident)
    && (forall k :: 0 <= k < |func.inputs| && func.inputs[k].Typed? ==> WellFormedType(func.inputs[k].ty))
    && (func.output.Returns? ==> WellFormedType(func.output.ty))
  }

  /** Names and field types of a struct are identifiers' texts. */
  predicate WellFormedStruct(structItem: ItemStruct)
  {
    && IsIdentifier(structItem.ident)
    && (forall k :: 0 <= k < |structItem.fields| ==>
          WellFormedType(structItem.fields[k].ty) &&
          (structItem.fields[k].ident.Some? ==> IsIdentifier(structItem.fields[k].ident.value)))
  }
}
