/** Which declarations the generator exports, and which modules it enters. */
module Visibility {
  import opened Syntax

  /** A function is exported when it is `pub` itself, or when the caller says
      an enclosing module was entered; `pub(crate)` and no marker are treated
      alike. */
  function IsPublicFunction(func: ItemFn, parentPublic: bool): (exported: bool)
    ensures exported <==> func.vis == Public || parentPublic
    ensures func.vis != Public ==> exported == parentPublic
  {
    match func.vis
    case Public => true
    case _ => parentPublic
  }

  /** The same rule for structs. */
  function IsPublicStruct(structItem: ItemStruct, parentPublic: bool): (exported: bool)
    ensures exported <==> structItem.vis == Public || parentPublic
    ensures structItem.vis != Public ==> exported == parentPublic
  {
    match structItem.vis
    case Public => true
    case _ => parentPublic
  }

  /** A module is entered only when it is `pub` itself; there is no
      inherited flag to consult. */
  function IsPublicMod(modItem: ItemMod): (entered: bool)
    ensures entered <==> modItem.vis == Public
  {
    modItem.vis.Public?
  }

  /** Reading of the rules above: a declaration marked `pub(crate)` and one
      with no marker are exported in exactly the same circumstances, for
      functions and structs alike, and a module's own marker alone decides. */
  lemma RestrictedActsAsInherited(func: ItemFn, structItem: ItemStruct, modItem: ItemMod, parentPublic: bool)
    requires func.vis == Restricted && structItem.vis == Restricted && modItem.vis == Restricted
    ensures IsPublicFunction(func, parentPublic) == IsPublicFunction(func.(vis := Inherited), parentPublic) == parentPublic
    ensures IsPublicStruct(structItem, parentPublic) == IsPublicStruct(structItem.(vis := Inherited), parentPublic) == parentPublic
    ensures !IsPublicMod(modItem) && !IsPublicMod(modItem.(vis := Inherited))
  {
  }
}
