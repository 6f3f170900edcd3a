/** A menu entry of src/menu/MenuItem.h: a label, an optional action and a
    list of children, which makes it a submenu when non-empty. */
module MenuItems {
  import opened Common

  /** Names the function an item's action pointer refers to; the call
      itself is an opaque side effect. */
  type ActionId = nat

  class MenuItem {
    const labelText: string
    /** The action pointer; None is a null pointer. */
    const action: Option<ActionId>
    var submenu: seq<MenuItem>

    constructor(labelText: string, action: Option<ActionId>)
      ensures this.labelText == labelText && this.action == action
      ensures submenu == [] && !HasSubmenu()
    {
      this.labelText := labelText;
      this.action := action;
      submenu := [];
    }

    predicate HasSubmenu()
      reads this
    {
      submenu != []
    }

    /** setSubmenu replaces the whole list of children. */
    method SetSubmenu(items: seq<MenuItem>)
      modifies this`submenu
      ensures submenu == items
      ensures HasSubmenu() <==> items != []
    {
      submenu := items;
    }

    /** addSubmenuItem appends one child at the end, which makes the item
        a submenu. */
    method AddSubmenuItem(item: MenuItem)
      modifies this`submenu
      ensures submenu == old(submenu) + [item]
      ensures HasSubmenu() && submenu[|submenu| - 1] == item
    {
      submenu := submenu + [item];
    }

    /** activate: the action that is called, if the pointer is set. */
    function Activate(): (called: Option<ActionId>)
      ensures called.Some? <==> action.Some?
      ensures called.Some? ==> called.value == action.value
    {
      if action.Some? then Some(action.value) else None
    }
  }
}
