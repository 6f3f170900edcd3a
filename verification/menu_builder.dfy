/** The factories of src/menu/MenuBuilder.h. */
module MenuBuilder {
  import opened Common
  import opened MenuItems

  /** createItem: a fresh leaf with the given label and action. */
  method CreateItem(labelText: string, action: Option<ActionId>) returns (item: MenuItem)
    ensures fresh(item)
    ensures item.labelText == labelText && item.action == action
    ensures item.submenu == [] && !item.HasSubmenu()
  {
    item := new MenuItem(labelText, action);
  }

  /** createMenu: a fresh item without an action whose children are
      `submenu`; given no children it is a leaf whose activation calls
      nothing. */
  method CreateMenu(labelText: string, submenu: seq<MenuItem>) returns (item: MenuItem)
    ensures fresh(item)
    ensures item.labelText == labelText && item.action == None && item.Activate() == None
    ensures item.submenu == submenu
    ensures item.HasSubmenu() <==> submenu != []
  {
    item := new MenuItem(labelText, None);
    item.SetSubmenu(submenu);
  }
}
