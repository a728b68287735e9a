/** What the side bar renders (`src/components/layout/Sidebar.tsx`): the top
    navigation and the product switcher always; the product section only
    while a product with an id is selected and the product navigation is
    on; inside it, the "Product" divider for an admin. */
module Sidebar {
  import opened Base
  import opened Types
  import opened Layout

  /** The parts of the navigation panel. `productNav` is present exactly
      when the product section is rendered. */
  datatype SidebarView = SidebarView(topNav: seq<NavItem>, showsSwitcher: bool,
                                     productNav: Option<seq<NavItem>>,
                                     divider: bool, dividerLabel: bool)

  /** `showProductNav && selectedProduct?.id`: an empty id is falsy. */
  predicate ShowsProductSection(showProductNav: bool, selected: Option<Product>)
    ensures !showProductNav || selected.None? ==> !ShowsProductSection(showProductNav, selected)
    ensures showProductNav && selected.Some? ==>
              (ShowsProductSection(showProductNav, selected) <==> selected.value.id != "")
  {
    showProductNav && selected.Some? && selected.value.id != ""
  }

  /** The panel for the given props and product context. */
  function Render(user: Option<User>, isCollapsed: bool, showProductNav: bool,
                  selected: Option<Product>, adminNav: seq<NavItem>,
                  productNav: seq<NavItem>): (r: SidebarView)
    ensures r.topNav == adminNav && r.showsSwitcher
    ensures r.productNav.Some? <==> ShowsProductSection(showProductNav, selected)
    ensures r.productNav.Some? ==> r.productNav.value == productNav
    ensures r.divider <==> r.productNav.Some? && |adminNav| > 0 && IsAdmin(user)
    ensures r.dividerLabel <==> r.divider && !isCollapsed
  {
    var section := ShowsProductSection(showProductNav, selected);
    var divider := section && |adminNav| > 0 && IsAdmin(user);
    SidebarView(adminNav, true, if section then Some(productNav) else None,
                divider, divider && !isCollapsed)
  }

  /** The panel of the page shell, fed with its two navigation lists. */
  function ShellSidebar(user: Option<User>, isCollapsed: bool, showProductNav: bool,
                        selected: Option<Product>): SidebarView {
    Render(user, isCollapsed, showProductNav, selected, AdminNavigation(user), ProductNavigation(user))
  }

  /** In the page shell an admin sees the divider whenever the product
      section is open, and nobody else ever sees it. */
  lemma ShellDivider(user: Option<User>, isCollapsed: bool, showProductNav: bool,
                     selected: Option<Product>)
    ensures ShellSidebar(user, isCollapsed, showProductNav, selected).divider <==>
              ShowsProductSection(showProductNav, selected) && IsAdmin(user)
  {
    AdminNavigationNonEmpty(user);
  }

  /** An agent never sees the divider, whatever the lists passed in. */
  lemma AgentSeesNoDivider(user: User, isCollapsed: bool, showProductNav: bool,
                           selected: Option<Product>, adminNav: seq<NavItem>,
                           productNav: seq<NavItem>)
    requires user.role == Agent
    ensures !Render(Some(user), isCollapsed, showProductNav, selected, adminNav, productNav).divider
  {
  }
}
