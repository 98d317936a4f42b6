/** `Sidebar`: a fixed table of four navigation links, the active one chosen by
    the current path, and an `isOpen` flag for the mobile menu. */
module Sidebar {

  datatype NavItem = NavItem(name: string, path: string, icon: string)

  /** `navItems`, in display order. */
  const NavItems := [
    NavItem("Home", "/", "\U{1F3E0}"),
    NavItem("Artistas", "/top-artists", "\U{1F3B5}"),
    NavItem("Playlists", "/playlists", "\U{25B6}"),
    NavItem("Perfil", "/profile", "\U{1F464}")
  ]

  /** `isActive` for one item. */
  predicate IsActive(pathname: string, item: NavItem)
    ensures IsActive(pathname, item) && item in NavItems ==>
              forall j :: 0 <= j < |NavItems| && NavItems[j] != item ==> NavItems[j].path != pathname
  {
    pathname == item.path
  }

  /** What one rendered link shows. */
  datatype LinkView = LinkView(name: string, href: string, active: bool)

  /** What the component renders: the overlay, the sidebar's open style, and
      the links. */
  datatype SidebarView = SidebarView(overlay: bool, sidebarOpen: bool, links: seq<LinkView>)

  function Links(pathname: string, items: seq<NavItem>): (ls: seq<LinkView>)
    ensures |ls| == |items|
    ensures forall i :: 0 <= i < |items| ==>
              ls[i] == LinkView(items[i].name, items[i].path, IsActive(pathname, items[i]))
  {
    if items == [] then [] else [LinkView(items[0].name, items[0].path, IsActive(pathname, items[0]))] + Links(pathname, items[1..])
  }

  function Render(pathname: string, isOpen: bool): SidebarView
  {
    SidebarView(isOpen, isOpen, Links(pathname, NavItems))
  }

  /** The four links point to four different paths. */
  lemma NavPathsDistinct()
    ensures |NavItems| == 4
    ensures forall i, j :: 0 <= i < j < |NavItems| ==> NavItems[i].path != NavItems[j].path
  {
  }

  /** A link is active exactly when the path is its own; so at most one is
      active, and none for a path outside the table. */
  lemma {:induction false} ActiveLinks(pathname: string, isOpen: bool)
    ensures var ls := Render(pathname, isOpen).links;
            && |ls| == 4
            && (forall i :: 0 <= i < 4 ==> (ls[i].active <==> pathname == NavItems[i].path))
            && (forall i, j :: 0 <= i < j < 4 ==> !(ls[i].active && ls[j].active))
            && ((forall i :: 0 <= i < 4 ==> pathname != NavItems[i].path) ==> forall i :: 0 <= i < 4 ==> !ls[i].active)
  {
    NavPathsDistinct();
  }

  /** Opening or closing the menu changes nothing about the links. */
  lemma MenuDoesNotChangeLinks(pathname: string, a: bool, b: bool)
    ensures Render(pathname, a).links == Render(pathname, b).links
  {
  }

  /** The component's state: the path given by the router and `isOpen`. */
  class SidebarState {
    const pathname: string
    var isOpen: bool

    function View(): (v: SidebarView)
      reads this
      ensures v.overlay <==> isOpen
    {
      Render(pathname, isOpen)
    }

    constructor (pathname: string)
      ensures this.pathname == pathname && !isOpen
    {
      this.pathname := pathname;
      isOpen := false;
    }

    /** The hamburger button: `setIsOpen(!isOpen)`. */
    method ToggleMenu()
      modifies this
      ensures isOpen == !old(isOpen)
      ensures View().links == old(View().links)
    {
      isOpen := !isOpen;
    }

    /** A click on the overlay. */
    method ClickOverlay()
      modifies this
      ensures !isOpen
    {
      isOpen := false;
    }

    /** A click on a navigation link (`handleLinkClick`). */
    method ClickLink()
      modifies this
      ensures !isOpen
    {
      isOpen := false;
    }
  }

  /** Two hamburger clicks in a row leave the menu as it was. */
  method ToggleTwice(s: SidebarState)
    modifies s
    ensures s.isOpen == old(s.isOpen)
  {
    s.ToggleMenu();
    s.ToggleMenu();
  }
}
