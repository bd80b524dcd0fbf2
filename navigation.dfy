/**
 * The fixed top navigation bar (src/components/Navbar.jsx): a background
 * that changes once the page is scrolled past a threshold, a mobile menu
 * that a button opens and closes, and nav items of which the one whose id is
 * the active section is highlighted. Every nav action scrolls to its section
 * (when the element exists) and closes the mobile menu.
 */
module Navigation {
  import ScrollSpy

  /** Scroll offset beyond which the bar counts as scrolled. */
  const ScrollThreshold: int := 50

  datatype NavItem = NavItem(id: string, caption: string)

  const NavItems: seq<NavItem> := [
    NavItem("hero", "Home"),
    NavItem("services", "Services"),
    NavItem("work", "Work"),
    NavItem("about", "About"),
    NavItem("contact", "Contact")
  ]

  /** `window.scrollY > 50` */
  predicate IsScrolledAt(scrollY: int) {
    scrollY > ScrollThreshold
  }

  /** `activeSection === item.id`, used by both the desktop and the mobile items. */
  predicate Highlighted(activeSection: string, item: NavItem) {
    activeSection == item.id
  }

  /** The positions of the highlighted nav items. */
  function HighlightedItems(activeSection: string): set<nat> {
    set i: nat | i < |NavItems| && Highlighted(activeSection, NavItems[i])
  }

  /** The items of the mobile menu, which is rendered only while open. */
  function MobileMenuItems(isOpen: bool): (items: seq<NavItem>)
    ensures items != [] <==> isOpen
    ensures isOpen ==> |items| == |NavItems|
    ensures |items| <= |NavItems|
    ensures forall i :: 0 <= i < |items| ==> items[i] == NavItems[i]
  {
    if isOpen then NavItems else []
  }

  /** The nav items' ids are the scroll-spy's sections, in the same order. */
  lemma NavIdsAreSections()
    ensures |NavItems| == |ScrollSpy.Sections|
    ensures forall i :: 0 <= i < |NavItems| ==> NavItems[i].id == ScrollSpy.Sections[i]
  {
  }

  /** Since the ids are distinct, at most one item is highlighted. */
  lemma AtMostOneHighlighted(activeSection: string, i: nat, j: nat)
    requires i < |NavItems| && j < |NavItems|
    requires Highlighted(activeSection, NavItems[i]) && Highlighted(activeSection, NavItems[j])
    ensures i == j
  {
    NavIdsAreSections();
    ScrollSpy.SectionsDistinct();
  }

  /**
   * An item is highlighted iff its id is the active section, and whenever the
   * active section is one the scroll-spy can produce exactly one item is.
   */
  lemma ExactlyOneHighlighted(activeSection: string)
    requires activeSection in ScrollSpy.Sections
    ensures |HighlightedItems(activeSection)| == 1
  {
    NavIdsAreSections();
    var k :| 0 <= k < |ScrollSpy.Sections| && ScrollSpy.Sections[k] == activeSection;
    forall i: nat | i in HighlightedItems(activeSection)
      ensures i == k
    {
      AtMostOneHighlighted(activeSection, i, k);
    }
    assert HighlightedItems(activeSection) == {k};
  }

  /** The bar's own state. */
  class Navbar {
    var isScrolled: bool
    var isMobileMenuOpen: bool

    /** Not scrolled, menu closed. */
    constructor()
      ensures !isScrolled && !isMobileMenuOpen
    {
      isScrolled := false;
      isMobileMenuOpen := false;
    }

    /** The bar's scroll handler. */
    method HandleScroll(scrollY: int)
      modifies this
      ensures isScrolled == IsScrolledAt(scrollY)
      ensures isMobileMenuOpen == old(isMobileMenuOpen)
    {
      isScrolled := scrollY > ScrollThreshold;
    }

    /** The mobile menu button. */
    method ToggleMobileMenu()
      modifies this
      ensures isMobileMenuOpen == !old(isMobileMenuOpen)
      ensures isScrolled == old(isScrolled)
    {
      isMobileMenuOpen := !isMobileMenuOpen;
    }

    /**
     * `scrollToSection(id)`: asks for a smooth scroll to the section when its
     * element is mounted (`scrolls`) and closes the mobile menu either way.
     */
    method ScrollToSection(id: string, layout: ScrollSpy.Layout) returns (scrolls: bool)
      modifies this
      ensures scrolls <==> id in layout
      ensures !isMobileMenuOpen
      ensures isScrolled == old(isScrolled)
    {
      scrolls := id in layout;
      isMobileMenuOpen := false;
    }
  }

  /** Two presses of the menu button leave the menu as it was. */
  method PressMenuTwice(bar: Navbar)
    modifies bar
    ensures bar.isMobileMenuOpen == old(bar.isMobileMenuOpen)
    ensures bar.isScrolled == old(bar.isScrolled)
  {
    bar.ToggleMobileMenu();
    bar.ToggleMobileMenu();
  }
}
