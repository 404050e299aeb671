/**
 * The fixed site header: the scrolled look past a threshold, the mobile
 * menu's open flag, navigation clicks, and which link is highlighted.
 */
module Header {
  import opened Options
  import opened Nav
  import ScrollSpy

  const ScrolledThreshold := 40

  /** A link is highlighted when the active section is its href without '#'. */
  predicate IsHighlighted(activeSection: string, link: NavLink) {
    activeSection == StripHash(link.href)
  }

  /** Whatever the active section, at most one navigation link is highlighted. */
  lemma AtMostOneHighlighted(activeSection: string, i: nat, j: nat)
    requires i < |NavLinks| && j < |NavLinks|
    requires IsHighlighted(activeSection, NavLinks[i]) && IsHighlighted(activeSection, NavLinks[j])
    ensures i == j
  {
    LinkTargets();
    SectionIdsDistinct();
  }

  /** With the scroll spy's result, exactly one navigation link is highlighted. */
  lemma SpyHighlightsExactlyOne(scrollY: int, dom: map<string, int>)
    ensures exists i | 0 <= i < |NavLinks| :: IsHighlighted(ScrollSpy.ActiveSectionFor(scrollY, dom), NavLinks[i])
    ensures forall i, j |
      && 0 <= i < |NavLinks| && 0 <= j < |NavLinks|
      && IsHighlighted(ScrollSpy.ActiveSectionFor(scrollY, dom), NavLinks[i])
      && IsHighlighted(ScrollSpy.ActiveSectionFor(scrollY, dom), NavLinks[j])
      :: i == j
  {
    var a := ScrollSpy.ActiveSectionFor(scrollY, dom);
    LinkTargets();
    var k :| 0 <= k < |SectionIds| && SectionIds[k] == a;
    assert IsHighlighted(a, NavLinks[k]);
    forall i, j | 0 <= i < |NavLinks| && 0 <= j < |NavLinks| && IsHighlighted(a, NavLinks[i]) && IsHighlighted(a, NavLinks[j])
      ensures i == j
    {
      AtMostOneHighlighted(a, i, j);
    }
  }

  /** The element `handleNavClick` scrolls to: the href's id, when such an element exists. */
  function ScrollTarget(href: string, dom: map<string, int>): (t: Option<string>)
    ensures t.Some? <==> StripHash(href) in dom
    ensures t.Some? ==> t.value == StripHash(href)
  {
    var id := StripHash(href);
    if id in dom then Some(id) else None
  }

  /** The header's two flags and its handlers. */
  class SiteHeader {
    var isScrolled: bool
    var isMobileMenuOpen: bool

    constructor ()
      ensures !isScrolled && !isMobileMenuOpen
    {
      isScrolled := false;
      isMobileMenuOpen := false;
    }

    /** The scroll listener. */
    method HandleScroll(scrollY: int)
      modifies this
      ensures isScrolled <==> scrollY > ScrolledThreshold
      ensures isMobileMenuOpen == old(isMobileMenuOpen)
    {
      isScrolled := scrollY > ScrolledThreshold;
    }

    /** The hamburger button. */
    method ToggleMenu()
      modifies this
      ensures isMobileMenuOpen == !old(isMobileMenuOpen)
      ensures isScrolled == old(isScrolled)
    {
      isMobileMenuOpen := !isMobileMenuOpen;
    }

    /**
     * `handleNavClick`: returns the id to scroll into view (none when the
     * element is missing) and always closes the mobile menu.
     */
    method HandleNavClick(href: string, dom: map<string, int>) returns (scrollTo: Option<string>)
      modifies this
      ensures scrollTo == ScrollTarget(href, dom)
      ensures !isMobileMenuOpen
      ensures isScrolled == old(isScrolled)
    {
      var id := StripHash(href);
      scrollTo := None;
      if id in dom {
        scrollTo := Some(id);
      }
      isMobileMenuOpen := false;
    }
  }
}
