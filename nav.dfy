/** The ordered navigation links and the anchor-to-id derivation shared by the scroll spy and the header. */
module Nav {

  datatype NavLink = NavLink(caption: string, href: string)

  /** The navigation links, in page order. */
  const NavLinks: seq<NavLink> := [
    NavLink("Home", "#home"),
    NavLink("Work", "#work"),
    NavLink("Services", "#services"),
    NavLink("About", "#about"),
    NavLink("Process", "#process"),
    NavLink("Testimonials", "#testimonials"),
    NavLink("FAQ", "#faq"),
    NavLink("Contact", "#contact")
  ]

  /** The position of the first `c` in `s`, or `|s|` when there is none. */
  function FirstIndexOf(s: string, c: char): (k: nat)
    ensures k <= |s|
    ensures k < |s| ==> s[k] == c
    ensures forall j | 0 <= j < k :: s[j] != c
  {
    if s == [] then 0
    else if s[0] == c then 0
    else 1 + FirstIndexOf(s[1..], c)
  }

  /** `href.replace("#", "")`: the first '#' is removed and the rest is kept. */
  function StripHash(href: string): (id: string)
    ensures '#' !in href ==> id == href
    ensures '#' in href ==> |id| == |href| - 1
  {
    var k := FirstIndexOf(href, '#');
    if k == |href| then href else href[..k] + href[k + 1..]
  }

  /** Only the first '#' goes: everything before it and everything after it is kept, in order. */
  lemma StripFirstHash(p: string, q: string)
    requires '#' !in p
    ensures StripHash(p + "#" + q) == p + q
  {
    var href := p + "#" + q;
    var k := FirstIndexOf(href, '#');
    assert href[|p|] == '#';
    assert forall j | 0 <= j < |p| :: href[j] == p[j] != '#';
    assert k == |p|;
    assert href[..k] == p;
    assert href[k + 1..] == q;
  }

  lemma StripLeadingHash(id: string)
    ensures StripHash("#" + id) == id
  {
    var href := "#" + id;
    assert href[0] == '#';
    assert FirstIndexOf(href, '#') == 0;
    assert href[1..] == id;
  }

  /** The section ids of the page, in order: the ids the links point at. */
  const SectionIds: seq<string> :=
    ["home", "work", "services", "about", "process", "testimonials", "faq", "contact"]

  /** Link `i`'s target id is the section id at position `i`. */
  lemma LinkTarget(i: nat)
    requires i < |NavLinks|
    ensures |SectionIds| == |NavLinks| && StripHash(NavLinks[i].href) == SectionIds[i]
  {
    assert NavLinks[i].href == "#" + SectionIds[i];
    StripLeadingHash(SectionIds[i]);
  }

  /** `navLinks[i].href.replace("#", "")`, computed as the scroll spy does for each link. */
  method LinkTargetId(i: nat) returns (id: string)
    requires i < |NavLinks|
    ensures id == SectionIds[i]
  {
    id := StripHash(NavLinks[i].href);
    LinkTarget(i);
  }

  /** Each link's target id, `href.replace("#", "")`, is the section id at the same position. */
  lemma LinkTargets()
    ensures |SectionIds| == |NavLinks|
    ensures forall i | 0 <= i < |NavLinks| :: StripHash(NavLinks[i].href) == SectionIds[i]
  {
    forall i | 0 <= i < |NavLinks|
      ensures StripHash(NavLinks[i].href) == SectionIds[i]
    {
      LinkTarget(i);
    }
  }

  /** No two links point at the same section. */
  lemma SectionIdsDistinct()
    ensures forall i, j | 0 <= i < j < |SectionIds| :: SectionIds[i] != SectionIds[j]
  {
    var ids := SectionIds;
    forall i, j | 0 <= i < j < |ids| ensures ids[i] != ids[j] {
      assert ids[i][0] != ids[j][0] by {
        assert forall k | 0 <= k < |ids| :: ids[k][0] == "hwsaptfc"[k];
      }
    }
  }
}
