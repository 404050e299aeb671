/**
 * The scroll spy: which section the page is in, found by scanning the
 * navigation sections from last to first for one whose top is at most the
 * scroll position plus a fixed lead, with "home" as the fallback.
 *
 * The document is given as `dom`, mapping the id of each element present
 * to its `offsetTop`; an id that is not a key has no element.
 */
module ScrollSpy {
  import opened Options
  import opened Nav

  const ActivationLead := 120
  const DefaultSection := "home"

  /** The element with this id exists and its top is at or above `bound`. */
  predicate Qualifies(dom: map<string, int>, id: string, bound: int) {
    id in dom && dom[id] <= bound
  }

  /** The highest index whose section qualifies, if any. */
  function LastQualifying(ids: seq<string>, dom: map<string, int>, bound: int): (r: Option<nat>)
    ensures r.Some? ==> r.value < |ids| && Qualifies(dom, ids[r.value], bound)
    ensures r.Some? ==> forall j | r.value < j < |ids| :: !Qualifies(dom, ids[j], bound)
    ensures r.None? <==> forall j | 0 <= j < |ids| :: !Qualifies(dom, ids[j], bound)
  {
    if ids == [] then None
    else if Qualifies(dom, ids[|ids| - 1], bound) then Some(|ids| - 1)
    else LastQualifying(ids[..|ids| - 1], dom, bound)
  }

  /** The active section: the last qualifying navigation section, or "home" when none qualifies. */
  function ActiveSectionFor(scrollY: int, dom: map<string, int>): (id: string)
    ensures id in SectionIds
    ensures id == DefaultSection || Qualifies(dom, id, scrollY + ActivationLead)
  {
    match LastQualifying(SectionIds, dom, scrollY + ActivationLead)
    case Some(k) => SectionIds[k]
    case None => DefaultSection
  }

  /** The position of the active section in the navigation order, -1 for the fallback. */
  function SelectedIndex(scrollY: int, dom: map<string, int>): (k: int)
    ensures -1 <= k < |SectionIds|
  {
    match LastQualifying(SectionIds, dom, scrollY + ActivationLead)
    case Some(k) => k
    case None => -1
  }

  /**
   * The active section is the highest-indexed section that exists and whose
   * top is at most `scrollY + 120`; when there is none it is "home".
   */
  lemma ActiveSectionIsLastQualifying(scrollY: int, dom: map<string, int>)
    ensures var k := SelectedIndex(scrollY, dom);
      && (k == -1 ==> ActiveSectionFor(scrollY, dom) == DefaultSection)
      && (k == -1 <==> forall j | 0 <= j < |SectionIds| :: !Qualifies(dom, SectionIds[j], scrollY + ActivationLead))
      && (k >= 0 ==> ActiveSectionFor(scrollY, dom) == SectionIds[k]
                      && Qualifies(dom, SectionIds[k], scrollY + ActivationLead)
                      && forall j | k < j < |SectionIds| :: !Qualifies(dom, SectionIds[j], scrollY + ActivationLead))
  {
  }

  /** A section without an element is never chosen by the scan; only the fallback can name "home" without one. */
  lemma MissingSectionNeverSelected(scrollY: int, dom: map<string, int>, k: nat)
    requires 0 < k < |SectionIds| && SectionIds[k] !in dom
    ensures ActiveSectionFor(scrollY, dom) != SectionIds[k]
  {
    SectionIdsDistinct();
  }

  /** With the layout fixed, scrolling further down never selects an earlier section. */
  lemma SelectionMonotonic(y1: int, y2: int, dom: map<string, int>)
    requires y1 <= y2
    ensures SelectedIndex(y1, dom) <= SelectedIndex(y2, dom)
  {
    var ids := SectionIds;
    var r1 := LastQualifying(ids, dom, y1 + ActivationLead);
    if r1.Some? {
      assert Qualifies(dom, ids[r1.value], y2 + ActivationLead);
    }
  }

  /** Sections "home" at 0, "work" at 1000 and "services" at 2000, the rest absent. */
  lemma ThreeSectionScenario()
    ensures ActiveSectionFor(950, map["home" := 0, "work" := 1000, "services" := 2000]) == "work"
    ensures ActiveSectionFor(50, map["home" := 0, "work" := 1000, "services" := 2000]) == "home"
    ensures SelectedIndex(50, map["home" := 0, "work" := 1000, "services" := 2000]) == 0
  {
    var dom := map["home" := 0, "work" := 1000, "services" := 2000];
    SectionIdsDistinct();
    var ids := SectionIds;
    assert Qualifies(dom, ids[1], 1070);
    var r := LastQualifying(ids, dom, 1070);
    assert forall j | 2 <= j < |ids| :: !Qualifies(dom, ids[j], 1070);
    assert r == Some(1);
    var r' := LastQualifying(ids, dom, 170);
    assert forall j | 1 <= j < |ids| :: !Qualifies(dom, ids[j], 170);
    assert Qualifies(dom, ids[0], 170);
    assert r' == Some(0);
  }

  /** A qualifying section with nothing qualifying after it is the active one. */
  lemma FoundIsActive(scrollY: int, dom: map<string, int>, i: nat)
    requires i < |SectionIds| && Qualifies(dom, SectionIds[i], scrollY + ActivationLead)
    requires forall j | i < j < |SectionIds| :: !Qualifies(dom, SectionIds[j], scrollY + ActivationLead)
    ensures ActiveSectionFor(scrollY, dom) == SectionIds[i]
  {
    var r := LastQualifying(SectionIds, dom, scrollY + ActivationLead);
    assert r == Some(i);
  }

  /** When no section qualifies the active one is the fallback. */
  lemma NoneIsDefault(scrollY: int, dom: map<string, int>)
    requires forall j | 0 <= j < |SectionIds| :: !Qualifies(dom, SectionIds[j], scrollY + ActivationLead)
    ensures ActiveSectionFor(scrollY, dom) == DefaultSection
  {
  }

  /** `handleScroll`'s backward scan with early exit, returning the id it would store. */
  method Scan(scrollY: int, dom: map<string, int>) returns (id: string)
    ensures id == ActiveSectionFor(scrollY, dom)
  {
    var bound := scrollY + ActivationLead;
    var i := |NavLinks| - 1;
    assert |SectionIds| == |NavLinks|;
    while i >= 0
      invariant -1 <= i < |SectionIds|
      invariant forall j | i < j < |SectionIds| :: !Qualifies(dom, SectionIds[j], bound)
    {
      id := LinkTargetId(i);
      if id in dom && dom[id] <= bound {
        FoundIsActive(scrollY, dom, i);
        return;
      }
      i := i - 1;
    }
    id := DefaultSection;
    NoneIsDefault(scrollY, dom);
  }

  /** The hook's state. */
  class ActiveSectionTracker {
    var activeSection: string

    /** The state before the first scan. */
    constructor ()
      ensures activeSection == DefaultSection
    {
      activeSection := DefaultSection;
    }

    /** The effect run after the first render: it registers the listener and runs it once. */
    method Mount(scrollY: int, dom: map<string, int>)
      modifies this
      ensures activeSection == ActiveSectionFor(scrollY, dom)
    {
      HandleScroll(scrollY, dom);
    }

    /** The scroll listener. */
    method HandleScroll(scrollY: int, dom: map<string, int>)
      modifies this
      ensures activeSection == ActiveSectionFor(scrollY, dom)
    {
      activeSection := Scan(scrollY, dom);
    }
  }
}
