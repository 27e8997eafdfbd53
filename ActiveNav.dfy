/** `updateActiveNavLink`: pick the current section from the scroll offset and
    mark the navigation links that point at it. */
module ActiveNav {

  /** A `section[id]` element, in document order: its id and its `offsetTop`. */
  datatype Section = Section(id: string, offsetTop: real)

  /** The lead margin: a section counts as reached 200px before its top. */
  const LeadMargin: real := 200.0

  predicate Reached(s: Section, scrollY: real)
  {
    scrollY >= s.offsetTop - LeadMargin
  }

  /** The id of the last section, in document order, that has been reached,
      or the empty string when none has. */
  function ActiveId(sections: seq<Section>, scrollY: real): string
  {
    if sections == [] then ""
    else if Reached(sections[|sections| - 1], scrollY) then sections[|sections| - 1].id
    else ActiveId(sections[..|sections| - 1], scrollY)
  }

  /** The fragment a link must point at to be marked. */
  function Fragment(current: string): string
  {
    "#" + current
  }

  /** When no section has been reached the current id is the empty string, so
      a link whose href is the bare "#" is the one that gets marked. */
  lemma {:induction false} NothingReachedMarksBareHash(sections: seq<Section>, scrollY: real)
    requires forall i :: 0 <= i < |sections| ==> !Reached(sections[i], scrollY)
    ensures ActiveId(sections, scrollY) == ""
    ensures Fragment(ActiveId(sections, scrollY)) == "#"
    decreases |sections|
  {
    if sections != [] {
      NothingReachedMarksBareHash(sections[..|sections| - 1], scrollY);
    }
  }

  /** The other half of "the last reached section": when section i has been
      reached and no later one has, its id is the current one. */
  lemma {:induction false} LastReachedIsActive(sections: seq<Section>, scrollY: real, i: nat)
    requires i < |sections| && Reached(sections[i], scrollY)
    requires forall j :: i < j < |sections| ==> !Reached(sections[j], scrollY)
    ensures ActiveId(sections, scrollY) == sections[i].id
    decreases |sections|
  {
    var n := |sections| - 1;
    if i < n {
      var init := sections[..n];
      assert init[i] == sections[i];
      assert forall j :: i < j < |init| ==> init[j] == sections[j];
      LastReachedIsActive(init, scrollY, i);
    }
  }

  /** The `sections.forEach` loop: `current` is overwritten by every reached
      section, so it ends as the last one's id. */
  method CurrentSection(sections: seq<Section>, scrollY: real) returns (current: string)
    ensures current == ActiveId(sections, scrollY)
  {
    current := "";
    var i := 0;
    while i < |sections|
      invariant 0 <= i <= |sections|
      invariant current == ActiveId(sections[..i], scrollY)
    {
      assert sections[..i + 1][..i] == sections[..i];
      if scrollY >= sections[i].offsetTop - LeadMargin {
        current := sections[i].id;
      }
      i := i + 1;
    }
    assert sections[..i] == sections;
  }

  /** A `.nav-link` element: its `href` attribute and whether it carries the
      class `active`. */
  class NavLink {
    const href: string
    var active: bool

    constructor (href: string)
      ensures this.href == href && !active
    {
      this.href := href;
      active := false;
    }
  }

  /** The `navLinks.forEach` loop: clear `active` on every link, then set it
      back on those whose href is `#` followed by the current id. */
  method MarkLinks(links: seq<NavLink>, current: string)
    modifies set l | l in links
    ensures forall l :: l in links ==> l.active == (l.href == Fragment(current))
  {
    var i := 0;
    while i < |links|
      invariant 0 <= i <= |links|
      invariant forall j :: 0 <= j < i ==> links[j].active == (links[j].href == Fragment(current))
    {
      links[i].active := false;
      if links[i].href == "#" + current {
        links[i].active := true;
      }
      i := i + 1;
    }
  }

  /** The whole update. Its outcome does not depend on which links were marked
      before, so once links are marked for a scroll offset, running it again at
      that offset changes nothing. */
  method UpdateActiveNavLink(sections: seq<Section>, links: seq<NavLink>, scrollY: real)
    returns (current: string)
    modifies set l | l in links
    ensures current == ActiveId(sections, scrollY)
    ensures forall l :: l in links ==> l.active == (l.href == Fragment(current))
    ensures (forall l :: l in links ==> old(l.active) == (l.href == Fragment(current)))
            ==> forall l :: l in links ==> l.active == old(l.active)
  {
    current := CurrentSection(sections, scrollY);
    MarkLinks(links, current);
  }
}
