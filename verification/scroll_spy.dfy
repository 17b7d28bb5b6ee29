/**
 * The scroll spy of `SmoothScroll.updateActiveLink`: on each (debounced)
 * scroll the page picks the section under the probe line and highlights the
 * navigation links that point at it.
 */
module ScrollSpy {
  import opened Wrappers

  /** A `section[id]` element: its `id` attribute and its layout box. */
  datatype Section = Section(id: string, top: int, height: int)

  /** A navigation link: its `href` attribute. */
  datatype Link = Link(href: string)

  /** How far below the top of the viewport the probe line sits, beyond the
      height of the fixed bars. */
  const ProbeMargin := 100

  /** The probe line: the scroll offset, plus the height of the fixed bars,
      plus the margin. */
  function ScrollPosition(scrollY: int, barsHeight: int): (pos: int)
    ensures pos - scrollY - barsHeight == ProbeMargin
  {
    scrollY + barsHeight + ProbeMargin
  }

  /** The section's box holds the probe line: its top edge is included, its
      bottom edge is not. */
  predicate Covers(s: Section, pos: int) {
    s.top <= pos < s.top + s.height
  }

  /** The index of the last section, in document order, whose box holds the
      probe line. */
  function LastCovering(sections: seq<Section>, pos: int): (r: Option<nat>)
    ensures r.Some? ==>
      && r.value < |sections|
      && Covers(sections[r.value], pos)
      && forall j :: r.value < j < |sections| ==> !Covers(sections[j], pos)
    ensures r.None? ==> forall j :: 0 <= j < |sections| ==> !Covers(sections[j], pos)
  {
    if |sections| == 0 then None
    else if Covers(sections[|sections| - 1], pos) then Some(|sections| - 1)
    else LastCovering(sections[..|sections| - 1], pos)
  }

  /** The id the scroll spy settles on: that of the last covering section,
      or the empty string when none covers the probe line. */
  function Current(sections: seq<Section>, pos: int): string {
    match LastCovering(sections, pos)
    case None => ""
    case Some(k) => sections[k].id
  }

  /** The chosen id is empty when no section covers the probe line, and
      otherwise belongs to a covering section that no later covering section
      follows. */
  lemma CurrentIsLastCovering(sections: seq<Section>, pos: int)
    ensures (forall j :: 0 <= j < |sections| ==> !Covers(sections[j], pos)) ==> Current(sections, pos) == ""
    ensures (exists j :: 0 <= j < |sections| && Covers(sections[j], pos)) ==>
      exists k :: 0 <= k < |sections| && Covers(sections[k], pos) && Current(sections, pos) == sections[k].id
        && forall j :: k < j < |sections| ==> !Covers(sections[j], pos)
  {
  }

  /** A section appended after the others wins when it covers the probe line
      and changes nothing when it does not. */
  lemma CurrentAppend(sections: seq<Section>, s: Section, pos: int)
    ensures Covers(s, pos) ==> Current(sections + [s], pos) == s.id
    ensures !Covers(s, pos) ==> Current(sections + [s], pos) == Current(sections, pos)
  {
    assert (sections + [s])[..|sections|] == sections;
  }

  /** When exactly one section covers the probe line, its id is chosen,
      wherever it sits in the document. */
  lemma UniqueCoveringChosen(sections: seq<Section>, pos: int, j: nat)
    requires j < |sections| && Covers(sections[j], pos)
    requires forall k :: 0 <= k < |sections| && k != j ==> !Covers(sections[k], pos)
    ensures Current(sections, pos) == sections[j].id
  {
  }

  /** Whether a link gets the `active` class: its `href` is `#` followed by
      the chosen id. */
  predicate Targets(link: Link, current: string) {
    link.href == "#" + current
  }

  /** The first loop of the scroll handler: walk the sections in document
      order, letting each covering one overwrite the choice. */
  method ChooseSection(sections: seq<Section>, pos: int) returns (current: string)
    ensures current == Current(sections, pos)
  {
    current := "";
    var i := 0;
    while i < |sections|
      invariant 0 <= i <= |sections|
      invariant current == Current(sections[..i], pos)
    {
      CurrentAppend(sections[..i], sections[i], pos);
      assert sections[..i + 1] == sections[..i] + [sections[i]];
      if Covers(sections[i], pos) {
        current := sections[i].id;
      }
      i := i + 1;
    }
    assert sections[..|sections|] == sections;
  }

  /** The second loop of the scroll handler: clear every link's highlight
      and set it again on the links that target the chosen id. */
  method Highlight(links: seq<Link>, current: string) returns (active: seq<bool>)
    ensures |active| == |links|
    ensures forall k :: 0 <= k < |links| ==> (active[k] <==> Targets(links[k], current))
  {
    active := [];
    var k := 0;
    while k < |links|
      invariant 0 <= k <= |links|
      invariant |active| == k
      invariant forall l :: 0 <= l < k ==> (active[l] <==> Targets(links[l], current))
    {
      active := active + [Targets(links[k], current)];
      k := k + 1;
    }
  }

  /** The scroll handler: the chosen id, and for each link whether it is
      highlighted. */
  method UpdateActiveLink(sections: seq<Section>, links: seq<Link>, scrollY: int, barsHeight: int)
    returns (current: string, active: seq<bool>)
    ensures current == Current(sections, ScrollPosition(scrollY, barsHeight))
    ensures |active| == |links|
    ensures forall k :: 0 <= k < |links| ==> (active[k] <==> Targets(links[k], current))
  {
    current := ChooseSection(sections, ScrollPosition(scrollY, barsHeight));
    active := Highlight(links, current);
  }

  /** A link is highlighted exactly when its target is the chosen section's
      id; when no section covers the probe line that leaves the links whose
      `href` is a bare `#`. */
  lemma HighlightWhenNothingCovers(sections: seq<Section>, link: Link, pos: int)
    requires forall j :: 0 <= j < |sections| ==> !Covers(sections[j], pos)
    ensures Targets(link, Current(sections, pos)) <==> link.href == "#"
  {
  }
}
