/**
 * The scroll-spy of the page shell (src/App.jsx): on every scroll event the
 * handler probes a point 100 units below the top of the viewport and makes
 * the first page section whose box contains that point the active one.
 *
 * Layout is an input: `Layout` maps the id of every section element that is
 * currently mounted to its `offsetTop` and `offsetHeight`; an id that is not a
 * key is an element `document.getElementById` does not find.
 */
module ScrollSpy {
  import opened Wrappers

  /** The page sections, in the order the handler examines them. */
  const Sections: seq<string> := ["hero", "services", "work", "about", "contact"]

  /** The section that is active before the first scroll event. */
  const InitialSection: string := "hero"

  /** Look-ahead added to `scrollY`, compensating for the fixed header. */
  const ProbeOffset: int := 100

  datatype Geometry = Geometry(offsetTop: int, offsetHeight: int)

  type Layout = map<string, Geometry>

  /** The half-open vertical range [offsetTop, offsetTop + offsetHeight) holds `p`. */
  predicate Covers(g: Geometry, p: int) {
    g.offsetTop <= p < g.offsetTop + g.offsetHeight
  }

  /** Section `id` is mounted and its box holds the probe point `p`. */
  predicate Matches(layout: Layout, id: string, p: int) {
    id in layout && Covers(layout[id], p)
  }

  /** The five section ids are pairwise distinct. */
  lemma SectionsDistinct()
    ensures forall i, j :: 0 <= i < j < |Sections| ==> Sections[i] != Sections[j]
  {
    assert Sections[0][0] == 'h' && Sections[1][0] == 's' && Sections[2][0] == 'w';
    assert Sections[3][0] == 'a' && Sections[4][0] == 'c';
  }

  /**
   * Reference search: the position in `ids` of the first id whose mounted
   * element holds `p`, or None when there is none.
   */
  function FirstMatch(layout: Layout, ids: seq<string>, p: int): (r: Option<nat>)
    ensures r.Some? ==> r.value < |ids| && Matches(layout, ids[r.value], p)
    ensures r.Some? ==> forall j :: 0 <= j < r.value ==> !Matches(layout, ids[j], p)
    ensures r.None? ==> forall j :: 0 <= j < |ids| ==> !Matches(layout, ids[j], p)
    decreases |ids|
  {
    if ids == [] then None
    else if Matches(layout, ids[0], p) then Some(0)
    else
      match FirstMatch(layout, ids[1..], p)
      case None => None
      case Some(k) => Some(k + 1)
  }

  /**
   * The active section after one scroll event at `scrollY`: the first section
   * in page order that holds the probe point, or `active` unchanged.
   */
  function NextActive(active: string, scrollY: int, layout: Layout): string {
    match FirstMatch(layout, Sections, scrollY + ProbeOffset)
    case Some(k) => Sections[k]
    case None => active
  }

  /** A section becomes active only when its box holds the probe point. */
  lemma NextActiveSelectsMatch(active: string, scrollY: int, layout: Layout)
    ensures NextActive(active, scrollY, layout) == active
         || Matches(layout, NextActive(active, scrollY, layout), scrollY + ProbeOffset)
  {
  }

  /** When some mounted section holds the probe point, the first such section becomes active. */
  lemma FirstMatchBecomesActive(active: string, scrollY: int, layout: Layout, k: nat)
    requires FirstMatch(layout, Sections, scrollY + ProbeOffset) == Some(k)
    ensures k < |Sections| && NextActive(active, scrollY, layout) == Sections[k]
  {
  }

  /** When no mounted section holds the probe point the active section is kept. */
  lemma NoMatchKeepsActive(active: string, scrollY: int, layout: Layout)
    requires forall k :: 0 <= k < |Sections| ==> !Matches(layout, Sections[k], scrollY + ProbeOffset)
    ensures NextActive(active, scrollY, layout) == active
  {
  }

  /**
   * First match wins: if section `i` holds the probe point, no section after
   * it can become active, whatever else matches.
   */
  lemma {:induction false} EarlierMatchWins(active: string, scrollY: int, layout: Layout, i: nat, j: nat)
    requires i < j < |Sections|
    requires Matches(layout, Sections[i], scrollY + ProbeOffset)
    ensures NextActive(active, scrollY, layout) != Sections[j]
  {
    SectionsDistinct();
    var r := FirstMatch(layout, Sections, scrollY + ProbeOffset);
    assert r.Some? && r.value <= i;
  }

  /** The active section is always one of the five ids: it starts at "hero" and is only ever set from the list. */
  lemma NextActiveStaysListed(active: string, scrollY: int, layout: Layout)
    requires active in Sections
    ensures NextActive(active, scrollY, layout) in Sections
  {
  }

  /** Running the handler a second time on the same position and layout changes nothing. */
  lemma NextActiveIdempotent(active: string, scrollY: int, layout: Layout)
    ensures NextActive(NextActive(active, scrollY, layout), scrollY, layout)
         == NextActive(active, scrollY, layout)
  {
  }

  /** A section whose element is not mounted is skipped: it never becomes active by this event. */
  lemma UnmountedNotSelected(active: string, scrollY: int, layout: Layout, id: string)
    requires id !in layout && id != active
    ensures NextActive(active, scrollY, layout) != id
  {
  }

  /** Unmounted sections are skipped: with nothing mounted the active section is kept. */
  lemma EmptyLayoutKeepsActive(active: string, scrollY: int)
    ensures NextActive(active, scrollY, map[]) == active
  {
  }

  /** A page shell whose only state is the id of the active section. */
  class App {
    var activeSection: string

    ghost predicate Valid()
      reads this
    {
      activeSection in Sections
    }

    constructor()
      ensures Valid() && activeSection == InitialSection
    {
      activeSection := InitialSection;
    }

    /** The scroll handler: a search in page order that stops at the first hit. */
    method HandleScroll(scrollY: int, layout: Layout)
      requires Valid()
      modifies this
      ensures Valid()
      ensures activeSection == NextActive(old(activeSection), scrollY, layout)
    {
      var scrollPosition := scrollY + ProbeOffset;
      var i := 0;
      while i < |Sections|
        invariant 0 <= i <= |Sections|
        invariant activeSection == old(activeSection)
        invariant forall j :: 0 <= j < i ==> !Matches(layout, Sections[j], scrollPosition)
      {
        var section := Sections[i];
        if section in layout {
          var element := layout[section];
          if scrollPosition >= element.offsetTop && scrollPosition < element.offsetTop + element.offsetHeight {
            activeSection := section;
            break;
          }
        }
        i := i + 1;
      }
      // Leaving the loop early means section i was hit; it is the first hit.
      if i < |Sections| {
        assert FirstMatch(layout, Sections, scrollPosition) == Some(i);
      }
    }
  }
}
