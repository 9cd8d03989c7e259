/**
 * The interactive site map: hovering a marker previews its details, clicking pins them, and
 * the popup shows the pinned marker if there is one, the hovered one otherwise.
 */
module MapPage {
  import opened Wrappers

  datatype Position = Position(x: int, y: int)

  datatype MapMarker = MapMarker(id: string, name: string, position: Position, image: string, description: string)

  /** The two pieces of page state: `hoveredMarker` and `pinnedMarker`. */
  datatype Selection = Selection(hovered: Option<MapMarker>, pinned: Option<MapMarker>)

  const Cleared: Selection := Selection(None, None)

  /** `pinnedMarker && pinnedMarker.id === marker.id`. */
  predicate PinnedIs(s: Selection, m: MapMarker) {
    s.pinned.Some? && s.pinned.value.id == m.id
  }

  /** The marker the popup describes: `pinnedMarker || hoveredMarker`. */
  function Shown(s: Selection): (r: Option<MapMarker>)
    ensures s.pinned.Some? ==> r == s.pinned
    ensures s.pinned.None? ==> r == s.hovered
    ensures r.None? <==> s.hovered.None? && s.pinned.None?
  {
    if s.pinned.Some? then s.pinned else s.hovered
  }

  /** The mouse or focus enters marker `m`: it is previewed unless it is the pinned marker. */
  function Hover(s: Selection, m: MapMarker): (r: Selection)
    ensures r.pinned == s.pinned
    ensures PinnedIs(s, m) ==> r == s
    ensures !PinnedIs(s, m) ==> r.hovered == Some(m)
  {
    if !PinnedIs(s, m) then s.(hovered := Some(m)) else s
  }

  /** The mouse or focus leaves a marker: the preview is dropped only when nothing is pinned. */
  function Leave(s: Selection): (r: Selection)
    ensures r.pinned == s.pinned
    ensures s.pinned.None? ==> r == Cleared
    ensures s.pinned.Some? ==> r == s
  {
    if s.pinned.None? then s.(hovered := None) else s
  }

  /** A click on marker `m`: the pinned marker is unpinned, any other marker becomes the pinned one. */
  function Click(s: Selection, m: MapMarker): (r: Selection)
    ensures r.hovered == None
    ensures PinnedIs(s, m) ==> r.pinned == None
    ensures !PinnedIs(s, m) ==> r.pinned == Some(m)
  {
    if PinnedIs(s, m) then Cleared else Selection(None, Some(m))
  }

  /** A click on the map outside any marker and outside the popup clears everything. */
  function ClickBackground(s: Selection): (r: Selection)
    ensures Shown(r) == None
  {
    Cleared
  }

  /** A click on the popup closes it when it shows a pinned marker, and does nothing on a preview. */
  function ClickPopup(s: Selection): (r: Selection)
    ensures s.pinned.Some? ==> r == Cleared
    ensures s.pinned.None? ==> r == s
  {
    if s.pinned.Some? then Cleared else s
  }

  /** The popup's caption. */
  function PopupHint(s: Selection): (r: string)
    ensures r == "Click to close" <==> s.pinned.Some?
  {
    if s.pinned.Some? then "Click to close" else "Click marker to pin details"
  }

  /** Clicking a marker twice: from any state but "this marker pinned" it ends with nothing pinned. */
  lemma ClickTwice(s: Selection, m: MapMarker)
    ensures Click(Click(s, m), m) == if PinnedIs(s, m) then Selection(None, Some(m)) else Cleared
  {
  }

  /** While a marker is pinned, hovering or leaving any marker does not change what the popup shows. */
  lemma PinnedIgnoresHover(s: Selection, m: MapMarker)
    requires s.pinned.Some?
    ensures Shown(Hover(s, m)) == s.pinned && Shown(Leave(s)) == s.pinned
  {
  }

  /** A click on the popup of a previewed, unpinned marker leaves the preview up. */
  lemma PopupClickKeepsPreview(s: Selection)
    requires s.pinned.None? && s.hovered.Some?
    ensures Shown(ClickPopup(s)) == s.hovered
  {
  }

  /** The preview is never the pinned marker itself. */
  predicate Consistent(s: Selection) {
    s.pinned.Some? && s.hovered.Some? ==> s.hovered.value.id != s.pinned.value.id
  }

  /** Every handler keeps the preview apart from the pinned marker. */
  lemma HandlersKeepConsistent(s: Selection, m: MapMarker)
    requires Consistent(s)
    ensures Consistent(Hover(s, m)) && Consistent(Leave(s)) && Consistent(Click(s, m))
    ensures Consistent(ClickBackground(s)) && Consistent(ClickPopup(s))
  {
  }

  /** The map page's state. */
  class MapView {
    var hoveredMarker: Option<MapMarker>
    var pinnedMarker: Option<MapMarker>

    function Selected(): Selection
      reads this
    {
      Selection(hoveredMarker, pinnedMarker)
    }

    constructor()
      ensures Selected() == Cleared
    {
      hoveredMarker, pinnedMarker := None, None;
    }

    method MarkerHover(marker: MapMarker)
      modifies this
      ensures Selected() == Hover(old(Selected()), marker)
    {
      if pinnedMarker.None? || pinnedMarker.value.id != marker.id {
        hoveredMarker := Some(marker);
      }
    }

    method MarkerLeave()
      modifies this
      ensures Selected() == Leave(old(Selected()))
    {
      if pinnedMarker.None? {
        hoveredMarker := None;
      }
    }

    method MarkerClick(marker: MapMarker)
      modifies this
      ensures Selected() == Click(old(Selected()), marker)
    {
      if pinnedMarker.Some? && pinnedMarker.value.id == marker.id {
        pinnedMarker := None;
        hoveredMarker := None;
      } else {
        pinnedMarker := Some(marker);
        hoveredMarker := None;
      }
    }

    method BackgroundClick()
      modifies this
      ensures Selected() == ClickBackground(old(Selected()))
    {
      pinnedMarker := None;
      hoveredMarker := None;
    }

    method PopupClick()
      modifies this
      ensures Selected() == ClickPopup(old(Selected()))
    {
      if pinnedMarker.Some? {
        pinnedMarker := None;
        hoveredMarker := None;
      }
    }

    /** The marker the popup describes, if any; no popup is drawn when there is none. */
    method ShownMarker() returns (shown: Option<MapMarker>)
      ensures shown == Shown(Selected())
    {
      shown := if pinnedMarker.Some? then pinnedMarker else hoveredMarker;
    }
  }
}
