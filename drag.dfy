/**
 * The end of a drag: one drag gesture (what was dragged, what it was dropped on)
 * is resolved into exactly one change of the open report, tried in this order:
 * reorder within the current section, set the cover photo, add a library photo to
 * a section once, or nothing.
 */
module Drag {
  import opened Wrappers
  import opened Photos
  import Lists
  import opened Report

  /** The end of a drag: the dragged item's id and, when it was dropped on something, that target's id. */
  datatype DragEvent = DragEvent(activeId: string, overId: Option<string>)

  /** The drop target id of the front cover. */
  const FrontCoverId: string := "Front Cover"

  /** `reportState?.sections[id]?.photos || []` */
  function PhotosOf(s: Option<ReportState>, id: string): (r: seq<Photo>)
    ensures s.None? ==> r == []
    ensures s.Some? ==> r == SectionOrDefault(s.value.sections, id).photos
  {
    if s.Some? && id in s.value.sections then s.value.sections[id].photos else []
  }

  /** What a drop does. */
  datatype Outcome =
    | Reorder(sectionId: string, from: nat, to: nat)
    | SetCover(photo: Photo)
    | AlreadyPlaced
    | Append(sectionId: string, photo: Photo)
    | Ignored

  /** The checks of the drag-end handler, in its order. */
  function Classify(s: Option<ReportState>, library: seq<Photo>, activeSection: string, ev: DragEvent): (r: Outcome)
    ensures r.Reorder? ==>
      && r.sectionId == activeSection
      && r.from < |PhotosOf(s, activeSection)| && r.to < |PhotosOf(s, activeSection)|
      && PhotosOf(s, activeSection)[r.from].id == ev.activeId
      && ev.overId.Some? && PhotosOf(s, activeSection)[r.to].id == ev.overId.value
    ensures r.SetCover? ==> ev.overId == Some(FrontCoverId) && FindById(library, ev.activeId) == Some(r.photo)
    ensures r.Append? ==>
      && ev.overId == Some(r.sectionId) && FindById(library, ev.activeId) == Some(r.photo)
      && r.photo.id !in Ids(PhotosOf(s, r.sectionId))
  {
    if ev.overId.None? then Ignored
    else
      var over := ev.overId.value;
      var current := PhotosOf(s, activeSection);
      var activeIdx := IndexOfId(current, ev.activeId);
      var overIdx := IndexOfId(current, over);
      if activeIdx != -1 && overIdx != -1 then Reorder(activeSection, activeIdx, overIdx)
      else if ev.activeId == over then Ignored
      else match FindById(library, ev.activeId)
        case None => Ignored
        case Some(photo) =>
          if over == FrontCoverId then SetCover(photo)
          else if photo.id in Ids(PhotosOf(s, over)) then AlreadyPlaced
          else Append(over, photo)
  }

  /**
   * `handleDragEnd`: the report after the drop. Only the cover photo and the sections
   * map can change; no report stays no report.
   */
  function DragEnd(s: Option<ReportState>, library: seq<Photo>, activeSection: string, ev: DragEvent): (r: Option<ReportState>)
    ensures s.None? <==> r.None?
    ensures s.Some? ==> r.value.(coverPhoto := s.value.coverPhoto, sections := s.value.sections) == s.value
  {
    match Classify(s, library, activeSection, ev)
    case Reorder(sec, i, j) => UpdateSectionData(s, sec, SetPhotos(Lists.ArrayMove(PhotosOf(s, sec), i, j)))
    case SetCover(photo) => UpdateReportState(s, SetCoverPhoto(Some(photo)))
    case Append(sec, photo) => UpdateSectionData(s, sec, SetPhotos(PhotosOf(s, sec) + [photo]))
    case AlreadyPlaced => s
    case Ignored => s
  }

  /** Both ids name photos of the section being edited: the drop is a reorder there. */
  predicate IsReorder(s: Option<ReportState>, activeSection: string, ev: DragEvent)
  {
    && ev.overId.Some?
    && ev.activeId in Ids(PhotosOf(s, activeSection))
    && ev.overId.value in Ids(PhotosOf(s, activeSection))
  }

  /**
   * Reordering: the section keeps the same photos (same length, same multiset), the
   * dragged photo lands at the index the target photo had, and nothing else changes.
   */
  lemma ReorderPermutes(s: ReportState, library: seq<Photo>, activeSection: string, ev: DragEvent)
    requires IsReorder(Some(s), activeSection, ev)
    ensures var before := PhotosOf(Some(s), activeSection);
      var r := DragEnd(Some(s), library, activeSection, ev).value;
      var after := r.sections[activeSection].photos;
      && |after| == |before|
      && multiset(after) == multiset(before)
      && after[IndexOfId(before, ev.overId.value)] == before[IndexOfId(before, ev.activeId)]
      && after[IndexOfId(before, ev.overId.value)].id == ev.activeId
      && r.sections.Keys == s.sections.Keys
      && (forall k :: k in s.sections && k != activeSection ==> r.sections[k] == s.sections[k])
      && r.coverPhoto == s.coverPhoto
  {
    var before := PhotosOf(Some(s), activeSection);
    assert Classify(Some(s), library, activeSection, ev)
      == Reorder(activeSection, IndexOfId(before, ev.activeId), IndexOfId(before, ev.overId.value));
  }

  /** Dropping a library photo on the cover makes it the cover photo and leaves the sections alone. */
  lemma DropOnCover(s: ReportState, library: seq<Photo>, activeSection: string, ev: DragEvent)
    requires ev.overId == Some(FrontCoverId) && ev.activeId != FrontCoverId
    requires !IsReorder(Some(s), activeSection, ev)
    requires ev.activeId in Ids(library)
    ensures var r := DragEnd(Some(s), library, activeSection, ev).value;
      && r.coverPhoto == FindById(library, ev.activeId)
      && r.coverPhoto.Some? && r.coverPhoto.value.id == ev.activeId
      && r.sections == s.sections
  {
  }

  /**
   * Dropping a library photo on a section: appended at the end when no photo with its
   * id is there yet, otherwise nothing changes.
   */
  lemma DropOnSection(s: ReportState, library: seq<Photo>, activeSection: string, ev: DragEvent)
    requires ev.overId.Some? && ev.overId.value != FrontCoverId && ev.overId.value != ev.activeId
    requires !IsReorder(Some(s), activeSection, ev)
    requires ev.activeId in Ids(library)
    ensures var target := ev.overId.value;
      var photo := FindById(library, ev.activeId).value;
      var r := DragEnd(Some(s), library, activeSection, ev).value;
      && (ev.activeId in Ids(PhotosOf(Some(s), target)) ==> r == s)
      && (ev.activeId !in Ids(PhotosOf(Some(s), target)) ==>
            && r.sections[target].photos == PhotosOf(Some(s), target) + [photo]
            && r.sections.Keys == s.sections.Keys + {target}
            && (forall k :: k in s.sections && k != target ==> r.sections[k] == s.sections[k])
            && r.coverPhoto == s.coverPhoto)
  {
  }

  /**
   * Dropping the same library photo twice has the effect of dropping it once: it ends
   * up at most once in the target section (or is the cover once).
   */
  lemma DropTwiceIsDropOnce(s: ReportState, library: seq<Photo>, activeSection: string, ev: DragEvent)
    requires ev.overId.Some? && ev.overId.value !in Ids(PhotosOf(Some(s), activeSection))
    ensures var once := DragEnd(Some(s), library, activeSection, ev);
      DragEnd(once, library, activeSection, ev) == once
  {
    var once := DragEnd(Some(s), library, activeSection, ev);
    var over := ev.overId.value;
    match Classify(Some(s), library, activeSection, ev)
    case Reorder(_, _, _) =>
      assert false;
    case SetCover(p) =>
      assert once == Some(s.(coverPhoto := Some(p)));
      assert forall x :: PhotosOf(once, x) == PhotosOf(Some(s), x);
      assert Classify(once, library, activeSection, ev) == SetCover(p);
    case Append(sec, p) =>
      var extended := PhotosOf(Some(s), sec) + [p];
      assert once.value.sections == s.sections[sec := SectionOrDefault(s.sections, sec).(photos := extended)];
      assert PhotosOf(once, sec) == extended;
      assert Ids(extended)[|extended| - 1] == p.id;
      assert IndexOfId(PhotosOf(once, activeSection), over) == -1 by {
        if sec == activeSection {
          assert Ids(extended) == Ids(PhotosOf(Some(s), sec)) + [p.id];
        } else {
          assert PhotosOf(once, activeSection) == PhotosOf(Some(s), activeSection);
        }
      }
      assert Classify(once, library, activeSection, ev) == AlreadyPlaced;
    case AlreadyPlaced =>
    case Ignored =>
  }

  /** Drops that change nothing: no target, a drop on itself, or a dragged id that is not in the library. */
  lemma NoOpDrops(s: Option<ReportState>, library: seq<Photo>, activeSection: string, ev: DragEvent)
    requires !IsReorder(s, activeSection, ev)
    requires ev.overId.None? || ev.overId == Some(ev.activeId) || ev.activeId !in Ids(library)
    ensures DragEnd(s, library, activeSection, ev) == s
  {
  }

  /** A reorder by a drop on its own photo leaves the section's list as it was. */
  lemma ReorderOntoItselfKeepsOrder(s: ReportState, library: seq<Photo>, activeSection: string, id: string)
    requires id in Ids(PhotosOf(Some(s), activeSection))
    ensures var r := DragEnd(Some(s), library, activeSection, DragEvent(id, Some(id))).value;
      r.sections[activeSection] == s.sections[activeSection]
  {
    var before := PhotosOf(Some(s), activeSection);
    Lists.ArrayMoveInPlace(before, IndexOfId(before, id));
  }

  /** No report open: nothing happens, whatever is dropped. */
  lemma NoReportNoChange(library: seq<Photo>, activeSection: string, ev: DragEvent)
    ensures DragEnd(None, library, activeSection, ev).None?
  {
  }

  /**
   * The target id of a library drop is used as a section key whatever it names: dropping
   * on a photo of another list (its id is not a section name) creates a section entry
   * under that photo's id.
   */
  lemma PhotoIdBecomesSectionKey(s: ReportState, library: seq<Photo>, activeSection: string, dragged: Photo, target: Photo)
    requires dragged in library && target in library && dragged.id != target.id
    requires target.id !in Ids(PhotosOf(Some(s), activeSection))
    requires target.id != FrontCoverId && target.id !in s.sections
    ensures var r := DragEnd(Some(s), library, activeSection, DragEvent(dragged.id, Some(target.id))).value;
      target.id in r.sections && r.sections[target.id].photos == [FindById(library, dragged.id).value]
  {
    assert dragged.id in Ids(library) by {
      var i :| 0 <= i < |library| && library[i] == dragged;
      assert Ids(library)[i] == dragged.id;
    }
  }
}
