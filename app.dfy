/**
 * The application shell: the saved reports (a metadata index plus one stored report per
 * id), the report open in the editor, the photo library, the template set in use and the
 * section being edited, with the handlers that change them.
 */
module ReportApp {
  import opened Wrappers
  import opened Photos
  import opened Report
  import opened MetadataIndex
  import SectionView
  import Templates
  import Drag
  import Navigation

  /**
   * The index and the stored reports agree: ids in the index are unique, every stored
   * report sits under its own id, and every index entry is the projection of the stored
   * report with its id, as of the entry's save time.
   */
  ghost predicate Consistent(reports: seq<SavedReport>, store: map<string, ReportState>)
  {
    && UniqueIds(reports)
    && (forall k :: k in store ==> store[k].id == k)
    && (forall e :: e in reports ==> e.id in store && e == Projection(store[e.id], e.lastModified))
  }

  /** The stored reports after a status change: the report with that id, if stored, takes the status. */
  function StoreWithStatus(store: map<string, ReportState>, id: string, status: ReportStatus): (r: map<string, ReportState>)
    ensures r.Keys == store.Keys
    ensures id in store ==> r[id] == store[id].(status := status)
    ensures forall k :: k in store && k != id ==> r[k] == store[k]
  {
    if id in store then store[id := store[id].(status := status)] else store
  }

  /** A save writes the report under its id and puts its fresh entry first: the two stay consistent. */
  lemma SaveKeepsConsistent(reports: seq<SavedReport>, store: map<string, ReportState>, st: ReportState, now: int)
    requires Consistent(reports, store)
    ensures Consistent(Upsert(reports, Projection(st, now)), store[st.id := st])
  {
    var entry := Projection(st, now);
    var store' := store[st.id := st];
    UpsertPlacesEntryOnce(reports, entry);
    forall e | e in Upsert(reports, entry)
      ensures e.id in store' && e == Projection(store'[e.id], e.lastModified)
    {
      if e != entry {
        assert e in reports && e.id != st.id;
      }
    }
  }

  /** A delete drops the entry and the stored report together: the two stay consistent. */
  lemma DeleteKeepsConsistent(reports: seq<SavedReport>, store: map<string, ReportState>, id: string)
    requires Consistent(reports, store)
    ensures Consistent(RemoveId(reports, id), store - {id})
  {
    RemoveIdKeepsUnique(reports, id);
  }

  /** A status change rewrites the stored report and its entry alike: the two stay consistent. */
  lemma StatusKeepsConsistent(reports: seq<SavedReport>, store: map<string, ReportState>, id: string, status: ReportStatus)
    requires Consistent(reports, store)
    ensures Consistent(MetadataIndex.SetStatus(reports, id, status), StoreWithStatus(store, id, status))
  {
    var r := MetadataIndex.SetStatus(reports, id, status);
    SetStatusOnlyStatus(reports, id, status);
    forall e | e in r
      ensures e.id in StoreWithStatus(store, id, status)
      ensures e == Projection(StoreWithStatus(store, id, status)[e.id], e.lastModified)
    {
      var i :| 0 <= i < |r| && r[i] == e;
      assert reports[i] in reports;
    }
  }

  class App {
    /** The dashboard's metadata index, newest save first. */
    var reports: seq<SavedReport>
    /** The stored reports, by id. */
    var store: map<string, ReportState>
    /** The report open in the editor, if any. */
    var reportState: Option<ReportState>
    /** The photos uploaded in this session. */
    var photoLibrary: seq<Photo>
    /** The templates in use, by key. */
    var managedAutoResponses: Templates.TemplateSet
    /** The title of the section being edited. */
    var activeSectionId: string
    /** The built-in template sets of the two survey levels. */
    const level2Templates: Templates.TemplateSet
    const level3Templates: Templates.TemplateSet

    ghost predicate Valid()
      reads this
    {
      Consistent(reports, store)
    }

    /** The built-in template set of a survey level. */
    function TemplatesFor(t: ReportType): (r: Templates.TemplateSet)
      ensures t == Level2 ==> r == level2Templates
      ensures t == Level3 ==> r == level3Templates
    {
      if t == Level2 then level2Templates else level3Templates
    }

    /**
     * Start-up: the index and the stored reports as found in storage, no report open,
     * an empty library, the Level 3 templates and the cover selected.
     */
    constructor(savedIndex: seq<SavedReport>, savedStore: map<string, ReportState>,
                l2: Templates.TemplateSet, l3: Templates.TemplateSet)
      ensures reports == savedIndex && store == savedStore
      ensures reportState.None? && photoLibrary == []
      ensures level2Templates == l2 && level3Templates == l3 && managedAutoResponses == l3
      ensures activeSectionId == Navigation.FrontCover
      ensures Consistent(savedIndex, savedStore) ==> Valid()
    {
      reports := savedIndex;
      store := savedStore;
      reportState := None;
      photoLibrary := [];
      level2Templates := l2;
      level3Templates := l3;
      managedAutoResponses := l3;
      activeSectionId := Navigation.FrontCover;
    }

    /** The templates offered by the generic section editor: those of the active section. */
    function CurrentTemplates(): (r: seq<string>)
      reads this
      ensures activeSectionId in managedAutoResponses ==> r == managedAutoResponses[activeSectionId]
      ensures activeSectionId !in managedAutoResponses ==> r == []
    {
      Templates.TemplatesOf(managedAutoResponses, activeSectionId)
    }

    /**
     * The editor the active section opens. This uses the corrected routing: section L is
     * routed by the title the lists use, and every other title as the app wires it.
     */
    function CurrentEditor(): (e: Navigation.Editor)
      reads this
      ensures activeSectionId == Navigation.Level3Sections[12] ==> e == Navigation.EditorL
      ensures activeSectionId == Navigation.FrontCover ==> e == Navigation.FrontCoverEditor
      ensures activeSectionId != Navigation.Level3Sections[12]
              && activeSectionId != Navigation.SectionLTitleAsWritten
              ==> e == Navigation.EditorForAsWritten(activeSectionId)
    {
      Navigation.EditorFor(activeSectionId)
    }

    /**
     * `createNewReport`: a fresh report of the given level (its id and today's date are
     * inputs) is opened at the cover with that level's templates; nothing is stored yet.
     */
    method CreateNewReport(t: ReportType, newId: string, today: string)
      modifies this
      ensures reportState == Some(NewReport(t, newId, today))
      ensures managedAutoResponses == TemplatesFor(t)
      ensures activeSectionId == Navigation.FrontCover
      ensures reports == old(reports) && store == old(store) && photoLibrary == old(photoLibrary)
    {
      reportState := Some(NewReport(t, newId, today));
      managedAutoResponses := TemplatesFor(t);
      activeSectionId := Navigation.FrontCover;
    }

    /** `openReport`: a stored report is opened at the cover with its level's templates; an unknown id does nothing. */
    method OpenReport(id: string)
      modifies this
      ensures id in store ==> && reportState == Some(store[id])
                              && managedAutoResponses == TemplatesFor(store[id].reportType)
                              && activeSectionId == Navigation.FrontCover
      ensures id !in store ==> && reportState == old(reportState)
                               && managedAutoResponses == old(managedAutoResponses)
                               && activeSectionId == old(activeSectionId)
      ensures reports == old(reports) && store == old(store) && photoLibrary == old(photoLibrary)
    {
      if id in store {
        reportState := Some(store[id]);
        managedAutoResponses := TemplatesFor(store[id].reportType);
        activeSectionId := Navigation.FrontCover;
      }
    }

    /**
     * The debounced save of the open report at time `now`: the report is stored under its
     * id and its entry moves to the front of the index. With no report open nothing is saved.
     */
    method SaveReportToStorage(now: int)
      modifies this
      ensures reportState == old(reportState)
      ensures reportState.Some? ==> && store == old(store)[reportState.value.id := reportState.value]
                                    && reports == Upsert(old(reports), Projection(reportState.value, now))
      ensures reportState.None? ==> store == old(store) && reports == old(reports)
      ensures photoLibrary == old(photoLibrary) && managedAutoResponses == old(managedAutoResponses)
      ensures activeSectionId == old(activeSectionId)
      ensures old(Valid()) ==> Valid()
    {
      if reportState.Some? {
        var st := reportState.value;
        if Valid() {
          SaveKeepsConsistent(reports, store, st, now);
        }
        store := store[st.id := st];
        reports := Upsert(reports, Projection(st, now));
      }
    }

    /** `deleteReport`: the entry and the stored report go; an open report stays open. */
    method DeleteReport(id: string)
      modifies this
      ensures reports == RemoveId(old(reports), id) && store == old(store) - {id}
      ensures reportState == old(reportState) && photoLibrary == old(photoLibrary)
      ensures managedAutoResponses == old(managedAutoResponses) && activeSectionId == old(activeSectionId)
      ensures old(Valid()) ==> Valid()
    {
      if Valid() {
        DeleteKeepsConsistent(reports, store, id);
      }
      reports := RemoveId(reports, id);
      store := store - {id};
    }

    /**
     * `handleStatusChange` from the dashboard: the stored report takes the status; when it
     * is the open report, the editor reloads it from storage (with its level's templates);
     * the index entries with that id take the status.
     */
    method HandleStatusChange(id: string, status: ReportStatus)
      modifies this
      ensures store == StoreWithStatus(old(store), id, status)
      ensures reports == MetadataIndex.SetStatus(old(reports), id, status)
      ensures id in old(store) && old(reportState).Some? && old(reportState).value.id == id ==>
        && reportState == Some(store[id])
        && managedAutoResponses == TemplatesFor(store[id].reportType)
      ensures !(id in old(store) && old(reportState).Some? && old(reportState).value.id == id) ==>
        reportState == old(reportState) && managedAutoResponses == old(managedAutoResponses)
      ensures photoLibrary == old(photoLibrary) && activeSectionId == old(activeSectionId)
      ensures old(Valid()) ==> Valid()
    {
      if Valid() {
        StatusKeepsConsistent(reports, store, id, status);
      }
      if id in store {
        var data := store[id].(status := status);
        store := store[id := data];
        if reportState.Some? && reportState.value.id == id {
          reportState := Some(data);
          managedAutoResponses := TemplatesFor(data.reportType);
        }
      }
      reports := MetadataIndex.SetStatus(reports, id, status);
    }

    /** `updateReportState`: the partial is merged into the open report. */
    method UpdateReportState(p: ReportPatch)
      modifies this`reportState
      ensures reportState == Report.UpdateReportState(old(reportState), p)
    {
      reportState := Report.UpdateReportState(reportState, p);
    }

    /** `updateSectionData`: the partial is merged into one entry of the open report's sections. */
    method UpdateSectionData(sectionId: string, p: SectionPatch)
      modifies this`reportState
      ensures reportState == Report.UpdateSectionData(old(reportState), sectionId, p)
    {
      reportState := Report.UpdateSectionData(reportState, sectionId, p);
    }

    /** A structured section component's `onDataChange`. */
    method OnStructuredChange(e: StructuredEdit)
      modifies this`reportState
      ensures reportState == ApplyStructured(old(reportState), e)
    {
      reportState := ApplyStructured(reportState, e);
    }

    /** The status switcher in the editor's header. */
    method SwitchStatus(status: ReportStatus)
      modifies this`reportState
      ensures old(reportState).None? ==> reportState.None?
      ensures old(reportState).Some? ==> reportState == Some(old(reportState).value.(status := status))
    {
      reportState := Report.UpdateReportState(reportState, Report.SetStatus(status));
    }

    /** The valuation toggle: flips whether the open report includes the valuation. */
    method ToggleValuation()
      modifies this`reportState
      ensures old(reportState).None? ==> reportState.None?
      ensures old(reportState).Some? ==>
        reportState == Some(old(reportState).value.(includeValuation := !old(reportState).value.includeValuation))
    {
      var current := reportState.Some? && reportState.value.includeValuation;
      reportState := Report.UpdateReportState(reportState, SetIncludeValuation(!current));
    }

    /** The cover's remove button: the open report loses its cover photo. */
    method RemoveCoverPhoto()
      modifies this`reportState
      ensures old(reportState).None? ==> reportState.None?
      ensures old(reportState).Some? ==> reportState == Some(old(reportState).value.(coverPhoto := None))
    {
      reportState := Report.UpdateReportState(reportState, SetCoverPhoto(None));
    }

    /** A sidebar click: the section becomes the active one. */
    method SelectSection(id: string)
      modifies this`activeSectionId
      ensures activeSectionId == id
    {
      activeSectionId := id;
    }

    /**
     * A library upload: the new photos (their ids and object URLs made by the browser are
     * inputs) are appended in order; a change event without a file list does nothing.
     */
    method HandleFileUpload(files: Option<seq<Photo>>)
      modifies this`photoLibrary
      ensures files.None? ==> photoLibrary == old(photoLibrary)
      ensures files.Some? ==> photoLibrary == old(photoLibrary) + files.value
    {
      if files.Some? {
        photoLibrary := photoLibrary + files.value;
      }
    }

    /** `handleDragEnd`: the drop is resolved against the library and the active section. */
    method HandleDragEnd(ev: Drag.DragEvent)
      modifies this`reportState
      ensures reportState == Drag.DragEnd(old(reportState), photoLibrary, activeSectionId, ev)
      ensures photoLibrary == old(photoLibrary)
    {
      reportState := Drag.DragEnd(reportState, photoLibrary, activeSectionId, ev);
    }

    /**
     * `handleAddPhotoFromSection`: a photo taken from a structured section's file input is
     * appended to that section's photos and to the library (the library even with no report open).
     */
    method HandleAddPhotoFromSection(sectionId: string, photo: Photo)
      modifies this`reportState, this`photoLibrary
      ensures reportState == Report.UpdateSectionData(old(reportState), sectionId,
                               SetPhotos(Drag.PhotosOf(old(reportState), sectionId) + [photo]))
      ensures photoLibrary == old(photoLibrary) + [photo]
    {
      var current := Drag.PhotosOf(reportState, sectionId);
      reportState := Report.UpdateSectionData(reportState, sectionId, SetPhotos(current + [photo]));
      photoLibrary := photoLibrary + [photo];
    }

    /** `handleRemovePhotoFromSection`: every photo with that id leaves the section. */
    method HandleRemovePhotoFromSection(sectionId: string, photoId: string)
      modifies this`reportState
      ensures reportState == Report.UpdateSectionData(old(reportState), sectionId,
                               SetPhotos(WithoutId(Drag.PhotosOf(old(reportState), sectionId), photoId)))
      ensures old(reportState).Some? ==> photoId !in Ids(reportState.value.sections[sectionId].photos)
    {
      var current := Drag.PhotosOf(reportState, sectionId);
      reportState := Report.UpdateSectionData(reportState, sectionId, SetPhotos(WithoutId(current, photoId)));
    }

    /** `handleRemovePhotoFromLibrary`: every photo with that id leaves the library (sections keep theirs). */
    method HandleRemovePhotoFromLibrary(photoId: string)
      modifies this`photoLibrary
      ensures photoLibrary == WithoutId(old(photoLibrary), photoId)
      ensures reportState == old(reportState)
    {
      photoLibrary := WithoutId(photoLibrary, photoId);
    }

    /** The generic section editor's callbacks, applied to the active section. */
    method OnSectionEvent(ev: SectionView.SectionEvent)
      modifies this`reportState
      ensures ev.ContentChanged? ==>
        reportState == Report.UpdateSectionData(old(reportState), activeSectionId, SetContent(ev.content))
      ensures ev.RatingChanged? ==>
        reportState == Report.UpdateSectionData(old(reportState), activeSectionId, SetRating(ev.rating))
      ensures ev.PhotoRemoved? ==>
        reportState == Report.UpdateSectionData(old(reportState), activeSectionId,
                         SetPhotos(WithoutId(Drag.PhotosOf(old(reportState), activeSectionId), ev.photoId)))
    {
      match ev
      case ContentChanged(v) => UpdateSectionData(activeSectionId, SetContent(v));
      case RatingChanged(g) => UpdateSectionData(activeSectionId, SetRating(g));
      case PhotoRemoved(id) => HandleRemovePhotoFromSection(activeSectionId, id);
    }

    /** The template manager's add button for the active section's list. */
    method AddTemplate(input: string)
      modifies this`managedAutoResponses
      ensures managedAutoResponses == Templates.AddTemplate(old(managedAutoResponses), activeSectionId, input)
    {
      var trimmed := Templates.Trim(input);
      Templates.TrimEmptyIffBlank(input);
      if trimmed != "" {
        var resps := Templates.TemplatesOf(managedAutoResponses, activeSectionId) + [trimmed];
        managedAutoResponses := managedAutoResponses[activeSectionId := resps];
      }
    }

    /** The template manager's delete button on entry `index` of the active section's list. */
    method DeleteTemplate(index: nat)
      modifies this`managedAutoResponses
      ensures managedAutoResponses == Templates.DeleteTemplate(old(managedAutoResponses), activeSectionId, index)
    {
      var resps := Templates.SpliceCopy(Templates.TemplatesOf(managedAutoResponses, activeSectionId), index);
      managedAutoResponses := managedAutoResponses[activeSectionId := resps];
    }
  }

  /**
   * A session from an empty store: a Level 3 report is created, its address typed,
   * saved, another report created, and the first reopened from storage. The reopened
   * report is the one saved, with the typed address, and the index lists it once.
   */
  method CreateEditSaveReopen(l2: Templates.TemplateSet, l3: Templates.TemplateSet,
                              id: string, otherId: string, today: string, now: int)
    returns (reopened: Option<ReportState>, index: seq<SavedReport>)
    requires id != otherId
    ensures reopened.Some? && reopened.value.id == id
    ensures reopened.value.propertyAddress == "1 Test St" && reopened.value.reportType == Level3
    ensures reopened.value.status == Working && reopened.value.sections == map[]
    ensures |index| == 1 && index[0].id == id && index[0].propertyAddress == "1 Test St"
    ensures index[0].clientName == "No Client" && index[0].lastModified == now
  {
    var app := new App([], map[], l2, l3);
    app.CreateNewReport(Level3, id, today);
    app.UpdateReportState(SetPropertyAddress("1 Test St"));
    app.SaveReportToStorage(now);
    app.CreateNewReport(Level2, otherId, today);
    app.OpenReport(id);
    reopened := app.reportState;
    index := app.reports;
  }
}
