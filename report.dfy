/**
 * The report being edited: its metadata, the generic sections map and the structured
 * records of sections A, C, D, G, H, J and L, with the two reducers that change it —
 * a shallow merge of a partial report, and a merge into one entry of the sections map.
 */
module Report {
  import opened Wrappers
  import opened Photos
  import opened SectionView
  import SectionA
  import SectionC
  import SectionD
  import SectionG
  import SectionH
  import SectionJ
  import SectionL

  /** A report's lifecycle tag; any value may follow any other. */
  datatype ReportStatus = Working | Complete | Archived

  /** The survey level, which picks the section list and the template set. */
  datatype ReportType = Level2 | Level3

  /** One generic section: notes, a condition rating and its photos. */
  datatype SectionData = SectionData(content: string, rating: ConditionRating, photos: seq<Photo>)

  datatype ReportState = ReportState(
    id: string,
    propertyAddress: string,
    clientName: string,
    inspectionDate: string,
    ricsNumber: string,
    status: ReportStatus,
    reportType: ReportType,
    includeValuation: bool,
    coverPhoto: Option<Photo>,
    sections: map<string, SectionData>,
    sectionAData: SectionA.SectionAData,
    sectionCData: SectionC.SectionCData,
    sectionJData: SectionJ.SectionJData,
    sectionLData: SectionL.SectionLData,
    sectionDData: SectionD.SectionDData,
    sectionGData: SectionG.SectionGData,
    sectionHData: SectionH.SectionHData)

  /** The entry a section has before anything was written to it. */
  function DefaultSection(): (r: SectionData)
    ensures r.content == "" && r.rating == Unrated && r.photos == []
  {
    SectionData("", Unrated, [])
  }

  /** `prev.sections[id] || default` */
  function SectionOrDefault(sections: map<string, SectionData>, id: string): (r: SectionData)
    ensures id in sections ==> r == sections[id]
    ensures id !in sections ==> r == DefaultSection()
  {
    if id in sections then sections[id] else DefaultSection()
  }

  // ---------------------------------------------------------------------------
  // updateReportState: { ...prev, ...updates }
  // ---------------------------------------------------------------------------

  /** `Partial<ReportState>`: `None` is a key the partial does not name. */
  datatype ReportPatch = ReportPatch(
    id: Option<string>,
    propertyAddress: Option<string>,
    clientName: Option<string>,
    inspectionDate: Option<string>,
    ricsNumber: Option<string>,
    status: Option<ReportStatus>,
    reportType: Option<ReportType>,
    includeValuation: Option<bool>,
    coverPhoto: Option<Option<Photo>>,
    sections: Option<map<string, SectionData>>,
    sectionAData: Option<SectionA.SectionAData>,
    sectionCData: Option<SectionC.SectionCData>,
    sectionJData: Option<SectionJ.SectionJData>,
    sectionLData: Option<SectionL.SectionLData>,
    sectionDData: Option<SectionD.SectionDData>,
    sectionGData: Option<SectionG.SectionGData>,
    sectionHData: Option<SectionH.SectionHData>)

  /** The empty partial `{}`. */
  const NoChange: ReportPatch :=
    ReportPatch(None, None, None, None, None, None, None, None, None, None,
      None, None, None, None, None, None, None)

  /** A key spread after another: the later one wins where it is present. */
  function Later<T>(earlier: Option<T>, later: Option<T>): (r: Option<T>)
    ensures later.Some? ==> r == later
    ensures later.None? ==> r == earlier
  {
    if later.Some? then later else earlier
  }

  /** `{ ...p, ...q }` on two partials. */
  function Combine(p: ReportPatch, q: ReportPatch): ReportPatch
  {
    ReportPatch(
      Later(p.id, q.id), Later(p.propertyAddress, q.propertyAddress), Later(p.clientName, q.clientName),
      Later(p.inspectionDate, q.inspectionDate), Later(p.ricsNumber, q.ricsNumber),
      Later(p.status, q.status), Later(p.reportType, q.reportType),
      Later(p.includeValuation, q.includeValuation), Later(p.coverPhoto, q.coverPhoto),
      Later(p.sections, q.sections), Later(p.sectionAData, q.sectionAData),
      Later(p.sectionCData, q.sectionCData), Later(p.sectionJData, q.sectionJData),
      Later(p.sectionLData, q.sectionLData), Later(p.sectionDData, q.sectionDData),
      Later(p.sectionGData, q.sectionGData), Later(p.sectionHData, q.sectionHData))
  }

  /** A value after a spread: the partial's value when it names the key, else the old one. */
  predicate Takes<T(==)>(named: Option<T>, before: T, after: T)
  {
    after == named.GetOr(before)
  }

  /** `{ ...s, ...p }`: each key the partial names takes its value, every other key keeps its own. */
  function Merge(s: ReportState, p: ReportPatch): (r: ReportState)
    ensures Takes(p.id, s.id, r.id)
    ensures Takes(p.propertyAddress, s.propertyAddress, r.propertyAddress)
    ensures Takes(p.clientName, s.clientName, r.clientName)
    ensures Takes(p.inspectionDate, s.inspectionDate, r.inspectionDate)
    ensures Takes(p.ricsNumber, s.ricsNumber, r.ricsNumber)
    ensures Takes(p.status, s.status, r.status)
    ensures Takes(p.reportType, s.reportType, r.reportType)
    ensures Takes(p.includeValuation, s.includeValuation, r.includeValuation)
    ensures Takes(p.coverPhoto, s.coverPhoto, r.coverPhoto)
    ensures Takes(p.sections, s.sections, r.sections)
    ensures Takes(p.sectionAData, s.sectionAData, r.sectionAData)
    ensures Takes(p.sectionCData, s.sectionCData, r.sectionCData)
    ensures Takes(p.sectionJData, s.sectionJData, r.sectionJData)
    ensures Takes(p.sectionLData, s.sectionLData, r.sectionLData)
    ensures Takes(p.sectionDData, s.sectionDData, r.sectionDData)
    ensures Takes(p.sectionGData, s.sectionGData, r.sectionGData)
    ensures Takes(p.sectionHData, s.sectionHData, r.sectionHData)
  {
    ReportState(
      p.id.GetOr(s.id), p.propertyAddress.GetOr(s.propertyAddress), p.clientName.GetOr(s.clientName),
      p.inspectionDate.GetOr(s.inspectionDate), p.ricsNumber.GetOr(s.ricsNumber),
      p.status.GetOr(s.status), p.reportType.GetOr(s.reportType),
      p.includeValuation.GetOr(s.includeValuation), p.coverPhoto.GetOr(s.coverPhoto),
      p.sections.GetOr(s.sections), p.sectionAData.GetOr(s.sectionAData),
      p.sectionCData.GetOr(s.sectionCData), p.sectionJData.GetOr(s.sectionJData),
      p.sectionLData.GetOr(s.sectionLData), p.sectionDData.GetOr(s.sectionDData),
      p.sectionGData.GetOr(s.sectionGData), p.sectionHData.GetOr(s.sectionHData))
  }

  /** `updateReportState`: no report stays no report; otherwise the partial is spread over it. */
  function UpdateReportState(s: Option<ReportState>, p: ReportPatch): (r: Option<ReportState>)
    ensures s.None? <==> r.None?
    ensures s.Some? ==> r.value == Merge(s.value, p)
  {
    match s
    case None => None
    case Some(st) => Some(Merge(st, p))
  }

  /** The empty partial changes nothing. */
  lemma MergeNoChange(s: ReportState)
    ensures Merge(s, NoChange) == s
  {
  }

  /** Two updates in a row are one update with the later partial spread over the earlier. */
  lemma MergeCombine(s: ReportState, p: ReportPatch, q: ReportPatch)
    ensures Merge(Merge(s, p), q) == Merge(s, Combine(p, q))
  {
  }

  /** Repeating an update changes nothing further. */
  lemma MergeIdempotent(s: ReportState, p: ReportPatch)
    ensures Merge(Merge(s, p), p) == Merge(s, p)
  {
  }

  /** The two partials never name the same key. */
  predicate Disjoint(p: ReportPatch, q: ReportPatch)
  {
    && (p.id.None? || q.id.None?)
    && (p.propertyAddress.None? || q.propertyAddress.None?)
    && (p.clientName.None? || q.clientName.None?)
    && (p.inspectionDate.None? || q.inspectionDate.None?)
    && (p.ricsNumber.None? || q.ricsNumber.None?)
    && (p.status.None? || q.status.None?)
    && (p.reportType.None? || q.reportType.None?)
    && (p.includeValuation.None? || q.includeValuation.None?)
    && (p.coverPhoto.None? || q.coverPhoto.None?)
    && (p.sections.None? || q.sections.None?)
    && (p.sectionAData.None? || q.sectionAData.None?)
    && (p.sectionCData.None? || q.sectionCData.None?)
    && (p.sectionJData.None? || q.sectionJData.None?)
    && (p.sectionLData.None? || q.sectionLData.None?)
    && (p.sectionDData.None? || q.sectionDData.None?)
    && (p.sectionGData.None? || q.sectionGData.None?)
    && (p.sectionHData.None? || q.sectionHData.None?)
  }

  /** Updates of different keys can be applied in either order. */
  lemma MergeDisjointCommutes(s: ReportState, p: ReportPatch, q: ReportPatch)
    requires Disjoint(p, q)
    ensures Merge(Merge(s, p), q) == Merge(Merge(s, q), p)
  {
  }

  // One-key partials, as the editor's callbacks build them.

  function SetPropertyAddress(v: string): ReportPatch { NoChange.(propertyAddress := Some(v)) }
  function SetClientName(v: string): ReportPatch { NoChange.(clientName := Some(v)) }
  function SetInspectionDate(v: string): ReportPatch { NoChange.(inspectionDate := Some(v)) }
  function SetRicsNumber(v: string): ReportPatch { NoChange.(ricsNumber := Some(v)) }
  function SetStatus(v: ReportStatus): ReportPatch { NoChange.(status := Some(v)) }
  function SetIncludeValuation(v: bool): ReportPatch { NoChange.(includeValuation := Some(v)) }
  function SetCoverPhoto(v: Option<Photo>): ReportPatch { NoChange.(coverPhoto := Some(v)) }

  /** A one-key partial changes its own key and nothing else. */
  lemma OneKeyPatches(s: ReportState, a: string, st: ReportStatus, b: bool, c: Option<Photo>)
    ensures Merge(s, SetPropertyAddress(a)) == s.(propertyAddress := a)
    ensures Merge(s, SetClientName(a)) == s.(clientName := a)
    ensures Merge(s, SetInspectionDate(a)) == s.(inspectionDate := a)
    ensures Merge(s, SetRicsNumber(a)) == s.(ricsNumber := a)
    ensures Merge(s, SetStatus(st)) == s.(status := st)
    ensures Merge(s, SetIncludeValuation(b)) == s.(includeValuation := b)
    ensures Merge(s, SetCoverPhoto(c)) == s.(coverPhoto := c)
  {
  }

  // ---------------------------------------------------------------------------
  // updateSectionData: the default entry for a missing section, then a merge
  // ---------------------------------------------------------------------------

  /** `Partial<SectionData>` */
  datatype SectionPatch = SectionPatch(
    content: Option<string>,
    rating: Option<ConditionRating>,
    photos: Option<seq<Photo>>)

  function SetContent(v: string): SectionPatch { SectionPatch(Some(v), None, None) }
  function SetRating(v: ConditionRating): SectionPatch { SectionPatch(None, Some(v), None) }
  function SetPhotos(v: seq<Photo>): SectionPatch { SectionPatch(None, None, Some(v)) }

  /** `{ ...section, ...updates }` */
  function MergeSection(d: SectionData, p: SectionPatch): (r: SectionData)
    ensures Takes(p.content, d.content, r.content)
    ensures Takes(p.rating, d.rating, r.rating)
    ensures Takes(p.photos, d.photos, r.photos)
  {
    SectionData(p.content.GetOr(d.content), p.rating.GetOr(d.rating), p.photos.GetOr(d.photos))
  }

  /** The sections map after writing the merged entry of `id`. */
  function WithSection(sections: map<string, SectionData>, id: string, p: SectionPatch): (r: map<string, SectionData>)
    ensures r.Keys == sections.Keys + {id}
    ensures r[id] == MergeSection(SectionOrDefault(sections, id), p)
    ensures forall k :: k in sections && k != id ==> r[k] == sections[k]
  {
    sections[id := MergeSection(SectionOrDefault(sections, id), p)]
  }

  /**
   * `updateSectionData(id, updates)`: no report stays no report; otherwise the section's
   * entry (a default one if it was missing) takes the named fields, and nothing else changes.
   */
  function UpdateSectionData(s: Option<ReportState>, id: string, p: SectionPatch): (r: Option<ReportState>)
    ensures s.None? <==> r.None?
    ensures s.Some? ==> r.value.sections.Keys == s.value.sections.Keys + {id}
    ensures s.Some? ==> r.value.sections[id] == MergeSection(SectionOrDefault(s.value.sections, id), p)
    ensures s.Some? ==> forall k :: k in s.value.sections && k != id ==> r.value.sections[k] == s.value.sections[k]
    ensures s.Some? ==> r.value.(sections := s.value.sections) == s.value
  {
    match s
    case None => None
    case Some(st) => UpdateReportState(s, NoChange.(sections := Some(WithSection(st.sections, id, p))))
  }

  /** Writing to a section that has no entry yet starts from the empty entry. */
  lemma UpdateMissingSection(s: ReportState, id: string, p: SectionPatch)
    requires id !in s.sections
    ensures var r := UpdateSectionData(Some(s), id, p).value;
      && r.sections[id].content == p.content.GetOr("")
      && r.sections[id].rating == p.rating.GetOr(Unrated)
      && r.sections[id].photos == p.photos.GetOr([])
  {
  }

  /** Updates of two different sections can be applied in either order. */
  lemma UpdateSectionsCommute(s: ReportState, id1: string, p1: SectionPatch, id2: string, p2: SectionPatch)
    requires id1 != id2
    ensures UpdateSectionData(UpdateSectionData(Some(s), id1, p1), id2, p2)
         == UpdateSectionData(UpdateSectionData(Some(s), id2, p2), id1, p1)
  {
    var a := UpdateSectionData(UpdateSectionData(Some(s), id1, p1), id2, p2).value;
    var b := UpdateSectionData(UpdateSectionData(Some(s), id2, p2), id1, p1).value;
    assert a.sections == b.sections;
  }

  /** Typing notes into a section keeps its rating and photos. */
  lemma ContentEditKeepsRatingAndPhotos(s: ReportState, id: string, v: string)
    requires id in s.sections
    ensures var r := UpdateSectionData(Some(s), id, SetContent(v)).value;
      && r.sections[id] == s.sections[id].(content := v)
  {
  }

  // ---------------------------------------------------------------------------
  // Structured sections: a component's partial is merged one level deep
  // ---------------------------------------------------------------------------

  /** A partial emitted by one of the structured section components. */
  datatype StructuredEdit =
    | EditA(a: SectionA.Patch)
    | EditC(c: SectionC.Patch)
    | EditJ(j: SectionJ.Patch)
    | EditL(l: SectionL.Patch)
    | EditD(d: SectionD.Patch)
    | EditG(g: SectionG.Patch)
    | EditH(h: SectionH.Patch)

  /**
   * The `onDataChange` wiring: `updateReportState({ sectionXData: { ...sectionXData, ...data } })`,
   * a one-key report partial holding the sub-record with the component's partial spread over it.
   */
  function StructuredPatch(s: ReportState, e: StructuredEdit): (r: ReportPatch)
    ensures Merge(s, r).(sectionAData := s.sectionAData, sectionCData := s.sectionCData,
                         sectionJData := s.sectionJData, sectionLData := s.sectionLData,
                         sectionDData := s.sectionDData, sectionGData := s.sectionGData,
                         sectionHData := s.sectionHData) == s
    ensures e.EditA? ==> Merge(s, r).sectionAData == SectionA.Apply(s.sectionAData, e.a)
                         && Merge(s, r).(sectionAData := s.sectionAData) == s
    ensures e.EditC? ==> Merge(s, r).sectionCData == SectionC.Apply(s.sectionCData, e.c)
                         && Merge(s, r).(sectionCData := s.sectionCData) == s
    ensures e.EditJ? ==> Merge(s, r).sectionJData == SectionJ.Apply(s.sectionJData, e.j)
                         && Merge(s, r).(sectionJData := s.sectionJData) == s
    ensures e.EditL? ==> Merge(s, r).sectionLData == SectionL.Apply(s.sectionLData, e.l)
                         && Merge(s, r).(sectionLData := s.sectionLData) == s
    ensures e.EditD? ==> Merge(s, r).sectionDData == SectionD.Apply(s.sectionDData, e.d)
                         && Merge(s, r).(sectionDData := s.sectionDData) == s
    ensures e.EditG? ==> Merge(s, r).sectionGData == SectionG.Apply(s.sectionGData, e.g)
                         && Merge(s, r).(sectionGData := s.sectionGData) == s
    ensures e.EditH? ==> Merge(s, r).sectionHData == SectionH.Apply(s.sectionHData, e.h)
                         && Merge(s, r).(sectionHData := s.sectionHData) == s
  {
    match e
    case EditA(p) => NoChange.(sectionAData := Some(SectionA.Apply(s.sectionAData, p)))
    case EditC(p) => NoChange.(sectionCData := Some(SectionC.Apply(s.sectionCData, p)))
    case EditJ(p) => NoChange.(sectionJData := Some(SectionJ.Apply(s.sectionJData, p)))
    case EditL(p) => NoChange.(sectionLData := Some(SectionL.Apply(s.sectionLData, p)))
    case EditD(p) => NoChange.(sectionDData := Some(SectionD.Apply(s.sectionDData, p)))
    case EditG(p) => NoChange.(sectionGData := Some(SectionG.Apply(s.sectionGData, p)))
    case EditH(p) => NoChange.(sectionHData := Some(SectionH.Apply(s.sectionHData, p)))
  }

  /** A structured edit on the open report. */
  function ApplyStructured(s: Option<ReportState>, e: StructuredEdit): (r: Option<ReportState>)
    ensures s.None? <==> r.None?
    ensures s.Some? ==> r.value == Merge(s.value, StructuredPatch(s.value, e))
  {
    match s
    case None => None
    case Some(st) => UpdateReportState(s, StructuredPatch(st, e))
  }

  /** A structured edit replaces only its own sub-record, and within it only what its partial names. */
  lemma StructuredEditIsLocal(s: ReportState, e: StructuredEdit)
    ensures var r := ApplyStructured(Some(s), e).value;
      && (e.EditA? ==> r == s.(sectionAData := SectionA.Apply(s.sectionAData, e.a)))
      && (e.EditC? ==> r == s.(sectionCData := SectionC.Apply(s.sectionCData, e.c)))
      && (e.EditJ? ==> r == s.(sectionJData := SectionJ.Apply(s.sectionJData, e.j)))
      && (e.EditL? ==> r == s.(sectionLData := SectionL.Apply(s.sectionLData, e.l)))
      && (e.EditD? ==> r == s.(sectionDData := SectionD.Apply(s.sectionDData, e.d)))
      && (e.EditG? ==> r == s.(sectionGData := SectionG.Apply(s.sectionGData, e.g)))
      && (e.EditH? ==> r == s.(sectionHData := SectionH.Apply(s.sectionHData, e.h)))
  {
  }

  /** A section D subsection edit, end to end: only that subsection of that record changes. */
  lemma SubsectionEditEndToEnd(s: ReportState, k: SectionD.Key, f: SectionD.TextField, v: string)
    ensures var sub := SectionD.UpdateText(SectionD.Get(s.sectionDData, k), f, v);
      var r := ApplyStructured(Some(s), EditD(SectionD.SubsectionEdit(k, sub))).value;
      && SectionD.TextOf(SectionD.Get(r.sectionDData, k), f) == v
      && (forall j :: j != k ==> SectionD.Get(r.sectionDData, j) == SectionD.Get(s.sectionDData, j))
      && r.sectionDData.limitationsText == s.sectionDData.limitationsText
      && r.(sectionDData := s.sectionDData) == s
  {
    SectionD.FieldEditTouchesOneField(s.sectionDData, k, f, v);
  }

  // ---------------------------------------------------------------------------
  // createNewReport
  // ---------------------------------------------------------------------------

  /**
   * A new report of the given level: the fresh id and today's date are inputs; status
   * working, empty texts, no cover photo, no section entries, valuation excluded, and
   * every structured record at its default.
   */
  function NewReport(t: ReportType, id: string, today: string): (r: ReportState)
    ensures r.id == id && r.reportType == t && r.status == Working
    ensures r.propertyAddress == "" && r.clientName == "" && r.ricsNumber == ""
    ensures r.inspectionDate == today
    ensures forall f :: SectionA.Get(r.sectionAData, f) == if f == SectionA.InspectionDate then today else ""
    ensures !r.includeValuation && r.coverPhoto.None? && r.sections == map[]
    ensures forall f :: SectionC.Text(r.sectionCData, f) == "" && forall b :: !SectionC.Checked(r.sectionCData, b)
    ensures forall c :: SectionC.CellValue(r.sectionCData.accommodation, c) == ""
    ensures forall f :: SectionJ.Get(r.sectionJData, f) == ""
    ensures r.sectionLData.content == ""
    ensures r.sectionDData.limitationsText == SectionD.LimitationsText
    ensures forall k :: SectionD.Get(r.sectionDData, k) == SectionD.DefaultSubsection()
    ensures r.sectionGData.limitationsText == SectionG.LimitationsText
    ensures forall k :: SectionG.Get(r.sectionGData, k) == SectionD.DefaultSubsection()
    ensures forall k :: SectionH.Get(r.sectionHData, k).text == ""
  {
    ReportState(id, "", "", today, "", Working, t, false, None, map[],
      SectionA.Blank(today), SectionC.Blank(), SectionJ.Blank(), SectionL.Blank(),
      SectionD.Default(), SectionG.Default(), SectionH.Default())
  }
}
