/**
 * The section lists of the two survey levels, which sections are shown in the side
 * bar, where photos and condition ratings are offered, and which editor a section opens.
 */
module Navigation {
  import opened Wrappers
  import Lists
  import opened Report

  const FrontCover: string := "Front Cover"
  const Valuation: string := "Valuation"

  /** The sections of a Level 3 report, in order; the last one is the optional valuation. */
  const Level3Sections: seq<string> := [
    FrontCover,
    "A About the inspection",
    "B Overall opinion",
    "C About the property",
    "D Outside the property",
    "E Inside the property",
    "F Services",
    "G Grounds",
    "H Issues for your legal advisers",
    "I Risks",
    "J Energy matters",
    "K Surveyor’s declaration",
    "L What to do now",
    "M Description of the RICS Home Survey – Level 3 service and terms of engagement",
    "N Typical house diagram",
    "RICS disclaimer",
    Valuation
  ]

  /** The title of section M in a Level 2 report. */
  const Level2SectionM: string := "M Description of the RICS Home Survey – Level 2 service and terms of engagement"

  /** The section list of a survey level: Level 2 is Level 3 with its own section M. */
  function Sections(t: ReportType): (r: seq<string>)
    ensures |r| == 17
  {
    if t == Level2 then Level3Sections[13 := Level2SectionM] else Level3Sections
  }

  /** `reportState?.type === 'level2' ? SECTIONS_LEVEL2 : SECTIONS_LEVEL3` */
  function SectionsFor(s: Option<ReportState>): (r: seq<string>)
    ensures s.Some? ==> r == Sections(s.value.reportType)
    ensures s.None? ==> r == Sections(Level3)
  {
    if s.Some? && s.value.reportType == Level2 then Sections(Level2) else Sections(Level3)
  }

  /** No section title occurs twice. */
  predicate Distinct(xs: seq<string>)
  {
    forall i, j :: 0 <= i < j < |xs| ==> xs[i] != xs[j]
  }

  /** The two lists have distinct titles and agree everywhere except section M. */
  lemma SectionListsShape()
    ensures Distinct(Sections(Level3)) && Distinct(Sections(Level2))
    ensures forall i :: 0 <= i < 17 && i != 13 ==> Sections(Level2)[i] == Sections(Level3)[i]
    ensures Sections(Level2)[13] != Sections(Level3)[13]
    ensures forall t :: Sections(t)[0] == FrontCover && Sections(t)[16] == Valuation
  {
  }

  /** `list.indexOf(x)`: the first index of `x`, or -1. */
  function IndexOf(xs: seq<string>, x: string): (k: int)
    ensures -1 <= k < |xs|
    ensures k == -1 <==> x !in xs
    ensures k >= 0 ==> xs[k] == x && x !in xs[..k]
    decreases |xs|
  {
    if xs == [] then -1
    else if xs[0] == x then 0
    else
      var k := IndexOf(xs[1..], x);
      assert xs[1..][..k + 1] == xs[1..k + 2] by {
        if k >= 0 { assert xs[..k + 2] == [xs[0]] + xs[1..][..k + 1]; }
      }
      if k == -1 then -1 else
        assert xs[..k + 1] == [xs[0]] + xs[1..][..k];
        k + 1
  }

  /** In a list without repeats, the index of the i-th title is i. */
  lemma IndexOfDistinct(xs: seq<string>, i: nat)
    requires Distinct(xs) && i < |xs|
    ensures IndexOf(xs, xs[i]) == i
  {
  }

  /** Photos are offered on the cover and on sections D, E, F and G (positions 0 and 4-7). */
  function AllowPhotos(sections: seq<string>, active: string): bool
  {
    IndexOf(sections, active) in {0, 4, 5, 6, 7}
  }

  /** Condition ratings are offered on sections D, E, F and G (positions 4-7). */
  function AllowRatings(sections: seq<string>, active: string): bool
  {
    IndexOf(sections, active) in {4, 5, 6, 7}
  }

  /** The cover and sections D, E, F and G, at positions 0 and 4-7 of both lists. */
  lemma PhotoSectionTitles(t: ReportType)
    ensures Sections(t)[0] == FrontCover
    ensures Sections(t)[4] == "D Outside the property" && Sections(t)[5] == "E Inside the property"
    ensures Sections(t)[6] == "F Services" && Sections(t)[7] == "G Grounds"
  {
  }

  /**
   * Ratings are offered only where photos are too; photos exactly on the cover and
   * sections D-G, ratings exactly on D-G; a title not in the list (index -1) gets neither.
   */
  lemma PhotoAndRatingSections(t: ReportType, active: string)
    ensures AllowRatings(Sections(t), active) ==> AllowPhotos(Sections(t), active)
    ensures var xs := Sections(t);
      AllowPhotos(xs, active) <==> active == xs[0] || active == xs[4] || active == xs[5] || active == xs[6] || active == xs[7]
    ensures var xs := Sections(t);
      AllowRatings(xs, active) <==> active == xs[4] || active == xs[5] || active == xs[6] || active == xs[7]
    ensures active !in Sections(t) ==> !AllowPhotos(Sections(t), active)
  {
    PhotoSectionIndices(t);
  }

  lemma PhotoSectionIndices(t: ReportType)
    ensures var xs := Sections(t);
      && IndexOf(xs, xs[0]) == 0 && IndexOf(xs, xs[4]) == 4 && IndexOf(xs, xs[5]) == 5
      && IndexOf(xs, xs[6]) == 6 && IndexOf(xs, xs[7]) == 7
  {
    var xs := Sections(t);
    SectionListsShape();
    IndexOfDistinct(xs, 0);
    IndexOfDistinct(xs, 4);
    IndexOfDistinct(xs, 5);
    IndexOfDistinct(xs, 6);
    IndexOfDistinct(xs, 7);
  }

  /** The side bar: every section, except the valuation unless the open report includes it. */
  function VisibleSections(s: Option<ReportState>): (r: seq<string>)
    ensures forall x :: x in r <==> x in SectionsFor(s) && (x == Valuation ==> s.Some? && s.value.includeValuation)
  {
    Lists.Filter(SectionsFor(s), (x: string) => !(x == Valuation && !(s.Some? && s.value.includeValuation)))
  }

  /** The valuation is listed exactly when the open report includes it; every other section always is. */
  lemma ValuationVisibility(s: Option<ReportState>)
    ensures Valuation in VisibleSections(s) <==> s.Some? && s.value.includeValuation
    ensures forall x :: x in SectionsFor(s) && x != Valuation ==> x in VisibleSections(s)
  {
    SectionListsShape();
    assert SectionsFor(s)[16] == Valuation;
  }

  /** The editor a section opens. */
  datatype Editor =
    | FrontCoverEditor
    | EditorA | EditorC | EditorD | EditorE | EditorF | EditorG | EditorH | EditorI | EditorJ | EditorL
    | GenericEditor

  /** The title under which the editor for section L is wired. */
  const SectionLTitleAsWritten: string := "L Further investigations and getting quotes"

  /** Editor routing on the active section id, with section L wired to a title no list contains. */
  function EditorForAsWritten(active: string): Editor
  {
    if active == FrontCover then FrontCoverEditor
    else if active == "A About the inspection" then EditorA
    else if active == "C About the property" then EditorC
    else if active == "D Outside the property" then EditorD
    else if active == "E Inside the property" then EditorE
    else if active == "F Services" then EditorF
    else if active == "G Grounds" then EditorG
    else if active == "H Issues for your legal advisers" then EditorH
    else if active == "I Risks" then EditorI
    else if active == "J Energy matters" then EditorJ
    else if active == SectionLTitleAsWritten then EditorL
    else GenericEditor
  }

  /** As wired, no section of either list opens the section L editor: "L What to do now" gets the generic one. */
  lemma SectionLUnreachableAsWritten(t: ReportType)
    ensures forall x :: x in Sections(t) ==> EditorForAsWritten(x) != EditorL
    ensures EditorForAsWritten(Sections(t)[12]) == GenericEditor
  {
    assert SectionLTitleAsWritten !in Sections(t);
  }

  /** Editor routing with section L wired to the title the section lists use. */
  function EditorFor(active: string): (e: Editor)
    ensures active == Level3Sections[12] ==> e == EditorL
    ensures active != Level3Sections[12] && active != SectionLTitleAsWritten ==> e == EditorForAsWritten(active)
  {
    if active == Level3Sections[12] then EditorL
    else if active == SectionLTitleAsWritten then GenericEditor
    else EditorForAsWritten(active)
  }

  /** Every editor, the section L editor included, is opened by some section of each list. */
  lemma EveryEditorReachable(t: ReportType, e: Editor)
    ensures exists i :: 0 <= i < |Sections(t)| && EditorFor(Sections(t)[i]) == e
  {
    var xs := Sections(t);
    var i := match e
      case FrontCoverEditor => 0 case EditorA => 1 case EditorC => 3 case EditorD => 4
      case EditorE => 5 case EditorF => 6 case EditorG => 7 case EditorH => 8 case EditorI => 9
      case EditorJ => 10 case EditorL => 12 case GenericEditor => 2;
    assert EditorFor(xs[i]) == e;
  }
}
