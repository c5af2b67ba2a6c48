/** The generic report section editor: free text, a condition rating and a photo drop zone. */
module SectionView {
  import opened Wrappers
  import opened Photos
  import AutoText

  /** A condition rating grade: 1, 2 or 3. */
  type Grade = g: int | 1 <= g <= 3 witness 1

  /** `ConditionRating = 1 | 2 | 3 | null`. */
  datatype ConditionRating = Unrated | Rated(grade: Grade)

  /** What the section editor reports to its owner through its callbacks. */
  datatype SectionEvent =
    | ContentChanged(content: string)
    | RatingChanged(rating: ConditionRating)
    | PhotoRemoved(photoId: string)

  /** The three rating buttons, in the order shown; each emits its own grade. */
  function RatingButtons(): (r: seq<SectionEvent>)
    ensures |r| == 3
    ensures forall i :: 0 <= i < 3 ==> r[i] == RatingChanged(Rated(i + 1))
  {
    [RatingChanged(Rated(1)), RatingChanged(Rated(2)), RatingChanged(Rated(3))]
  }

  /** Every rating a button can set is a grade; no button clears the rating. */
  lemma RatingButtonsCoverGrades(g: Grade)
    ensures RatingChanged(Rated(g)) in RatingButtons()
    ensures forall e :: e in RatingButtons() ==> e.RatingChanged? && e.rating != Unrated
  {
    assert RatingButtons()[g - 1] == RatingChanged(Rated(g));
  }

  /** The auto-fill select: the blank option emits nothing, a template is appended to the notes. */
  function OnTemplateSelect(content: string, selected: string): (r: Option<SectionEvent>)
    ensures r.None? <==> selected == ""
    ensures r.Some? ==> r.value.ContentChanged? && r.value.content == AutoText.Append(content, selected)
  {
    if selected == "" then None else Some(ContentChanged(AutoText.Append(content, selected)))
  }

  /** The remove button on the i-th photo of the drop zone emits that photo's id. */
  function OnRemoveClick(photos: seq<Photo>, i: nat): (r: SectionEvent)
    requires i < |photos|
    ensures r.PhotoRemoved? && r.photoId == Ids(photos)[i]
  {
    PhotoRemoved(photos[i].id)
  }
}
