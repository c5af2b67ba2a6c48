/**
 * Section D, "Outside the property": a limitations text and nine rated subsections
 * (d1-d9). The subsection record and its edits are shared with section G.
 */
module SectionD {
  import opened Wrappers
  import AutoText
  import Photos

  /** A subsection's condition rating: '1', '2', '3' or 'NI' (not inspected); `None` is null. */
  datatype SubRating = One | Two | Three | NotInspected

  datatype Subsection = Subsection(
    rating: Option<SubRating>,
    typeConstruction: string,
    condition: string,
    action: string)

  /** The three text keys of a subsection. */
  datatype TextField = TypeConstruction | Condition | Action

  function TextOf(s: Subsection, f: TextField): string
  {
    match f
    case TypeConstruction => s.typeConstruction
    case Condition => s.condition
    case Action => s.action
  }

  /** The key name, as used in auto-text lookup keys. */
  function FieldName(f: TextField): string
  {
    match f
    case TypeConstruction => "typeConstruction"
    case Condition => "condition"
    case Action => "action"
  }

  /** The code a rating is stored and shown as. */
  function RatingCode(g: SubRating): string
  {
    match g
    case One => "1"
    case Two => "2"
    case Three => "3"
    case NotInspected => "NI"
  }

  /** The rating buttons, in display order; each one sets its own rating. */
  const RatingButtons: seq<SubRating> := [One, Two, Three, NotInspected]

  /** `updateField(field, value)` on a text key: only that key is replaced. */
  function UpdateText(s: Subsection, f: TextField, v: string): (r: Subsection)
    ensures TextOf(r, f) == v
    ensures forall g :: g != f ==> TextOf(r, g) == TextOf(s, g)
    ensures r.rating == s.rating
  {
    match f
    case TypeConstruction => s.(typeConstruction := v)
    case Condition => s.(condition := v)
    case Action => s.(action := v)
  }

  /** `updateField('rating', value)` from a rating button: only the rating is replaced. */
  function UpdateRating(s: Subsection, g: SubRating): (r: Subsection)
    ensures r.rating == Some(g)
    ensures forall f :: TextOf(r, f) == TextOf(s, f)
  {
    s.(rating := Some(g))
  }

  /**
   * A template chosen from a field's auto-text menu: appended to the field as a new
   * paragraph, or the whole field when it was empty. There is no blank option here.
   */
  function HandleAutoTextSelect(s: Subsection, f: TextField, text: string): (r: Subsection)
    ensures TextOf(s, f) == "" ==> TextOf(r, f) == text
    ensures TextOf(s, f) != "" ==> TextOf(r, f) == TextOf(s, f) + AutoText.Separator + text
    ensures forall g :: g != f ==> TextOf(r, g) == TextOf(s, g)
    ensures r.rating == s.rating
  {
    UpdateText(s, f, AutoText.Append(TextOf(s, f), text))
  }

  /** The header badge: the rating code, or "NR" when there is no rating. */
  function Badge(rating: Option<SubRating>): (r: string)
    ensures r == "NR" <==> rating.None?
    ensures rating.Some? ==> r == RatingCode(rating.value)
  {
    match rating
    case None => "NR"
    case Some(g) => RatingCode(g)
  }

  /** The badge tells every rating apart, and the buttons offer every rating once. */
  lemma BadgeDistinguishesRatings(a: Option<SubRating>, b: Option<SubRating>)
    ensures Badge(a) == Badge(b) <==> a == b
    ensures a.Some? ==> a.value in RatingButtons
    ensures forall i, j :: 0 <= i < j < |RatingButtons| ==> RatingButtons[i] != RatingButtons[j]
  {
  }

  /** A fresh subsection: no rating and empty texts. */
  function DefaultSubsection(): (r: Subsection)
    ensures r.rating.None?
    ensures forall f :: TextOf(r, f) == ""
  {
    Subsection(None, "", "", "")
  }

  /** A subsection's auto-text lookup key: its id, an underscore and the field name. */
  function AutoTextKey(id: string, f: TextField): string
  {
    AutoText.LookupKey(id, FieldName(f))
  }

  /** Under ids without underscores, different (id, field) pairs look up different keys. */
  lemma AutoTextKeyInjective(id1: string, f1: TextField, id2: string, f2: TextField)
    requires '_' !in id1 && '_' !in id2
    requires AutoTextKey(id1, f1) == AutoTextKey(id2, f2)
    ensures id1 == id2 && f1 == f2
  {
    AutoText.LookupKeyInjective(id1, FieldName(f1), id2, FieldName(f2));
  }

  // A subsection's photo input is `Photos.FirstFile` tagged with the subsection id.

  /** The keys of the nine subsections of section D. */
  datatype Key =
    | D1ChimneyStacks
    | D2RoofCoverings
    | D3RainwaterPipesGutters
    | D4MainWalls
    | D5Windows
    | D6OutsideDoors
    | D7ConservatoryPorches
    | D8OtherJoinery
    | D9Other

  datatype SectionDData = SectionDData(
    limitationsText: string,
    d1ChimneyStacks: Subsection,
    d2RoofCoverings: Subsection,
    d3RainwaterPipesGutters: Subsection,
    d4MainWalls: Subsection,
    d5Windows: Subsection,
    d6OutsideDoors: Subsection,
    d7ConservatoryPorches: Subsection,
    d8OtherJoinery: Subsection,
    d9Other: Subsection)

  /** The subsection table, in display order. */
  const Keys: seq<Key> := [D1ChimneyStacks, D2RoofCoverings, D3RainwaterPipesGutters, D4MainWalls, D5Windows, D6OutsideDoors, D7ConservatoryPorches, D8OtherJoinery, D9Other]

  /** A subsection's title. */
  function Title(k: Key): string
  {
    match k
    case D1ChimneyStacks => "D1 Chimney stacks"
    case D2RoofCoverings => "D2 Roof coverings"
    case D3RainwaterPipesGutters => "D3 Rainwater pipes and gutters"
    case D4MainWalls => "D4 Main walls"
    case D5Windows => "D5 Windows"
    case D6OutsideDoors => "D6 Outside doors (including patio doors)"
    case D7ConservatoryPorches => "D7 Conservatory and porches"
    case D8OtherJoinery => "D8 Other joinery and finishes"
    case D9Other => "D9 Other"
  }

  function Id(k: Key): string
  {
    match k
    case D1ChimneyStacks => "d1"
    case D2RoofCoverings => "d2"
    case D3RainwaterPipesGutters => "d3"
    case D4MainWalls => "d4"
    case D5Windows => "d5"
    case D6OutsideDoors => "d6"
    case D7ConservatoryPorches => "d7"
    case D8OtherJoinery => "d8"
    case D9Other => "d9"
  }

  function Get(d: SectionDData, k: Key): Subsection
  {
    match k
    case D1ChimneyStacks => d.d1ChimneyStacks
    case D2RoofCoverings => d.d2RoofCoverings
    case D3RainwaterPipesGutters => d.d3RainwaterPipesGutters
    case D4MainWalls => d.d4MainWalls
    case D5Windows => d.d5Windows
    case D6OutsideDoors => d.d6OutsideDoors
    case D7ConservatoryPorches => d.d7ConservatoryPorches
    case D8OtherJoinery => d.d8OtherJoinery
    case D9Other => d.d9Other
  }

  /** Both records agree on every subsection except perhaps `k`. */
  predicate SameExcept(d: SectionDData, r: SectionDData, k: Option<Key>)
  {
    && (k != Some(D1ChimneyStacks) ==> r.d1ChimneyStacks == d.d1ChimneyStacks)
    && (k != Some(D2RoofCoverings) ==> r.d2RoofCoverings == d.d2RoofCoverings)
    && (k != Some(D3RainwaterPipesGutters) ==> r.d3RainwaterPipesGutters == d.d3RainwaterPipesGutters)
    && (k != Some(D4MainWalls) ==> r.d4MainWalls == d.d4MainWalls)
    && (k != Some(D5Windows) ==> r.d5Windows == d.d5Windows)
    && (k != Some(D6OutsideDoors) ==> r.d6OutsideDoors == d.d6OutsideDoors)
    && (k != Some(D7ConservatoryPorches) ==> r.d7ConservatoryPorches == d.d7ConservatoryPorches)
    && (k != Some(D8OtherJoinery) ==> r.d8OtherJoinery == d.d8OtherJoinery)
    && (k != Some(D9Other) ==> r.d9Other == d.d9Other)
  }

  lemma SameExceptAgree(d: SectionDData, r: SectionDData, k: Option<Key>)
    requires SameExcept(d, r, k)
    ensures forall j :: Some(j) != k ==> Get(r, j) == Get(d, j)
  {
  }

  /** `{ ...data, [key]: s }` */
  function WithSubsection(d: SectionDData, k: Key, s: Subsection): (r: SectionDData)
    ensures Get(r, k) == s
    ensures r.limitationsText == d.limitationsText
    ensures SameExcept(d, r, Some(k))
  {
    match k
    case D1ChimneyStacks => d.(d1ChimneyStacks := s)
    case D2RoofCoverings => d.(d2RoofCoverings := s)
    case D3RainwaterPipesGutters => d.(d3RainwaterPipesGutters := s)
    case D4MainWalls => d.(d4MainWalls := s)
    case D5Windows => d.(d5Windows := s)
    case D6OutsideDoors => d.(d6OutsideDoors := s)
    case D7ConservatoryPorches => d.(d7ConservatoryPorches := s)
    case D8OtherJoinery => d.(d8OtherJoinery := s)
    case D9Other => d.(d9Other := s)
  }

  /** The partials the section emits: the limitations text, or one whole subsection. */
  datatype Patch = Limitations(text: string) | SubsectionEdit(key: Key, subsection: Subsection)

  /** `{ ...sectionDData, ...patch }`: only the key the partial names changes. */
  function Apply(d: SectionDData, p: Patch): (r: SectionDData)
    ensures p.Limitations? ==> r.limitationsText == p.text
    ensures p.Limitations? ==> forall j :: Get(r, j) == Get(d, j)
    ensures p.SubsectionEdit? ==> Get(r, p.key) == p.subsection && r.limitationsText == d.limitationsText
    ensures p.SubsectionEdit? ==> forall j :: j != p.key ==> Get(r, j) == Get(d, j)
  {
    match p
    case Limitations(t) =>
      var r := d.(limitationsText := t);
      assert SameExcept(d, r, None);
      SameExceptAgree(d, r, None);
      r
    case SubsectionEdit(k, s) =>
      var r := WithSubsection(d, k, s);
      SameExceptAgree(d, r, Some(k));
      r
  }

  /** A field edit inside subsection `k`, as the section emits it and the report merges it. */
  lemma FieldEditTouchesOneField(d: SectionDData, k: Key, f: TextField, v: string)
    ensures var r := Apply(d, SubsectionEdit(k, UpdateText(Get(d, k), f, v)));
      && TextOf(Get(r, k), f) == v
      && Get(r, k).rating == Get(d, k).rating
      && (forall g :: g != f ==> TextOf(Get(r, k), g) == TextOf(Get(d, k), g))
      && (forall j :: j != k ==> Get(r, j) == Get(d, j))
      && r.limitationsText == d.limitationsText
  {
  }

  /** The standard limitations paragraphs a new section D starts with. */
  const LimitationsText: string :=
    "A visual non-invasive inspection of the outside of the main building was carried out from various points within the boundaries of the property and from public areas such as footpaths and open spaces, without entering neighbouring private property unless permission had been expressly granted.\n\nHigh level features were inspected either by using binoculars, a ladder, or with the aid of a drone equipped with a high definition camera.\n\nWhere external walls are covered with finishes such as render or paint, the wall surface beneath cannot be directly viewed and it is assumed that no unusual defects exist within these concealed areas.\n\nNo tests have been carried out to either trace or establish the structure or condition of any underground drainage."

  /** The record a new report starts with: nine fresh subsections and the standard limitations text. */
  function Default(): (r: SectionDData)
    ensures r.limitationsText == LimitationsText != ""
    ensures forall k :: Get(r, k) == DefaultSubsection()
  {
    var s := DefaultSubsection();
    SectionDData(
      LimitationsText,
      s, s, s, s, s, s, s, s, s)
  }

  /** The table lists every key exactly once. */
  lemma KeysCoverEveryKey(k: Key)
    ensures k in Keys
    ensures forall i, j :: 0 <= i < j < |Keys| ==> Keys[i] != Keys[j]
  {
  }

  /** Subsection ids are distinct and free of underscores. */
  lemma IdInjective(k1: Key, k2: Key)
    ensures Id(k1) == Id(k2) ==> k1 == k2
    ensures '_' !in Id(k1)
  {
  }

  /** Different subsections or fields of section D never share an auto-text key. */
  lemma AutoTextKeysDistinct(k1: Key, f1: TextField, k2: Key, f2: TextField)
    requires AutoTextKey(Id(k1), f1) == AutoTextKey(Id(k2), f2)
    ensures k1 == k2 && f1 == f2
  {
    IdInjective(k1, k2);
    IdInjective(k2, k1);
    AutoTextKeyInjective(Id(k1), f1, Id(k2), f2);
  }
}
