/**
 * Section G, "Grounds": a limitations text and three rated subsections (g1-g3), each
 * the same subsection record as section D.
 */
module SectionG {
  import SectionD


  /** The keys of the subsections of section G. */
  datatype Key =
    | G1Garage
    | G2Outbuildings
    | G3Other

  datatype SectionGData = SectionGData(
    limitationsText: string,
    g1Garage: SectionD.Subsection,
    g2Outbuildings: SectionD.Subsection,
    g3Other: SectionD.Subsection)

  /** The subsection table, in display order. */
  const Keys: seq<Key> := [G1Garage, G2Outbuildings, G3Other]

  function Id(k: Key): string
  {
    match k
    case G1Garage => "g1"
    case G2Outbuildings => "g2"
    case G3Other => "g3"
  }

  /** A subsection's title. */
  function Title(k: Key): string
  {
    match k
    case G1Garage => "G1 Garage"
    case G2Outbuildings => "G2 Permanent outbuildings and other structures"
    case G3Other => "G3 Other"
  }

  function Get(d: SectionGData, k: Key): SectionD.Subsection
  {
    match k
    case G1Garage => d.g1Garage
    case G2Outbuildings => d.g2Outbuildings
    case G3Other => d.g3Other
  }

  /** `{ ...data, [key]: s }` */
  function WithSubsection(d: SectionGData, k: Key, s: SectionD.Subsection): (r: SectionGData)
    ensures Get(r, k) == s
    ensures forall j :: j != k ==> Get(r, j) == Get(d, j)
    ensures r.limitationsText == d.limitationsText
  {
    match k
    case G1Garage => d.(g1Garage := s)
    case G2Outbuildings => d.(g2Outbuildings := s)
    case G3Other => d.(g3Other := s)
  }

  /** The partials the section emits: the limitations text, or one whole subsection. */
  datatype Patch = Limitations(text: string) | SubsectionEdit(key: Key, subsection: SectionD.Subsection)

  /** `{ ...sectionGData, ...patch }`: only the key the partial names changes. */
  function Apply(d: SectionGData, p: Patch): (r: SectionGData)
    ensures p.Limitations? ==> r.limitationsText == p.text && forall j :: Get(r, j) == Get(d, j)
    ensures p.SubsectionEdit? ==> Get(r, p.key) == p.subsection && r.limitationsText == d.limitationsText
    ensures p.SubsectionEdit? ==> forall j :: j != p.key ==> Get(r, j) == Get(d, j)
  {
    match p
    case Limitations(t) => d.(limitationsText := t)
    case SubsectionEdit(k, s) => WithSubsection(d, k, s)
  }

  /** A field edit inside subsection `k`, as the section emits it and the report merges it. */
  lemma FieldEditTouchesOneField(d: SectionGData, k: Key, f: SectionD.TextField, v: string)
    ensures var r := Apply(d, SubsectionEdit(k, SectionD.UpdateText(Get(d, k), f, v)));
      && SectionD.TextOf(Get(r, k), f) == v
      && Get(r, k).rating == Get(d, k).rating
      && (forall g :: g != f ==> SectionD.TextOf(Get(r, k), g) == SectionD.TextOf(Get(d, k), g))
      && (forall j :: j != k ==> Get(r, j) == Get(d, j))
      && r.limitationsText == d.limitationsText
  {
  }

  /** The standard limitations text a new section G starts with. */
  const LimitationsText: string :=
    "The condition of the boundary walls and fences, outbuildings and areas in common (shared) use was inspected from within the grounds and any public areas, but not from neighbouring private property. The report provides a summary of the general condition of any garden walls, fences and permanent outbuildings."

  /** The record a new report starts with: fresh subsections and the standard limitations text. */
  function Default(): (r: SectionGData)
    ensures r.limitationsText == LimitationsText != ""
    ensures forall k :: Get(r, k) == SectionD.DefaultSubsection()
  {
    var s := SectionD.DefaultSubsection();
    SectionGData(LimitationsText, s, s, s)
  }

  /** The table lists every key exactly once. */
  lemma KeysCoverEveryKey(k: Key)
    ensures k in Keys
    ensures forall i, j :: 0 <= i < j < |Keys| ==> Keys[i] != Keys[j]
  {
  }

  /** Subsection ids are distinct and free of underscores. */
  lemma IdInjective(k1: Key, k2: Key)
    ensures Id(k1) == Id(k2) ==> k1 == k2
    ensures '_' !in Id(k1)
  {
  }

  /** Different subsections or fields of section G never share an auto-text key. */
  lemma AutoTextKeysDistinct(k1: Key, f1: SectionD.TextField, k2: Key, f2: SectionD.TextField)
    requires SectionD.AutoTextKey(Id(k1), f1) == SectionD.AutoTextKey(Id(k2), f2)
    ensures k1 == k2 && f1 == f2
  {
    IdInjective(k1, k2);
    IdInjective(k2, k1);
    SectionD.AutoTextKeyInjective(Id(k1), f1, Id(k2), f2);
  }

}
