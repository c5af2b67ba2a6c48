/**
 * Section H, "Issues for your legal advisers": three text-only subsections (h1-h3).
 */
module SectionH {
  import opened Wrappers
  import AutoText
  import Photos

  /** A section H subsection holds one text and no rating. */
  datatype HSubsection = HSubsection(text: string)

  /** `updateField('text', value)`: the text is replaced by the value. */
  function UpdateText(s: HSubsection, v: string): (r: HSubsection)
    ensures r.text == v
  {
    s.(text := v)
  }

  /** A chosen template: appended to the text as a new paragraph, or the whole text when it was empty. */
  function HandleAutoTextSelect(s: HSubsection, text: string): (r: HSubsection)
    ensures s.text == "" ==> r.text == text
    ensures s.text != "" ==> r.text == s.text + AutoText.Separator + text
  {
    UpdateText(s, AutoText.Append(s.text, text))
  }

  /** A fresh subsection: empty text. */
  function DefaultSubsection(): (r: HSubsection)
    ensures r.text == ""
  {
    HSubsection("")
  }

  /** A subsection's auto-text lookup key: its id followed by `_text`. */
  function AutoTextKey(id: string): string
  {
    AutoText.LookupKey(id, "text")
  }

  // A subsection's photo input is `Photos.FirstFile` tagged with the subsection id,
  // the same handler as in section D.

  /** The keys of the subsections of section H. */
  datatype Key =
    | H1Regulation
    | H2Guarantees
    | H3OtherMatters

  datatype SectionHData = SectionHData(
    h1Regulation: HSubsection,
    h2Guarantees: HSubsection,
    h3OtherMatters: HSubsection)

  /** The subsection table, in display order. */
  const Keys: seq<Key> := [H1Regulation, H2Guarantees, H3OtherMatters]

  function Id(k: Key): string
  {
    match k
    case H1Regulation => "h1"
    case H2Guarantees => "h2"
    case H3OtherMatters => "h3"
  }

  /** A subsection's title. */
  function Title(k: Key): string
  {
    match k
    case H1Regulation => "H1 Regulation"
    case H2Guarantees => "H2 Guarantees"
    case H3OtherMatters => "H3 Other Matters"
  }

  function Get(d: SectionHData, k: Key): HSubsection
  {
    match k
    case H1Regulation => d.h1Regulation
    case H2Guarantees => d.h2Guarantees
    case H3OtherMatters => d.h3OtherMatters
  }

  /** `{ ...data, [key]: s }` */
  function WithSubsection(d: SectionHData, k: Key, s: HSubsection): (r: SectionHData)
    ensures Get(r, k) == s
    ensures forall j :: j != k ==> Get(r, j) == Get(d, j)
  {
    match k
    case H1Regulation => d.(h1Regulation := s)
    case H2Guarantees => d.(h2Guarantees := s)
    case H3OtherMatters => d.(h3OtherMatters := s)
  }

  /** The partial the section emits: one whole subsection. */
  datatype Patch = SubsectionEdit(key: Key, subsection: HSubsection)

  /** `{ ...sectionHData, ...patch }`: only the subsection the partial names changes. */
  function Apply(d: SectionHData, p: Patch): (r: SectionHData)
    ensures Get(r, p.key) == p.subsection
    ensures forall j :: j != p.key ==> Get(r, j) == Get(d, j)
  {
    WithSubsection(d, p.key, p.subsection)
  }

  /** Choosing a template in subsection `k` changes only that subsection's text. */
  lemma AutoTextTouchesOneSubsection(d: SectionHData, k: Key, text: string)
    ensures var r := Apply(d, SubsectionEdit(k, HandleAutoTextSelect(Get(d, k), text)));
      && Get(r, k).text == AutoText.Append(Get(d, k).text, text)
      && (forall j :: j != k ==> Get(r, j) == Get(d, j))
  {
  }

  /** The record a new report starts with: every subsection fresh. */
  function Default(): (r: SectionHData)
    ensures forall k :: Get(r, k) == DefaultSubsection()
  {
    var s := DefaultSubsection();
    SectionHData(s, s, s)
  }

  /** The table lists every key exactly once. */
  lemma KeysCoverEveryKey(k: Key)
    ensures k in Keys
    ensures forall i, j :: 0 <= i < j < |Keys| ==> Keys[i] != Keys[j]
  {
  }

  /** Subsection ids are distinct and free of underscores. */
  lemma IdInjective(k1: Key, k2: Key)
    ensures Id(k1) == Id(k2) ==> k1 == k2
    ensures '_' !in Id(k1)
  {
  }

  /** Different subsections of section H never share an auto-text key. */
  lemma AutoTextKeysDistinct(k1: Key, k2: Key)
    requires AutoTextKey(Id(k1)) == AutoTextKey(Id(k2))
    ensures k1 == k2
  {
    IdInjective(k1, k2);
    IdInjective(k2, k1);
    AutoText.LookupKeyInjective(Id(k1), "text", Id(k2), "text");
  }

}
