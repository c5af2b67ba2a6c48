/**
 * Section L, "Further investigations and getting quotes": one notes field with an
 * auto-text menu and a photo input.
 */
module SectionL {
  import opened Wrappers
  import AutoText
  import Photos

  datatype SectionLData = SectionLData(content: string)

  /** The only partial the section emits: `{ content }`. */
  datatype Patch = Patch(content: string)

  /** The tag every photo added from this section carries. */
  const PhotoTag: string := "l1"

  /** The key of the section's auto-text list. */
  const TemplateKey: string := "content"

  /** `{ ...sectionLData, ...patch }` */
  function Apply(d: SectionLData, p: Patch): (r: SectionLData)
    ensures r.content == p.content
  {
    d.(content := p.content)
  }

  /** Typing: the content becomes the textarea's value. */
  function OnType(v: string): (r: Patch)
    ensures r.content == v
  {
    Patch(v)
  }

  /** A chosen template: appended to the content as a new paragraph, or the whole content when empty. */
  function OnAutoText(d: SectionLData, text: string): (r: Patch)
    ensures d.content == "" ==> r.content == text
    ensures d.content != "" ==> r.content == d.content + AutoText.Separator + text
  {
    Patch(AutoText.Append(d.content, text))
  }

  /** The photo input: only the first chosen file, always tagged `l1`. */
  function OnPhotoInput<F>(files: seq<F>): (r: Option<(string, F)>)
    ensures r.None? <==> files == []
    ensures r.Some? ==> r.value == (PhotoTag, files[0])
  {
    Photos.FirstFile(PhotoTag, files)
  }

  /** Templates chosen one after another keep what was typed and add each as its own paragraph. */
  lemma TypedThenTemplates(typed: string, texts: seq<string>)
    requires typed != ""
    requires forall i :: 0 <= i < |texts| ==> texts[i] != ""
    ensures texts != [] ==>
      AutoText.AppendAll(Apply(SectionLData(""), OnType(typed)).content, texts)
        == typed + AutoText.Separator + AutoText.Paragraphs(texts)
  {
    AutoText.AppendAllIsParagraphs(typed, texts);
  }

  /** The record a new report starts with. */
  function Blank(): (r: SectionLData)
    ensures r.content == ""
  {
    SectionLData("")
  }
}
