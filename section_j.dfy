/**
 * Section J, "Energy matters": five free-text fields (j1-j5), each with its own
 * auto-text menu and photo input.
 */
module SectionJ {
  import opened Wrappers
  import AutoText
  import Photos

  datatype SectionJData = SectionJData(
    insulation: string,
    heating: string,
    lighting: string,
    ventilation: string,
    general: string)

  /** The five keys of `SectionJData`, in display order j1-j5. */
  datatype Field = Insulation | Heating | Lighting | Ventilation | General

  /** The one-key partial a field emits. */
  datatype Patch = Patch(field: Field, value: string)

  function Get(d: SectionJData, f: Field): string
  {
    match f
    case Insulation => d.insulation
    case Heating => d.heating
    case Lighting => d.lighting
    case Ventilation => d.ventilation
    case General => d.general
  }

  /** The field's id, which tags its photos. */
  function Id(f: Field): string
  {
    match f
    case Insulation => "j1"
    case Heating => "j2"
    case Lighting => "j3"
    case Ventilation => "j4"
    case General => "j5"
  }

  /** The key of the field's auto-text list: the field name itself, not its id. */
  function TemplateKey(f: Field): string
  {
    match f
    case Insulation => "insulation"
    case Heating => "heating"
    case Lighting => "lighting"
    case Ventilation => "ventilation"
    case General => "general"
  }

  /** `{ ...sectionJData, ...patch }`: the named field takes the value, the other four keep theirs. */
  function Apply(d: SectionJData, p: Patch): (r: SectionJData)
    ensures Get(r, p.field) == p.value
    ensures forall g :: g != p.field ==> Get(r, g) == Get(d, g)
  {
    match p.field
    case Insulation => d.(insulation := p.value)
    case Heating => d.(heating := p.value)
    case Lighting => d.(lighting := p.value)
    case Ventilation => d.(ventilation := p.value)
    case General => d.(general := p.value)
  }

  /** Typing in a field: the field's whole value becomes the textarea's value. */
  function OnType(f: Field, v: string): (r: Patch)
    ensures r.field == f && r.value == v
  {
    Patch(f, v)
  }

  /** A template chosen in a field's menu (there is no blank option): appended as a new paragraph. */
  function OnAutoText(d: SectionJData, f: Field, text: string): (r: Patch)
    ensures r.field == f
    ensures Get(d, f) == "" ==> r.value == text
    ensures Get(d, f) != "" ==> r.value == Get(d, f) + AutoText.Separator + text
  {
    Patch(f, AutoText.Append(Get(d, f), text))
  }

  /** A field's photo input: only the first chosen file, tagged with that field's id. */
  function OnPhotoInput<F>(f: Field, files: seq<F>): (r: Option<(string, F)>)
    ensures r.None? <==> files == []
    ensures r.Some? ==> r.value == (Id(f), files[0])
  {
    Photos.FirstFile(Id(f), files)
  }

  /** Field ids and template keys tell the fields apart. */
  lemma IdsDistinct(f: Field, g: Field)
    ensures Id(f) == Id(g) ==> f == g
    ensures TemplateKey(f) == TemplateKey(g) ==> f == g
  {
  }

  /** The record a new report starts with: all five fields empty. */
  function Blank(): (r: SectionJData)
    ensures forall f :: Get(r, f) == ""
  {
    SectionJData("", "", "", "", "")
  }
}
