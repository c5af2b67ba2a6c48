/** Section A, "About the inspection": nine free-text fields, each with its own auto-fill list. */
module SectionA {
  import opened Wrappers
  import AutoText

  datatype SectionAData = SectionAData(
    surveyorName: string,
    surveyorRicsNumber: string,
    companyName: string,
    inspectionDate: string,
    reportReference: string,
    relatedPartyDisclosure: string,
    propertyAddress: string,
    weatherConditions: string,
    propertyStatus: string)

  /** The keys of `SectionAData`. */
  datatype Field =
    | SurveyorName | SurveyorRicsNumber | CompanyName | InspectionDate | ReportReference
    | RelatedPartyDisclosure | PropertyAddress | WeatherConditions | PropertyStatus

  /** The one-key partial a field handler emits: `{ [field]: value }`. */
  datatype Patch = Patch(field: Field, value: string)

  function Get(d: SectionAData, f: Field): string
  {
    match f
    case SurveyorName => d.surveyorName
    case SurveyorRicsNumber => d.surveyorRicsNumber
    case CompanyName => d.companyName
    case InspectionDate => d.inspectionDate
    case ReportReference => d.reportReference
    case RelatedPartyDisclosure => d.relatedPartyDisclosure
    case PropertyAddress => d.propertyAddress
    case WeatherConditions => d.weatherConditions
    case PropertyStatus => d.propertyStatus
  }

  /** `{ ...data, ...patch }`: the named field takes the new value, the other eight keep theirs. */
  function Apply(d: SectionAData, p: Patch): (r: SectionAData)
    ensures Get(r, p.field) == p.value
    ensures forall g :: g != p.field ==> Get(r, g) == Get(d, g)
  {
    match p.field
    case SurveyorName => d.(surveyorName := p.value)
    case SurveyorRicsNumber => d.(surveyorRicsNumber := p.value)
    case CompanyName => d.(companyName := p.value)
    case InspectionDate => d.(inspectionDate := p.value)
    case ReportReference => d.(reportReference := p.value)
    case RelatedPartyDisclosure => d.(relatedPartyDisclosure := p.value)
    case PropertyAddress => d.(propertyAddress := p.value)
    case WeatherConditions => d.(weatherConditions := p.value)
    case PropertyStatus => d.(propertyStatus := p.value)
  }

  /** The auto-fill select of one field: nothing for the blank option, else the appended text under that field's key. */
  function OnAutoFill(d: SectionAData, f: Field, selected: string): (r: Option<Patch>)
    ensures r.None? <==> selected == ""
    ensures r.Some? ==> r.value.field == f
    ensures r.Some? && Get(d, f) == "" ==> r.value.value == selected
    ensures r.Some? && Get(d, f) != "" ==> r.value.value == Get(d, f) + AutoText.Separator + selected
  {
    match AutoText.OnSelect(Get(d, f), selected)
    case None => None
    case Some(v) => Some(Patch(f, v))
  }

  /** The blank record a new report starts with (the inspection date is filled in with today's). */
  function Blank(today: string): (r: SectionAData)
    ensures forall f :: Get(r, f) == if f == InspectionDate then today else ""
  {
    SectionAData("", "", "", today, "", "", "", "", "")
  }
}
