/**
 * Section C, "About the property": free-text fields with auto-fill, an 18-cell
 * accommodation table (ground and first floor) and nine service/heating checkboxes.
 */
module SectionC {
  import opened Wrappers
  import AutoText

  /** The accommodation table, one text cell per room kind and floor. */
  datatype Accommodation = Accommodation(
    groundLivingRooms: string,
    groundBedrooms: string,
    groundBathShower: string,
    groundToilet: string,
    groundKitchen: string,
    groundUtility: string,
    groundConservatory: string,
    groundOther: string,
    groundOtherName: string,
    firstLivingRooms: string,
    firstBedrooms: string,
    firstBathShower: string,
    firstToilet: string,
    firstKitchen: string,
    firstUtility: string,
    firstConservatory: string,
    firstOther: string,
    firstOtherName: string)

  /** The cells of the accommodation table. */
  datatype Cell =
    | GroundLivingRooms
    | GroundBedrooms
    | GroundBathShower
    | GroundToilet
    | GroundKitchen
    | GroundUtility
    | GroundConservatory
    | GroundOther
    | GroundOtherName
    | FirstLivingRooms
    | FirstBedrooms
    | FirstBathShower
    | FirstToilet
    | FirstKitchen
    | FirstUtility
    | FirstConservatory
    | FirstOther
    | FirstOtherName

  datatype SectionCData = SectionCData(
    propertyType: string,
    yearBuilt: string,
    yearExtended: string,
    yearConverted: string,
    flatsInfo: string,
    construction: string,
    accommodation: Accommodation,
    meansOfEscape: string,
    epcRating: string,
    epcPotential: string,
    energyImprovements: string,
    energyIssues: string,
    gasService: bool,
    electricService: bool,
    waterService: bool,
    drainageService: bool,
    heatingGas: bool,
    heatingElectric: bool,
    heatingSolidFuel: bool,
    heatingOil: bool,
    heatingNone: bool,
    otherServices: string,
    otherEnergyMatters: string)

  /** The free-text keys of `SectionCData` (each shown as an auto-fill field). */
  datatype TextField =
    | PropertyType
    | YearBuilt
    | YearExtended
    | YearConverted
    | FlatsInfo
    | Construction
    | MeansOfEscape
    | EpcRating
    | EpcPotential
    | EnergyImprovements
    | EnergyIssues
    | OtherServices
    | OtherEnergyMatters

  /** The checkbox keys of `SectionCData`. */
  datatype Checkbox =
    | GasService
    | ElectricService
    | WaterService
    | DrainageService
    | HeatingGas
    | HeatingElectric
    | HeatingSolidFuel
    | HeatingOil
    | HeatingNone

  /** The one-key partials the editor emits. */
  datatype Patch =
    | TextPatch(field: TextField, text: string)
    | AccommodationPatch(accommodation: Accommodation)
    | CheckboxPatch(box: Checkbox, checked: bool)

  function CellValue(a: Accommodation, c: Cell): string
  {
    match c
    case GroundLivingRooms => a.groundLivingRooms
    case GroundBedrooms => a.groundBedrooms
    case GroundBathShower => a.groundBathShower
    case GroundToilet => a.groundToilet
    case GroundKitchen => a.groundKitchen
    case GroundUtility => a.groundUtility
    case GroundConservatory => a.groundConservatory
    case GroundOther => a.groundOther
    case GroundOtherName => a.groundOtherName
    case FirstLivingRooms => a.firstLivingRooms
    case FirstBedrooms => a.firstBedrooms
    case FirstBathShower => a.firstBathShower
    case FirstToilet => a.firstToilet
    case FirstKitchen => a.firstKitchen
    case FirstUtility => a.firstUtility
    case FirstConservatory => a.firstConservatory
    case FirstOther => a.firstOther
    case FirstOtherName => a.firstOtherName
  }

  /**
   * A cell's input handler: `{ accommodation: { ...data.accommodation, [cell]: value } }`.
   * Only that cell differs; the other 17 are carried over.
   */
  function WithCell(a: Accommodation, c: Cell, v: string): (r: Accommodation)
    ensures CellValue(r, c) == v
    ensures forall other :: other != c ==> CellValue(r, other) == CellValue(a, other)
  {
    match c
    case GroundLivingRooms => a.(groundLivingRooms := v)
    case GroundBedrooms => a.(groundBedrooms := v)
    case GroundBathShower => a.(groundBathShower := v)
    case GroundToilet => a.(groundToilet := v)
    case GroundKitchen => a.(groundKitchen := v)
    case GroundUtility => a.(groundUtility := v)
    case GroundConservatory => a.(groundConservatory := v)
    case GroundOther => a.(groundOther := v)
    case GroundOtherName => a.(groundOtherName := v)
    case FirstLivingRooms => a.(firstLivingRooms := v)
    case FirstBedrooms => a.(firstBedrooms := v)
    case FirstBathShower => a.(firstBathShower := v)
    case FirstToilet => a.(firstToilet := v)
    case FirstKitchen => a.(firstKitchen := v)
    case FirstUtility => a.(firstUtility := v)
    case FirstConservatory => a.(firstConservatory := v)
    case FirstOther => a.(firstOther := v)
    case FirstOtherName => a.(firstOtherName := v)
  }

  function Text(d: SectionCData, f: TextField): string
  {
    match f
    case PropertyType => d.propertyType
    case YearBuilt => d.yearBuilt
    case YearExtended => d.yearExtended
    case YearConverted => d.yearConverted
    case FlatsInfo => d.flatsInfo
    case Construction => d.construction
    case MeansOfEscape => d.meansOfEscape
    case EpcRating => d.epcRating
    case EpcPotential => d.epcPotential
    case EnergyImprovements => d.energyImprovements
    case EnergyIssues => d.energyIssues
    case OtherServices => d.otherServices
    case OtherEnergyMatters => d.otherEnergyMatters
  }

  function Checked(d: SectionCData, b: Checkbox): bool
  {
    match b
    case GasService => d.gasService
    case ElectricService => d.electricService
    case WaterService => d.waterService
    case DrainageService => d.drainageService
    case HeatingGas => d.heatingGas
    case HeatingElectric => d.heatingElectric
    case HeatingSolidFuel => d.heatingSolidFuel
    case HeatingOil => d.heatingOil
    case HeatingNone => d.heatingNone
  }

  /** Every key of `SectionCData` other than the one a patch names keeps its value. */
  predicate OnlyKeyChanged(d: SectionCData, r: SectionCData, p: Patch)
  {
    && (forall f :: !(p.TextPatch? && p.field == f) ==> Text(r, f) == Text(d, f))
    && (forall b :: !(p.CheckboxPatch? && p.box == b) ==> Checked(r, b) == Checked(d, b))
    && (!p.AccommodationPatch? ==> r.accommodation == d.accommodation)
  }

  /** Setting one text key: that key takes the value, every other key keeps its own. */
  function WithText(d: SectionCData, f: TextField, v: string): (r: SectionCData)
    ensures Text(r, f) == v
    ensures forall g :: g != f ==> Text(r, g) == Text(d, g)
    ensures forall b :: Checked(r, b) == Checked(d, b)
    ensures r.accommodation == d.accommodation
  {
    match f
    case PropertyType => d.(propertyType := v)
    case YearBuilt => d.(yearBuilt := v)
    case YearExtended => d.(yearExtended := v)
    case YearConverted => d.(yearConverted := v)
    case FlatsInfo => d.(flatsInfo := v)
    case Construction => d.(construction := v)
    case MeansOfEscape => d.(meansOfEscape := v)
    case EpcRating => d.(epcRating := v)
    case EpcPotential => d.(epcPotential := v)
    case EnergyImprovements => d.(energyImprovements := v)
    case EnergyIssues => d.(energyIssues := v)
    case OtherServices => d.(otherServices := v)
    case OtherEnergyMatters => d.(otherEnergyMatters := v)
  }

  /** Setting one checkbox: that box takes the value, every other key keeps its own. */
  function WithChecked(d: SectionCData, b: Checkbox, v: bool): (r: SectionCData)
    ensures Checked(r, b) == v
    ensures forall c :: c != b ==> Checked(r, c) == Checked(d, c)
    ensures forall f :: Text(r, f) == Text(d, f)
    ensures r.accommodation == d.accommodation
  {
    var r := WithCheckedField(d, b, v);
    SameTextsAgree(d, r);
    SameChecksAgree(d, r, b);
    r
  }

  /** Both records hold the same thirteen texts. */
  predicate SameTexts(d: SectionCData, r: SectionCData)
  {
    && r.propertyType == d.propertyType
    && r.yearBuilt == d.yearBuilt
    && r.yearExtended == d.yearExtended
    && r.yearConverted == d.yearConverted
    && r.flatsInfo == d.flatsInfo
    && r.construction == d.construction
    && r.meansOfEscape == d.meansOfEscape
    && r.epcRating == d.epcRating
    && r.epcPotential == d.epcPotential
    && r.energyImprovements == d.energyImprovements
    && r.energyIssues == d.energyIssues
    && r.otherServices == d.otherServices
    && r.otherEnergyMatters == d.otherEnergyMatters
  }

  lemma SameTextsAgree(d: SectionCData, r: SectionCData)
    requires SameTexts(d, r)
    ensures forall f :: Text(r, f) == Text(d, f)
  {
  }

  /** Both records hold the same boxes, except perhaps box `b`. */
  predicate SameChecksExcept(d: SectionCData, r: SectionCData, b: Checkbox)
  {
    && (b != GasService ==> r.gasService == d.gasService)
    && (b != ElectricService ==> r.electricService == d.electricService)
    && (b != WaterService ==> r.waterService == d.waterService)
    && (b != DrainageService ==> r.drainageService == d.drainageService)
    && (b != HeatingGas ==> r.heatingGas == d.heatingGas)
    && (b != HeatingElectric ==> r.heatingElectric == d.heatingElectric)
    && (b != HeatingSolidFuel ==> r.heatingSolidFuel == d.heatingSolidFuel)
    && (b != HeatingOil ==> r.heatingOil == d.heatingOil)
    && (b != HeatingNone ==> r.heatingNone == d.heatingNone)
  }

  lemma SameChecksAgree(d: SectionCData, r: SectionCData, b: Checkbox)
    requires SameChecksExcept(d, r, b)
    ensures forall c :: c != b ==> Checked(r, c) == Checked(d, c)
  {
  }

  function WithCheckedField(d: SectionCData, b: Checkbox, v: bool): (r: SectionCData)
    ensures Checked(r, b) == v
    ensures SameChecksExcept(d, r, b)
    ensures SameTexts(d, r)
    ensures r.accommodation == d.accommodation
  {
    match b
    case GasService => d.(gasService := v)
    case ElectricService => d.(electricService := v)
    case WaterService => d.(waterService := v)
    case DrainageService => d.(drainageService := v)
    case HeatingGas => d.(heatingGas := v)
    case HeatingElectric => d.(heatingElectric := v)
    case HeatingSolidFuel => d.(heatingSolidFuel := v)
    case HeatingOil => d.(heatingOil := v)
    case HeatingNone => d.(heatingNone := v)
  }

  /** `{ ...data, ...patch }`: the patched key takes its new value, nothing else changes. */
  function Apply(d: SectionCData, p: Patch): (r: SectionCData)
    ensures p.TextPatch? ==> Text(r, p.field) == p.text
    ensures p.CheckboxPatch? ==> Checked(r, p.box) == p.checked
    ensures p.AccommodationPatch? ==> r.accommodation == p.accommodation
    ensures OnlyKeyChanged(d, r, p)
  {
    match p
    case AccommodationPatch(a) => d.(accommodation := a)
    case CheckboxPatch(b, v) => WithChecked(d, b, v)
    case TextPatch(f, v) => WithText(d, f, v)
  }

  /** The input of one accommodation cell. */
  function OnCellInput(d: SectionCData, c: Cell, v: string): (r: Patch)
    ensures r.AccommodationPatch?
    ensures CellValue(r.accommodation, c) == v
    ensures forall other :: other != c ==> CellValue(r.accommodation, other) == CellValue(d.accommodation, other)
  {
    AccommodationPatch(WithCell(d.accommodation, c, v))
  }

  /** The auto-fill select of a text field: nothing for the blank option, else the appended text. */
  function OnAutoFill(d: SectionCData, f: TextField, selected: string): (r: Option<Patch>)
    ensures r.None? <==> selected == ""
    ensures r.Some? ==> r.value.TextPatch? && r.value.field == f
    ensures r.Some? && Text(d, f) == "" ==> r.value.text == selected
    ensures r.Some? && Text(d, f) != "" ==> r.value.text == Text(d, f) + AutoText.Separator + selected
  {
    match AutoText.OnSelect(Text(d, f), selected)
    case None => None
    case Some(v) => Some(TextPatch(f, v))
  }

  /** Editing one cell changes only that cell of the stored record, and no other key. */
  lemma CellEditTouchesOneCell(d: SectionCData, c: Cell, v: string)
    ensures var r := Apply(d, OnCellInput(d, c, v));
      && CellValue(r.accommodation, c) == v
      && (forall other :: other != c ==> CellValue(r.accommodation, other) == CellValue(d.accommodation, other))
      && (forall f :: Text(r, f) == Text(d, f))
      && (forall b :: Checked(r, b) == Checked(d, b))
  {
  }

  /** The record a new report starts with: every text and cell empty, every box unticked. */
  function Blank(): (r: SectionCData)
    ensures forall f :: Text(r, f) == ""
    ensures forall b :: !Checked(r, b)
    ensures forall c :: CellValue(r.accommodation, c) == ""
  {
    SectionCData("", "", "", "", "", "", Accommodation("", "", "", "", "", "", "", "", "", "", "", "", "", "", "", "", "", ""),
      "", "", "", "", "", false, false, false, false, false, false, false, false, false, "", "")
  }
}
