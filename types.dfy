/**
 * The shared data model of the inspection forms: checklist items with
 * nullable yes/no answers, sections, the form state (metadata plus the two
 * columns of sections) and the static form configurations.
 */
module Types {

  datatype Option<+T> = None | Some(value: T)

  datatype Result<+T, +E> = Ok(value: T) | Err(error: E)

  /** A `boolean | null` answer. */
  datatype NBool = Null | Bool(b: bool)

  /** JavaScript truthiness of a `boolean | null` value: only `true` is truthy. */
  predicate Truthy(x: NBool) {
    x == Bool(true)
  }

  datatype ChecklistItem = ChecklistItem(id: string, question: string, yes: NBool, no: NBool)

  datatype Section = Section(id: string, title: string, items: seq<ChecklistItem>)

  /** The metadata fields and the two columns of sections; the unit of persistence and export. */
  datatype FormState = FormState(
    inspectorName: string,
    projectName: string,
    dateOfInspection: string,
    location: string,
    additionalComments: string,
    inspectorSignature: string,
    signatureDate: string,
    leftSections: seq<Section>,
    rightSections: seq<Section>)

  datatype FormConfig = FormConfig(
    id: string,
    title: string,
    description: string,
    leftSections: seq<Section>,
    rightSections: seq<Section>)

  /** Which column of the checklist a section lives in. */
  datatype Side = Left | Right

  /** Which of the two checkboxes of an item. */
  datatype Field = Yes | No

  /** The value of one of an item's two checkboxes. */
  function Answer(item: ChecklistItem, field: Field): NBool {
    if field == Yes then item.yes else item.no
  }

  /** The keys of FormState other than the two section lists. */
  datatype MetadataKey =
    | InspectorName
    | ProjectName
    | DateOfInspection
    | Location
    | AdditionalComments
    | InspectorSignature
    | SignatureDate

  function Metadata(s: FormState, key: MetadataKey): string {
    match key
    case InspectorName => s.inspectorName
    case ProjectName => s.projectName
    case DateOfInspection => s.dateOfInspection
    case Location => s.location
    case AdditionalComments => s.additionalComments
    case InspectorSignature => s.inspectorSignature
    case SignatureDate => s.signatureDate
  }

  function SectionsOf(s: FormState, side: Side): seq<Section> {
    if side == Left then s.leftSections else s.rightSections
  }

  /** The form state a configuration seeds: empty metadata and the configured sections. */
  function InitialState(config: FormConfig): FormState {
    FormState("", "", "", "", "", "", "", config.leftSections, config.rightSections)
  }

  /** Neither item of a pair of checkboxes is checked together with the other. */
  predicate Exclusive(item: ChecklistItem) {
    !(Truthy(item.yes) && Truthy(item.no))
  }

  predicate SectionsExclusive(sections: seq<Section>) {
    forall i, j :: 0 <= i < |sections| && 0 <= j < |sections[i].items| ==> Exclusive(sections[i].items[j])
  }

  /** The invariant of the checklist: no item has both `yes` and `no` checked. */
  predicate AllExclusive(s: FormState) {
    SectionsExclusive(s.leftSections) && SectionsExclusive(s.rightSections)
  }
}
