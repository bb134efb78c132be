/**
 * The values behind the original single-page safety inspection form, the
 * component the application mounts: its checklist rows (a question and the
 * two checkboxes, without ids), its hard-coded seed sections, its checkbox
 * rule, its date formatting, its share text and its download names.
 */
module LegacyValues {
  import opened Types
  import opened Text
  import Constants
  import InspectionForm
  import BaseExporter

  /** A checklist item of the legacy form: no id. */
  datatype LegacyRow = LegacyRow(question: string, yes: NBool, no: NBool)

  datatype LegacyBlock = LegacyBlock(title: string, rows: seq<LegacyRow>)

  /** The seven metadata fields and the two columns the component keeps in its state hooks. */
  datatype LegacyState = LegacyState(
    inspectorName: string,
    projectName: string,
    dateOfInspection: string,
    location: string,
    additionalComments: string,
    inspectorSignature: string,
    signatureDate: string,
    left: seq<LegacyBlock>,
    right: seq<LegacyBlock>)

  function BlocksOn(st: LegacyState, side: Side): seq<LegacyBlock> {
    if side == Left then st.left else st.right
  }

  /** The clicked field becomes the negation of its truthiness; when it becomes true the other one becomes false. */
  function ToggleRow(row: LegacyRow, field: Field): (r: LegacyRow)
    ensures !(Truthy(r.yes) && Truthy(r.no)) && r.question == row.question
    ensures field == Yes ==> r.yes == Bool(!Truthy(row.yes)) && (Truthy(row.yes) ==> r.no == row.no)
    ensures field == No ==> r.no == Bool(!Truthy(row.no)) && (Truthy(row.no) ==> r.yes == row.yes)
  {
    if field == Yes then
      var yes := Bool(!Truthy(row.yes));
      LegacyRow(row.question, yes, if Truthy(yes) then Bool(false) else row.no)
    else
      var no := Bool(!Truthy(row.no));
      LegacyRow(row.question, if Truthy(no) then Bool(false) else row.yes, no)
  }

  /** The legacy rule is the checklist controller's rule: the two forms toggle an item alike. */
  lemma LegacyToggleAgrees(row: LegacyRow, field: Field, id: string)
    ensures var t := InspectionForm.ToggleItem(ChecklistItem(id, row.question, row.yes, row.no), field);
      ToggleRow(row, field) == LegacyRow(t.question, t.yes, t.no)
  {
  }

  /** The metadata field `key` of the component. */
  function LegacyMetadata(st: LegacyState, key: MetadataKey): string {
    match key
    case InspectorName => st.inspectorName
    case ProjectName => st.projectName
    case DateOfInspection => st.dateOfInspection
    case Location => st.location
    case AdditionalComments => st.additionalComments
    case InspectorSignature => st.inspectorSignature
    case SignatureDate => st.signatureDate
  }

  /** The state after the setter of field `key` is called with `value`. */
  function WithMetadata(st: LegacyState, key: MetadataKey, value: string): (r: LegacyState)
    ensures LegacyMetadata(r, key) == value
    ensures forall other :: other != key ==> LegacyMetadata(r, other) == LegacyMetadata(st, other)
    ensures r.left == st.left && r.right == st.right
  {
    match key
    case InspectorName => st.(inspectorName := value)
    case ProjectName => st.(projectName := value)
    case DateOfInspection => st.(dateOfInspection := value)
    case Location => st.(location := value)
    case AdditionalComments => st.(additionalComments := value)
    case InspectorSignature => st.(inspectorSignature := value)
    case SignatureDate => st.(signatureDate := value)
  }

  predicate InRange(blocks: seq<LegacyBlock>, sectionIndex: nat, itemIndex: nat) {
    sectionIndex < |blocks| && itemIndex < |blocks[sectionIndex].rows|
  }

  /** The blocks with row `itemIndex` of block `sectionIndex` clicked, and nothing else changed. */
  function ToggleBlocks(blocks: seq<LegacyBlock>, sectionIndex: nat, itemIndex: nat, field: Field): (r: seq<LegacyBlock>)
    requires InRange(blocks, sectionIndex, itemIndex)
    ensures |r| == |blocks| && InRange(r, sectionIndex, itemIndex)
    ensures r[sectionIndex].rows[itemIndex] == ToggleRow(blocks[sectionIndex].rows[itemIndex], field)
    ensures forall i :: 0 <= i < |r| ==> r[i].title == blocks[i].title && |r[i].rows| == |blocks[i].rows|
    ensures forall i, j :: 0 <= i < |r| && 0 <= j < |r[i].rows| && (i, j) != (sectionIndex, itemIndex) ==>
      r[i].rows[j] == blocks[i].rows[j]
  {
    var block := blocks[sectionIndex];
    blocks[sectionIndex := block.(rows := block.rows[itemIndex := ToggleRow(block.rows[itemIndex], field)])]
  }

  /** The state after a click in one column: the other column and the metadata are kept. */
  function ToggleState(st: LegacyState, side: Side, sectionIndex: nat, itemIndex: nat, field: Field): (r: LegacyState)
    requires InRange(BlocksOn(st, side), sectionIndex, itemIndex)
    ensures r.(left := st.left, right := st.right) == st
    ensures BlocksOn(r, if side == Left then Right else Left) == BlocksOn(st, if side == Left then Right else Left)
    ensures InRange(BlocksOn(r, side), sectionIndex, itemIndex)
    ensures BlocksOn(r, side)[sectionIndex].rows[itemIndex] == ToggleRow(BlocksOn(st, side)[sectionIndex].rows[itemIndex], field)
  {
    if side == Left then st.(left := ToggleBlocks(st.left, sectionIndex, itemIndex, field))
    else st.(right := ToggleBlocks(st.right, sectionIndex, itemIndex, field))
  }

  // The sections the component starts with, written out in its own source.

  const LEGACY_GENERAL_SITE: LegacyBlock := LegacyBlock("General Site Conditions", [
    LegacyRow("Are all workers wearing appropriate PPE?", Null, Null),
    LegacyRow("Are access routes clear and well-marked?", Null, Null),
    LegacyRow("Are fire extinguishers accessible and fully charged?", Null, Null),
    LegacyRow("Is the site free from excessive debris?", Null, Null),
    LegacyRow("Any signs of unauthorized personnel?", Null, Null)])

  const LEGACY_WORKING_HEIGHTS: LegacyBlock := LegacyBlock("Working at Heights", [
    LegacyRow("Are guardrails in place and secure?", Null, Null),
    LegacyRow("Are workers using fall protection equipment?", Null, Null),
    LegacyRow("Is scaffolding properly erected and inspected?", Null, Null),
    LegacyRow("Are ladders in good condition and used correctly?", Null, Null)])

  const LEGACY_ELECTRICAL_SAFETY: LegacyBlock := LegacyBlock("Electrical Safety", [
    LegacyRow("Are electrical cords in good condition?", Null, Null),
    LegacyRow("Are outlets and panels properly covered?", Null, Null),
    LegacyRow("Is there GFCI protection where required?", Null, Null),
    LegacyRow("Are lockout/tagout procedures followed?", Null, Null)])

  const LEGACY_MACHINERY: LegacyBlock := LegacyBlock("Machinery and Equipment", [
    LegacyRow("Are tools and equipment properly maintained?", Null, Null),
    LegacyRow("Are operators trained and authorized?", Null, Null),
    LegacyRow("Is heavy equipment secured against unauthorized use?", Null, Null),
    LegacyRow("Are safety guards in place and functional?", Null, Null)])

  const LEGACY_HAZARDOUS_MATERIALS: LegacyBlock := LegacyBlock("Hazardous Materials", [
    LegacyRow("Are hazardous materials properly labeled and stored?", Null, Null),
    LegacyRow("Is there a spill containment plan?", Null, Null),
    LegacyRow("Are workers trained in hazardous material handling?", Null, Null),
    LegacyRow("Is PPE provided and used correctly?", Null, Null)])

  const LEGACY_EMERGENCY_PREP: LegacyBlock := LegacyBlock("Emergency Preparedness", [
    LegacyRow("Are emergency exits clearly marked and unobstructed?", Null, Null),
    LegacyRow("Is there an evacuation plan in place?", Null, Null),
    LegacyRow("Are fire alarms and extinguishers tested regularly?", Null, Null),
    LegacyRow("Is there an emergency contact list available?", Null, Null)])

  const LEGACY_LEFT: seq<LegacyBlock> := [LEGACY_GENERAL_SITE, LEGACY_WORKING_HEIGHTS, LEGACY_ELECTRICAL_SAFETY]
  const LEGACY_RIGHT: seq<LegacyBlock> := [LEGACY_MACHINERY, LEGACY_HAZARDOUS_MATERIALS, LEGACY_EMERGENCY_PREP]

  const INITIAL_STATE: LegacyState := LegacyState("", "", "", "", "", "", "", LEGACY_LEFT, LEGACY_RIGHT)

  /** An item of the modular configurations with its id dropped. */
  function StrippedItem(item: ChecklistItem): (r: LegacyRow)
    ensures r.question == item.question && r.yes == item.yes && r.no == item.no
  {
    LegacyRow(item.question, item.yes, item.no)
  }

  /** Rows of the items, in order. */
  function StrippedItems(items: seq<ChecklistItem>): (r: seq<LegacyRow>)
    ensures |r| == |items| && forall j :: 0 <= j < |r| ==> r[j] == StrippedItem(items[j])
  {
    if items == [] then [] else [StrippedItem(items[0])] + StrippedItems(items[1..])
  }

  function StrippedSection(section: Section): LegacyBlock {
    LegacyBlock(section.title, StrippedItems(section.items))
  }

  /** Sections of the modular configurations with the ids dropped. */
  function Stripped(sections: seq<Section>): (r: seq<LegacyBlock>)
    ensures |r| == |sections| && forall i :: 0 <= i < |r| ==> r[i] == StrippedSection(sections[i])
  {
    if sections == [] then [] else [StrippedSection(sections[0])] + Stripped(sections[1..])
  }

  lemma GeneralSiteLegacySeed()
    ensures LEGACY_GENERAL_SITE == StrippedSection(Constants.GENERAL_SITE)
  {
  }

  lemma WorkingHeightsLegacySeed()
    ensures LEGACY_WORKING_HEIGHTS == StrippedSection(Constants.WORKING_HEIGHTS)
  {
  }

  lemma ElectricalSafetyLegacySeed()
    ensures LEGACY_ELECTRICAL_SAFETY == StrippedSection(Constants.ELECTRICAL_SAFETY)
  {
  }

  lemma MachineryLegacySeed()
    ensures LEGACY_MACHINERY == StrippedSection(Constants.MACHINERY)
  {
  }

  lemma HazardousMaterialsLegacySeed()
    ensures LEGACY_HAZARDOUS_MATERIALS == StrippedSection(Constants.HAZARDOUS_MATERIALS)
  {
  }

  lemma EmergencyPrepLegacySeed()
    ensures LEGACY_EMERGENCY_PREP == StrippedSection(Constants.EMERGENCY_PREP)
  {
  }

  lemma StrippedThree(a: Section, b: Section, c: Section)
    ensures Stripped([a, b, c]) == [StrippedSection(a), StrippedSection(b), StrippedSection(c)]
  {
    assert [a, b, c][1..] == [b, c];
    assert [b, c][1..] == [c];
  }

  /** The legacy form starts with the safety inspection configuration's titles and questions, in order. */
  lemma LegacySeedMatchesSafetyConfig()
    ensures LEGACY_LEFT == Stripped(Constants.SAFETY_INSPECTION_CONFIG.leftSections)
    ensures LEGACY_RIGHT == Stripped(Constants.SAFETY_INSPECTION_CONFIG.rightSections)
  {
    StrippedThree(Constants.GENERAL_SITE, Constants.WORKING_HEIGHTS, Constants.ELECTRICAL_SAFETY);
    StrippedThree(Constants.MACHINERY, Constants.HAZARDOUS_MATERIALS, Constants.EMERGENCY_PREP);
    GeneralSiteLegacySeed();
    WorkingHeightsLegacySeed();
    ElectricalSafetyLegacySeed();
    MachineryLegacySeed();
    HazardousMaterialsLegacySeed();
    EmergencyPrepLegacySeed();
  }

  /** The calendar's month names. */
  const LEGACY_MONTH_NAMES: seq<string> := [
    "January", "February", "March", "April", "May", "June",
    "July", "August", "September", "October", "November", "December"]

  lemma LegacyMonthNamesAgree()
    ensures LEGACY_MONTH_NAMES == Constants.MONTH_NAMES
  {
  }

  // `formatDateForInput`: `MM/DD/YYYY`.

  /** `padStart(2, "0")`. */
  function PadStart2(s: string): (r: string)
    ensures |s| >= 2 ==> r == s
    ensures |s| < 2 ==> |r| == 2 && r[2 - |s|..] == s && forall i :: 0 <= i < 2 - |s| ==> r[i] == '0'
  {
    if |s| >= 2 then s else if |s| == 1 then "0" + s else "00"
  }

  /** `String(n)` for an integer. */
  function IntToString(n: int): string {
    if n < 0 then "-" + NatToString(-n) else NatToString(n)
  }

  /**
   * The full year `new Date(year, month, day)` holds: as in JavaScript's
   * `Date` constructor, a year from 0 to 99 stands for 1900 to 1999; any
   * other year is kept.
   */
  function DateYear(year: int): (r: int)
    ensures (0 <= year < 100) == (r != year)
    ensures year >= 0 ==> r >= 100 && r % 100 == year % 100
    ensures year < 0 ==> r == year
  {
    if 0 <= year <= 99 then 1900 + year else year
  }

  /**
   * The month (`getMonth()`, from 0), the day of the month (`getDate()`)
   * and the year (`getFullYear()`) of the date as `MM/DD/YYYY`: two digits
   * for the month counted from 1, a slash, two digits for the day, a slash
   * and the year; for a year from 0 on the three parts read back as the date.
   */
  function FormatDateForInput(year: int, month: nat, day: nat): (r: string)
    requires month < 12 && 1 <= day <= 31
    ensures |r| >= 7 && r[2] == '/' && r[5] == '/'
    ensures AllDigits(r[..2]) && ParseNat(r[..2]) == month + 1
    ensures AllDigits(r[3..5]) && ParseNat(r[3..5]) == day
    ensures r[6..] == IntToString(year)
    ensures year >= 0 ==> AllDigits(r[6..]) && ParseNat(r[6..]) == year
  {
    var mm, dd := PadStart2(NatToString(month + 1)), PadStart2(NatToString(day));
    PaddedTwoDigits(month + 1);
    PaddedTwoDigits(day);
    NatToStringDigits(if year >= 0 then year else -year);
    SlashedParts(mm, dd, IntToString(year));
    if year >= 0 then
      NatToStringRoundTrip(year);
      mm + "/" + dd + "/" + IntToString(year)
    else
      mm + "/" + dd + "/" + IntToString(year)
  }

  /** A number below 100, padded: two decimal digits that read back as the number. */
  lemma PaddedTwoDigits(n: nat)
    requires n < 100
    ensures var r := PadStart2(NatToString(n)); |r| == 2 && AllDigits(r) && ParseNat(r) == n
  {
    NatToStringRoundTrip(n);
    var s := NatToString(n);
    if n < 10 {
      assert s == [DigitChar(n)];
      var r := PadStart2(s);
      assert r == ['0', DigitChar(n)];
      assert r[..1] == ['0'] && ParseNat(['0']) == 0 by {
        assert ['0'][..0] == [];
      }
    } else {
      NatToStringDigits(n);
      assert NatToString(n / 10) == [DigitChar(n / 10)];
    }
  }

  /** Where the parts of `mm/dd/rest` sit, for two-character `mm` and `dd`. */
  lemma SlashedParts(mm: string, dd: string, rest: string)
    requires |mm| == 2 && |dd| == 2
    ensures var r := mm + "/" + dd + "/" + rest;
      && |r| == |rest| + 6 && r[2] == '/' && r[5] == '/'
      && r[..2] == mm && r[3..5] == dd && r[6..] == rest
  {
    var r := mm + "/" + dd + "/" + rest;
    assert r == mm + ("/" + dd + "/" + rest);
  }

  // `handleShare`.

  const SHARE_TITLE: string := "Construction Safety Inspection Form"

  /** The text shared with the page link: the project and then the inspector, `N/A` standing in for an empty one. */
  function ShareText(projectName: string, inspectorName: string): (text: string)
    ensures var p, i := OrElse(projectName, "N/A"), OrElse(inspectorName, "N/A");
      && (p == "N/A" <==> projectName == "" || projectName == "N/A")
      && (i == "N/A" <==> inspectorName == "" || inspectorName == "N/A")
      && |text| == 34 + |p| + 14 + |i|
      && text[..34] == "Safety Inspection Form - Project: "
      && text[34..34 + |p|] == p
      && text[34 + |p|..34 + |p| + 14] == " - Inspector: "
      && text[34 + |p| + 14..] == i
  {
    "Safety Inspection Form - Project: " + OrElse(projectName, "N/A") + " - Inspector: " + OrElse(inspectorName, "N/A")
  }

  // The download names: a fixed stem and today's date, whatever the project.

  const DOWNLOAD_STEM: string := "construction_safety_inspection_"

  /** `construction_safety_inspection_${date}.doc`. */
  function WordFilename(date: string): (name: string)
    ensures |name| == |DOWNLOAD_STEM| + |date| + 4
    ensures name[..|DOWNLOAD_STEM|] == DOWNLOAD_STEM && name[|DOWNLOAD_STEM|..] == date + ".doc"
  {
    DOWNLOAD_STEM + date + ".doc"
  }

  /** `construction_safety_inspection_${date}.csv`. */
  function CsvFilename(date: string): (name: string)
    ensures |name| == |DOWNLOAD_STEM| + |date| + 4
    ensures name[..|DOWNLOAD_STEM|] == DOWNLOAD_STEM && name[|DOWNLOAD_STEM|..] == date + ".csv"
  {
    DOWNLOAD_STEM + date + ".csv"
  }

  /**
   * The legacy names are what the modular exporters' `download` makes of the
   * file name `construction_safety_inspection_<date>`, and, unlike
   * `generateFilename`, they never depend on the project name.
   */
  lemma LegacyFilenamesAreExportNames(date: string)
    ensures WordFilename(date) == BaseExporter.FileName(DOWNLOAD_STEM + date, BaseExporter.Extension(BaseExporter.WordFile))
    ensures CsvFilename(date) == BaseExporter.FileName(DOWNLOAD_STEM + date, BaseExporter.Extension(BaseExporter.CsvFile))
  {
    assert WordFilename(date) == DOWNLOAD_STEM + (date + ".doc");
    assert CsvFilename(date) == DOWNLOAD_STEM + (date + ".csv");
  }
}
