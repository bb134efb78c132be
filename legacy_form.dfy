/**
 * The single-page safety inspection form as a component with state: its
 * metadata fields and its two columns of sections, whose item objects the
 * checkbox handler changes in place, and the two generators of its
 * downloads, which walk those objects. `State()` reads the fields and the
 * items into a `LegacyState`, and every operation is stated on that view.
 */
module LegacyForm {
  import opened Types
  import opened Text
  import opened Csv
  import Constants
  import CsvExporter
  import WordExporter
  import BaseExporter
  import opened LegacyValues
  import opened LegacyDocuments

  /** A checklist item of the component: the handler overwrites its two answers in place. */
  class LegacyItem {
    const question: string
    var yes: NBool
    var no: NBool

    constructor(question: string, yes: NBool, no: NBool)
      ensures this.question == question && this.yes == yes && this.no == no
    {
      this.question := question;
      this.yes := yes;
      this.no := no;
    }
  }

  /** A section holds references to its item objects. */
  datatype LegacySection = LegacySection(title: string, items: seq<LegacyItem>)

  function RowOf(item: LegacyItem): LegacyRow
    reads item
  {
    LegacyRow(item.question, item.yes, item.no)
  }

  /** What the item objects hold, in order. */
  function RowsOf(items: seq<LegacyItem>): (r: seq<LegacyRow>)
    reads set j | 0 <= j < |items| :: items[j]
    ensures |r| == |items|
    ensures forall j :: 0 <= j < |items| ==> r[j] == RowOf(items[j])
    decreases |items|
  {
    if items == [] then [] else [RowOf(items[0])] + RowsOf(items[1..])
  }

  /** Every item object the sections refer to. */
  function Items(sections: seq<LegacySection>): set<LegacyItem> {
    set i, j | 0 <= i < |sections| && 0 <= j < |sections[i].items| :: sections[i].items[j]
  }

  function BlockOf(section: LegacySection): LegacyBlock
    reads set j | 0 <= j < |section.items| :: section.items[j]
  {
    LegacyBlock(section.title, RowsOf(section.items))
  }

  /** What the sections hold, section by section. */
  function BlocksOf(sections: seq<LegacySection>): (r: seq<LegacyBlock>)
    reads Items(sections)
    ensures |r| == |sections|
    ensures forall i :: 0 <= i < |sections| ==> r[i] == BlockOf(sections[i])
    decreases |sections|
  {
    if sections == [] then []
    else
      assert forall j :: 0 <= j < |sections[0].items| ==> sections[0].items[j] in Items(sections);
      assert Items(sections[1..]) <= Items(sections) by {
        forall x | x in Items(sections[1..]) ensures x in Items(sections) {
          var i, j :| 0 <= i < |sections[1..]| && 0 <= j < |sections[1..][i].items| && sections[1..][i].items[j] == x;
          assert sections[i + 1].items[j] == x;
        }
      }
      [BlockOf(sections[0])] + BlocksOf(sections[1..])
  }

  /** No item object sits in two places of the sections. */
  predicate Unshared(sections: seq<LegacySection>) {
    forall i, j, k, l ::
      0 <= i < |sections| && 0 <= j < |sections[i].items| && 0 <= k < |sections| && 0 <= l < |sections[k].items| &&
      (i != k || j != l) ==>
        sections[i].items[j] != sections[k].items[l]
  }

  /** The two columns share no item object. */
  predicate Apart(left: seq<LegacySection>, right: seq<LegacySection>) {
    forall i, j, k, l ::
      0 <= i < |left| && 0 <= j < |left[i].items| && 0 <= k < |right| && 0 <= l < |right[k].items| ==>
        left[i].items[j] != right[k].items[l]
  }

  predicate Distinct(items: seq<LegacyItem>) {
    forall j, l :: 0 <= j < l < |items| ==> items[j] != items[l]
  }

  /** What the sections hold does not change while their item objects do not. */
  twostate lemma BlocksUnchanged(sections: seq<LegacySection>)
    requires unchanged(Items(sections))
    ensures BlocksOf(sections) == old(BlocksOf(sections))
  {
  }

  /** A section of distinct new objects keeps the sections unshared. */
  lemma UnsharedSnoc(sections: seq<LegacySection>, section: LegacySection)
    requires Unshared(sections) && Distinct(section.items)
    requires forall j :: 0 <= j < |section.items| ==> section.items[j] !in Items(sections)
    ensures Unshared(sections + [section])
  {
    var all := sections + [section];
    forall i, j, k, l |
      0 <= i < |all| && 0 <= j < |all[i].items| && 0 <= k < |all| && 0 <= l < |all[k].items| && (i != k || j != l)
      ensures all[i].items[j] != all[k].items[l]
    {
      if i < |sections| && k == |sections| {
        assert all[i].items[j] in Items(sections);
      } else if k < |sections| && i == |sections| {
        assert all[k].items[l] in Items(sections);
      }
    }
  }

  lemma ApartOfDisjoint(left: seq<LegacySection>, right: seq<LegacySection>)
    requires Items(left) !! Items(right)
    ensures Apart(left, right)
  {
    forall i, j, k, l | 0 <= i < |left| && 0 <= j < |left[i].items| && 0 <= k < |right| && 0 <= l < |right[k].items|
      ensures left[i].items[j] != right[k].items[l]
    {
      assert left[i].items[j] in Items(left) && right[k].items[l] in Items(right);
    }
  }

  /** New item objects holding `rows`, in order. */
  method MakeItems(rows: seq<LegacyRow>) returns (items: seq<LegacyItem>)
    ensures RowsOf(items) == rows
    ensures Distinct(items)
    ensures forall j :: 0 <= j < |items| ==> fresh(items[j])
  {
    items := [];
    var j := 0;
    while j < |rows|
      invariant 0 <= j <= |rows| && |items| == j
      invariant forall l :: 0 <= l < j ==> RowOf(items[l]) == rows[l]
      invariant Distinct(items)
      invariant forall l :: 0 <= l < j ==> fresh(items[l])
    {
      var item := new LegacyItem(rows[j].question, rows[j].yes, rows[j].no);
      items := items + [item];
      j := j + 1;
    }
    assert RowsOf(items) == rows;
  }

  /** The sections `useState` is seeded with: new item objects holding the rows. */
  method MakeSections(blocks: seq<LegacyBlock>) returns (sections: seq<LegacySection>)
    ensures BlocksOf(sections) == blocks
    ensures Unshared(sections)
    ensures fresh(Items(sections))
  {
    sections := [];
    var i := 0;
    while i < |blocks|
      invariant 0 <= i <= |blocks| && |sections| == i
      invariant BlocksOf(sections) == blocks[..i]
      invariant Unshared(sections)
      invariant fresh(Items(sections))
    {
      label Before:
      var items := MakeItems(blocks[i].rows);
      var section := LegacySection(blocks[i].title, items);
      var next := sections + [section];
      assert BlocksOf(next) == blocks[..i + 1] by {
        BlocksUnchanged@Before(sections);
        BlocksOfSnoc(sections, section);
        TakeSnoc(blocks, i + 1);
      }
      assert Unshared(next) by {
        assert forall j :: 0 <= j < |items| ==> items[j] !in Items(sections);
        UnsharedSnoc(sections, section);
      }
      assert fresh(Items(next)) by {
        ItemsSnoc(sections, section);
      }
      sections := next;
      i := i + 1;
    }
    assert blocks[..i] == blocks;
  }

  lemma BlocksOfSnoc(sections: seq<LegacySection>, section: LegacySection)
    ensures BlocksOf(sections + [section]) == BlocksOf(sections) + [BlockOf(section)]
  {
    var all := sections + [section];
    assert forall a :: 0 <= a < |sections| ==> all[a] == sections[a];
  }

  /** Both columns of new item objects. */
  method MakeColumns(leftBlocks: seq<LegacyBlock>, rightBlocks: seq<LegacyBlock>)
    returns (left: seq<LegacySection>, right: seq<LegacySection>)
    ensures BlocksOf(left) == leftBlocks && BlocksOf(right) == rightBlocks
    ensures Unshared(left) && Unshared(right) && Apart(left, right)
    ensures fresh(Items(left)) && fresh(Items(right))
  {
    left := MakeSections(leftBlocks);
    label Left:
    ghost var leftItems := Items(left);
    right := MakeSections(rightBlocks);
    BlocksUnchanged@Left(left);
    assert Items(left) !! Items(right) by {
      assert Items(left) == leftItems;
    }
    ApartOfDisjoint(left, right);
  }

  lemma ItemsSnoc(sections: seq<LegacySection>, section: LegacySection)
    ensures Items(sections + [section]) == Items(sections) + set j | 0 <= j < |section.items| :: section.items[j]
  {
    var all := sections + [section];
    forall x | x in Items(all) ensures x in Items(sections) || x in section.items {
      var i, j :| 0 <= i < |all| && 0 <= j < |all[i].items| && all[i].items[j] == x;
      if i < |sections| {
        assert sections[i].items[j] == x;
      }
    }
    forall x | x in Items(sections) ensures x in Items(all) {
      var i, j :| 0 <= i < |sections| && 0 <= j < |sections[i].items| && sections[i].items[j] == x;
      assert all[i].items[j] == x;
    }
    forall j | 0 <= j < |section.items| ensures section.items[j] in Items(all) {
      assert all[|sections|].items[j] == section.items[j];
    }
  }

  /** The component as it mounts: its state hooks hold the seed sections written out in its source. */
  method Mount() returns (form: SafetyInspectionForm)
    ensures fresh(form) && form.Valid() && form.State() == INITIAL_STATE
  {
    form := new SafetyInspectionForm(LEGACY_LEFT, LEGACY_RIGHT);
  }

  /** The component `SafetyInspectionForm`: its state hooks. */
  class SafetyInspectionForm {
    var inspectorName: string
    var projectName: string
    var dateOfInspection: string
    var location: string
    var additionalComments: string
    var inspectorSignature: string
    var signatureDate: string
    var leftSections: seq<LegacySection>
    var rightSections: seq<LegacySection>

    /** Every item object has one place in the two columns. */
    predicate Valid()
      reads this
    {
      Unshared(leftSections) && Unshared(rightSections) && Apart(leftSections, rightSections)
    }

    function SectionsOn(side: Side): seq<LegacySection>
      reads this
    {
      if side == Left then leftSections else rightSections
    }

    /** Everything the state hooks hold. */
    function State(): LegacyState
      reads this, Items(leftSections), Items(rightSections)
    {
      LegacyState(inspectorName, projectName, dateOfInspection, location, additionalComments,
        inspectorSignature, signatureDate, BlocksOf(leftSections), BlocksOf(rightSections))
    }

    /** The first render: empty metadata, and the columns seeded with new item objects holding `leftSeed` and `rightSeed`. */
    constructor(leftSeed: seq<LegacyBlock>, rightSeed: seq<LegacyBlock>)
      ensures Valid() && State() == LegacyState("", "", "", "", "", "", "", leftSeed, rightSeed)
    {
      var left, right := MakeColumns(leftSeed, rightSeed);
      label Made:
      inspectorName, projectName, dateOfInspection, location := "", "", "", "";
      additionalComments, inspectorSignature, signatureDate := "", "", "";
      leftSections, rightSections := left, right;
      new;
      assert leftSections == left && rightSections == right;
      assert BlocksOf(left) == leftSeed by { BlocksUnchanged@Made(left); }
      assert BlocksOf(right) == rightSeed by { BlocksUnchanged@Made(right); }
    }

    /**
     * `handleCheckboxChange(side, sectionIndex, itemIndex, field)`: the
     * clicked item object is changed in place. The shallow copy handed to the
     * column's setter holds the same item objects in the same order, so the
     * column itself is left as it was.
     */
    method HandleCheckboxChange(side: Side, sectionIndex: nat, itemIndex: nat, field: Field)
      requires Valid()
      requires sectionIndex < |SectionsOn(side)| && itemIndex < |SectionsOn(side)[sectionIndex].items|
      modifies SectionsOn(side)[sectionIndex].items[itemIndex]
      ensures Valid()
      ensures InRange(BlocksOn(old(State()), side), sectionIndex, itemIndex)
      ensures State() == ToggleState(old(State()), side, sectionIndex, itemIndex, field)
    {
      var left, right := leftSections, rightSections;
      var sections := if side == Left then left else right;
      ghost var st := State();
      ToggleInColumn(sections, sectionIndex, itemIndex, field);
      assert leftSections == left && rightSections == right;
      if side == Left {
        ApartSlot(left, right, sectionIndex, itemIndex);
        BlocksUnchanged(right);
      } else {
        ApartSlotRight(left, right, sectionIndex, itemIndex);
        BlocksUnchanged(left);
      }
      ToggledState(st, State(), side, sectionIndex, itemIndex, field);
    }

    /** The `onChange` of a metadata input: the setter of that field. */
    method SetMetadata(key: MetadataKey, value: string)
      modifies this
      ensures leftSections == old(leftSections) && rightSections == old(rightSections)
      ensures State() == WithMetadata(old(State()), key, value)
    {
      var left, right := leftSections, rightSections;
      ghost var st := State();
      match key {
        case InspectorName => inspectorName := value;
        case ProjectName => projectName := value;
        case DateOfInspection => dateOfInspection := value;
        case Location => location := value;
        case AdditionalComments => additionalComments := value;
        case InspectorSignature => inspectorSignature := value;
        case SignatureDate => signatureDate := value;
      }
      assert leftSections == left && rightSections == right;
      BlocksUnchanged(left);
      BlocksUnchanged(right);
      MetadataUpdated(st, State(), key, value);
    }

    /**
     * `handleDateSelect(day)` in the calendar showing `month` (0 to 11) of
     * `year`: the date goes through `new Date`, so its year is `DateYear(year)`.
     */
    method HandleDateSelect(year: int, month: nat, day: nat)
      requires month < 12 && 1 <= day <= 31
      modifies this
      ensures leftSections == old(leftSections) && rightSections == old(rightSections)
      ensures State() == WithMetadata(old(State()), DateOfInspection, FormatDateForInput(DateYear(year), month, day))
    {
      var fullYear := DateYear(year);
      SetMetadata(DateOfInspection, FormatDateForInput(fullYear, month, day));
    }

    /** `generateFormContent` for the given markup: the header, the left column, the right column, then the closing part. */
    method WriteDocument(m: Markup) returns (content: string)
      requires Sized(m)
      ensures content == Document(m, State())
    {
      ghost var st := State();
      var c := m.document;
      content := c[0] + OrElse(inspectorName, Constants.INSPECTOR_PLACEHOLDER) + c[1] + OrElse(dateOfInspection, Constants.DATE_PLACEHOLDER)
        + c[2] + OrElse(projectName, Constants.PROJECT_PLACEHOLDER) + c[3] + OrElse(location, LOCATION_PLACEHOLDER) + c[4];
      content := AppendColumn(m, content, leftSections, st.left);
      content := content + c[5];
      content := AppendColumn(m, content, rightSections, st.right);
      content := content + c[6] + OrElse(additionalComments, Constants.COMMENTS_PLACEHOLDER) + c[7] + OrElse(inspectorSignature, "")
        + c[8] + OrElse(signatureDate, "") + c[9];
      FillNine(c, DocumentHoles(m, st));
      BlocksUnchanged(leftSections);
      BlocksUnchanged(rightSections);
    }

    /** `generateFormContent()`: the Word document of the current state. */
    method GenerateFormContent() returns (content: string)
      ensures content == Document(LEGACY_MARKUP, State())
    {
      LegacyMarkupSized();
      content := WriteDocument(LEGACY_MARKUP);
    }

    /** `generateCSVContent()`: the title and metadata rows, one row per item of both columns, then the closing rows. */
    method GenerateCsvContent() returns (csv: string)
      ensures csv == CsvDocument(State())
    {
      ghost var st := State();
      csv := CSV_TITLE + "\n\n";
      csv := csv + MetadataRow(CsvExporter.INSPECTOR_CAPTION, OrElse(inspectorName, Constants.INSPECTOR_PLACEHOLDER)) + "\n";
      csv := csv + MetadataRow(CsvExporter.PROJECT_CAPTION, OrElse(projectName, Constants.PROJECT_PLACEHOLDER)) + "\n";
      csv := csv + MetadataRow(CsvExporter.DATE_CAPTION, OrElse(dateOfInspection, Constants.DATE_PLACEHOLDER)) + "\n";
      csv := csv + MetadataRow(CsvExporter.LOCATION_CAPTION, OrElse(location, LOCATION_PLACEHOLDER)) + "\n\n";
      csv := csv + Record(HEADER_CELLS) + "\n";
      HeadLines(CSV_TITLE, CsvHeadRows(st)[2], CsvHeadRows(st)[3], CsvHeadRows(st)[4], CsvHeadRows(st)[5], Record(HEADER_CELLS));
      var all := leftSections + rightSections;
      BlocksOfAppend(leftSections, rightSections);
      csv := AppendCsvSections(csv, all, st.left + st.right);
      ghost var body := csv;
      csv := csv + "\n" + ClosingRow(CsvExporter.COMMENTS_CAPTION, OrElse(additionalComments, CSV_COMMENTS_PLACEHOLDER)) + "\n";
      csv := csv + ClosingRow(CsvExporter.SIGNATURE_CAPTION, OrElse(inspectorSignature, "")) + "\n";
      csv := csv + ClosingRow(CsvExporter.SIGNATURE_DATE_CAPTION, OrElse(signatureDate, "")) + "\n";
      TailLines(body, CsvTailRows(st)[1], CsvTailRows(st)[2], CsvTailRows(st)[3]);
      UnlinesThree(CsvHeadRows(st), CsvItemRows(st.left + st.right), CsvTailRows(st));
      BlocksUnchanged(leftSections);
      BlocksUnchanged(rightSections);
    }

    /** `downloadAsWord()`: the document, named after the date `toISOString` gives, as `application/msword`. */
    method DownloadAsWord(date: string) returns (file: BaseExporter.DownloadedFile)
      ensures file.name == WordFilename(date)
      ensures file == BaseExporter.Packaged(BaseExporter.WordFile, DOWNLOAD_STEM + date, Document(LEGACY_MARKUP, State()))
    {
      var formData := GenerateFormContent();
      file := BaseExporter.DownloadedFile(DOWNLOAD_STEM + date + ".doc", formData, "application/msword");
      LegacyFilenamesAreExportNames(date);
    }

    /** `downloadAsExcel()`: the spreadsheet, named after the date, as UTF-8 CSV. */
    method DownloadAsExcel(date: string) returns (file: BaseExporter.DownloadedFile)
      ensures file.name == CsvFilename(date)
      ensures file == BaseExporter.Packaged(BaseExporter.CsvFile, DOWNLOAD_STEM + date, CsvDocument(State()))
    {
      var csvContent := GenerateCsvContent();
      file := BaseExporter.DownloadedFile(DOWNLOAD_STEM + date + ".csv", csvContent, "text/csv;charset=utf-8;");
      LegacyFilenamesAreExportNames(date);
    }
  }

  /** A state that differs from `st` in field `key` alone, and holds `value` there, is `WithMetadata(st, key, value)`. */
  lemma MetadataUpdated(st: LegacyState, st': LegacyState, key: MetadataKey, value: string)
    requires st'.left == st.left && st'.right == st.right
    requires LegacyMetadata(st', key) == value
    requires forall other :: other != key ==> LegacyMetadata(st', other) == LegacyMetadata(st, other)
    ensures st' == WithMetadata(st, key, value)
  {
    var w := WithMetadata(st, key, value);
    assert forall k :: LegacyMetadata(st', k) == LegacyMetadata(w, k);
    assert LegacyMetadata(st', InspectorName) == LegacyMetadata(w, InspectorName);
    assert LegacyMetadata(st', ProjectName) == LegacyMetadata(w, ProjectName);
    assert LegacyMetadata(st', DateOfInspection) == LegacyMetadata(w, DateOfInspection);
    assert LegacyMetadata(st', Location) == LegacyMetadata(w, Location);
    assert LegacyMetadata(st', AdditionalComments) == LegacyMetadata(w, AdditionalComments);
    assert LegacyMetadata(st', InspectorSignature) == LegacyMetadata(w, InspectorSignature);
    assert LegacyMetadata(st', SignatureDate) == LegacyMetadata(w, SignatureDate);
  }

  /**
   * The body of `updateSection` that changes the item: the clicked field
   * becomes the negation of its truthiness, and clears the other one when it
   * becomes true.
   */
  method ToggleInPlace(item: LegacyItem, field: Field)
    modifies item
    ensures RowOf(item) == ToggleRow(old(RowOf(item)), field)
  {
    if field == Yes {
      item.yes := Bool(!Truthy(item.yes));
      if Truthy(item.yes) {
        item.no := Bool(false);
      }
    } else {
      item.no := Bool(!Truthy(item.no));
      if Truthy(item.no) {
        item.yes := Bool(false);
      }
    }
  }

  lemma ApartSlot(left: seq<LegacySection>, right: seq<LegacySection>, i: nat, j: nat)
    requires Apart(left, right) && i < |left| && j < |left[i].items|
    ensures left[i].items[j] !in Items(right)
  {
  }

  lemma ApartSlotRight(left: seq<LegacySection>, right: seq<LegacySection>, i: nat, j: nat)
    requires Apart(left, right) && i < |right| && j < |right[i].items|
    ensures right[i].items[j] !in Items(left)
  {
  }

  /** A click changes one column as `ToggleBlocks` says and keeps everything else. */
  lemma ToggledState(st: LegacyState, st': LegacyState, side: Side, i: nat, j: nat, field: Field)
    requires InRange(BlocksOn(st, side), i, j)
    requires st'.(left := st.left, right := st.right) == st
    requires BlocksOn(st', side) == ToggleBlocks(BlocksOn(st, side), i, j, field)
    requires side == Left ==> st'.right == st.right
    requires side == Right ==> st'.left == st.left
    ensures st' == ToggleState(st, side, i, j, field)
  {
  }

  /**
   * `updateSection` on the column the click is in: the clicked item object
   * changes in place, and the column then reads as the column with that row
   * clicked.
   */
  method ToggleInColumn(sections: seq<LegacySection>, i: nat, j: nat, field: Field)
    requires Unshared(sections)
    requires i < |sections| && j < |sections[i].items|
    modifies sections[i].items[j]
    ensures InRange(old(BlocksOf(sections)), i, j)
    ensures BlocksOf(sections) == ToggleBlocks(old(BlocksOf(sections)), i, j, field)
  {
    ghost var before := BlocksOf(sections);
    var item := sections[i].items[j];
    ToggleInPlace(item, field);
    var after := BlocksOf(sections);
    assert forall k :: 0 <= k < |after| ==> after[k].title == before[k].title && |after[k].rows| == |before[k].rows|;
    assert after[i].rows[j] == ToggleRow(before[i].rows[j], field);
    assert forall k, l :: 0 <= k < |after| && 0 <= l < |after[k].rows| && (k, l) != (i, j) ==>
      after[k].rows[l] == before[k].rows[l]
    by {
      forall k, l | 0 <= k < |after| && 0 <= l < |after[k].rows| && (k, l) != (i, j)
        ensures after[k].rows[l] == before[k].rows[l]
      {
        assert sections[k].items[l] != item;
      }
    }
    OnlyRowToggled(before, after, i, j, field);
  }

  /** Blocks that differ from `blocks` only in the clicked row, which is clicked, are `ToggleBlocks`. */
  lemma OnlyRowToggled(blocks: seq<LegacyBlock>, after: seq<LegacyBlock>, i: nat, j: nat, field: Field)
    requires InRange(blocks, i, j) && |after| == |blocks|
    requires forall k :: 0 <= k < |after| ==> after[k].title == blocks[k].title && |after[k].rows| == |blocks[k].rows|
    requires after[i].rows[j] == ToggleRow(blocks[i].rows[j], field)
    requires forall k, l :: 0 <= k < |after| && 0 <= l < |after[k].rows| && (k, l) != (i, j) ==>
      after[k].rows[l] == blocks[k].rows[l]
    ensures after == ToggleBlocks(blocks, i, j, field)
  {
    var toggled := ToggleBlocks(blocks, i, j, field);
    forall k | 0 <= k < |after| ensures after[k] == toggled[k] {
      assert after[k].rows == toggled[k].rows;
    }
  }

  // The Word document, written the way `generateFormContent` appends to `content`.

  /** A template with nine holes, filled from the left. */
  lemma FillNine(c: seq<string>, h: seq<string>)
    requires |c| == 10 && |h| == 9
    ensures Fill(c, h) == c[0] + h[0] + c[1] + h[1] + c[2] + h[2] + c[3] + h[3] + c[4] + h[4] + c[5] + h[5] + c[6] + h[6]
      + c[7] + h[7] + c[8] + h[8] + c[9]
  {
    assert Fill(c[..1], h[..0]) == c[0];
    FillStep(c, h, 0);
    FillStep(c, h, 1);
    FillStep(c, h, 2);
    FillStep(c, h, 3);
    FillStep(c, h, 4);
    FillStep(c, h, 5);
    FillStep(c, h, 6);
    FillStep(c, h, 7);
    FillStep(c, h, 8);
    assert c[..10] == c && h[..9] == h;
  }

  /** A template with two holes, filled from the left. */
  lemma FillTwo(c: seq<string>, h: seq<string>)
    requires |c| == 3 && |h| == 2
    ensures Fill(c, h) == c[0] + h[0] + c[1] + h[1] + c[2]
  {
    assert Fill(c[..1], h[..0]) == c[0];
    FillStep(c, h, 0);
    FillStep(c, h, 1);
    assert c[..3] == c && h[..2] == h;
  }

  lemma ItemRowsSnoc(m: Markup, rows: seq<LegacyRow>, j: nat)
    requires Sized(m) && j < |rows|
    ensures ItemRows(m, rows[..j + 1]) == ItemRows(m, rows[..j]) + ItemRow(m, rows[j])
  {
    var longer, shorter := rows[..j + 1], rows[..j];
    var parts := seq(|longer|, k requires 0 <= k < |longer| => ItemRow(m, longer[k]));
    var init := seq(|shorter|, k requires 0 <= k < |shorter| => ItemRow(m, shorter[k]));
    assert parts == init + [ItemRow(m, rows[j])];
    FlattenSnoc(init, ItemRow(m, rows[j]));
  }

  lemma ColumnSnoc(m: Markup, blocks: seq<LegacyBlock>, i: nat)
    requires Sized(m) && i < |blocks|
    ensures Column(m, blocks[..i + 1]) == Column(m, blocks[..i]) + SectionBlock(m, blocks[i])
  {
    var longer, shorter := blocks[..i + 1], blocks[..i];
    var parts := seq(|longer|, k requires 0 <= k < |longer| => SectionBlock(m, longer[k]));
    var init := seq(|shorter|, k requires 0 <= k < |shorter| => SectionBlock(m, shorter[k]));
    assert parts == init + [SectionBlock(m, blocks[i])];
    FlattenSnoc(init, SectionBlock(m, blocks[i]));
  }

  /** The inner `forEach` over a section's items: one item row per item object. */
  method AppendItemRows(m: Markup, text: string, items: seq<LegacyItem>, ghost rows: seq<LegacyRow>) returns (content: string)
    requires Sized(m) && rows == RowsOf(items)
    ensures content == text + ItemRows(m, rows)
  {
    content := text;
    var j := 0;
    while j < |items|
      invariant 0 <= j <= |items|
      invariant content == text + ItemRows(m, rows[..j])
    {
      var item := items[j];
      var row := m.item[0] + item.question + m.item[1] + BoxMark(item.yes) + m.item[2] + BoxMark(item.no) + m.item[3];
      WordExporter.FillThree(m.item, ItemHoles(rows[j]));
      SeqAssoc(text, ItemRows(m, rows[..j]), row);
      content := content + row;
      ItemRowsSnoc(m, rows, j);
      j := j + 1;
    }
    assert rows[..|items|] == rows;
  }

  /** One pass of the outer `forEach`: the title, the opening of the table, its rows and `</table>`. */
  method AppendSectionBlock(m: Markup, text: string, section: LegacySection, ghost block: LegacyBlock) returns (content: string)
    requires Sized(m) && block == BlockOf(section)
    ensures content == text + SectionBlock(m, block)
  {
    content := text + m.section[0] + section.title + m.section[1];
    content := AppendItemRows(m, content, section.items, block.rows);
    content := content + m.section[2];
    FillTwo(m.section, [block.title, ItemRows(m, block.rows)]);
  }

  /** The outer `forEach` over a column's sections. */
  method AppendColumn(m: Markup, text: string, sections: seq<LegacySection>, ghost blocks: seq<LegacyBlock>) returns (content: string)
    requires Sized(m) && blocks == BlocksOf(sections)
    ensures content == text + Column(m, blocks)
  {
    content := text;
    var i := 0;
    while i < |sections|
      invariant 0 <= i <= |sections|
      invariant content == text + Column(m, blocks[..i])
    {
      content := AppendSectionBlock(m, content, sections[i], blocks[i]);
      SeqAssoc(text, Column(m, blocks[..i]), SectionBlock(m, blocks[i]));
      ColumnSnoc(m, blocks, i);
      i := i + 1;
    }
    assert blocks[..|sections|] == blocks;
  }

  // The spreadsheet, written the way `generateCSVContent` appends to `csv`.

  lemma BlocksOfAppend(left: seq<LegacySection>, right: seq<LegacySection>)
    ensures BlocksOf(left + right) == BlocksOf(left) + BlocksOf(right)
  {
    var all, parts := BlocksOf(left + right), BlocksOf(left) + BlocksOf(right);
    forall k | 0 <= k < |all| ensures all[k] == parts[k] {
      if k < |left| {
        assert (left + right)[k] == left[k];
      } else {
        assert (left + right)[k] == right[k - |left|];
      }
    }
  }

  /** The head as `generateCSVContent` writes it: a title, a blank row, four rows, a blank row and the header row. */
  lemma HeadLines(title: string, a: string, b: string, c: string, d: string, header: string)
    ensures Unlines([title, "", a, b, c, d, "", header])
      == title + "\n\n" + a + "\n" + b + "\n" + c + "\n" + d + "\n\n" + header + "\n"
  {
    Unlines2(title, "");
    EmptyRow(title);
    var x := title + "\n\n";
    UnlinesSnoc([title, ""], a);
    assert [title, ""] + [a] == [title, "", a];
    UnlinesSnoc([title, "", a], b);
    assert [title, "", a] + [b] == [title, "", a, b];
    UnlinesSnoc([title, "", a, b], c);
    assert [title, "", a, b] + [c] == [title, "", a, b, c];
    UnlinesSnoc([title, "", a, b, c], d);
    assert [title, "", a, b, c] + [d] == [title, "", a, b, c, d];
    var y := x + a + "\n" + b + "\n" + c + "\n" + d;
    UnlinesSnoc([title, "", a, b, c, d], "");
    assert [title, "", a, b, c, d] + [""] == [title, "", a, b, c, d, ""];
    EmptyRow(y);
    UnlinesSnoc([title, "", a, b, c, d, ""], header);
    assert [title, "", a, b, c, d, ""] + [header] == [title, "", a, b, c, d, "", header];
  }

  /** The tail as `generateCSVContent` writes it after `text`: a blank row and three rows. */
  lemma TailLines(text: string, a: string, b: string, c: string)
    ensures text + "\n" + a + "\n" + b + "\n" + c + "\n" == text + Unlines(["", a, b, c])
  {
    assert text + Unlines([]) == text;
    UnlinesSnocAfter(text, [], "");
    EmptyRow(text);
    UnlinesSnocAfter(text, [""], a);
    assert [""] + [a] == ["", a];
    UnlinesSnocAfter(text, ["", a], b);
    assert ["", a] + [b] == ["", a, b];
    UnlinesSnocAfter(text, ["", a, b], c);
    assert ["", a, b] + [c] == ["", a, b, c];
  }

  /** Head, items and tail, each written by `Unlines`, are the text of all the rows. */
  lemma UnlinesThree(head: seq<string>, items: seq<string>, tail: seq<string>)
    ensures Unlines(head) + Unlines(items) + Unlines(tail) == Unlines(head + items + tail)
  {
    UnlinesAppend(head, items);
    UnlinesAppend(head + items, tail);
  }

  /** One section's rows appended to `text`, one `csv += ...` per item. */
  method AppendCsvItems(text: string, section: LegacySection, ghost block: LegacyBlock) returns (csv: string)
    requires block == BlockOf(section)
    ensures csv == text + Unlines(BlockCsvRows(block))
  {
    csv := text;
    var items := section.items;
    ghost var rows := BlockCsvRows(block);
    var j := 0;
    while j < |items|
      invariant 0 <= j <= |items|
      invariant csv == text + Unlines(rows[..j])
    {
      var item := items[j];
      var row := Record([Quoted(section.title), Quoted(item.question), Bare(WordExporter.Mark(item.yes)), Bare(WordExporter.Mark(item.no))]);
      assert row == rows[j];
      UnlinesSnocAfter(text, rows[..j], row);
      csv := csv + row + "\n";
      TakeSnoc(rows, j + 1);
      j := j + 1;
    }
    TakeAll(rows, |items|);
  }

  lemma CsvSectionsStep(text: string, blocks: seq<LegacyBlock>, i: nat)
    requires i < |blocks|
    ensures text + Unlines(CsvItemRows(blocks[..i])) + Unlines(BlockCsvRows(blocks[i])) == text + Unlines(CsvItemRows(blocks[..i + 1]))
  {
    UnlinesAppendAfter(text, CsvItemRows(blocks[..i]), BlockCsvRows(blocks[i]));
    TakeSnoc(blocks, i + 1);
    CsvItemRowsSnoc(blocks[..i], blocks[i]);
  }

  /** The rows of the sections, section after section, appended to `text`. */
  method AppendCsvSections(text: string, sections: seq<LegacySection>, ghost blocks: seq<LegacyBlock>) returns (csv: string)
    requires blocks == BlocksOf(sections)
    ensures csv == text + Unlines(CsvItemRows(blocks))
  {
    csv := text;
    var i := 0;
    while i < |sections|
      invariant 0 <= i <= |sections|
      invariant csv == text + Unlines(CsvItemRows(blocks[..i]))
    {
      csv := AppendCsvItems(csv, sections[i], blocks[i]);
      CsvSectionsStep(text, blocks, i);
      i := i + 1;
    }
    TakeAll(blocks, |sections|);
  }
}
