/**
 * The spreadsheet exporter: a CSV text whose checklist is laid out side by
 * side, block `i` pairing left section `i` with right section `i`, the
 * shorter column padded with empty cells.
 */
module CsvExporter {
  import opened Types
  import opened Text
  import opened Csv
  import opened Constants

  const FILE_EXTENSION: string := "csv"
  const MIME_TYPE: string := "text/csv;charset=utf-8;"

  const INSPECTOR_CAPTION: string := "Inspector's Name"
  const DATE_CAPTION: string := "Date of Inspection"
  const PROJECT_CAPTION: string := "Project Name"
  const LOCATION_CAPTION: string := "Location"
  const COMMENTS_CAPTION: string := "Additional Comments"
  const SIGNATURE_CAPTION: string := "Inspector's Signature"
  const SIGNATURE_DATE_CAPTION: string := "Signature Date"

  /** `Math.max` on lengths. */
  function Max(a: nat, b: nat): (m: nat)
    ensures m >= a && m >= b && (m == a || m == b)
  {
    if a >= b then a else b
  }

  /** `sections[i]`, which is `undefined` past the end. */
  function SectionAt(sections: seq<Section>, i: nat): (r: Option<Section>)
    ensures r.Some? <==> i < |sections|
    ensures r.Some? ==> r.value == sections[i]
  {
    if i < |sections| then Some(sections[i]) else None
  }

  /** `section?.items[j]`. */
  function ItemAt(section: Option<Section>, j: nat): (r: Option<ChecklistItem>)
    ensures r.Some? <==> section.Some? && j < |section.value.items|
    ensures r.Some? ==> r.value == section.value.items[j]
  {
    if section.Some? && j < |section.value.items| then Some(section.value.items[j]) else None
  }

  /** `section?.items.length || 0`. */
  function ItemCount(section: Option<Section>): nat {
    if section.Some? then |section.value.items| else 0
  }

  /** `section?.title || ""`. */
  function TitleOf(section: Option<Section>): string {
    if section.Some? then OrElse(section.value.title, "") else ""
  }

  /** `item?.question || ""`. */
  function QuestionOf(item: Option<ChecklistItem>): string {
    if item.Some? then OrElse(item.value.question, "") else ""
  }

  /** `item?.yes ? "X" : ""` and its `no` twin. */
  function MarkOf(item: Option<ChecklistItem>, field: Field): (m: string)
    ensures m == "X" <==> item.Some? && Truthy(Answer(item.value, field))
    ensures m != "X" ==> m == ""
  {
    if item.Some? && Truthy(Answer(item.value, field)) then "X" else ""
  }

  /** `${leftTitle},,YES,NO,${rightTitle},,YES,NO`: the cells of a block header. */
  function HeaderCells(left: Option<Section>, right: Option<Section>): seq<Cell> {
    [Bare(TitleOf(left)), Bare(""), Bare("YES"), Bare("NO"), Bare(TitleOf(right)), Bare(""), Bare("YES"), Bare("NO")]
  }

  function HeaderRow(left: Option<Section>, right: Option<Section>): string {
    Record(HeaderCells(left, right))
  }

  /** `"${leftQuestion}",${leftYes},${leftNo},,"${rightQuestion}",${rightYes},${rightNo}`: the questions quoted, the marks bare. */
  function ItemCells(left: Option<ChecklistItem>, right: Option<ChecklistItem>): seq<Cell> {
    [Quoted(QuestionOf(left)), Bare(MarkOf(left, Yes)), Bare(MarkOf(left, No)), Bare(""),
     Quoted(QuestionOf(right)), Bare(MarkOf(right, Yes)), Bare(MarkOf(right, No))]
  }

  function ItemRow(left: Option<ChecklistItem>, right: Option<ChecklistItem>): string {
    Record(ItemCells(left, right))
  }

  /** The first `n` item rows of a block. */
  function ItemRows(left: Option<Section>, right: Option<Section>, n: nat): seq<string> {
    seq(n, j requires 0 <= j < n => ItemRow(ItemAt(left, j), ItemAt(right, j)))
  }

  function RowCount(left: Option<Section>, right: Option<Section>): nat {
    Max(ItemCount(left), ItemCount(right))
  }

  /** One block: the header, one row per item of the longer section, an empty row. */
  function BlockRows(left: Option<Section>, right: Option<Section>): seq<string> {
    [HeaderRow(left, right)] + ItemRows(left, right, RowCount(left, right)) + [""]
  }

  function BlockCount(s: FormState): nat {
    Max(|s.leftSections|, |s.rightSections|)
  }

  function Block(s: FormState, i: nat): seq<string> {
    BlockRows(SectionAt(s.leftSections, i), SectionAt(s.rightSections, i))
  }

  /** The blocks, one per position of the longer column of sections. */
  function Blocks(s: FormState): seq<seq<string>> {
    seq(BlockCount(s), i requires 0 <= i < BlockCount(s) => Block(s, i))
  }

  /** A metadata row `caption1,value1,,caption2,value2`, every cell bare. */
  function PairRow(caption1: string, value1: string, caption2: string, value2: string): string {
    Record([Bare(caption1), Bare(value1), Bare(""), Bare(caption2), Bare(value2)])
  }

  /** A closing row `caption,"value"`. */
  function QuotedRow(caption: string, value: string): string {
    Record([Bare(caption), Quoted(value)])
  }

  function InspectorRow(s: FormState): string {
    PairRow(INSPECTOR_CAPTION, OrElse(s.inspectorName, INSPECTOR_PLACEHOLDER),
      DATE_CAPTION, OrElse(s.dateOfInspection, DATE_PLACEHOLDER))
  }

  function ProjectRow(s: FormState): string {
    PairRow(PROJECT_CAPTION, OrElse(s.projectName, PROJECT_PLACEHOLDER),
      LOCATION_CAPTION, OrElse(s.location, LOCATION_PLACEHOLDER))
  }

  function CommentsRow(s: FormState): string {
    QuotedRow(COMMENTS_CAPTION, OrElse(s.additionalComments, COMMENTS_PLACEHOLDER))
  }

  function SignatureRow(s: FormState): string {
    QuotedRow(SIGNATURE_CAPTION, OrElse(s.inspectorSignature, ""))
  }

  function SignatureDateRow(s: FormState): string {
    QuotedRow(SIGNATURE_DATE_CAPTION, OrElse(s.signatureDate, ""))
  }

  function HeadRows(s: FormState, title: string): seq<string> {
    [title, "", InspectorRow(s), ProjectRow(s), ""]
  }

  function TailRows(s: FormState): seq<string> {
    ["", CommentsRow(s), SignatureRow(s), SignatureDateRow(s)]
  }

  /** Every line of the export, each written with a trailing line feed. */
  function Rows(s: FormState, title: string): seq<string> {
    HeadRows(s, title) + Flatten(Blocks(s)) + TailRows(s)
  }

  /** The rows, each ended by a line feed: the text opens with the title and a blank line and closes with the signature date row. */
  function Document(s: FormState, title: string): (d: string)
    ensures |d| >= |title| + 2 && d[..|title| + 2] == title + "\n\n"
    ensures |d| >= |SignatureDateRow(s)| + 1 && d[|d| - |SignatureDateRow(s)| - 1..] == SignatureDateRow(s) + "\n"
  {
    var rows := Rows(s, title);
    assert rows[0] == title && rows[1] == "" && rows[|rows| - 1] == SignatureDateRow(s);
    UnlinesEdges(rows, title, SignatureDateRow(s));
    Unlines(rows)
  }

  /** The opening rows as the exporter writes them: title, blank row, two metadata rows, blank row. */
  lemma HeadText(s: FormState, title: string)
    ensures Unlines(HeadRows(s, title)) == title + "\n\n" + InspectorRow(s) + "\n" + ProjectRow(s) + "\n\n"
  {
    var m1, m2 := InspectorRow(s), ProjectRow(s);
    Unlines2(title, "");
    EmptyRow(title);
    UnlinesSnoc([title, ""], m1);
    assert [title, ""] + [m1] == [title, "", m1];
    UnlinesSnoc([title, "", m1], m2);
    assert [title, "", m1] + [m2] == [title, "", m1, m2];
    UnlinesSnoc([title, "", m1, m2], "");
    assert [title, "", m1, m2] + [""] == HeadRows(s, title);
    EmptyRow(title + "\n\n" + m1 + "\n" + m2);
  }

  lemma ItemRowsSnoc(left: Option<Section>, right: Option<Section>, j: nat)
    ensures ItemRows(left, right, j + 1) == ItemRows(left, right, j) + [ItemRow(ItemAt(left, j), ItemAt(right, j))]
  {
    var longer, shorter, row := ItemRows(left, right, j + 1), ItemRows(left, right, j), ItemRow(ItemAt(left, j), ItemAt(right, j));
    forall k | 0 <= k < j + 1 ensures longer[k] == (shorter + [row])[k] {
      if k < j {
        assert longer[k] == shorter[k];
      }
    }
  }

  /** A block is its header row, its item rows and a blank row. */
  lemma BlockWritten(text: string, left: Option<Section>, right: Option<Section>)
    ensures text + HeaderRow(left, right) + "\n" + Unlines(ItemRows(left, right, RowCount(left, right))) + "\n"
      == text + Unlines(BlockRows(left, right))
  {
    UnlinesFramed(text, HeaderRow(left, right), ItemRows(left, right, RowCount(left, right)));
  }

  /** Writing block `i` after the first `i` blocks gives the first `i + 1`. */
  lemma BlocksSnoc(text: string, s: FormState, i: nat, written: string, next: string)
    requires i < BlockCount(s) && written == text + Unlines(Flatten(Blocks(s)[..i]))
    requires next == written + Unlines(BlockRows(SectionAt(s.leftSections, i), SectionAt(s.rightSections, i)))
    ensures next == text + Unlines(Flatten(Blocks(s)[..i + 1]))
  {
    var done, block := Blocks(s)[..i], Block(s, i);
    UnlinesAppendAfter(text, Flatten(done), block);
    assert Blocks(s)[..i + 1] == done + [block] by {
      TakeSnoc(Blocks(s), i + 1);
    }
    FlattenSnoc(done, block);
  }

  /** The body of the inner loop of `CSVExporter.generateContent`: the cells of row `j`, joined. */
  method FormatItemRow(leftItem: Option<ChecklistItem>, rightItem: Option<ChecklistItem>) returns (row: string)
    ensures row == ItemRow(leftItem, rightItem)
  {
    var leftQuestion := QuestionOf(leftItem);
    var leftYes := MarkOf(leftItem, Yes);
    var leftNo := MarkOf(leftItem, No);
    var rightQuestion := QuestionOf(rightItem);
    var rightYes := MarkOf(rightItem, Yes);
    var rightNo := MarkOf(rightItem, No);
    var cells := [Quoted(leftQuestion), Bare(leftYes), Bare(leftNo), Bare(""),
      Quoted(rightQuestion), Bare(rightYes), Bare(rightNo)];
    assert cells == ItemCells(leftItem, rightItem);
    row := Record(cells);
  }

  method AppendItems(text: string, leftSection: Option<Section>, rightSection: Option<Section>) returns (csv: string)
    ensures csv == text + Unlines(ItemRows(leftSection, rightSection, RowCount(leftSection, rightSection)))
  {
    csv := text;
    var maxItems := Max(ItemCount(leftSection), ItemCount(rightSection));
    var j := 0;
    while j < maxItems
      invariant 0 <= j <= maxItems
      invariant csv == text + Unlines(ItemRows(leftSection, rightSection, j))
    {
      var row := FormatItemRow(ItemAt(leftSection, j), ItemAt(rightSection, j));
      assert csv + row + "\n" == text + Unlines(ItemRows(leftSection, rightSection, j + 1)) by {
        UnlinesSnocAfter(text, ItemRows(leftSection, rightSection, j), row);
        ItemRowsSnoc(leftSection, rightSection, j);
      }
      csv := csv + row + "\n";
      j := j + 1;
    }
  }

  /**
   * One pass of the outer loop of `CSVExporter.generateContent`, for a pair
   * of sections of which at least one exists: the header row, the item rows
   * and the blank row after them.
   */
  method AppendBlock(text: string, leftSection: Option<Section>, rightSection: Option<Section>) returns (csv: string)
    ensures csv == text + Unlines(BlockRows(leftSection, rightSection))
  {
    var leftTitle := TitleOf(leftSection);
    var rightTitle := TitleOf(rightSection);
    var header := text + Record([Bare(leftTitle), Bare(""), Bare("YES"), Bare("NO"), Bare(rightTitle), Bare(""), Bare("YES"), Bare("NO")]) + "\n";
    csv := AppendItems(header, leftSection, rightSection);
    csv := csv + "\n";
    BlockWritten(text, leftSection, rightSection);
  }

  /** The opening statements of `CSVExporter.generateContent`: the title, a blank row and the two metadata rows. */
  method WriteHead(s: FormState, title: string) returns (csv: string)
    ensures csv == Unlines(HeadRows(s, title))
  {
    csv := title + "\n\n";
    csv := csv + InspectorRow(s) + "\n";
    csv := csv + ProjectRow(s) + "\n\n";
    HeadText(s, title);
  }

  /** The outer loop of `CSVExporter.generateContent`: one block per position of the longer column of sections. */
  method AppendBlocks(text: string, s: FormState) returns (csv: string)
    ensures csv == text + Unlines(Flatten(Blocks(s)))
  {
    csv := text;
    var leftSections := s.leftSections;
    var rightSections := s.rightSections;
    var maxSections := Max(|leftSections|, |rightSections|);
    var i := 0;
    while i < maxSections
      invariant 0 <= i <= maxSections
      invariant csv == text + Unlines(Flatten(Blocks(s)[..i]))
    {
      var leftSection := SectionAt(leftSections, i);
      var rightSection := SectionAt(rightSections, i);
      if leftSection.Some? || rightSection.Some? {
        ghost var written := csv;
        csv := AppendBlock(csv, leftSection, rightSection);
        BlocksSnoc(text, s, i, written, csv);
      } else {
        assert false;
      }
      i := i + 1;
      assert csv == text + Unlines(Flatten(Blocks(s)[..i]));
    }
    TakeAll(Blocks(s), BlockCount(s));
  }

  /** `CSVExporter.generateContent`: the opening rows, the blocks, then the comments and signature rows. */
  method GenerateContent(s: FormState, title: string) returns (csv: string)
    ensures csv == Document(s, title)
  {
    csv := WriteHead(s, title);
    csv := AppendBlocks(csv, s);
    assert csv == Unlines(HeadRows(s, title) + Flatten(Blocks(s))) by {
      UnlinesAppend(HeadRows(s, title), Flatten(Blocks(s)));
    }
    DocumentEndsWithSignatures(s, title);
    csv := csv + "\n" + CommentsRow(s) + "\n";
    csv := csv + SignatureRow(s) + "\n";
    csv := csv + SignatureDateRow(s) + "\n";
  }

  /** The export closes with a blank row, then the comments, signature and signature date rows, in that order. */
  lemma DocumentEndsWithSignatures(s: FormState, title: string)
    ensures Document(s, title)
      == Unlines(HeadRows(s, title) + Flatten(Blocks(s))) + "\n" + CommentsRow(s) + "\n" + SignatureRow(s) + "\n" + SignatureDateRow(s) + "\n"
  {
    var body := HeadRows(s, title) + Flatten(Blocks(s));
    var c, g, d := CommentsRow(s), SignatureRow(s), SignatureDateRow(s);
    UnlinesSnoc(body, "");
    EmptyRow(Unlines(body));
    UnlinesSnoc(body + [""], c);
    UnlinesSnoc(body + ["", c], g);
    UnlinesSnoc(body + ["", c, g], d);
    assert body + [""] + [c] == body + ["", c];
    assert body + ["", c] + [g] == body + ["", c, g];
    assert body + ["", c, g] + [d] == Rows(s, title);
  }

  /** The shape of one block: header, one row per position of the longer section, blank row. */
  lemma BlockShape(left: Option<Section>, right: Option<Section>)
    ensures var b := BlockRows(left, right);
      && |b| == Max(ItemCount(left), ItemCount(right)) + 2
      && b[0] == HeaderRow(left, right)
      && b[|b| - 1] == ""
      && forall j :: 0 <= j < |b| - 2 ==> b[j + 1] == ItemRow(ItemAt(left, j), ItemAt(right, j))
  {
    var b, header, rows := BlockRows(left, right), HeaderRow(left, right), ItemRows(left, right, RowCount(left, right));
    assert b == [header] + rows + [""];
    Framed(header, rows, "");
    forall j | 0 <= j < |b| - 2 ensures b[j + 1] == ItemRow(ItemAt(left, j), ItemAt(right, j)) {
      assert b[j + 1] == rows[j];
    }
  }

  /** Rows framed by a first and a last row. */
  lemma Framed(first: string, rows: seq<string>, last: string)
    ensures var b := [first] + rows + [last];
      && |b| == |rows| + 2 && b[0] == first && b[|b| - 1] == last
      && forall j :: 0 <= j < |rows| ==> b[j + 1] == rows[j]
  {
  }

  /** Where block `i` starts among the block rows. */
  function BlockStart(s: FormState, i: nat): nat
    requires i <= BlockCount(s)
  {
    |Flatten(Blocks(s)[..i])|
  }

  /** Block `i` pairs left section `i` with right section `i`, and the blocks appear in order. */
  lemma BlockPlacement(s: FormState, i: nat)
    requires i < BlockCount(s)
    ensures BlockStart(s, i) + |Block(s, i)| <= |Flatten(Blocks(s))|
    ensures Flatten(Blocks(s))[BlockStart(s, i)..BlockStart(s, i) + |Block(s, i)|]
      == BlockRows(SectionAt(s.leftSections, i), SectionAt(s.rightSections, i))
  {
    FlattenPlacement(Blocks(s), i);
  }

  /** The number of rows of the first `n` blocks: per section pair, the longer section's items, a header and a blank row. */
  function BlockRowTotal(s: FormState, n: nat): nat
    requires n <= BlockCount(s)
  {
    if n == 0 then 0
    else BlockRowTotal(s, n - 1) + Max(ItemCount(SectionAt(s.leftSections, n - 1)), ItemCount(SectionAt(s.rightSections, n - 1))) + 2
  }

  /** The first `n` blocks have exactly `BlockRowTotal(s, n)` rows; all blocks together, the total over every section pair. */
  lemma {:induction false} BlockRowsCount(s: FormState, n: nat)
    requires n <= BlockCount(s)
    ensures |Flatten(Blocks(s)[..n])| == BlockRowTotal(s, n)
    ensures n == BlockCount(s) ==> |Flatten(Blocks(s))| == BlockRowTotal(s, n)
  {
    if n > 0 {
      BlockRowsCount(s, n - 1);
      TakeSnoc(Blocks(s), n);
      FlattenSnoc(Blocks(s)[..n - 1], Block(s, n - 1));
      BlockShape(SectionAt(s.leftSections, n - 1), SectionAt(s.rightSections, n - 1));
    }
    TakeAll(Blocks(s), BlockCount(s));
  }

  /** Read back, a block header gives the two titles with the YES/NO captions; a missing side reads as empty. */
  lemma HeaderRowCells(left: Option<Section>, right: Option<Section>)
    requires Plain(TitleOf(left)) && Plain(TitleOf(right))
    ensures Fields(HeaderRow(left, right)) == [TitleOf(left), "", "YES", "NO", TitleOf(right), "", "YES", "NO"]
    ensures left.None? ==> TitleOf(left) == ""
    ensures right.None? ==> TitleOf(right) == ""
  {
    assert Plain("YES") && Plain("NO") && Plain("");
    ReadRecord(HeaderCells(left, right), [TitleOf(left), "", "YES", "NO", TitleOf(right), "", "YES", "NO"]);
  }

  /**
   * Read back, an item row gives each side's question and its two marks,
   * `X` exactly for a checked box; a missing item reads as three empty cells.
   */
  lemma ItemRowCells(left: Option<ChecklistItem>, right: Option<ChecklistItem>)
    requires QuoteFree(QuestionOf(left)) && QuoteFree(QuestionOf(right))
    ensures Fields(ItemRow(left, right))
      == [QuestionOf(left), MarkOf(left, Yes), MarkOf(left, No), "", QuestionOf(right), MarkOf(right, Yes), MarkOf(right, No)]
    ensures left.None? ==> QuestionOf(left) == "" && MarkOf(left, Yes) == "" && MarkOf(left, No) == ""
    ensures right.None? ==> QuestionOf(right) == "" && MarkOf(right, Yes) == "" && MarkOf(right, No) == ""
  {
    assert Plain("X") && Plain("");
    ReadRecord(ItemCells(left, right),
      [QuestionOf(left), MarkOf(left, Yes), MarkOf(left, No), "", QuestionOf(right), MarkOf(right, Yes), MarkOf(right, No)]);
  }

  /** No caption holds a comma or a quote. */
  lemma MetadataCaptionsPlain()
    ensures Plain(INSPECTOR_CAPTION) && Plain(DATE_CAPTION) && Plain(PROJECT_CAPTION) && Plain(LOCATION_CAPTION)
  {
  }

  lemma TailCaptionsPlain()
    ensures Plain(COMMENTS_CAPTION) && Plain(SIGNATURE_CAPTION) && Plain(SIGNATURE_DATE_CAPTION)
  {
  }

  /** Read back, the metadata rows pair inspector with date and project with location, placeholders included. */
  lemma MetadataRowCells(s: FormState)
    requires Plain(OrElse(s.inspectorName, INSPECTOR_PLACEHOLDER)) && Plain(OrElse(s.dateOfInspection, DATE_PLACEHOLDER))
    requires Plain(OrElse(s.projectName, PROJECT_PLACEHOLDER)) && Plain(OrElse(s.location, LOCATION_PLACEHOLDER))
    ensures Fields(InspectorRow(s)) == [INSPECTOR_CAPTION, OrElse(s.inspectorName, INSPECTOR_PLACEHOLDER), "", DATE_CAPTION, OrElse(s.dateOfInspection, DATE_PLACEHOLDER)]
    ensures Fields(ProjectRow(s)) == [PROJECT_CAPTION, OrElse(s.projectName, PROJECT_PLACEHOLDER), "", LOCATION_CAPTION, OrElse(s.location, LOCATION_PLACEHOLDER)]
  {
    MetadataCaptionsPlain();
    PairRowCells(INSPECTOR_CAPTION, OrElse(s.inspectorName, INSPECTOR_PLACEHOLDER), DATE_CAPTION, OrElse(s.dateOfInspection, DATE_PLACEHOLDER));
    PairRowCells(PROJECT_CAPTION, OrElse(s.projectName, PROJECT_PLACEHOLDER), LOCATION_CAPTION, OrElse(s.location, LOCATION_PLACEHOLDER));
  }

  lemma PairRowCells(a: string, b: string, c: string, d: string)
    requires Plain(a) && Plain(b) && Plain(c) && Plain(d)
    ensures Fields(PairRow(a, b, c, d)) == [a, b, "", c, d]
  {
    assert Plain("");
    ReadRecord([Bare(a), Bare(b), Bare(""), Bare(c), Bare(d)], [a, b, "", c, d]);
  }

  /** A comma inside an unquoted value ends its cell early: the row reads back with one cell too many. */
  lemma PairRowValueWithComma(a: string, b1: string, b2: string, c: string, d: string)
    requires Plain(a) && Plain(b1) && Plain(b2) && Plain(c) && Plain(d)
    ensures Fields(PairRow(a, b1 + "," + b2, c, d)) == [a, b1, b2, "", c, d]
  {
    var tail := [Bare(""), Bare(c), Bare(d)];
    var t := Record(tail);
    var written := [Bare(a), Bare(b1 + "," + b2)] + tail;
    var read := [Bare(a), Bare(b1), Bare(b2)] + tail;
    assert written[1..][1..] == tail && read[1..][1..][1..] == tail;
    assert Record(written[1..]) == b1 + "," + b2 + "," + t;
    assert Record(read[1..][1..]) == b2 + "," + t;
    assert Record(read[1..]) == b1 + "," + (b2 + "," + t);
    assert Record(written) == Record(read);
    assert written == [Bare(a), Bare(b1 + "," + b2), Bare(""), Bare(c), Bare(d)];
    assert Plain("");
    ReadRecord(read, [a, b1, b2, "", c, d]);
  }

  /** The metadata cells are written unquoted: an inspector named "Doe, J" is read back as two cells. */
  lemma MetadataCommaSplitsCell(s: FormState)
    requires s.inspectorName == "Doe, J" && s.dateOfInspection == "D"
    ensures Fields(InspectorRow(s)) == [INSPECTOR_CAPTION, "Doe", " J", "", DATE_CAPTION, "D"]
  {
    assert "Doe, J" == "Doe" + "," + " J";
    assert Plain("Doe") && Plain(" J") && Plain("D");
    MetadataCaptionsPlain();
    PairRowValueWithComma(INSPECTOR_CAPTION, "Doe", " J", DATE_CAPTION, "D");
  }

  /** Read back, the closing rows carry the comments (or their placeholder), the signature and its date. */
  lemma TailRowCells(s: FormState)
    requires QuoteFree(OrElse(s.additionalComments, COMMENTS_PLACEHOLDER))
    requires QuoteFree(s.inspectorSignature) && QuoteFree(s.signatureDate)
    ensures Fields(CommentsRow(s)) == [COMMENTS_CAPTION, OrElse(s.additionalComments, COMMENTS_PLACEHOLDER)]
    ensures Fields(SignatureRow(s)) == [SIGNATURE_CAPTION, s.inspectorSignature]
    ensures Fields(SignatureDateRow(s)) == [SIGNATURE_DATE_CAPTION, s.signatureDate]
  {
    TailCaptionsPlain();
    QuotedRowCells(COMMENTS_CAPTION, OrElse(s.additionalComments, COMMENTS_PLACEHOLDER));
    QuotedRowCells(SIGNATURE_CAPTION, OrElse(s.inspectorSignature, ""));
    QuotedRowCells(SIGNATURE_DATE_CAPTION, OrElse(s.signatureDate, ""));
  }

  lemma QuotedRowCells(caption: string, value: string)
    requires Plain(caption) && QuoteFree(value)
    ensures Fields(QuotedRow(caption, value)) == [caption, value]
  {
    ReadRecord([Bare(caption), Quoted(value)], [caption, value]);
  }

  predicate SectionsLineFree(sections: seq<Section>) {
    forall i :: 0 <= i < |sections| ==>
      && NoLineFeed(sections[i].title)
      && (forall j :: 0 <= j < |sections[i].items| ==> NoLineFeed(sections[i].items[j].question))
  }

  /** Neither the title nor any value of the state holds a line feed. */
  predicate LineFree(s: FormState, title: string) {
    && NoLineFeed(title)
    && (forall k :: NoLineFeed(Metadata(s, k)))
    && SectionsLineFree(s.leftSections) && SectionsLineFree(s.rightSections)
  }

  lemma RecordLineFree(cells: seq<Cell>)
    requires forall i :: 0 <= i < |cells| ==> NoLineFeed(cells[i].text)
    ensures NoLineFeed(Record(cells))
  {
    RecordAvoids(cells, '\n');
  }

  lemma HeaderRowLineFree(left: Option<Section>, right: Option<Section>)
    requires NoLineFeed(TitleOf(left)) && NoLineFeed(TitleOf(right))
    ensures NoLineFeed(HeaderRow(left, right))
  {
    assert NoLineFeed("YES") && NoLineFeed("NO") && NoLineFeed("");
    RecordLineFree(HeaderCells(left, right));
  }

  lemma ItemRowLineFree(left: Option<ChecklistItem>, right: Option<ChecklistItem>)
    requires NoLineFeed(QuestionOf(left)) && NoLineFeed(QuestionOf(right))
    ensures NoLineFeed(ItemRow(left, right))
  {
    assert NoLineFeed("X") && NoLineFeed("");
    RecordLineFree(ItemCells(left, right));
  }

  /** A present section's title and questions hold no line feed. */
  predicate SectionLineFree(section: Option<Section>) {
    section.Some? ==>
      && NoLineFeed(section.value.title)
      && (forall j :: 0 <= j < |section.value.items| ==> NoLineFeed(section.value.items[j].question))
  }

  lemma ItemRowsLineFree(left: Option<Section>, right: Option<Section>, n: nat)
    requires SectionLineFree(left) && SectionLineFree(right)
    ensures AllLineFree(ItemRows(left, right, n))
  {
    forall k | 0 <= k < n ensures NoLineFeed(ItemRows(left, right, n)[k]) {
      ItemRowLineFree(ItemAt(left, k), ItemAt(right, k));
    }
  }

  lemma BlockRowsLineFree(left: Option<Section>, right: Option<Section>)
    requires SectionLineFree(left) && SectionLineFree(right)
    ensures AllLineFree(BlockRows(left, right))
  {
    HeaderRowLineFree(left, right);
    ItemRowsLineFree(left, right, RowCount(left, right));
    assert AllLineFree([HeaderRow(left, right)]) && AllLineFree([""]);
    AllLineFreeAppend([HeaderRow(left, right)], ItemRows(left, right, RowCount(left, right)));
    AllLineFreeAppend([HeaderRow(left, right)] + ItemRows(left, right, RowCount(left, right)), [""]);
  }

  lemma BlockLineFree(s: FormState, i: nat)
    requires SectionsLineFree(s.leftSections) && SectionsLineFree(s.rightSections)
    ensures AllLineFree(Block(s, i))
  {
    BlockRowsLineFree(SectionAt(s.leftSections, i), SectionAt(s.rightSections, i));
  }

  /** No caption or placeholder holds a line feed. */
  lemma MetadataConstantsLineFree()
    ensures NoLineFeed(INSPECTOR_CAPTION) && NoLineFeed(DATE_CAPTION) && NoLineFeed(PROJECT_CAPTION) && NoLineFeed(LOCATION_CAPTION)
    ensures NoLineFeed(INSPECTOR_PLACEHOLDER) && NoLineFeed(DATE_PLACEHOLDER) && NoLineFeed(PROJECT_PLACEHOLDER) && NoLineFeed(LOCATION_PLACEHOLDER)
  {
  }

  lemma TailConstantsLineFree()
    ensures NoLineFeed(COMMENTS_CAPTION) && NoLineFeed(SIGNATURE_CAPTION) && NoLineFeed(SIGNATURE_DATE_CAPTION)
  {
  }

  /** The comments placeholder is one line: neither of its halves holds a line feed. */
  lemma CommentsPlaceholderLineFree()
    ensures NoLineFeed(COMMENTS_PLACEHOLDER)
  {
    assert NoLineFeed("[Inspector's additional ") && NoLineFeed("comments or observations]");
  }

  lemma HeadTailLineFree(s: FormState, title: string)
    requires LineFree(s, title)
    ensures AllLineFree(HeadRows(s, title)) && AllLineFree(TailRows(s))
  {
    assert NoLineFeed(Metadata(s, InspectorName)) && NoLineFeed(Metadata(s, DateOfInspection));
    assert NoLineFeed(Metadata(s, ProjectName)) && NoLineFeed(Metadata(s, Location));
    assert NoLineFeed(Metadata(s, AdditionalComments));
    assert NoLineFeed(Metadata(s, InspectorSignature)) && NoLineFeed(Metadata(s, SignatureDate));
    assert NoLineFeed("");
    MetadataConstantsLineFree();
    TailConstantsLineFree();
    CommentsPlaceholderLineFree();
    RecordLineFree([Bare(INSPECTOR_CAPTION), Bare(OrElse(s.inspectorName, INSPECTOR_PLACEHOLDER)), Bare(""),
      Bare(DATE_CAPTION), Bare(OrElse(s.dateOfInspection, DATE_PLACEHOLDER))]);
    RecordLineFree([Bare(PROJECT_CAPTION), Bare(OrElse(s.projectName, PROJECT_PLACEHOLDER)), Bare(""),
      Bare(LOCATION_CAPTION), Bare(OrElse(s.location, LOCATION_PLACEHOLDER))]);
    RecordLineFree([Bare(COMMENTS_CAPTION), Quoted(OrElse(s.additionalComments, COMMENTS_PLACEHOLDER))]);
    RecordLineFree([Bare(SIGNATURE_CAPTION), Quoted(OrElse(s.inspectorSignature, ""))]);
    RecordLineFree([Bare(SIGNATURE_DATE_CAPTION), Quoted(OrElse(s.signatureDate, ""))]);
  }

  /** When no value holds a line feed, cutting the export at its line feeds gives back exactly its rows. */
  lemma DocumentLines(s: FormState, title: string)
    requires LineFree(s, title)
    ensures SplitLines(Document(s, title)) == Rows(s, title)
  {
    var blocks := Blocks(s);
    forall i | 0 <= i < |blocks| ensures AllLineFree(blocks[i]) {
      BlockLineFree(s, i);
    }
    FlattenLineFree(blocks);
    HeadTailLineFree(s, title);
    AllLineFreeAppend(HeadRows(s, title), Flatten(blocks));
    AllLineFreeAppend(HeadRows(s, title) + Flatten(blocks), TailRows(s));
    SplitUnlines(Rows(s, title));
  }
}
