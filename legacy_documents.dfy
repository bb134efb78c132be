/**
 * The documents the legacy safety inspection form downloads: the Word file
 * built by `generateFormContent` and the flat spreadsheet built by
 * `generateCSVContent`. Both are stated here as functions of the form's
 * values; the component's methods that build them step by step are proved
 * against these functions.
 *
 * The Word file is one template literal per part (the document, a section,
 * an item row), each a sequence of chunks around its holes (`Fill`); the
 * lemmas are stated for any markup of that size, and LEGACY_MARKUP is the
 * one the form uses. Unlike the modular Word exporter, a checked box is
 * `☑` and an unchecked one `☐`, and the location placeholder is longer.
 *
 * The spreadsheet lists every item in one flat table, left column first,
 * unlike the modular exporter's side-by-side blocks.
 */
module LegacyDocuments {
  import opened Types
  import opened Text
  import opened Csv
  import Constants
  import WordExporter
  import CsvExporter
  import opened LegacyValues

  // The chunks of the Word template literals, verbatim.

  /** From the opening `<html>` to the inspector's value cell. */
  const DOCUMENT_OPEN: string :=
    "\n" +
    "      <html xmlns:o=\"urn:schemas-microsoft-com:office:office\" xmlns:w=\"urn:schemas-microsoft-com:office:word\">\n" +
    "      <head>\n" +
    "        <meta charset=\"utf-8\">\n" +
    "        <title>Construction Safety Inspection Form</title>\n" +
    "        <style>\n" +
    "          body { font-family: Arial, sans-serif; font-size: 11pt; margin: 40px; }\n" +
    "          h1 { text-align: center; font-size: 14pt; margin-bottom: 20px; }\n" +
    "          .header-table { width: 100%; border-collapse: collapse; margin-bottom: 15px; }\n" +
    "          .header-table td { border: 1px solid black; padding: 5px 8px; font-size: 10pt; }\n" +
    "          .header-table .label { font-weight: bold; width: 25%; }\n" +
    "          .main-table { width: 100%; border-collapse: collapse; margin-bottom: 15px; }\n" +
    "          .main-table td, .main-table th { border: 1px solid black; padding: 3px 5px; font-size: 9pt; vertical-align: top; }\n" +
    "          .section-title { font-weight: bold; font-size: 9pt; border-bottom: 1px solid black; padding-bottom: 3px; margin-bottom: 5px; }\n" +
    "          .question-row { display: flex; justify-content: space-between; padding: 2px 0; border-bottom: 1px solid #ccc; font-size: 9pt; }\n" +
    "          .checkbox-col { width: 30px; text-align: center; }\n" +
    "          .yes-no-header { text-align: center; font-weight: bold; font-size: 8pt; }\n" +
    "          .comments-box { border: 1px solid black; padding: 8px; margin-bottom: 15px; font-size: 10pt; }\n" +
    "          .signature-section { margin-top: 20px; font-size: 10pt; }\n" +
    "          .signature-line { border-bottom: 1px solid black; display: inline-block; width: 200px; }\n" +
    "        </style>\n" +
    "      </head>\n" +
    "      <body>\n" +
    "        <h1>Construction Safety Inspection Form</h1>\n" +
    "        \n" +
    "        <!-- Header Information -->\n" +
    "        <table class=\"header-table\">\n" +
    "          <tr>\n" +
    "            <td class=\"label\">Inspector's Name:</td>\n" +
    "            <td>"

  const INSPECTOR_TO_DATE: string :=
    "</td>\n" +
    "            <td class=\"label\">Date of Inspection:</td>\n" +
    "            <td>"

  const DATE_TO_PROJECT: string :=
    "</td>\n" +
    "          </tr>\n" +
    "          <tr>\n" +
    "            <td class=\"label\">Project Name:</td>\n" +
    "            <td>"

  const PROJECT_TO_LOCATION: string :=
    "</td>\n" +
    "            <td class=\"label\">Location:</td>\n" +
    "            <td>"

  /** From the location cell to the left column, after its YES/NO heading. */
  const LOCATION_TO_LEFT: string :=
    "</td>\n" +
    "          </tr>\n" +
    "        </table>\n" +
    "        \n" +
    "        <!-- Two Column Checklist Layout -->\n" +
    "        <table class=\"main-table\">\n" +
    "          <tr>\n" +
    "            <td style=\"width: 50%; vertical-align: top;\">\n" +
    "              <!-- Left Column -->\n" +
    "              <table style=\"width: 100%; border-collapse: collapse;\">\n" +
    "                <tr>\n" +
    "                  <td style=\"border: none; padding: 0;\">\n" +
    "                    <table style=\"width: 100%; border: none;\">\n" +
    "                      <tr>\n" +
    "                        <td style=\"border: none; text-align: right; padding-right: 5px;\">\n" +
    "                          <span style=\"font-size: 8pt; font-weight: bold;\">YES</span>\n" +
    "                          <span style=\"font-size: 8pt; font-weight: bold; margin-left: 10px;\">NO</span>\n" +
    "                        </td>\n" +
    "                      </tr>\n" +
    "                    </table>\n" +
    "    "

  /** Between the columns: the right column opens with its own YES/NO heading. */
  const LEFT_TO_RIGHT: string :=
    "\n" +
    "                  </td>\n" +
    "                </tr>\n" +
    "              </table>\n" +
    "            </td>\n" +
    "            <td style=\"width: 50%; vertical-align: top;\">\n" +
    "              <!-- Right Column -->\n" +
    "              <table style=\"width: 100%; border-collapse: collapse;\">\n" +
    "                <tr>\n" +
    "                  <td style=\"border: none; padding: 0;\">\n" +
    "                    <table style=\"width: 100%; border: none;\">\n" +
    "                      <tr>\n" +
    "                        <td style=\"border: none; text-align: right; padding-right: 5px;\">\n" +
    "                          <span style=\"font-size: 8pt; font-weight: bold;\">YES</span>\n" +
    "                          <span style=\"font-size: 8pt; font-weight: bold; margin-left: 10px;\">NO</span>\n" +
    "                        </td>\n" +
    "                      </tr>\n" +
    "                    </table>\n" +
    "    "

  const RIGHT_TO_COMMENTS: string :=
    "\n" +
    "                  </td>\n" +
    "                </tr>\n" +
    "              </table>\n" +
    "            </td>\n" +
    "          </tr>\n" +
    "        </table>\n" +
    "        \n" +
    "        <!-- Additional Comments -->\n" +
    "        <div class=\"comments-box\">\n" +
    "          <strong>Additional Comments:</strong> "

  const COMMENTS_TO_SIGNATURE: string :=
    "\n" +
    "        </div>\n" +
    "        \n" +
    "        <!-- Signature Section -->\n" +
    "        <table style=\"width: 100%; margin-top: 20px;\">\n" +
    "          <tr>\n" +
    "            <td style=\"border: none; width: 50%;\">\n" +
    "              <strong>Inspector's Signature:</strong> <span class=\"signature-line\">"

  const SIGNATURE_TO_DATE: string :=
    "</span>\n" +
    "            </td>\n" +
    "            <td style=\"border: none; width: 50%;\">\n" +
    "              <strong>Date:</strong> <span class=\"signature-line\">"

  /** From the signature date to the closing `</html>`. */
  const DOCUMENT_CLOSE: string :=
    "</span>\n" +
    "            </td>\n" +
    "          </tr>\n" +
    "        </table>\n" +
    "        \n" +
    "        <p style=\"text-align: center; margin-top: 30px; font-weight: bold; font-size: 10pt;\">\n" +
    "          Editable, Printable, Digital File, Digital Download\n" +
    "        </p>\n" +
    "      </body>\n" +
    "      </html>\n" +
    "    "

  const SECTION_OPEN: string :=
    "\n" +
    "                    <div class=\"section-title\">"

  const TITLE_TO_ITEMS: string :=
    "</div>\n" +
    "                    <table style=\"width: 100%; border-collapse: collapse; margin-bottom: 8px;\">\n" +
    "      "

  const SECTION_CLOSE: string :=
    "</table>"

  const ITEM_OPEN: string :=
    "\n" +
    "                      <tr style=\"border-bottom: 1px solid #ddd;\">\n" +
    "                        <td style=\"border: none; padding: 2px 0; font-size: 9pt;\">"

  const QUESTION_TO_YES: string :=
    "</td>\n" +
    "                        <td style=\"border: none; width: 25px; text-align: center;\">"

  const YES_TO_NO: string :=
    "</td>\n" +
    "                        <td style=\"border: none; width: 25px; text-align: center;\">"

  const ITEM_CLOSE: string :=
    "</td>\n" +
    "                      </tr>\n" +
    "        "
  /** The three templates: the document around its nine holes, a section around two, an item row around three. */
  datatype Markup = Markup(document: seq<string>, section: seq<string>, item: seq<string>)

  const LEGACY_MARKUP: Markup := Markup(
    [DOCUMENT_OPEN, INSPECTOR_TO_DATE, DATE_TO_PROJECT, PROJECT_TO_LOCATION, LOCATION_TO_LEFT,
     LEFT_TO_RIGHT, RIGHT_TO_COMMENTS, COMMENTS_TO_SIGNATURE, SIGNATURE_TO_DATE, DOCUMENT_CLOSE],
    [SECTION_OPEN, TITLE_TO_ITEMS, SECTION_CLOSE],
    [ITEM_OPEN, QUESTION_TO_YES, YES_TO_NO, ITEM_CLOSE])

  /** Each template has one chunk more than it has holes. */
  predicate Sized(m: Markup) {
    |m.document| == 10 && |m.section| == 3 && |m.item| == 4
  }

  lemma LegacyMarkupSized()
    ensures Sized(LEGACY_MARKUP)
  {
  }

  const CHECKED_BOX: string := "\U{2611}"
  const EMPTY_BOX: string := "\U{2610}"

  /** `x ? "☑" : "☐"` on a `boolean | null` answer. */
  function BoxMark(x: NBool): (m: string)
    ensures m == CHECKED_BOX <==> Truthy(x)
    ensures m != CHECKED_BOX ==> m == EMPTY_BOX
  {
    if Truthy(x) then CHECKED_BOX else EMPTY_BOX
  }

  /**
   * The legacy and the modular Word files check the same boxes but never
   * mark them alike: `☑` where the modular exporter writes `X`, `☐` where
   * it writes nothing.
   */
  lemma BoxMarksDifferFromWordExporter(x: NBool)
    ensures BoxMark(x) != WordExporter.Mark(x)
    ensures BoxMark(x) == CHECKED_BOX <==> WordExporter.Mark(x) == "X"
  {
  }

  /** What goes in an item row: the question and the two boxes. */
  function ItemHoles(row: LegacyRow): seq<string> {
    [row.question, BoxMark(row.yes), BoxMark(row.no)]
  }

  function ItemRow(m: Markup, row: LegacyRow): string
    requires Sized(m)
  {
    Fill(m.item, ItemHoles(row))
  }

  /** The item rows of a section, in order. */
  function ItemRows(m: Markup, rows: seq<LegacyRow>): string
    requires Sized(m)
  {
    Flatten(seq(|rows|, j requires 0 <= j < |rows| => ItemRow(m, rows[j])))
  }

  /** A section: its title, then a table of its item rows. */
  function SectionBlock(m: Markup, block: LegacyBlock): string
    requires Sized(m)
  {
    Fill(m.section, [block.title, ItemRows(m, block.rows)])
  }

  /** The sections of one column, in order. */
  function Column(m: Markup, blocks: seq<LegacyBlock>): string
    requires Sized(m)
  {
    Flatten(seq(|blocks|, i requires 0 <= i < |blocks| => SectionBlock(m, blocks[i])))
  }

  const LOCATION_PLACEHOLDER: string := "[Specific location or area of inspection]"

  function DocumentHoles(m: Markup, st: LegacyState): seq<string>
    requires Sized(m)
  {
    [OrElse(st.inspectorName, Constants.INSPECTOR_PLACEHOLDER), OrElse(st.dateOfInspection, Constants.DATE_PLACEHOLDER),
     OrElse(st.projectName, Constants.PROJECT_PLACEHOLDER), OrElse(st.location, LOCATION_PLACEHOLDER),
     Column(m, st.left), Column(m, st.right),
     OrElse(st.additionalComments, Constants.COMMENTS_PLACEHOLDER), OrElse(st.inspectorSignature, ""), OrElse(st.signatureDate, "")]
  }

  /** `generateFormContent`, for the given markup. */
  function Document(m: Markup, st: LegacyState): (d: string)
    requires Sized(m)
    ensures forall k {:trigger DocumentOffset(m, st, k)} :: 0 <= k < 9 ==>
      Placed(d, DocumentOffset(m, st, k), DocumentHoles(m, st)[k], m.document[k], m.document[k + 1])
  {
    FillAllHoles(m.document, DocumentHoles(m, st));
    Fill(m.document, DocumentHoles(m, st))
  }

  /** Where value `k` of the document goes. */
  function DocumentOffset(m: Markup, st: LegacyState, k: nat): nat
    requires Sized(m) && k < 9
  {
    HoleOffset(m.document, DocumentHoles(m, st), k)
  }

  /** Each metadata value, or its placeholder when it is empty, between the chunks of its cell, in the order inspector, date, project, location. */
  lemma DocumentMetadataPlaced(m: Markup, st: LegacyState)
    requires Sized(m)
    ensures var d, c := Document(m, st), m.document;
      && Placed(d, DocumentOffset(m, st, 0), if st.inspectorName == "" then Constants.INSPECTOR_PLACEHOLDER else st.inspectorName, c[0], c[1])
      && Placed(d, DocumentOffset(m, st, 1), if st.dateOfInspection == "" then Constants.DATE_PLACEHOLDER else st.dateOfInspection, c[1], c[2])
      && Placed(d, DocumentOffset(m, st, 2), if st.projectName == "" then Constants.PROJECT_PLACEHOLDER else st.projectName, c[2], c[3])
      && Placed(d, DocumentOffset(m, st, 3), if st.location == "" then LOCATION_PLACEHOLDER else st.location, c[3], c[4])
  {
    var holes := DocumentHoles(m, st);
    HoleBetween(m.document, holes, 0);
    HoleBetween(m.document, holes, 1);
    HoleBetween(m.document, holes, 2);
    HoleBetween(m.document, holes, 3);
  }

  /** The left column's sections, then the right column's, each between the chunks that open and close its cell. */
  lemma DocumentColumnsPlaced(m: Markup, st: LegacyState)
    requires Sized(m)
    ensures var d, c := Document(m, st), m.document;
      && Placed(d, DocumentOffset(m, st, 4), Column(m, st.left), c[4], c[5])
      && Placed(d, DocumentOffset(m, st, 5), Column(m, st.right), c[5], c[6])
      && DocumentOffset(m, st, 5) == DocumentOffset(m, st, 4) + |Column(m, st.left)| + |c[5]|
  {
    var holes := DocumentHoles(m, st);
    HoleBetween(m.document, holes, 4);
    HoleBetween(m.document, holes, 5);
    HoleOffsetNext(m.document, holes, 4);
  }

  /** The comments, or the Word placeholder when there are none, then the signature and its date verbatim. */
  lemma DocumentClosingPlaced(m: Markup, st: LegacyState)
    requires Sized(m)
    ensures var d, c := Document(m, st), m.document;
      && Placed(d, DocumentOffset(m, st, 6), if st.additionalComments == "" then Constants.COMMENTS_PLACEHOLDER else st.additionalComments, c[6], c[7])
      && Placed(d, DocumentOffset(m, st, 7), st.inspectorSignature, c[7], c[8])
      && Placed(d, DocumentOffset(m, st, 8), st.signatureDate, c[8], c[9])
  {
    var holes := DocumentHoles(m, st);
    HoleBetween(m.document, holes, 6);
    HoleBetween(m.document, holes, 7);
    HoleBetween(m.document, holes, 8);
  }

  /** An item row: the question, then `☑` or `☐` for yes and for no, each between the chunks of its cell. */
  lemma ItemRowPlaced(m: Markup, row: LegacyRow)
    requires Sized(m)
    ensures var r, holes, c := ItemRow(m, row), ItemHoles(row), m.item;
      && Placed(r, HoleOffset(c, holes, 0), row.question, c[0], c[1])
      && Placed(r, HoleOffset(c, holes, 1), if Truthy(row.yes) then CHECKED_BOX else EMPTY_BOX, c[1], c[2])
      && Placed(r, HoleOffset(c, holes, 2), if Truthy(row.no) then CHECKED_BOX else EMPTY_BOX, c[2], c[3])
  {
    var holes := ItemHoles(row);
    HoleBetween(m.item, holes, 0);
    HoleBetween(m.item, holes, 1);
    HoleBetween(m.item, holes, 2);
  }

  /** A section: its title, then its item rows, each between the chunks around it. */
  lemma SectionBlockPlaced(m: Markup, block: LegacyBlock)
    requires Sized(m)
    ensures var b, holes, c := SectionBlock(m, block), [block.title, ItemRows(m, block.rows)], m.section;
      && Placed(b, HoleOffset(c, holes, 0), block.title, c[0], c[1])
      && Placed(b, HoleOffset(c, holes, 1), ItemRows(m, block.rows), c[1], c[2])
  {
    var holes := [block.title, ItemRows(m, block.rows)];
    HoleBetween(m.section, holes, 0);
    HoleBetween(m.section, holes, 1);
  }

  /** Row `j` of a section sits among its rows, after the rows before it. */
  lemma RowInRows(m: Markup, rows: seq<LegacyRow>, j: nat)
    requires Sized(m) && j < |rows|
    ensures exists o :: Occurs(ItemRows(m, rows), o, ItemRow(m, rows[j]))
  {
    var parts := seq(|rows|, k requires 0 <= k < |rows| => ItemRow(m, rows[k]));
    FlattenPlacement(parts, j);
    var o := |Flatten(parts[..j])|;
    assert Occurs(ItemRows(m, rows), o, ItemRow(m, rows[j]));
  }

  /** Section `i` sits in its column, after the sections before it. */
  lemma BlockInColumn(m: Markup, blocks: seq<LegacyBlock>, i: nat)
    requires Sized(m) && i < |blocks|
    ensures exists o :: Occurs(Column(m, blocks), o, SectionBlock(m, blocks[i]))
  {
    var parts := seq(|blocks|, k requires 0 <= k < |blocks| => SectionBlock(m, blocks[k]));
    FlattenPlacement(parts, i);
    var o := |Flatten(parts[..i])|;
    assert Occurs(Column(m, blocks), o, SectionBlock(m, blocks[i]));
  }

  /** Item `j` of section `i` of a column is shown, with its question and boxes, inside the column. */
  lemma RowInColumn(m: Markup, blocks: seq<LegacyBlock>, i: nat, j: nat)
    requires Sized(m) && InRange(blocks, i, j)
    ensures exists o :: Occurs(Column(m, blocks), o, ItemRow(m, blocks[i].rows[j]))
  {
    var block := blocks[i];
    var col, shown, rows, row := Column(m, blocks), SectionBlock(m, block), ItemRows(m, block.rows), ItemRow(m, block.rows[j]);
    var holes := [block.title, rows];
    BlockInColumn(m, blocks, i);
    var b: nat :| Occurs(col, b, shown);
    var h := HoleOffset(m.section, holes, 1);
    assert Occurs(shown, h, rows) by {
      FillHole(m.section, holes, 1);
    }
    RowInRows(m, block.rows, j);
    var r: nat :| Occurs(rows, r, row);
    assert Occurs(col, b + h + r, row) by {
      OccursWithin(col, b, shown, h, rows);
      OccursWithin(col, b + h, rows, r, row);
    }
  }

  /** Every item of a column is shown inside that column's cell of the document. */
  lemma DocumentShowsRow(m: Markup, st: LegacyState, side: Side, i: nat, j: nat)
    requires Sized(m) && InRange(BlocksOn(st, side), i, j)
    ensures var k := if side == Left then 4 else 5;
      var lo, col := DocumentOffset(m, st, k), Column(m, BlocksOn(st, side));
      exists o :: lo <= o && o + |ItemRow(m, BlocksOn(st, side)[i].rows[j])| <= lo + |col|
        && Occurs(Document(m, st), o, ItemRow(m, BlocksOn(st, side)[i].rows[j]))
  {
    var k := if side == Left then 4 else 5;
    var blocks := BlocksOn(st, side);
    var row := ItemRow(m, blocks[i].rows[j]);
    var lo, col, d := DocumentOffset(m, st, k), Column(m, blocks), Document(m, st);
    DocumentColumnsPlaced(m, st);
    assert Occurs(d, lo, col);
    RowInColumn(m, blocks, i, j);
    var r: nat :| Occurs(col, r, row);
    OccursWithin(d, lo, col, r, row);
    assert lo <= lo + r && lo + r + |row| <= lo + |col| && Occurs(d, lo + r, row);
  }

  // `generateCSVContent`: one flat table.

  const CSV_TITLE: string := "Construction Safety Inspection Form"
  const CSV_COMMENTS_PLACEHOLDER: string := "[No comments]"
  const HEADER_CELLS: seq<Cell> := [Bare("Section"), Bare("Question"), Bare("YES"), Bare("NO")]

  /** `caption,value`, both bare. */
  function MetadataRow(caption: string, value: string): string {
    Record([Bare(caption), Bare(value)])
  }

  /** `caption,"value"`. */
  function ClosingRow(caption: string, value: string): string {
    Record([Bare(caption), Quoted(value)])
  }

  /** `"title","question",X|"",X|""`. */
  function CsvItemCells(title: string, row: LegacyRow): seq<Cell> {
    [Quoted(title), Quoted(row.question), Bare(WordExporter.Mark(row.yes)), Bare(WordExporter.Mark(row.no))]
  }

  function CsvItemRow(title: string, row: LegacyRow): string {
    Record(CsvItemCells(title, row))
  }

  /** The rows of one section, one per item. */
  function BlockCsvRows(block: LegacyBlock): seq<string> {
    seq(|block.rows|, j requires 0 <= j < |block.rows| => CsvItemRow(block.title, block.rows[j]))
  }

  /** The rows of the sections, in order. */
  function CsvItemRows(blocks: seq<LegacyBlock>): seq<string> {
    Flatten(seq(|blocks|, i requires 0 <= i < |blocks| => BlockCsvRows(blocks[i])))
  }

  /** The number of items over all the sections. */
  function ItemTotal(blocks: seq<LegacyBlock>): nat
    decreases |blocks|
  {
    if blocks == [] then 0 else ItemTotal(blocks[..|blocks| - 1]) + |blocks[|blocks| - 1].rows|
  }

  /** The title, a blank row, inspector, project, date and location, a blank row, the header row. */
  function CsvHeadRows(st: LegacyState): seq<string> {
    [CSV_TITLE, "",
     MetadataRow(CsvExporter.INSPECTOR_CAPTION, OrElse(st.inspectorName, Constants.INSPECTOR_PLACEHOLDER)),
     MetadataRow(CsvExporter.PROJECT_CAPTION, OrElse(st.projectName, Constants.PROJECT_PLACEHOLDER)),
     MetadataRow(CsvExporter.DATE_CAPTION, OrElse(st.dateOfInspection, Constants.DATE_PLACEHOLDER)),
     MetadataRow(CsvExporter.LOCATION_CAPTION, OrElse(st.location, LOCATION_PLACEHOLDER)),
     "", Record(HEADER_CELLS)]
  }

  /** A blank row, then the comments, the signature and its date. */
  function CsvTailRows(st: LegacyState): seq<string> {
    ["",
     ClosingRow(CsvExporter.COMMENTS_CAPTION, OrElse(st.additionalComments, CSV_COMMENTS_PLACEHOLDER)),
     ClosingRow(CsvExporter.SIGNATURE_CAPTION, OrElse(st.inspectorSignature, "")),
     ClosingRow(CsvExporter.SIGNATURE_DATE_CAPTION, OrElse(st.signatureDate, ""))]
  }

  /** Every line of the spreadsheet: the items of `[...leftSections, ...rightSections]` between the head and the tail. */
  function CsvRows(st: LegacyState): seq<string> {
    CsvHeadRows(st) + CsvItemRows(st.left + st.right) + CsvTailRows(st)
  }

  /** `generateCSVContent`: every line with a trailing line feed. */
  function CsvDocument(st: LegacyState): (d: string)
    ensures |d| >= |CSV_TITLE| + 2 && d[..|CSV_TITLE| + 2] == CSV_TITLE + "\n\n"
    ensures var last := ClosingRow(CsvExporter.SIGNATURE_DATE_CAPTION, OrElse(st.signatureDate, ""));
      |d| >= |last| + 1 && d[|d| - |last| - 1..] == last + "\n"
  {
    CsvRowsEdges(st);
    UnlinesEdges(CsvRows(st), CSV_TITLE, ClosingRow(CsvExporter.SIGNATURE_DATE_CAPTION, OrElse(st.signatureDate, "")));
    Unlines(CsvRows(st))
  }

  /** The spreadsheet opens with the title and a blank row and closes with the signature date row. */
  lemma CsvRowsEdges(st: LegacyState)
    ensures var rows := CsvRows(st);
      && |rows| >= 2 && rows[0] == CSV_TITLE && rows[1] == ""
      && rows[|rows| - 1] == ClosingRow(CsvExporter.SIGNATURE_DATE_CAPTION, OrElse(st.signatureDate, ""))
  {
    CsvLayout(st);
  }

  lemma CsvItemRowsSnoc(blocks: seq<LegacyBlock>, block: LegacyBlock)
    ensures CsvItemRows(blocks + [block]) == CsvItemRows(blocks) + BlockCsvRows(block)
  {
    var all := blocks + [block];
    var parts := seq(|all|, i requires 0 <= i < |all| => BlockCsvRows(all[i]));
    var init := seq(|blocks|, i requires 0 <= i < |blocks| => BlockCsvRows(blocks[i]));
    assert parts == init + [BlockCsvRows(block)];
    FlattenSnoc(init, BlockCsvRows(block));
  }

  /** The flat table has one row per item of all the sections. */
  lemma {:induction false} CsvItemRowsCount(blocks: seq<LegacyBlock>)
    ensures |CsvItemRows(blocks)| == ItemTotal(blocks)
    decreases |blocks|
  {
    if blocks == [] {
      assert CsvItemRows(blocks) == [];
    } else {
      var init := blocks[..|blocks| - 1];
      CsvItemRowsCount(init);
      assert init + [blocks[|blocks| - 1]] == blocks;
      CsvItemRowsSnoc(init, blocks[|blocks| - 1]);
    }
  }

  /** The rows of the left column's items come first, then those of the right column's. */
  lemma CsvItemRowsAppend(a: seq<LegacyBlock>, b: seq<LegacyBlock>)
    ensures CsvItemRows(a + b) == CsvItemRows(a) + CsvItemRows(b)
  {
    var pa := seq(|a|, i requires 0 <= i < |a| => BlockCsvRows(a[i]));
    var pb := seq(|b|, i requires 0 <= i < |b| => BlockCsvRows(b[i]));
    var ab := a + b;
    assert seq(|ab|, i requires 0 <= i < |ab| => BlockCsvRows(ab[i])) == pa + pb;
    FlattenAppend(pa, pb);
  }

  /** Item `j` of section `i` has its row after the rows of the sections before `i` and of the items before `j`. */
  lemma CsvItemRowAt(blocks: seq<LegacyBlock>, i: nat, j: nat)
    requires InRange(blocks, i, j)
    ensures ItemTotal(blocks[..i]) + j < |CsvItemRows(blocks)|
    ensures CsvItemRows(blocks)[ItemTotal(blocks[..i]) + j] == CsvItemRow(blocks[i].title, blocks[i].rows[j])
  {
    var parts := seq(|blocks|, k requires 0 <= k < |blocks| => BlockCsvRows(blocks[k]));
    FlattenPlacement(parts, i);
    var prefix := blocks[..i];
    assert parts[..i] == seq(|prefix|, k requires 0 <= k < |prefix| => BlockCsvRows(prefix[k]));
    CsvItemRowsCount(prefix);
    var o := |Flatten(parts[..i])|;
    assert CsvItemRows(blocks)[o..o + |BlockCsvRows(blocks[i])|] == BlockCsvRows(blocks[i]);
    assert CsvItemRows(blocks)[o + j] == CsvItemRows(blocks)[o..o + |BlockCsvRows(blocks[i])|][j];
  }

  /**
   * The layout of the spreadsheet: twelve rows besides the items; the title
   * first; inspector, project, date and location in rows 2 to 5; the header
   * in row 7; from row 8 the left column's items then the right column's;
   * the blank row, comments, signature and date last.
   */
  lemma CsvLayout(st: LegacyState)
    ensures var rows, n := CsvRows(st), ItemTotal(st.left) + ItemTotal(st.right);
      && |rows| == 12 + n
      && rows[..8] == CsvHeadRows(st)
      && rows[0] == CSV_TITLE && rows[1] == "" && rows[6] == "" && rows[7] == Record(HEADER_CELLS)
      && rows[8..8 + n] == CsvItemRows(st.left) + CsvItemRows(st.right)
      && rows[8 + n..] == CsvTailRows(st)
  {
    var head, items, tail := CsvHeadRows(st), CsvItemRows(st.left + st.right), CsvTailRows(st);
    var n := ItemTotal(st.left) + ItemTotal(st.right);
    assert |head| == 8 && head[0] == CSV_TITLE && head[1] == "" && head[6] == "" && head[7] == Record(HEADER_CELLS);
    assert items == CsvItemRows(st.left) + CsvItemRows(st.right) && |items| == n by {
      CsvItemRowsAppend(st.left, st.right);
      CsvItemRowsCount(st.left);
      CsvItemRowsCount(st.right);
    }
    ThreeParts(head, items, tail);
  }

  lemma ThreeParts(a: seq<string>, b: seq<string>, c: seq<string>)
    ensures var s := a + b + c;
      && |s| == |a| + |b| + |c| && s[..|a|] == a && s[|a|..|a| + |b|] == b && s[|a| + |b|..] == c
  {
  }

  /** Read back, the header row gives its four captions. */
  lemma CsvHeaderCells()
    ensures Fields(Record(HEADER_CELLS)) == ["Section", "Question", "YES", "NO"]
  {
    assert Plain("Section") && Plain("Question") && Plain("YES") && Plain("NO");
    ReadRecord(HEADER_CELLS, ["Section", "Question", "YES", "NO"]);
  }

  /** Read back, an item row gives the section title, the question and the two marks, `X` exactly for a checked box. */
  lemma CsvItemRowCells(title: string, row: LegacyRow)
    requires QuoteFree(title) && QuoteFree(row.question)
    ensures Fields(CsvItemRow(title, row)) == [title, row.question, WordExporter.Mark(row.yes), WordExporter.Mark(row.no)]
    ensures WordExporter.Mark(row.yes) == (if Truthy(row.yes) then "X" else "")
    ensures WordExporter.Mark(row.no) == (if Truthy(row.no) then "X" else "")
  {
    assert Plain("X") && Plain("");
    ReadRecord(CsvItemCells(title, row), [title, row.question, WordExporter.Mark(row.yes), WordExporter.Mark(row.no)]);
  }

  lemma MetadataRowCells(caption: string, value: string)
    requires Plain(caption) && Plain(value)
    ensures Fields(MetadataRow(caption, value)) == [caption, value]
  {
    ReadRecord([Bare(caption), Bare(value)], [caption, value]);
  }

  lemma ClosingRowCells(caption: string, value: string)
    requires Plain(caption) && QuoteFree(value)
    ensures Fields(ClosingRow(caption, value)) == [caption, value]
  {
    ReadRecord([Bare(caption), Quoted(value)], [caption, value]);
  }

  /** Read back, the metadata rows give inspector, project, date and location in that order, placeholders included. */
  lemma CsvMetadataCells(st: LegacyState)
    requires Plain(st.inspectorName) && Plain(st.projectName) && Plain(st.dateOfInspection) && Plain(st.location)
    ensures var rows := CsvRows(st);
      && Fields(rows[2]) == [CsvExporter.INSPECTOR_CAPTION, if st.inspectorName == "" then Constants.INSPECTOR_PLACEHOLDER else st.inspectorName]
      && Fields(rows[3]) == [CsvExporter.PROJECT_CAPTION, if st.projectName == "" then Constants.PROJECT_PLACEHOLDER else st.projectName]
      && Fields(rows[4]) == [CsvExporter.DATE_CAPTION, if st.dateOfInspection == "" then Constants.DATE_PLACEHOLDER else st.dateOfInspection]
      && Fields(rows[5]) == [CsvExporter.LOCATION_CAPTION, if st.location == "" then LOCATION_PLACEHOLDER else st.location]
  {
    CsvExporter.MetadataCaptionsPlain();
    MetadataPlaceholdersPlain();
    LocationPlaceholderPlain();
    CsvLayout(st);
    MetadataRowCells(CsvExporter.INSPECTOR_CAPTION, OrElse(st.inspectorName, Constants.INSPECTOR_PLACEHOLDER));
    MetadataRowCells(CsvExporter.PROJECT_CAPTION, OrElse(st.projectName, Constants.PROJECT_PLACEHOLDER));
    MetadataRowCells(CsvExporter.DATE_CAPTION, OrElse(st.dateOfInspection, Constants.DATE_PLACEHOLDER));
    MetadataRowCells(CsvExporter.LOCATION_CAPTION, OrElse(st.location, LOCATION_PLACEHOLDER));
  }

  /** Read back, the closing rows give the comments or `[No comments]`, then the signature and its date verbatim. */
  lemma CsvClosingCells(st: LegacyState)
    requires QuoteFree(st.additionalComments) && QuoteFree(st.inspectorSignature) && QuoteFree(st.signatureDate)
    ensures var tail := CsvTailRows(st);
      && Fields(tail[1]) == [CsvExporter.COMMENTS_CAPTION, if st.additionalComments == "" then CSV_COMMENTS_PLACEHOLDER else st.additionalComments]
      && Fields(tail[2]) == [CsvExporter.SIGNATURE_CAPTION, st.inspectorSignature]
      && Fields(tail[3]) == [CsvExporter.SIGNATURE_DATE_CAPTION, st.signatureDate]
  {
    CsvExporter.TailCaptionsPlain();
    CommentsPlaceholderPlain();
    ClosingRowCells(CsvExporter.COMMENTS_CAPTION, OrElse(st.additionalComments, CSV_COMMENTS_PLACEHOLDER));
    ClosingRowCells(CsvExporter.SIGNATURE_CAPTION, OrElse(st.inspectorSignature, ""));
    ClosingRowCells(CsvExporter.SIGNATURE_DATE_CAPTION, OrElse(st.signatureDate, ""));
  }

  /**
   * The two legacy files do not agree on their comments placeholder: the
   * spreadsheet's is `[No comments]`, the Word file's is the modular
   * exporters' one. Their location placeholder is not the modular
   * `[Location]`.
   */
  lemma PlaceholdersDiffer()
    ensures CSV_COMMENTS_PLACEHOLDER != Constants.COMMENTS_PLACEHOLDER
    ensures LOCATION_PLACEHOLDER != Constants.LOCATION_PLACEHOLDER
  {
    assert |CSV_COMMENTS_PLACEHOLDER| == 13 && |Constants.COMMENTS_PLACEHOLDER| == 49;
    assert LOCATION_PLACEHOLDER[1] == 'S' && Constants.LOCATION_PLACEHOLDER[1] == 'L';
  }

  /** No placeholder of the spreadsheet holds a comma or a quote, so a reader gets each back as one cell. */
  lemma MetadataPlaceholdersPlain()
    ensures Plain(Constants.INSPECTOR_PLACEHOLDER) && Plain(Constants.PROJECT_PLACEHOLDER) && Plain(Constants.DATE_PLACEHOLDER)
  {
  }

  lemma LocationPlaceholderPlain()
    ensures Plain(LOCATION_PLACEHOLDER)
  {
  }

  lemma CommentsPlaceholderPlain()
    ensures Plain(CSV_COMMENTS_PLACEHOLDER)
  {
  }

  /** No value of the form holds a line feed. */
  predicate LineFree(st: LegacyState) {
    && NoLineFeed(st.inspectorName) && NoLineFeed(st.projectName) && NoLineFeed(st.dateOfInspection)
    && NoLineFeed(st.location) && NoLineFeed(st.additionalComments) && NoLineFeed(st.inspectorSignature)
    && NoLineFeed(st.signatureDate) && BlocksLineFree(st.left) && BlocksLineFree(st.right)
  }

  predicate BlocksLineFree(blocks: seq<LegacyBlock>) {
    forall i :: 0 <= i < |blocks| ==>
      NoLineFeed(blocks[i].title) && forall j :: 0 <= j < |blocks[i].rows| ==> NoLineFeed(blocks[i].rows[j].question)
  }

  lemma RecordLineFree(cells: seq<Cell>)
    requires forall i :: 0 <= i < |cells| ==> NoLineFeed(cells[i].text)
    ensures NoLineFeed(Record(cells))
  {
    RecordAvoids(cells, '\n');
  }

  lemma CsvItemRowsLineFree(blocks: seq<LegacyBlock>)
    requires BlocksLineFree(blocks)
    ensures AllLineFree(CsvItemRows(blocks))
  {
    var parts := seq(|blocks|, i requires 0 <= i < |blocks| => BlockCsvRows(blocks[i]));
    forall i | 0 <= i < |parts|
      ensures AllLineFree(parts[i])
    {
      forall j | 0 <= j < |blocks[i].rows|
        ensures NoLineFeed(BlockCsvRows(blocks[i])[j])
      {
        var cells := CsvItemCells(blocks[i].title, blocks[i].rows[j]);
        assert NoLineFeed(WordExporter.Mark(blocks[i].rows[j].yes)) && NoLineFeed(WordExporter.Mark(blocks[i].rows[j].no));
        RecordLineFree(cells);
      }
    }
    FlattenLineFree(parts);
  }

  lemma HeadCaptionsLineFree()
    ensures NoLineFeed(CSV_TITLE) && NoLineFeed("") && NoLineFeed(CsvExporter.INSPECTOR_CAPTION) && NoLineFeed(CsvExporter.PROJECT_CAPTION)
    ensures NoLineFeed(CsvExporter.DATE_CAPTION) && NoLineFeed(CsvExporter.LOCATION_CAPTION)
  {
  }

  lemma HeaderCaptionsLineFree()
    ensures NoLineFeed("Section") && NoLineFeed("Question") && NoLineFeed("YES") && NoLineFeed("NO")
  {
  }

  lemma TailCaptionsLineFree()
    ensures NoLineFeed(CsvExporter.COMMENTS_CAPTION) && NoLineFeed(CsvExporter.SIGNATURE_CAPTION) && NoLineFeed(CsvExporter.SIGNATURE_DATE_CAPTION)
  {
  }

  lemma PlaceholdersLineFree()
    ensures NoLineFeed(Constants.INSPECTOR_PLACEHOLDER) && NoLineFeed(Constants.PROJECT_PLACEHOLDER)
    ensures NoLineFeed(Constants.DATE_PLACEHOLDER) && NoLineFeed(LOCATION_PLACEHOLDER) && NoLineFeed(CSV_COMMENTS_PLACEHOLDER)
  {
  }

  lemma CsvHeadLineFree(st: LegacyState)
    requires LineFree(st)
    ensures AllLineFree(CsvHeadRows(st))
  {
    HeadCaptionsLineFree();
    HeaderCaptionsLineFree();
    PlaceholdersLineFree();
    RecordLineFree([Bare(CsvExporter.INSPECTOR_CAPTION), Bare(OrElse(st.inspectorName, Constants.INSPECTOR_PLACEHOLDER))]);
    RecordLineFree([Bare(CsvExporter.PROJECT_CAPTION), Bare(OrElse(st.projectName, Constants.PROJECT_PLACEHOLDER))]);
    RecordLineFree([Bare(CsvExporter.DATE_CAPTION), Bare(OrElse(st.dateOfInspection, Constants.DATE_PLACEHOLDER))]);
    RecordLineFree([Bare(CsvExporter.LOCATION_CAPTION), Bare(OrElse(st.location, LOCATION_PLACEHOLDER))]);
    RecordLineFree(HEADER_CELLS);
  }

  lemma CsvTailLineFree(st: LegacyState)
    requires LineFree(st)
    ensures AllLineFree(CsvTailRows(st))
  {
    TailCaptionsLineFree();
    PlaceholdersLineFree();
    RecordLineFree([Bare(CsvExporter.COMMENTS_CAPTION), Quoted(OrElse(st.additionalComments, CSV_COMMENTS_PLACEHOLDER))]);
    RecordLineFree([Bare(CsvExporter.SIGNATURE_CAPTION), Quoted(OrElse(st.inspectorSignature, ""))]);
    RecordLineFree([Bare(CsvExporter.SIGNATURE_DATE_CAPTION), Quoted(OrElse(st.signatureDate, ""))]);
  }

  /** When no value holds a line feed, splitting the spreadsheet at its line feeds gives back its rows. */
  lemma CsvLines(st: LegacyState)
    requires LineFree(st)
    ensures SplitLines(CsvDocument(st)) == CsvRows(st)
  {
    CsvHeadLineFree(st);
    CsvTailLineFree(st);
    assert BlocksLineFree(st.left + st.right) by {
      var all := st.left + st.right;
      forall i | 0 <= i < |all|
        ensures NoLineFeed(all[i].title) && forall j :: 0 <= j < |all[i].rows| ==> NoLineFeed(all[i].rows[j].question)
      {
        if i >= |st.left| {
          assert all[i] == st.right[i - |st.left|];
        }
      }
    }
    CsvItemRowsLineFree(st.left + st.right);
    AllLineFreeAppend(CsvHeadRows(st), CsvItemRows(st.left + st.right));
    AllLineFreeAppend(CsvHeadRows(st) + CsvItemRows(st.left + st.right), CsvTailRows(st));
    SplitUnlines(CsvRows(st));
  }
}
