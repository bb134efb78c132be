/**
 * The word-processor exporter: an HTML document that Word opens as a `.doc`,
 * filled in from four template literals (the document, the metadata rows, a
 * section table, an item row). Values are inserted as they are, without HTML
 * escaping.
 *
 * A template is a sequence of chunks around its holes (`Fill`). Each chunk
 * is written as the tag that closes the hole before it, the text between,
 * and the tag that opens the hole after it; the rendering and its lemmas
 * are stated for any markup of that shape, and WORD_MARKUP is the one the
 * exporter uses.
 */
module WordExporter {
  import opened Types
  import opened Text
  import opened Constants
  import CsvExporter

  const FILE_EXTENSION: string := "doc"
  const MIME_TYPE: string := "application/msword"

  // The tags a hole of a template sits between.
  const TITLE_OPEN: string := "<title>"
  const TITLE_CLOSE: string := "</title>"
  const STYLE_OPEN: string := "<style>\n          "
  const STYLE_CLOSE: string := "\n        </style>"
  const HEADING_OPEN: string := "<h1>"
  const HEADING_CLOSE: string := "</h1>"
  const HEADER_TABLE_OPEN: string := "<table class=\"header-table\">\n          "
  const TABLE_CLOSE: string := "\n        </table>"
  const LEFT_CELL_OPEN: string := "<td style=\"width: 50%; vertical-align: top; border-right: 1px solid black;\">\n              "
  const RIGHT_CELL_OPEN: string := "<td style=\"width: 50%; vertical-align: top;\">\n              "
  const CELL_CLOSE: string := "\n            </td>"
  const COMMENTS_LABEL: string := "<strong>Additional Comments:</strong> "
  const SIGNATURE_LABEL: string := "<strong>Inspector's Signature:</strong> <span class=\"signature-line\">"
  const SIGNATURE_DATE_LABEL: string := "<strong>Date:</strong> <span class=\"signature-line\">"
  const SPAN_CLOSE: string := "</span>"
  const INSPECTOR_LABEL: string := "<td class=\"label\">Inspector's Name:</td>\n        <td>"
  const DATE_LABEL: string := "<td class=\"label\">Date of Inspection:</td>\n        <td>"
  const PROJECT_LABEL: string := "<td class=\"label\">Project Name:</td>\n        <td>"
  const LOCATION_LABEL: string := "<td class=\"label\">Location:</td>\n        <td>"
  const VALUE_CLOSE: string := "</td>"
  const SECTION_TITLE_OPEN: string := "background-color: #f0f0f0;\">\n            "
  const SECTION_TITLE_CLOSE: string := "\n          </td>"
  const HEADING_ROW_CLOSE: string := ">NO</td>\n        </tr>\n        "
  const SECTION_TABLE_CLOSE: string := "\n      </table>"
  const QUESTION_CELL_OPEN: string := "<td style=\"border: 1px solid black; padding: 3px 4px; font-size: 9pt;\">\n              "
  const MARK_CELL_OPEN: string := "text-align: center; font-size: 10pt;\">\n              "

  /** The tags, as one value: the lemmas below are stated for any tags the templates are shaped around. */
  datatype Tags = Tags(
    titleOpen: string,
    titleClose: string,
    styleOpen: string,
    styleClose: string,
    headingOpen: string,
    headingClose: string,
    headerTableOpen: string,
    tableClose: string,
    leftCellOpen: string,
    rightCellOpen: string,
    cellClose: string,
    commentsLabel: string,
    signatureLabel: string,
    signatureDateLabel: string,
    spanClose: string,
    inspectorLabel: string,
    dateLabel: string,
    projectLabel: string,
    locationLabel: string,
    valueClose: string,
    sectionTitleOpen: string,
    sectionTitleClose: string,
    headingRowClose: string,
    sectionTableClose: string,
    questionCellOpen: string,
    markCellOpen: string)

  const WORD_TAGS: Tags := Tags(
    TITLE_OPEN,
    TITLE_CLOSE,
    STYLE_OPEN,
    STYLE_CLOSE,
    HEADING_OPEN,
    HEADING_CLOSE,
    HEADER_TABLE_OPEN,
    TABLE_CLOSE,
    LEFT_CELL_OPEN,
    RIGHT_CELL_OPEN,
    CELL_CLOSE,
    COMMENTS_LABEL,
    SIGNATURE_LABEL,
    SIGNATURE_DATE_LABEL,
    SPAN_CLOSE,
    INSPECTOR_LABEL,
    DATE_LABEL,
    PROJECT_LABEL,
    LOCATION_LABEL,
    VALUE_CLOSE,
    SECTION_TITLE_OPEN,
    SECTION_TITLE_CLOSE,
    HEADING_ROW_CLOSE,
    SECTION_TABLE_CLOSE,
    QUESTION_CELL_OPEN,
    MARK_CELL_OPEN)

  const LINE_FEED: string := "\n"

  /** A chunk of a template: the tag closing the hole before it, the text between, the tag opening the hole after it. */
  function Chunk(close: string, text: string, open: string): (chunk: string)
    ensures StartsWith(chunk, close) && EndsWith(chunk, open)
  {
    ConcatTags();
    close + text + open
  }

  /** The document template, around its nine holes. */
  const HTML_HEAD: string := Chunk("", LINE_FEED + "      <html xmlns:o=\"urn:schemas-microsoft-com:office:office\" xmlns:w=\"urn:schemas-microsoft-com:office:word\">" +
      LINE_FEED + "      <head>" +
      LINE_FEED + "        <meta charset=\"utf-8\">" +
      LINE_FEED + "        ", TITLE_OPEN)
  const TITLE_TO_STYLES: string := Chunk(TITLE_CLOSE, LINE_FEED + "        ", STYLE_OPEN)
  const STYLES_TO_HEADING: string := Chunk(STYLE_CLOSE, LINE_FEED + "      </head>" +
      LINE_FEED + "      <body>" +
      LINE_FEED + "        ", HEADING_OPEN)
  const HEADING_TO_METADATA: string := Chunk(HEADING_CLOSE, LINE_FEED + "        " +
      LINE_FEED + "        <!-- Header Information -->" +
      LINE_FEED + "        ", HEADER_TABLE_OPEN)
  const METADATA_TO_LEFT: string := Chunk(TABLE_CLOSE, LINE_FEED + "        " +
      LINE_FEED + "        <!-- Two Column Checklist Layout -->" +
      LINE_FEED + "        <table class=\"main-table\" border=\"1\" cellpadding=\"4\" cellspacing=\"0\">" +
      LINE_FEED + "          <tr>" +
      LINE_FEED + "            ", LEFT_CELL_OPEN)
  const LEFT_TO_RIGHT: string := Chunk(CELL_CLOSE, LINE_FEED + "            ", RIGHT_CELL_OPEN)
  const RIGHT_TO_COMMENTS: string := Chunk(CELL_CLOSE, LINE_FEED + "          </tr>" +
      LINE_FEED + "        </table>" +
      LINE_FEED + "        " +
      LINE_FEED + "        <!-- Additional Comments -->" +
      LINE_FEED + "        <table class=\"comments-table\" border=\"1\" cellpadding=\"6\" cellspacing=\"0\">" +
      LINE_FEED + "          <tr>" +
      LINE_FEED + "            <td>" +
      LINE_FEED + "              ", COMMENTS_LABEL)
  const COMMENTS_TO_SIGNATURE: string := Chunk(CELL_CLOSE, LINE_FEED + "          </tr>" +
      LINE_FEED + "        </table>" +
      LINE_FEED + "        " +
      LINE_FEED + "        <!-- Signature Section -->" +
      LINE_FEED + "        <table style=\"width: 100%; margin-top: 20px; border: none;\">" +
      LINE_FEED + "          <tr>" +
      LINE_FEED + "            <td style=\"border: none; width: 50%; padding-top: 20px;\">" +
      LINE_FEED + "              ", SIGNATURE_LABEL)
  const SIGNATURE_TO_DATE: string := Chunk(SPAN_CLOSE, LINE_FEED + "            </td>" +
      LINE_FEED + "            <td style=\"border: none; width: 50%; padding-top: 20px;\">" +
      LINE_FEED + "              ", SIGNATURE_DATE_LABEL)
  const HTML_TAIL: string := Chunk(SPAN_CLOSE, LINE_FEED + "            </td>" +
      LINE_FEED + "          </tr>" +
      LINE_FEED + "        </table>" +
      LINE_FEED + "      </body>" +
      LINE_FEED + "      </html>" +
      LINE_FEED + "    ", "")
  const DOCUMENT: seq<string> := [HTML_HEAD, TITLE_TO_STYLES, STYLES_TO_HEADING, HEADING_TO_METADATA, METADATA_TO_LEFT, LEFT_TO_RIGHT, RIGHT_TO_COMMENTS, COMMENTS_TO_SIGNATURE, SIGNATURE_TO_DATE, HTML_TAIL]

  /** The metadata rows, around the four metadata values. */
  const METADATA_OPEN: string := Chunk("", LINE_FEED + "      <tr>" + LINE_FEED + "        ", INSPECTOR_LABEL)
  const NAME_TO_DATE: string := Chunk(VALUE_CLOSE, LINE_FEED + "        ", DATE_LABEL)
  const DATE_TO_PROJECT: string := Chunk(VALUE_CLOSE, LINE_FEED + "      </tr>" +
      LINE_FEED + "      <tr>" +
      LINE_FEED + "        ", PROJECT_LABEL)
  const PROJECT_TO_LOCATION: string := Chunk(VALUE_CLOSE, LINE_FEED + "        ", LOCATION_LABEL)
  const METADATA_CLOSE: string := Chunk(VALUE_CLOSE, LINE_FEED + "      </tr>" + LINE_FEED + "    ", "")
  const METADATA: seq<string> := [METADATA_OPEN, NAME_TO_DATE, DATE_TO_PROJECT, PROJECT_TO_LOCATION, METADATA_CLOSE]

  /** A section table, around its title and its item rows. */
  const SECTION_OPEN: string := Chunk("", LINE_FEED + "      <table style=\"width: 100%; border-collapse: collapse; margin-bottom: 0;\">" +
      LINE_FEED + "        <tr>" +
      LINE_FEED + "          <td style=\"border: 1px solid black; padding: 4px 6px; font-weight: bold; font-size: 9pt; ", SECTION_TITLE_OPEN)
  const TITLE_TO_ITEMS: string := Chunk(SECTION_TITLE_CLOSE, LINE_FEED + "          <td style=\"border: none; padding: 2px 4px; font-size: 8pt; font-weight: bold; text-align: center; width: 30px;\">YES</td>" +
      LINE_FEED + "          <td style=\"border: none; padding: 2px 4px; font-size: 8pt; font-weight: bold; text-align: center; width: 30px;\"", HEADING_ROW_CLOSE)
  const SECTION_CLOSE: string := Chunk(SECTION_TABLE_CLOSE, LINE_FEED + "    ", "")
  const SECTION: seq<string> := [SECTION_OPEN, TITLE_TO_ITEMS, SECTION_CLOSE]

  /** An item row, around the question and the two marks. */
  const ITEM_OPEN: string := Chunk("", LINE_FEED + "          <tr>" + LINE_FEED + "            ", QUESTION_CELL_OPEN)
  const QUESTION_TO_YES: string := Chunk(CELL_CLOSE, LINE_FEED + "            <td style=\"border: 1px solid black; padding: 3px 2px; ", MARK_CELL_OPEN)
  const YES_TO_NO: string := Chunk(CELL_CLOSE, LINE_FEED + "            <td style=\"border: 1px solid black; padding: 3px 2px; ", MARK_CELL_OPEN)
  const ITEM_CLOSE: string := Chunk(CELL_CLOSE, LINE_FEED + "          </tr>" + LINE_FEED + "        ", "")
  const ITEM: seq<string> := [ITEM_OPEN, QUESTION_TO_YES, YES_TO_NO, ITEM_CLOSE]

  /** `getStyles()`: the style sheet of the document. */
  const STYLES: string :=
    LINE_FEED + "      @page { size: 8.5in 11in; margin: 0.5in; }" +
    LINE_FEED + "      body { " +
    LINE_FEED + "        font-family: Arial, sans-serif; " +
    LINE_FEED + "        font-size: 10pt; " +
    LINE_FEED + "        margin: 0.5in;" +
    LINE_FEED + "        width: 7.5in;" +
    LINE_FEED + "      }" +
    LINE_FEED + "      h1 { " +
    LINE_FEED + "        text-align: center; " +
    LINE_FEED + "        font-size: 13pt; " +
    LINE_FEED + "        margin: 0 0 12pt 0; " +
    LINE_FEED + "        font-weight: bold;" +
    LINE_FEED + "        text-transform: uppercase;" +
    LINE_FEED + "      }" +
    LINE_FEED + "      .header-table { " +
    LINE_FEED + "        width: 100%; " +
    LINE_FEED + "        border-collapse: collapse; " +
    LINE_FEED + "        margin-bottom: 8pt;" +
    LINE_FEED + "        border: 1px solid black;" +
    LINE_FEED + "      }" +
    LINE_FEED + "      .header-table td { " +
    LINE_FEED + "        border: 1px solid black; " +
    LINE_FEED + "        padding: 4px 6px; " +
    LINE_FEED + "        font-size: 9pt;" +
    LINE_FEED + "      }" +
    LINE_FEED + "      .header-table .label { " +
    LINE_FEED + "        font-weight: bold; " +
    LINE_FEED + "        width: 25%; " +
    LINE_FEED + "        background-color: #e8e8e8;" +
    LINE_FEED + "      }" +
    LINE_FEED + "      .main-table { " +
    LINE_FEED + "        width: 100%; " +
    LINE_FEED + "        border-collapse: collapse; " +
    LINE_FEED + "        margin-bottom: 8pt;" +
    LINE_FEED + "        border: 1px solid black;" +
    LINE_FEED + "      }" +
    LINE_FEED + "      .main-table td { " +
    LINE_FEED + "        border: 1px solid black;" +
    LINE_FEED + "        padding: 0;" +
    LINE_FEED + "        font-size: 9pt; " +
    LINE_FEED + "        vertical-align: top;" +
    LINE_FEED + "      }" +
    LINE_FEED + "      .comments-table {" +
    LINE_FEED + "        width: 100%;" +
    LINE_FEED + "        border-collapse: collapse;" +
    LINE_FEED + "        margin-bottom: 8pt;" +
    LINE_FEED + "        border: 1px solid black;" +
    LINE_FEED + "      }" +
    LINE_FEED + "      .comments-table td {" +
    LINE_FEED + "        border: 1px solid black;" +
    LINE_FEED + "        padding: 6px;" +
    LINE_FEED + "        font-size: 9pt;" +
    LINE_FEED + "      }" +
    LINE_FEED + "      .signature-line { " +
    LINE_FEED + "        border-bottom: 1px solid black; " +
    LINE_FEED + "        display: inline-block; " +
    LINE_FEED + "        width: 150px;" +
    LINE_FEED + "        margin: 0 10px;" +
    LINE_FEED + "      }" +
    LINE_FEED + "    "

  datatype Markup = Markup(document: seq<string>, styles: string, metadata: seq<string>, section: seq<string>, item: seq<string>)

  const WORD_MARKUP: Markup := Markup(DOCUMENT, STYLES, METADATA, SECTION, ITEM)

  /** Each template has one chunk more than it has holes. */
  predicate Sized(m: Markup) {
    |m.document| == 10 && |m.metadata| == 5 && |m.section| == 3 && |m.item| == 4
  }

  /** The document template: title, styles, heading, metadata, the two columns, comments, signature and date. */
  predicate DocumentShaped(d: seq<string>, t: Tags) {
    && |d| == 10
    && EndsWith(d[0], t.titleOpen) && StartsWith(d[1], t.titleClose)
    && EndsWith(d[1], t.styleOpen) && StartsWith(d[2], t.styleClose)
    && EndsWith(d[2], t.headingOpen) && StartsWith(d[3], t.headingClose)
    && EndsWith(d[3], t.headerTableOpen) && StartsWith(d[4], t.tableClose)
    && EndsWith(d[4], t.leftCellOpen) && StartsWith(d[5], t.cellClose)
    && EndsWith(d[5], t.rightCellOpen) && StartsWith(d[6], t.cellClose)
    && EndsWith(d[6], t.commentsLabel) && StartsWith(d[7], t.cellClose)
    && EndsWith(d[7], t.signatureLabel) && StartsWith(d[8], t.spanClose)
    && EndsWith(d[8], t.signatureDateLabel) && StartsWith(d[9], t.spanClose)
  }

  /** The metadata rows: each value follows its label cell. */
  predicate MetadataShaped(d: seq<string>, t: Tags) {
    && |d| == 5
    && EndsWith(d[0], t.inspectorLabel) && StartsWith(d[1], t.valueClose)
    && EndsWith(d[1], t.dateLabel) && StartsWith(d[2], t.valueClose)
    && EndsWith(d[2], t.projectLabel) && StartsWith(d[3], t.valueClose)
    && EndsWith(d[3], t.locationLabel) && StartsWith(d[4], t.valueClose)
  }

  /** A section table: the title cell, then the heading row, then the item rows. */
  predicate SectionShaped(d: seq<string>, t: Tags) {
    && |d| == 3
    && EndsWith(d[0], t.sectionTitleOpen) && StartsWith(d[1], t.sectionTitleClose)
    && EndsWith(d[1], t.headingRowClose) && StartsWith(d[2], t.sectionTableClose)
  }

  /** An item row: the question cell, then the YES and NO mark cells. */
  predicate ItemShaped(d: seq<string>, t: Tags) {
    && |d| == 4
    && EndsWith(d[0], t.questionCellOpen) && StartsWith(d[1], t.cellClose)
    && EndsWith(d[1], t.markCellOpen) && StartsWith(d[2], t.cellClose)
    && EndsWith(d[2], t.markCellOpen) && StartsWith(d[3], t.cellClose)
    && |t.markCellOpen| > 0 && t.markCellOpen[|t.markCellOpen| - 1] != 'X'
  }

  /** The four templates sit around the tags. */
  predicate WordShaped(m: Markup, t: Tags) {
    DocumentShaped(m.document, t) && MetadataShaped(m.metadata, t) && SectionShaped(m.section, t) && ItemShaped(m.item, t)
  }

  /** The first five holes of the document template. */
  lemma DocumentHeadChunksShaped()
    ensures |DOCUMENT| == 10
    ensures EndsWith(DOCUMENT[0], WORD_TAGS.titleOpen) && StartsWith(DOCUMENT[1], WORD_TAGS.titleClose)
    ensures EndsWith(DOCUMENT[1], WORD_TAGS.styleOpen) && StartsWith(DOCUMENT[2], WORD_TAGS.styleClose)
    ensures EndsWith(DOCUMENT[2], WORD_TAGS.headingOpen) && StartsWith(DOCUMENT[3], WORD_TAGS.headingClose)
    ensures EndsWith(DOCUMENT[3], WORD_TAGS.headerTableOpen) && StartsWith(DOCUMENT[4], WORD_TAGS.tableClose)
    ensures EndsWith(DOCUMENT[4], WORD_TAGS.leftCellOpen) && StartsWith(DOCUMENT[5], WORD_TAGS.cellClose)
  {
  }

  /** The last four holes of the document template. */
  lemma DocumentTailChunksShaped()
    ensures |DOCUMENT| == 10
    ensures EndsWith(DOCUMENT[5], WORD_TAGS.rightCellOpen) && StartsWith(DOCUMENT[6], WORD_TAGS.cellClose)
    ensures EndsWith(DOCUMENT[6], WORD_TAGS.commentsLabel) && StartsWith(DOCUMENT[7], WORD_TAGS.cellClose)
    ensures EndsWith(DOCUMENT[7], WORD_TAGS.signatureLabel) && StartsWith(DOCUMENT[8], WORD_TAGS.spanClose)
    ensures EndsWith(DOCUMENT[8], WORD_TAGS.signatureDateLabel) && StartsWith(DOCUMENT[9], WORD_TAGS.spanClose)
  {
  }

  lemma DocumentChunksShaped()
    ensures DocumentShaped(DOCUMENT, WORD_TAGS)
  {
    DocumentHeadChunksShaped();
    DocumentTailChunksShaped();
  }

  lemma MetadataChunksShaped()
    ensures MetadataShaped(METADATA, WORD_TAGS)
  {
  }

  lemma SectionChunksShaped()
    ensures SectionShaped(SECTION, WORD_TAGS)
  {
  }

  lemma ItemChunksShaped()
    ensures ItemShaped(ITEM, WORD_TAGS)
  {
  }

  /** The exporter's markup has the shape every lemma below relies on. */
  lemma WordMarkupShaped()
    ensures WordShaped(WORD_MARKUP, WORD_TAGS) && Sized(WORD_MARKUP)
  {
    DocumentChunksShaped();
    MetadataChunksShaped();
    SectionChunksShaped();
    ItemChunksShaped();
  }

  /** `x ? "X" : ""` on a `boolean | null` answer. */
  function Mark(x: NBool): (m: string)
    ensures m == "X" <==> Truthy(x)
    ensures m != "X" ==> m == ""
  {
    if Truthy(x) then "X" else ""
  }

  /** The Word and spreadsheet exporters mark the same answers. */
  lemma MarksAgreeWithCsv(item: ChecklistItem)
    ensures Mark(item.yes) == CsvExporter.MarkOf(Some(item), Yes)
    ensures Mark(item.no) == CsvExporter.MarkOf(Some(item), No)
  {
  }

  /** What goes in an item row: the question and the two marks. */
  function ItemHoles(item: ChecklistItem): seq<string> {
    [item.question, Mark(item.yes), Mark(item.no)]
  }

  function ItemRow(m: Markup, item: ChecklistItem): string
    requires Sized(m)
  {
    Fill(m.item, ItemHoles(item))
  }

  /** Where the question goes in an item row. */
  function QuestionOffset(m: Markup, item: ChecklistItem): nat
    requires Sized(m)
  {
    HoleOffset(m.item, ItemHoles(item), 0)
  }

  /** `section.items.map(...).join("")`. */
  function ItemRows(m: Markup, items: seq<ChecklistItem>): string
    requires Sized(m)
  {
    Flatten(seq(|items|, i requires 0 <= i < |items| => ItemRow(m, items[i])))
  }

  function SectionTable(m: Markup, section: Section): string
    requires Sized(m)
  {
    Fill(m.section, [section.title, ItemRows(m, section.items)])
  }

  /** `generateSectionsContent`: one table per section, in order. */
  function SectionsContent(m: Markup, sections: seq<Section>): string
    requires Sized(m)
  {
    Flatten(seq(|sections|, i requires 0 <= i < |sections| => SectionTable(m, sections[i])))
  }

  function MetadataHoles(s: FormState): seq<string> {
    [OrElse(s.inspectorName, INSPECTOR_PLACEHOLDER), OrElse(s.dateOfInspection, DATE_PLACEHOLDER),
     OrElse(s.projectName, PROJECT_PLACEHOLDER), OrElse(s.location, LOCATION_PLACEHOLDER)]
  }

  /** `getMetadataRows`: two rows of label and value cells. */
  function MetadataRows(m: Markup, s: FormState): string
    requires Sized(m)
  {
    Fill(m.metadata, MetadataHoles(s))
  }

  function DocumentHoles(m: Markup, s: FormState, title: string): seq<string>
    requires Sized(m)
  {
    [title, m.styles, title, MetadataRows(m, s), SectionsContent(m, s.leftSections), SectionsContent(m, s.rightSections),
     OrElse(s.additionalComments, COMMENTS_PLACEHOLDER), OrElse(s.inspectorSignature, ""), OrElse(s.signatureDate, "")]
  }

  /** The document template with its nine values, each between the two chunks of markup around it. */
  function Document(m: Markup, s: FormState, title: string): (d: string)
    requires Sized(m)
    ensures forall k {:trigger DocumentOffset(m, s, title, k)} :: 0 <= k < 9 ==>
      Placed(d, DocumentOffset(m, s, title, k), DocumentHoles(m, s, title)[k], m.document[k], m.document[k + 1])
  {
    FillAllHoles(m.document, DocumentHoles(m, s, title));
    Fill(m.document, DocumentHoles(m, s, title))
  }

  /**
   * `WordExporter.generateContent`: the title in `<title>` and in `<h1>`, the
   * two columns' tables in the left and right cells, and the comments, or
   * their placeholder, after their label.
   */
  function GenerateContent(s: FormState, title: string): (d: string)
    ensures ContentPlaced(d, WORD_MARKUP, WORD_TAGS, s, title)
  {
    WordMarkupShaped();
    DocumentPlaced(WORD_MARKUP, WORD_TAGS, s, title);
    Document(WORD_MARKUP, s, title)
  }

  /** The title, the metadata rows, the two columns and the comments, each between its tags. */
  predicate ContentPlaced(d: string, m: Markup, t: Tags, s: FormState, title: string) {
    && Sized(m)
    && Placed(d, DocumentOffset(m, s, title, 0), title, t.titleOpen, t.titleClose)
    && Placed(d, DocumentOffset(m, s, title, 2), title, t.headingOpen, t.headingClose)
    && Placed(d, DocumentOffset(m, s, title, 3), MetadataRows(m, s), t.headerTableOpen, t.tableClose)
    && Placed(d, DocumentOffset(m, s, title, 4), SectionsContent(m, s.leftSections), t.leftCellOpen, t.cellClose)
    && Placed(d, DocumentOffset(m, s, title, 5), SectionsContent(m, s.rightSections), t.rightCellOpen, t.cellClose)
    && Placed(d, DocumentOffset(m, s, title, 6), OrElse(s.additionalComments, COMMENTS_PLACEHOLDER), t.commentsLabel, t.cellClose)
  }

  lemma DocumentPlaced(m: Markup, t: Tags, s: FormState, title: string)
    requires Sized(m) && DocumentShaped(m.document, t)
    ensures ContentPlaced(Document(m, s, title), m, t, s, title)
  {
    DocumentHeadPlaced(m, t, s, title);
    DocumentBodyPlaced(m, t, s, title);
    DocumentCommentsPlaced(m, t, s, title);
  }

  /** Where value `k` of the document goes. */
  function DocumentOffset(m: Markup, s: FormState, title: string, k: nat): nat
    requires Sized(m) && k < 9
  {
    HoleOffset(m.document, DocumentHoles(m, s, title), k)
  }

  /** The head: the title in `<title>` and in `<h1>`, the style sheet in `<style>`, in that order. */
  lemma DocumentHeadPlaced(m: Markup, t: Tags, s: FormState, title: string)
    requires Sized(m) && DocumentShaped(m.document, t)
    ensures var d := Document(m, s, title);
      && DocumentOffset(m, s, title, 0) == |m.document[0]|
      && Placed(d, DocumentOffset(m, s, title, 0), title, t.titleOpen, t.titleClose)
      && DocumentOffset(m, s, title, 1) == DocumentOffset(m, s, title, 0) + |title| + |m.document[1]|
      && Placed(d, DocumentOffset(m, s, title, 1), m.styles, t.styleOpen, t.styleClose)
      && DocumentOffset(m, s, title, 2) == DocumentOffset(m, s, title, 1) + |m.styles| + |m.document[2]|
      && Placed(d, DocumentOffset(m, s, title, 2), title, t.headingOpen, t.headingClose)
  {
    var holes := DocumentHoles(m, s, title);
    HoleOffsetFirst(m.document, holes);
    HoleOffsetNext(m.document, holes, 0);
    HoleOffsetNext(m.document, holes, 1);
    HolePlaced(m.document, holes, 0, t.titleOpen, t.titleClose);
    HolePlaced(m.document, holes, 1, t.styleOpen, t.styleClose);
    HolePlaced(m.document, holes, 2, t.headingOpen, t.headingClose);
  }

  /** The body: the metadata rows in the header table, then the left column's tables in the left cell and the right column's in the right cell. */
  lemma DocumentBodyPlaced(m: Markup, t: Tags, s: FormState, title: string)
    requires Sized(m) && DocumentShaped(m.document, t)
    ensures var d := Document(m, s, title);
      && Placed(d, DocumentOffset(m, s, title, 3), MetadataRows(m, s), t.headerTableOpen, t.tableClose)
      && DocumentOffset(m, s, title, 4) == DocumentOffset(m, s, title, 3) + |MetadataRows(m, s)| + |m.document[4]|
      && Placed(d, DocumentOffset(m, s, title, 4), SectionsContent(m, s.leftSections), t.leftCellOpen, t.cellClose)
      && DocumentOffset(m, s, title, 5) == DocumentOffset(m, s, title, 4) + |SectionsContent(m, s.leftSections)| + |m.document[5]|
      && Placed(d, DocumentOffset(m, s, title, 5), SectionsContent(m, s.rightSections), t.rightCellOpen, t.cellClose)
  {
    var holes := DocumentHoles(m, s, title);
    HoleOffsetNext(m.document, holes, 3);
    HoleOffsetNext(m.document, holes, 4);
    HolePlaced(m.document, holes, 3, t.headerTableOpen, t.tableClose);
    HolePlaced(m.document, holes, 4, t.leftCellOpen, t.cellClose);
    HolePlaced(m.document, holes, 5, t.rightCellOpen, t.cellClose);
  }

  /** The comments, or their placeholder when there are none, after their label. */
  lemma DocumentCommentsPlaced(m: Markup, t: Tags, s: FormState, title: string)
    requires Sized(m) && DocumentShaped(m.document, t)
    ensures var comments := if s.additionalComments == "" then COMMENTS_PLACEHOLDER else s.additionalComments;
      && Placed(Document(m, s, title), DocumentOffset(m, s, title, 6), comments, t.commentsLabel, t.cellClose)
      && DocumentOffset(m, s, title, 6) == DocumentOffset(m, s, title, 5) + |SectionsContent(m, s.rightSections)| + |m.document[6]|
  {
    var holes := DocumentHoles(m, s, title);
    HoleOffsetNext(m.document, holes, 5);
    HolePlaced(m.document, holes, 6, t.commentsLabel, t.cellClose);
  }

  /** The signature and its date, verbatim (`|| ""` changes nothing), after their labels. */
  lemma DocumentSignaturePlaced(m: Markup, t: Tags, s: FormState, title: string)
    requires Sized(m) && DocumentShaped(m.document, t)
    ensures var d := Document(m, s, title);
      && Placed(d, DocumentOffset(m, s, title, 7), s.inspectorSignature, t.signatureLabel, t.spanClose)
      && DocumentOffset(m, s, title, 8) == DocumentOffset(m, s, title, 7) + |s.inspectorSignature| + |m.document[8]|
      && Placed(d, DocumentOffset(m, s, title, 8), s.signatureDate, t.signatureDateLabel, t.spanClose)
  {
    var holes := DocumentHoles(m, s, title);
    HoleOffsetNext(m.document, holes, 7);
    HolePlaced(m.document, holes, 7, t.signatureLabel, t.spanClose);
    HolePlaced(m.document, holes, 8, t.signatureDateLabel, t.spanClose);
  }

  /** Everything up to the right column is the same whatever the right column holds. */
  lemma LeftPartIgnoresRightColumn(m: Markup, s: FormState, other: FormState, title: string)
    requires Sized(m)
    requires other == s.(rightSections := other.rightSections)
    ensures DocumentOffset(m, s, title, 5) == DocumentOffset(m, other, title, 5)
    ensures var o := DocumentOffset(m, s, title, 5);
      && o <= |Document(m, s, title)| && o <= |Document(m, other, title)|
      && Document(m, s, title)[..o] == Document(m, other, title)[..o]
  {
    var holes, others := DocumentHoles(m, s, title), DocumentHoles(m, other, title);
    assert holes[..5] == others[..5];
    FillAgrees(m.document, holes, others, 5);
  }

  /** Each metadata value, or its placeholder when it is empty, in the value cell after its label. */
  lemma MetadataCellsPlaced(m: Markup, t: Tags, s: FormState)
    requires Sized(m) && MetadataShaped(m.metadata, t)
    ensures var rows, holes := MetadataRows(m, s), MetadataHoles(s);
      && Placed(rows, HoleOffset(m.metadata, holes, 0),
          if s.inspectorName == "" then INSPECTOR_PLACEHOLDER else s.inspectorName, t.inspectorLabel, t.valueClose)
      && Placed(rows, HoleOffset(m.metadata, holes, 1),
          if s.dateOfInspection == "" then DATE_PLACEHOLDER else s.dateOfInspection, t.dateLabel, t.valueClose)
      && Placed(rows, HoleOffset(m.metadata, holes, 2),
          if s.projectName == "" then PROJECT_PLACEHOLDER else s.projectName, t.projectLabel, t.valueClose)
      && Placed(rows, HoleOffset(m.metadata, holes, 3),
          if s.location == "" then LOCATION_PLACEHOLDER else s.location, t.locationLabel, t.valueClose)
  {
    var holes := MetadataHoles(s);
    HolePlaced(m.metadata, holes, 0, t.inspectorLabel, t.valueClose);
    HolePlaced(m.metadata, holes, 1, t.dateLabel, t.valueClose);
    HolePlaced(m.metadata, holes, 2, t.projectLabel, t.valueClose);
    HolePlaced(m.metadata, holes, 3, t.locationLabel, t.valueClose);
  }

  /** A section table: the title in the heading cell, then the item rows between the heading row and the end of the table. */
  lemma SectionTablePlaced(m: Markup, t: Tags, section: Section)
    requires Sized(m) && SectionShaped(m.section, t)
    ensures var table, holes := SectionTable(m, section), [section.title, ItemRows(m, section.items)];
      && Placed(table, HoleOffset(m.section, holes, 0), section.title, t.sectionTitleOpen, t.sectionTitleClose)
      && Placed(table, HoleOffset(m.section, holes, 1), ItemRows(m, section.items), t.headingRowClose, t.sectionTableClose)
  {
    var holes := [section.title, ItemRows(m, section.items)];
    HolePlaced(m.section, holes, 0, t.sectionTitleOpen, t.sectionTitleClose);
    HolePlaced(m.section, holes, 1, t.headingRowClose, t.sectionTableClose);
  }

  /** An item row has its question in the question cell. */
  lemma ItemQuestionPlaced(m: Markup, t: Tags, item: ChecklistItem)
    requires Sized(m) && ItemShaped(m.item, t)
    ensures Placed(ItemRow(m, item), QuestionOffset(m, item), item.question, t.questionCellOpen, t.cellClose)
  {
    HolePlaced(m.item, ItemHoles(item), 0, t.questionCellOpen, t.cellClose);
  }

  /** An item row has "X" or nothing in each mark cell, "X" exactly for a truthy answer. */
  lemma ItemMarksPlaced(m: Markup, t: Tags, item: ChecklistItem)
    requires Sized(m) && ItemShaped(m.item, t)
    ensures var row, holes := ItemRow(m, item), ItemHoles(item);
      && Placed(row, HoleOffset(m.item, holes, 1), if Truthy(item.yes) then "X" else "", t.markCellOpen, t.cellClose)
      && Placed(row, HoleOffset(m.item, holes, 2), if Truthy(item.no) then "X" else "", t.markCellOpen, t.cellClose)
  {
    var holes := ItemHoles(item);
    HolePlaced(m.item, holes, 1, t.markCellOpen, t.cellClose);
    HolePlaced(m.item, holes, 2, t.markCellOpen, t.cellClose);
  }

  /** What a reader of the document sees of an item: its question and which boxes carry an "X". */
  datatype ItemMarks = ItemMarks(question: string, yes: bool, no: bool)

  function StripSuffix(s: string, suffix: string): (r: Option<string>)
    ensures r.Some? <==> EndsWith(s, suffix)
    ensures r.Some? ==> s == r.value + suffix
  {
    if EndsWith(s, suffix) then Some(s[..|s| - |suffix|]) else None
  }

  function StripPrefix(s: string, prefix: string): (r: Option<string>)
    ensures r.Some? <==> StartsWith(s, prefix)
    ensures r.Some? ==> s == prefix + r.value
  {
    if StartsWith(s, prefix) then Some(s[|prefix|..]) else None
  }

  /** Takes a trailing "X" off, telling whether there was one. */
  function StripMark(s: string): (r: (string, bool))
    ensures s == r.0 + (if r.1 then "X" else "")
    ensures r.1 <==> EndsWith(s, "X")
  {
    if EndsWith(s, "X") then (s[..|s| - 1], true) else (s, false)
  }

  /** Reads an item row back, from its end: the last chunk, the "no" mark, the chunk before, the "yes" mark, the chunk before, and the first chunk before the question. */
  function ReadItemRow(m: Markup, row: string): Option<ItemMarks>
    requires Sized(m)
  {
    match StripSuffix(row, m.item[3])
    case None => None
    case Some(r3) =>
      var (r2, no) := StripMark(r3);
      match StripSuffix(r2, m.item[2])
      case None => None
      case Some(r1) =>
        var (r0, yes) := StripMark(r1);
        match StripSuffix(r0, m.item[1])
        case None => None
        case Some(head) =>
          match StripPrefix(head, m.item[0])
          case None => None
          case Some(question) => Some(ItemMarks(question, yes, no))
  }

  /** A text ending with a tag whose last character is not an "X" does not end with an "X". */
  lemma NoMarkAfter(s: string, tag: string)
    requires EndsWith(s, tag) && |tag| > 0 && tag[|tag| - 1] != 'X'
    ensures !EndsWith(s, "X")
  {
    assert s[|s| - 1] == tag[|tag| - 1];
  }

  lemma StripMarkAfter(s: string, tag: string, mark: string)
    requires EndsWith(s, tag) && |tag| > 0 && tag[|tag| - 1] != 'X'
    requires mark == "X" || mark == ""
    ensures StripMark(s + mark) == (s, mark == "X")
  {
    if mark == "" {
      assert s + mark == s;
      NoMarkAfter(s, tag);
    } else {
      assert EndsWith(s + mark, "X");
      assert (s + mark)[..|s + mark| - 1] == s;
    }
  }

  lemma FillThree(chunks: seq<string>, holes: seq<string>)
    requires |chunks| == 4 && |holes| == 3
    ensures Fill(chunks, holes) == chunks[0] + holes[0] + chunks[1] + holes[1] + chunks[2] + holes[2] + chunks[3]
  {
    assert chunks[..2][..1] == chunks[..1] && holes[..1][..0] == holes[..0];
    assert Fill(chunks[..1], holes[..0]) == chunks[0];
    var f1 := Fill(chunks[..2], holes[..1]);
    assert f1 == chunks[0] + holes[0] + chunks[1];
    assert chunks[..3][..2] == chunks[..2] && holes[..2][..1] == holes[..1];
    var f2 := Fill(chunks[..3], holes[..2]);
    assert f2 == f1 + holes[1] + chunks[2];
    assert Fill(chunks, holes) == f2 + holes[2] + chunks[3];
  }

  lemma StripAppended(a: string, b: string)
    ensures StripSuffix(a + b, b) == Some(a) && StripPrefix(a + b, a) == Some(b)
  {
    assert (a + b)[..|a|] == a && (a + b)[|a|..] == b;
  }

  /** A filled item row gives back its question and which marks are "X". */
  lemma {:induction false} ReadFilledRow(m: Markup, t: Tags, q: string, y: string, n: string)
    requires Sized(m) && ItemShaped(m.item, t)
    requires (y == "X" || y == "") && (n == "X" || n == "")
    ensures ReadItemRow(m, Fill(m.item, [q, y, n])) == Some(ItemMarks(q, y == "X", n == "X"))
  {
    var c, tag := m.item, t.markCellOpen;
    FillThree(c, [q, y, n]);
    var r2 := c[0] + q;
    var r3 := r2 + c[1];
    var r4 := r3 + y;
    var r5 := r4 + c[2];
    var r6 := r5 + n;
    StripAppended(r6, c[3]);
    EndsWithPrepend(r4, c[2], tag);
    StripMarkAfter(r5, tag, n);
    StripAppended(r4, c[2]);
    EndsWithPrepend(r2, c[1], tag);
    StripMarkAfter(r3, tag, y);
    StripAppended(r2, c[1]);
    StripAppended(c[0], q);
  }

  /** An item row can be read back: it gives the question and which of the two answers are truthy. */
  lemma ItemRowRoundTrip(m: Markup, t: Tags, item: ChecklistItem)
    requires Sized(m) && ItemShaped(m.item, t)
    ensures ReadItemRow(m, ItemRow(m, item)) == Some(ItemMarks(item.question, Truthy(item.yes), Truthy(item.no)))
  {
    ReadFilledRow(m, t, item.question, Mark(item.yes), Mark(item.no));
  }

  /** The row an `ItemMarks` stands for: an item row is determined by its question and its two truthy answers. */
  function MarksRow(m: Markup, x: ItemMarks): string
    requires Sized(m)
  {
    Fill(m.item, [x.question, if x.yes then "X" else "", if x.no then "X" else ""])
  }

  /** Whatever row reads back as `x` is the row `x` stands for. */
  lemma {:induction false} ReadItemRowSound(m: Markup, row: string, x: ItemMarks)
    requires Sized(m) && ReadItemRow(m, row) == Some(x)
    ensures row == MarksRow(m, x)
  {
    var c := m.item;
    var r3 := StripSuffix(row, c[3]).value;
    var (r2, no) := StripMark(r3);
    var r1 := StripSuffix(r2, c[2]).value;
    var (r0, yes) := StripMark(r1);
    var head := StripSuffix(r0, c[1]).value;
    var question := StripPrefix(head, c[0]).value;
    assert x == ItemMarks(question, yes, no);
    FillThree(c, [x.question, if x.yes then "X" else "", if x.no then "X" else ""]);
  }

  /** Where a section's item rows go in its table. */
  function ItemsOffset(m: Markup, section: Section): nat
    requires Sized(m)
  {
    HoleOffset(m.section, [section.title, ItemRows(m, section.items)], 1)
  }

  /** Where the row of item `j` starts in its section's table. */
  function TableRowOffset(m: Markup, section: Section, j: nat): nat
    requires Sized(m) && j <= |section.items|
  {
    ItemsOffset(m, section) + |ItemRows(m, section.items[..j])|
  }

  /** Item `j` of a section: its row, in the table's item rows, after the rows of the items before it. */
  lemma RowInTable(m: Markup, section: Section, j: nat)
    requires Sized(m) && j < |section.items|
    ensures Occurs(SectionTable(m, section), TableRowOffset(m, section, j), ItemRow(m, section.items[j]))
  {
    var items := section.items;
    var holes := [section.title, ItemRows(m, items)];
    FillHole(m.section, holes, 1);
    var rows := seq(|items|, k requires 0 <= k < |items| => ItemRow(m, items[k]));
    FlattenPlacement(rows, j);
    assert rows[..j] == seq(j, k requires 0 <= k < j => ItemRow(m, items[..j][k]));
    OccursWithin(SectionTable(m, section), ItemsOffset(m, section), ItemRows(m, items), |ItemRows(m, items[..j])|, rows[j]);
  }

  /** Section `i` of a column: its table, after the tables of the sections before it. */
  lemma TableInColumn(m: Markup, sections: seq<Section>, i: nat)
    requires Sized(m) && i < |sections|
    ensures Occurs(SectionsContent(m, sections), |SectionsContent(m, sections[..i])|, SectionTable(m, sections[i]))
  {
    var tables := seq(|sections|, k requires 0 <= k < |sections| => SectionTable(m, sections[k]));
    FlattenPlacement(tables, i);
    assert tables[..i] == seq(i, k requires 0 <= k < i => SectionTable(m, sections[..i][k]));
  }

  /** The tables of one column. */
  function Column(m: Markup, s: FormState, side: Side): string
    requires Sized(m)
  {
    SectionsContent(m, SectionsOf(s, side))
  }

  /** The hole of the document a column goes in. */
  function ColumnHole(side: Side): nat {
    if side == Left then 4 else 5
  }

  lemma ColumnInDocument(m: Markup, s: FormState, title: string, side: Side)
    requires Sized(m)
    ensures Occurs(Document(m, s, title), DocumentOffset(m, s, title, ColumnHole(side)), Column(m, s, side))
  {
    FillHole(m.document, DocumentHoles(m, s, title), ColumnHole(side));
  }

  /** Where the row of item `j` of section `i` starts in a column. */
  function RowOffset(m: Markup, sections: seq<Section>, i: nat, j: nat): nat
    requires Sized(m) && i < |sections| && j < |sections[i].items|
  {
    |SectionsContent(m, sections[..i])| + TableRowOffset(m, sections[i], j)
  }

  /** Item `j` of section `i` of a column: its row, inside the section's table. */
  lemma RowInColumn(m: Markup, sections: seq<Section>, i: nat, j: nat)
    requires Sized(m) && i < |sections| && j < |sections[i].items|
    ensures Occurs(SectionsContent(m, sections), RowOffset(m, sections, i, j), ItemRow(m, sections[i].items[j]))
  {
    var section := sections[i];
    var column, table := SectionsContent(m, sections), SectionTable(m, section);
    TableInColumn(m, sections, i);
    RowInTable(m, section, j);
    OccursWithin(column, |SectionsContent(m, sections[..i])|, table, TableRowOffset(m, section, j), ItemRow(m, section.items[j]));
  }

  /** Every item of a column has its row inside that column's cell of the document. */
  lemma ItemRowInDocument(m: Markup, s: FormState, title: string, side: Side, i: nat, j: nat)
    requires Sized(m)
    requires i < |SectionsOf(s, side)| && j < |SectionsOf(s, side)[i].items|
    ensures var lo, row := DocumentOffset(m, s, title, ColumnHole(side)), ItemRow(m, SectionsOf(s, side)[i].items[j]);
      && RowOffset(m, SectionsOf(s, side), i, j) + |row| <= |Column(m, s, side)|
      && Occurs(Document(m, s, title), lo + RowOffset(m, SectionsOf(s, side), i, j), row)
  {
    var sections := SectionsOf(s, side);
    var lo, column := DocumentOffset(m, s, title, ColumnHole(side)), Column(m, s, side);
    ColumnInDocument(m, s, title, side);
    RowInColumn(m, sections, i, j);
    OccursWithin(Document(m, s, title), lo, column, RowOffset(m, sections, i, j), ItemRow(m, sections[i].items[j]));
  }

  /** Every item of a column has its row inside that column's cell of the document, and that stretch reads back as the item's question and truthy answers. */
  lemma DocumentShowsItem(m: Markup, t: Tags, s: FormState, title: string, side: Side, i: nat, j: nat)
    requires Sized(m) && ItemShaped(m.item, t)
    requires i < |SectionsOf(s, side)| && j < |SectionsOf(s, side)[i].items|
    ensures var doc, lo := Document(m, s, title), DocumentOffset(m, s, title, ColumnHole(side));
      var item, o := SectionsOf(s, side)[i].items[j], lo + RowOffset(m, SectionsOf(s, side), i, j);
      && o + |ItemRow(m, item)| <= lo + |Column(m, s, side)| && Occurs(doc, o, ItemRow(m, item))
      && ReadItemRow(m, doc[o..o + |ItemRow(m, item)|]) == Some(ItemMarks(item.question, Truthy(item.yes), Truthy(item.no)))
  {
    ItemRowInDocument(m, s, title, side, i, j);
    ItemRowRoundTrip(m, t, SectionsOf(s, side)[i].items[j]);
  }

  /** Where a section's title goes in its table. */
  function TitleOffset(m: Markup, section: Section): nat
    requires Sized(m)
  {
    HoleOffset(m.section, [section.title, ItemRows(m, section.items)], 0)
  }

  /** Every section of a column has its table inside that column's cell of the document, with its title in the title cell. */
  lemma DocumentShowsSection(m: Markup, t: Tags, s: FormState, title: string, side: Side, i: nat)
    requires Sized(m) && SectionShaped(m.section, t)
    requires i < |SectionsOf(s, side)|
    ensures var doc, lo := Document(m, s, title), DocumentOffset(m, s, title, ColumnHole(side));
      var section := SectionsOf(s, side)[i];
      exists o :: lo <= o && o + |SectionTable(m, section)| <= lo + |Column(m, s, side)| && Occurs(doc, o, SectionTable(m, section))
        && Placed(doc, o + TitleOffset(m, section), section.title, t.sectionTitleOpen, t.sectionTitleClose)
  {
    var sections := SectionsOf(s, side);
    var section := sections[i];
    ColumnInDocument(m, s, title, side);
    TableInColumn(m, sections, i);
    SectionTablePlaced(m, t, section);
    PieceWithin(Document(m, s, title), DocumentOffset(m, s, title, ColumnHole(side)), Column(m, s, side),
      |SectionsContent(m, sections[..i])|, SectionTable(m, section), TitleOffset(m, section),
      section.title, t.sectionTitleOpen, t.sectionTitleClose);
  }
}
