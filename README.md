# Inspection forms: a verified model

This project models the core of a small web application for construction
and equipment inspections. An inspector fills in metadata (name, project,
date, location, comments, signature). The inspector also answers a
two-column checklist of sections, and each item of a section has a YES and
a NO checkbox. The application keeps a draft in the browser's key-value
store and exports the form as a Word (HTML) file or as a CSV spreadsheet.

The application holds two versions of the form, and both are modelled:

- **The modular form.** Its parts are:
  - the `useInspectionForm` hook, a controller over `formState`, `isDirty`
    and `hasDraft`;
  - draft persistence over `localStorage`;
  - the exporter classes (the side-by-side CSV exporter, the Word exporter,
    the base exporter and the format dispatch);
  - the Zod validation schemas, modelled as predicates and issue lists;
  - the three seed configurations.
- **The single-page `SafetyInspectionForm` component.** This is the one the
  page actually mounts. It keeps its own state hooks and changes checklist
  item objects in place. Its Word file marks answers with `☑`/`☐`. Its CSV
  file is flat. Its download names are dated, and it formats dates as
  `MM/DD/YYYY`.

Differences between the two versions are stated as lemmas, not merged.

Modules, one per source file:

| module | models |
|---|---|
| `Types` | the shared records |
| `Storage` | `storage.ts` |
| `InspectionForm` | `useInspectionForm.ts` |
| `Csv` | a generic CSV record writer and reader, used to state what a row reads back as |
| `CsvExporter` | `csv-exporter.ts` |
| `WordExporter` | `word-exporter.ts` |
| `BaseExporter` | `base-exporter.ts` |
| `Exporters` | `exporters/index.ts` |
| `Validation` | `validation.ts` |
| `Constants` | `constants.ts` |
| `LegacyValues`, `LegacyDocuments`, `LegacyForm` | `safety-inspection-form.tsx` |
| `Text` | string helpers |

How the code is modelled:

- **Code that changes state is imperative Dafny.**
  - The hook is the class `InspectionFormController`.
  - `localStorage` is the class `DraftStore`, whose field is a
    `map<string, string>`.
  - The exporter class is `Exporter`.
  - The component is the class `SafetyInspectionForm`, whose checklist
    items are objects of class `LegacyItem`.
  - Each `csv +=` / `content +=` loop is a method with a `while` loop. The
    method is proved equal to a specification function.
- **Pure code is functions and lemmas.**
  - The Word exporter's template literals are functions that fill a
    template's chunks with its holes.
  - The validation schemas are functions and predicates.
  - The seed data are constants.

## Model

| member | source | states |
|---|---|---|
| Storage.DraftKey | src/lib/storage.ts:13 | the key is `form_draft_` followed by the form id, character for character |
| Storage.DraftKeyInjective | src/lib/storage.ts:13 | two form ids share a draft key exactly when they are equal |
| Storage.ConfigDraftKeysDistinct | src/lib/constants.ts:203-206 | the three configured forms have three distinct draft keys |
| Storage.DraftStore.SaveFormState | src/lib/storage.ts:11-18 | the store maps the draft key to the serialised state; a failed write leaves the store as it was |
| Storage.DraftStore.LoadFormState | src/lib/storage.ts:23-32 | a failed read gives null; otherwise the result is the parsed entry, or null when the key is missing or its value is empty; a result is only ever read from a non-empty entry |
| Storage.StoredDraft | src/lib/storage.ts:25-27 | the draft stored under `form_draft_<formId>`: none when the key is missing or holds the empty string, and a draft only when the key holds an entry the codec reads as that draft; `SaveThenLoad`, `ClearThenLoad` and `EmptyEntryExistsButDoesNotLoad` relate it to the writes |
| Storage.DraftStore.ClearFormState | src/lib/storage.ts:37-44 | the draft key is removed; a failed removal leaves the store as it was |
| Storage.DraftStore.HasSavedDraft | src/lib/storage.ts:49-56 | true exactly when the read succeeds and the key has an entry, even an empty one |
| Storage.DraftStore.constructor | src/lib/storage.ts:11-56 | the store starts with the given entries |
| Storage.SaveThenLoad | src/lib/storage.ts:13-27 | under the codec round-trip assumption, loading after a save gives back the saved state, and the draft exists |
| Storage.ClearThenLoad | src/lib/storage.ts:23-44 | after a clear there is nothing to load and no entry |
| Storage.OtherDraftsUntouched | src/lib/storage.ts:11-44 | saving or clearing one form leaves every other form's entry and loaded draft unchanged |
| Storage.EmptyEntryExistsButDoesNotLoad | src/lib/storage.ts:26-52 | an empty stored value loads as null, although the existence check counts it |
| InspectionForm.SetMetadata | src/hooks/useInspectionForm.ts:41-50 | field `key` takes the value; the other six metadata fields and both columns are unchanged |
| InspectionForm.ToggleItem | src/hooks/useInspectionForm.ts:59-65 | one click on an item: the clicked field becomes the negation of its truthiness, the other field is kept when the clicked one was checked, the item never ends with both checked, and id and question are kept; `ToggleYesRule`, `ToggleNoRule` and `ToggleTwice` state the rule case by case |
| InspectionForm.Toggle | src/hooks/useInspectionForm.ts:54-74 | the state after a click: metadata and the other column are kept, the target still exists, and the clicked item becomes `ToggleItem` of the old item; `ToggleFrame` states that no other item changes and `ToggleKeepsAllExclusive` that exclusivity is kept |
| InspectionForm.ToggleYesRule | src/hooks/useInspectionForm.ts:59-61 | clicking YES on a checked YES gives `yes = false` and keeps `no`; otherwise it gives `yes = true` and `no = false`; id and question are kept |
| InspectionForm.ToggleNoRule | src/hooks/useInspectionForm.ts:62-65 | the mirror rule for NO |
| InspectionForm.ToggleExclusive | src/hooks/useInspectionForm.ts:59-65 | after any click the item is never both YES and NO, and the clicked field is a definite boolean |
| InspectionForm.ToggleTwice | src/hooks/useInspectionForm.ts:59-65 | two clicks on one field give it back its truthiness, as a boolean |
| InspectionForm.ToggleTwiceLosesOtherField | src/hooks/useInspectionForm.ts:59-61 | clicking YES twice on an item answered NO erases the NO answer |
| InspectionForm.ToggleFrame | src/hooks/useInspectionForm.ts:54-74 | a click changes only the targeted item of the targeted side; metadata, the other side, other sections and items, ids, titles, counts and order are kept |
| InspectionForm.ToggleTargetExclusive | src/hooks/useInspectionForm.ts:59-65 | after a click the targeted item of the new state is exclusive, whatever the old state was |
| InspectionForm.ToggleKeepsAllExclusive | src/hooks/useInspectionForm.ts:52-79 | a click preserves "no item anywhere has both boxes checked" |
| InspectionForm.InspectionFormController.Mount | src/hooks/useInspectionForm.ts:17-29 | the state starts as the initial state; a draft that loads replaces it and sets `hasDraft`; otherwise the initial state stays and `hasDraft` is false; `isDirty` is false; the invariant holds when the state it starts from is exclusive |
| InspectionForm.InspectionFormController.UpdateMetadata | src/hooks/useInspectionForm.ts:41-50 | the new state is `SetMetadata(old, key, value)`; `isDirty` becomes true; `hasDraft` and the invariant are kept |
| InspectionForm.InspectionFormController.HandleCheckboxChange | src/hooks/useInspectionForm.ts:52-79 | the new state is `Toggle(old, ...)`; `isDirty` becomes true; the target is exclusive; the invariant is kept |
| InspectionForm.InspectionFormController.ResetForm | src/hooks/useInspectionForm.ts:81-86 | the state is the initial state; both flags are false; the draft is removed unless the removal fails; the invariant holds again when the initial state is exclusive |
| InspectionForm.InspectionFormController.DiscardDraft | src/hooks/useInspectionForm.ts:88-91 | the draft is removed and `hasDraft` is false; the state and `isDirty` are unchanged |
| InspectionForm.InspectionFormController.AutoSave | src/hooks/useInspectionForm.ts:32-39 | when dirty and the write succeeds, the latest state is saved under the form's key; otherwise the store is unchanged |
| InspectionForm.SaveAndRemount | src/hooks/useInspectionForm.ts:23-39 | what the auto-save stored is the state a new mount restores, with `hasDraft` set |
| InspectionForm.ResetAndRemount | src/hooks/useInspectionForm.ts:23-86 | after a reset, a new mount starts from the initial state with no draft |
| BaseExporter.Extension | src/lib/exporters/word-exporter.ts:9-11 | `doc` for the Word exporter and `csv` for the CSV exporter |
| BaseExporter.MimeType | src/lib/exporters/csv-exporter.ts:13-15 | `text/csv;charset=utf-8;` for CSV and `application/msword` for Word |
| BaseExporter.FileName | src/lib/exporters/base-exporter.ts:43 | the name is the file name, a dot, then the extension |
| BaseExporter.FileNameInjective | src/lib/exporters/base-exporter.ts:43 | for one extension, two download names are equal exactly when the file names are |
| BaseExporter.Packaged | src/lib/exporters/base-exporter.ts:37-48 | the file carries the content under the kind's MIME type, named `filename + "." + extension`, with no date |
| BaseExporter.Exporter.constructor | src/lib/exporters/base-exporter.ts:14-17 | the form state and title are stored unchanged |
| BaseExporter.Exporter.GenerateContent | src/lib/exporters/base-exporter.ts:22 | the content is the Word document or the CSV text of the stored state, by kind |
| BaseExporter.Exporter.Download | src/lib/exporters/base-exporter.ts:37-48 | the download is the generated content, packaged under `filename` |
| BaseExporter.LowerCharwise | src/lib/exporters/base-exporter.ts:56 | lowering works character by character and leaves no capital letter |
| BaseExporter.LowerKeepsLower | src/lib/exporters/base-exporter.ts:56 | lowering a text that has no capitals changes nothing |
| BaseExporter.UnderscoredNoSpace | src/lib/exporters/base-exporter.ts:57 | no whitespace is left after the replacement |
| BaseExporter.UnderscoredNoUpper | src/lib/exporters/base-exporter.ts:57 | the replacement brings in no capital letter |
| BaseExporter.UnderscoredKeepsPlain | src/lib/exporters/base-exporter.ts:57 | a text without whitespace is left as it is |
| BaseExporter.UnderscoredRun | src/lib/exporters/base-exporter.ts:57 | a word followed by a maximal whitespace run becomes the word and one underscore |
| BaseExporter.SlugClean | src/lib/exporters/base-exporter.ts:55-57 | the stem has no whitespace and no capitals, and computing the stem again changes nothing |
| BaseExporter.GeneratedFilenameParts | src/lib/exporters/base-exporter.ts:53-59 | `generateFilename` is the stem, an underscore and the date |
| BaseExporter.Slug | src/lib/exporters/base-exporter.ts:55-57 | the stem `projectName.toLowerCase().replace(/\s+/g, "_")` has no whitespace and no capitals; `SlugClean` states that computing it again changes nothing |
| BaseExporter.Exporter.GenerateFilename | src/lib/exporters/base-exporter.ts:53-59 | the name is the stem of the stored project name, an underscore and the date, and its stem part has no whitespace and no capitals |
| Exporters.FormatName | src/lib/exporters/index.ts:11-14 | Word is picked by `"word"` and CSV by `"excel"` |
| Exporters.FormatKind | src/lib/exporters/index.ts:10-17 | an unknown format is an error whose message names the format |
| Exporters.FormatKindRoundTrip | src/lib/exporters/index.ts:10-17 | exactly `"word"` and `"excel"` are known, each picks its own exporter, and everything else is an error |
| Exporters.CreateExporter | src/lib/exporters/index.ts:9-18 | a new exporter of the right kind holding the state and title unchanged, or the `Unknown export format` error |
| Exporters.ExportForm | src/lib/exporters/index.ts:20-23 | the result is the chosen exporter's download of the caller's `filename`, or the error |
| Exporters.Exporting | src/lib/exporters/index.ts:9-23 | for content chosen per kind of file: `"word"` downloads `filename.doc` with the Word content as `application/msword`, `"excel"` downloads `filename.csv` with the CSV content as UTF-8 CSV, and any other format is the `Unknown export format` error |
| Exporters.Exported | src/lib/exporters/index.ts:9-23 | `exportForm` with the two exporters' own texts: the same three outcomes, the Word file holding `WordExporter.GenerateContent` and the CSV file `CsvExporter.Document` of the state and title; `ExportForm` is proved to compute it |
| CsvExporter.Max | src/lib/exporters/csv-exporter.ts:27 | the larger of the two lengths |
| CsvExporter.SectionAt | src/lib/exporters/csv-exporter.ts:30-31 | section `i` exists exactly when `i` is in range |
| CsvExporter.ItemAt | src/lib/exporters/csv-exporter.ts:42-43 | item `j` exists exactly when the section exists and `j` is in range |
| CsvExporter.MarkOf | src/lib/exporters/csv-exporter.ts:46-51 | the mark is `X` exactly when the item exists and the field is truthy, and empty otherwise |
| CsvExporter.HeadText | src/lib/exporters/csv-exporter.ts:18-22 | the opening rows are the title, a blank line, the two metadata rows and a blank line |
| CsvExporter.FormatItemRow | src/lib/exporters/csv-exporter.ts:42-53 | the loop body writes the item row of the two items |
| CsvExporter.AppendItems | src/lib/exporters/csv-exporter.ts:40-54 | the inner loop appends one row per position of the longer section |
| CsvExporter.AppendBlock | src/lib/exporters/csv-exporter.ts:34-56 | one outer pass appends the header, the item rows and a blank row |
| CsvExporter.WriteHead | src/lib/exporters/csv-exporter.ts:18-22 | the opening statements write the head rows |
| CsvExporter.AppendBlocks | src/lib/exporters/csv-exporter.ts:25-57 | the outer loop: the text it returns is the text it was given followed by every block row, one block per position of the longer column, each row ended by a line feed |
| CsvExporter.GenerateContent | src/lib/exporters/csv-exporter.ts:17-65 | the text is `Document(s, title)`: head, blocks, then the closing rows |
| CsvExporter.Document | src/lib/exporters/csv-exporter.ts:17-65 | the CSV text, every row ended by a line feed: it opens with the title and a blank line and closes with the signature date row; `DocumentLines` states that it splits back into exactly its rows, and `GenerateContent` that the loops build it |
| CsvExporter.DocumentEndsWithSignatures | src/lib/exporters/csv-exporter.ts:59-62 | the export ends with a blank row, then the comments, signature and signature-date rows, in that order |
| CsvExporter.BlockShape | src/lib/exporters/csv-exporter.ts:40-56 | a block has `max(#left items, #right items) + 2` rows: the header, row `j` pairing the two items `j`, and a blank row |
| CsvExporter.BlockPlacement | src/lib/exporters/csv-exporter.ts:27-31 | block `i` pairs left section `i` with right section `i`, and the blocks appear in order |
| CsvExporter.BlockRowsCount | src/lib/exporters/csv-exporter.ts:29-56 | the blocks hold exactly the sum, over the section pairs, of `max(#left items, #right items) + 2` rows |
| CsvExporter.HeaderRowCells | src/lib/exporters/csv-exporter.ts:35-37 | read back, a header is `leftTitle,,YES,NO,rightTitle,,YES,NO`, and a missing side's title is empty |
| CsvExporter.ItemRowCells | src/lib/exporters/csv-exporter.ts:42-53 | read back, an item row gives each side's question and marks; a missing item gives empty cells |
| CsvExporter.MetadataRowCells | src/lib/exporters/csv-exporter.ts:21-22 | read back, the rows pair inspector with date and project with location, with placeholders for empty values |
| CsvExporter.PairRowValueWithComma | src/lib/exporters/csv-exporter.ts:21-22 | an unquoted metadata value holding a comma reads back as one cell too many |
| CsvExporter.MetadataCommaSplitsCell | src/lib/exporters/csv-exporter.ts:21 | an inspector named `Doe, J` is read back as the two cells `Doe` and ` J` |
| CsvExporter.TailRowCells | src/lib/exporters/csv-exporter.ts:60-62 | read back, the closing rows give the comments (or their placeholder), the signature and the signature date |
| CsvExporter.DocumentLines | src/lib/exporters/csv-exporter.ts:17-65 | when no value holds a line feed, splitting the export at line feeds gives back exactly its rows |
| WordExporter.Mark | src/lib/exporters/word-exporter.ts:114-117 | `X` exactly for a truthy answer, and empty otherwise |
| WordExporter.MarksAgreeWithCsv | src/lib/exporters/word-exporter.ts:114-117 | the Word and CSV exporters mark the same answers |
| WordExporter.Document | src/lib/exporters/word-exporter.ts:17-127 | the document template filled with its nine values (title, styles, title, metadata rows, the two columns, comments, signature, date), each right between the two pieces of markup around it |
| WordExporter.GenerateContent | src/lib/exporters/word-exporter.ts:17-127 | `generateContent`: the title in `<title>` and in `<h1>`, the metadata rows in the header table, the left and right columns' tables in the left and right cells, and the comments or their placeholder after their label; `DocumentShowsItem` states that every item appears in its column |
| WordExporter.DocumentPlaced | src/lib/exporters/word-exporter.ts:17-56 | for any markup shaped around the tags: the title, the metadata rows, the two columns and the comments each between their tags |
| WordExporter.DocumentHeadPlaced | src/lib/exporters/word-exporter.ts:27-33 | the title in `<title>`, the styles in `<style>`, and the title again in `<h1>`, in that order |
| WordExporter.DocumentBodyPlaced | src/lib/exporters/word-exporter.ts:36-50 | the metadata rows are in the header table; the left sections are in the first column cell and the right sections in the second |
| WordExporter.DocumentCommentsPlaced | src/lib/exporters/word-exporter.ts:56 | the comments, or their placeholder when empty, follow the comments label |
| WordExporter.DocumentSignaturePlaced | src/lib/exporters/word-exporter.ts:64-68 | the signature and its date appear verbatim after their labels |
| WordExporter.LeftPartIgnoresRightColumn | src/lib/exporters/word-exporter.ts:41-47 | the document up to the right cell does not depend on the right sections |
| WordExporter.MetadataCellsPlaced | src/lib/exporters/word-exporter.ts:77-92 | each metadata value, or its placeholder when empty, is in the value cell after its label |
| WordExporter.SectionTablePlaced | src/lib/exporters/word-exporter.ts:97-124 | a section's table has the title in its heading cell, then the item rows before the table's end |
| WordExporter.ItemQuestionPlaced | src/lib/exporters/word-exporter.ts:108-112 | an item row has its question in the question cell |
| WordExporter.ItemMarksPlaced | src/lib/exporters/word-exporter.ts:113-118 | each mark cell holds `X` exactly for a truthy answer |
| WordExporter.ItemRowRoundTrip | src/lib/exporters/word-exporter.ts:108-120 | an item row reads back as its question and its two truthy answers |
| WordExporter.ReadItemRowSound | src/lib/exporters/word-exporter.ts:108-120 | any text that reads back as an answer is exactly the row for that answer |
| WordExporter.RowInTable | src/lib/exporters/word-exporter.ts:106-122 | item `j`'s row is in its section's table, after the rows of the items before it |
| WordExporter.TableInColumn | src/lib/exporters/word-exporter.ts:94-127 | section `i`'s table is in its column, after the tables before it |
| WordExporter.RowInColumn | src/lib/exporters/word-exporter.ts:94-127 | item `j` of section `i` is in the column's content |
| WordExporter.ColumnInDocument | src/lib/exporters/word-exporter.ts:41-50 | each column's content sits at its own hole of the document |
| WordExporter.DocumentShowsItem | src/lib/exporters/word-exporter.ts:17-127 | every item has its row inside its own column's cell, and that stretch reads back as its question and answers |
| WordExporter.DocumentShowsSection | src/lib/exporters/word-exporter.ts:94-127 | every section has its table inside its column's cell, with its title in the title cell |
| Validation.ItemIssuesMeaning | src/lib/validation.ts:7-12 | an item has no issues exactly when its id is a string, its question is non-empty, and `yes`/`no` are each a boolean or null |
| Validation.ElementsIssuesMeaning | src/lib/validation.ts:17 | an array has no issues exactly when every element has none |
| Validation.ArrayIssuesMeaning | src/lib/validation.ts:17 | an array schema finds no issue exactly when the value is an array whose elements are all valid |
| Validation.SectionIssuesMeaning | src/lib/validation.ts:14-18 | a section has no issues exactly when its title is non-empty and every item is valid |
| Validation.MetadataIssuesMeaning | src/lib/validation.ts:20-28 | metadata has no issues exactly when the four required fields are non-empty strings and the three others are absent or strings |
| Validation.FormIssuesMeaning | src/lib/validation.ts:30-33 | a form state has no issues exactly when it is valid; valid form states have valid metadata |
| Validation.ItemIssuesUnder | src/lib/validation.ts:7-12 | every issue of an item is reported under the item's path |
| Validation.ElementsIssuesUnder | src/lib/validation.ts:17 | an element's issue is reported under that element's index |
| Validation.SectionIssuesUnder | src/lib/validation.ts:14-18 | an item's issue is reported under `items.<index>` |
| Validation.Entries | src/lib/validation.ts:48-51 | one error per issue, with the path segments joined by `.` |
| Validation.ValidateFormDataMeaning | src/lib/validation.ts:41-56 | it returns the parsed data exactly for valid form states; otherwise `success: false` with one error per issue |
| Validation.ValidateFormMetadataMeaning | src/lib/validation.ts:61-77 | `{success: true}` exactly on valid metadata; otherwise one error per issue |
| Validation.ValidateFormData | src/lib/validation.ts:41-56 | `validateFormData`: the parsed form exactly when the data is a valid form; otherwise the errors are the path and message of each issue of the form, and there is at least one |
| Validation.ValidateFormMetadata | src/lib/validation.ts:61-77 | `validateFormMetadata`: `{success: true}` exactly on valid metadata; otherwise one error per metadata issue, and there is at least one |
| Validation.EncodeItemParses | src/lib/validation.ts:7-12 | a held item passes `ChecklistItemSchema` exactly when its question is non-empty, and then it parses back to itself |
| Validation.EncodeSectionParses | src/lib/validation.ts:14-18 | a section the application holds passes `SectionSchema` exactly when it has a title and questions, and it parses back to itself |
| Validation.EncodeSectionsParse | src/lib/validation.ts:17 | a list of held sections passes exactly when every section does, and then it parses back to itself |
| Validation.ValidateFormState | src/lib/validation.ts:41-56 | a held form state passes exactly when its four required fields are filled and every section has a title and questions |
| Validation.RequiredFieldEntry | src/lib/validation.ts:21-24 | a required field reports its message under its key exactly when it is empty |
| Validation.ValidateStateMetadata | src/lib/validation.ts:61-77 | on a held form state, the errors are exactly the empty required fields, in schema order, with their messages |
| Validation.SeededSectionPasses | src/lib/validation.ts:14-18 | a seeded section passes `SectionSchema` |
| Validation.ConfigSectionsPass | src/lib/validation.ts:14-18 | every section of the three configurations passes `SectionSchema` |
| Validation.SeededConfigPasses | src/lib/validation.ts:14-18 | when every section of a configuration is seeded, every section passes `SectionSchema` |
| Validation.FreshFormNeedsMetadata | src/lib/validation.ts:20-24 | a fresh form of any configuration fails with all four required messages |
| Constants.GeneralSiteSeed | src/lib/constants.ts:12-47 | the section is seeded (unanswered, titled, with questions), has 5 items, and has these item ids |
| Constants.WorkingHeightsSeed | src/lib/constants.ts:48-77 | seeded, 4 items, these ids |
| Constants.ElectricalSafetySeed | src/lib/constants.ts:78-107 | seeded, 4 items, these ids |
| Constants.MachinerySeed | src/lib/constants.ts:110-139 | seeded, 4 items, these ids |
| Constants.HazardousMaterialsSeed | src/lib/constants.ts:140-169 | seeded, 4 items, these ids |
| Constants.EmergencyPrepSeed | src/lib/constants.ts:170-199 | seeded, 4 items, these ids |
| Constants.EquipmentConditionSeed | src/lib/constants.ts:213-242 | seeded, 4 items, these ids |
| Constants.SafetyFeaturesSeed | src/lib/constants.ts:243-272 | seeded, 4 items, these ids |
| Constants.OperationalStatusSeed | src/lib/constants.ts:275-304 | seeded, 4 items, these ids |
| Constants.DocumentationSeed | src/lib/constants.ts:305-334 | seeded, 4 items, these ids |
| Constants.PartDetailsSeed | src/lib/constants.ts:343-372 | seeded, 4 items, these ids |
| Constants.SupplierInfoSeed | src/lib/constants.ts:373-402 | seeded, 4 items, these ids |
| Constants.ApprovalStatusSeed | src/lib/constants.ts:405-434 | seeded, 4 items, these ids |
| Constants.DeliveryTrackingSeed | src/lib/constants.ts:435-464 | seeded, 4 items, these ids |
| Constants.SafetyConfigWellFormed | src/lib/constants.ts:7-201 | every item is unanswered, titles and questions are non-empty, section and item ids are unique, and the counts are 5, 4, 4 and 4, 4, 4 |
| Constants.EquipmentConfigWellFormed | src/lib/constants.ts:208-336 | well formed, with counts 4, 4 and 4, 4 |
| Constants.PartsRequestConfigWellFormed | src/lib/constants.ts:338-466 | well formed, with counts 4, 4 and 4, 4 |
| Constants.SafetyIdsDistinct | src/lib/constants.ts:11-200 | the six section ids of the safety configuration are distinct, and so are all its item ids |
| Constants.EquipmentIdsDistinct | src/lib/constants.ts:213-334 | the equipment configuration's section ids are distinct, and so are its item ids |
| Constants.PartsRequestIdsDistinct | src/lib/constants.ts:343-464 | the parts-request configuration's section ids are distinct, and so are its item ids |
| Constants.ConfigIdsDistinct | src/lib/constants.ts:8-339 | the three form ids are pairwise distinct |
| Constants.MonthNamesInOrder | src/lib/constants.ts:468-481 | twelve names, January to December in calendar order |
| Constants.SeededExclusive | src/lib/constants.ts:11-200 | seeded sections have no item with both boxes checked |
| Constants.SeededStartsExclusive | src/lib/constants.ts:7-201 | the form state a seeded configuration starts from keeps the checklist invariant |
| Constants.ConfigsStartExclusive | src/lib/constants.ts:7-466 | every configured form starts from a state in which no item is both YES and NO |
| LegacyValues.ToggleRow | src/components/safety-inspection-form.tsx:101-107 | one click on a row: the clicked box becomes the negation of its truthiness, the other is kept when the clicked one was checked, the row never ends with both boxes checked, and the question is kept; `LegacyToggleAgrees` states that this is the hook's rule |
| LegacyValues.LegacyToggleAgrees | src/components/safety-inspection-form.tsx:101-107 | the component's click rule is the hook's rule |
| LegacyValues.WithMetadata | src/components/safety-inspection-form.tsx:18-24 | field `key` takes the value; the other fields and both columns are kept |
| LegacyValues.ToggleBlocks | src/components/safety-inspection-form.tsx:98-109 | only row `itemIndex` of section `sectionIndex` changes, as the rule says; titles, counts and order are kept |
| LegacyValues.ToggleState | src/components/safety-inspection-form.tsx:92-116 | the state after a click: metadata and the other column are kept, the target still exists, and the clicked row becomes `ToggleRow` of the old row; `ToggledState` states that a click that changes nothing else gives this state |
| LegacyValues.GeneralSiteLegacySeed | src/components/safety-inspection-form.tsx:32-41 | the component's first left section is the General Site Conditions section of the safety configuration, without ids |
| LegacyValues.WorkingHeightsLegacySeed | src/components/safety-inspection-form.tsx:42-50 | the second left section is the Working at Heights section, without ids |
| LegacyValues.ElectricalSafetyLegacySeed | src/components/safety-inspection-form.tsx:51-59 | the third left section is the Electrical Safety section, without ids |
| LegacyValues.MachineryLegacySeed | src/components/safety-inspection-form.tsx:63-71 | the first right section is the Machinery and Equipment section, without ids |
| LegacyValues.HazardousMaterialsLegacySeed | src/components/safety-inspection-form.tsx:72-80 | the second right section is the Hazardous Materials section, without ids |
| LegacyValues.EmergencyPrepLegacySeed | src/components/safety-inspection-form.tsx:81-89 | the third right section is the Emergency Preparedness section, without ids |
| LegacyValues.LegacySeedMatchesSafetyConfig | src/components/safety-inspection-form.tsx:31-90 | the component's seed sections are the safety configuration's sections with the ids dropped |
| LegacyValues.LegacyMonthNamesAgree | src/components/safety-inspection-form.tsx:383-396 | the component's month names are the shared `MONTH_NAMES` |
| LegacyValues.PadStart2 | src/components/safety-inspection-form.tsx:359-360 | a short text is left-padded with `0` to two characters; a longer one is kept |
| LegacyValues.PaddedTwoDigits | src/components/safety-inspection-form.tsx:359-360 | a number below 100, padded, is two digits that read back as the number |
| LegacyValues.DateYear | src/components/safety-inspection-form.tsx:366 | the year `new Date` holds: a year from 0 to 99 is moved into 1900-1999 with the same last two digits; any other year is kept |
| LegacyValues.FormatDateForInput | src/components/safety-inspection-form.tsx:358-363 | the result is `MM/DD/YYYY`: MM reads back as the month plus one, DD as the day, and the rest is the year, which reads back as the year when it is not negative |
| LegacyValues.ShareText | src/components/safety-inspection-form.tsx:320 | the share text is the fixed prefix, the project, ` - Inspector: ` and the inspector, with `N/A` standing in for an empty value |
| LegacyValues.LegacyFilenamesAreExportNames | src/components/safety-inspection-form.tsx:124-138 | `construction_safety_inspection_<date>.doc` and `.csv` are the base exporter's names for that file name |
| LegacyValues.WordFilename | src/components/safety-inspection-form.tsx:124 | the Word download name is `construction_safety_inspection_`, the date and `.doc`, whatever the project |
| LegacyValues.CsvFilename | src/components/safety-inspection-form.tsx:138 | the CSV download name is `construction_safety_inspection_`, the date and `.csv`, whatever the project |
| LegacyDocuments.BoxMark | src/components/safety-inspection-form.tsx:216-217 | `☑` exactly for a truthy answer, and `☐` otherwise |
| LegacyDocuments.BoxMarksDifferFromWordExporter | src/components/safety-inspection-form.tsx:216-217 | the component and the Word exporter check the same boxes, but never write the same mark |
| LegacyDocuments.Document | src/components/safety-inspection-form.tsx:146-295 | `generateFormContent` for a markup: the nine values (metadata or placeholders, the two columns, comments or placeholder, signature, date) each right between the two pieces of markup around it; `DocumentShowsRow` states that every row appears in its column |
| LegacyDocuments.DocumentMetadataPlaced | src/components/safety-inspection-form.tsx:173-184 | inspector, date, project and location (placeholders for empty values) are in their cells, in that order |
| LegacyDocuments.DocumentColumnsPlaced | src/components/safety-inspection-form.tsx:206-260 | the left sections come in the left column and then the right sections in the right column |
| LegacyDocuments.DocumentClosingPlaced | src/components/safety-inspection-form.tsx:271-283 | the comments (or the Word placeholder), then the signature and its date, appear verbatim |
| LegacyDocuments.ItemRowPlaced | src/components/safety-inspection-form.tsx:213-219 | an item row has the question, then `☑`/`☐` for YES and for NO |
| LegacyDocuments.SectionBlockPlaced | src/components/safety-inspection-form.tsx:208-221 | a section has its title, then a table of its item rows |
| LegacyDocuments.RowInRows | src/components/safety-inspection-form.tsx:212-220 | each item row is in the rows of its section |
| LegacyDocuments.BlockInColumn | src/components/safety-inspection-form.tsx:207-222 | each section block is in its column |
| LegacyDocuments.RowInColumn | src/components/safety-inspection-form.tsx:207-222 | every item of a column has its row in the column's content |
| LegacyDocuments.DocumentShowsRow | src/components/safety-inspection-form.tsx:146-295 | every item has its row inside its own column's part of the document |
| LegacyDocuments.CsvItemRowsCount | src/components/safety-inspection-form.tsx:304-308 | there is one CSV row per item of all the sections |
| LegacyDocuments.CsvItemRowsAppend | src/components/safety-inspection-form.tsx:304 | the left column's item rows come first, then the right column's |
| LegacyDocuments.CsvItemRowAt | src/components/safety-inspection-form.tsx:304-308 | item `j` of section `i` has its row after the rows of earlier sections and earlier items |
| LegacyDocuments.CsvLayout | src/components/safety-inspection-form.tsx:297-315 | there are twelve rows besides the items: the title and blank rows, four metadata rows, the header, the items, and the blank row plus three closing rows |
| LegacyDocuments.CsvRowsEdges | src/components/safety-inspection-form.tsx:297-315 | the rows open with the title and a blank row and close with the signature date row |
| LegacyDocuments.CsvDocument | src/components/safety-inspection-form.tsx:297-315 | `generateCSVContent`: every row ended by a line feed; the text opens with the title and a blank line and closes with the signature date row; `CsvLines` states that it splits back into exactly its rows |
| LegacyDocuments.CsvHeaderCells | src/components/safety-inspection-form.tsx:303 | the header reads back as `Section,Question,YES,NO` |
| LegacyDocuments.CsvItemRowCells | src/components/safety-inspection-form.tsx:306 | an item row reads back as the title, the question and the two marks, with `X` exactly for a truthy answer |
| LegacyDocuments.CsvMetadataCells | src/components/safety-inspection-form.tsx:299-302 | the metadata rows read back as inspector, project, date and location in that order, with placeholders |
| LegacyDocuments.CsvClosingCells | src/components/safety-inspection-form.tsx:310-312 | the closing rows read back as the comments or `[No comments]`, then the signature and its date |
| LegacyDocuments.PlaceholdersDiffer | src/components/safety-inspection-form.tsx:272-310 | the CSV and Word comment placeholders differ, and so do the component's and the exporters' location placeholders |
| LegacyDocuments.MetadataPlaceholdersPlain | src/components/safety-inspection-form.tsx:299-302 | no metadata placeholder holds a comma or a quote |
| LegacyDocuments.CsvLines | src/components/safety-inspection-form.tsx:297-315 | when no value holds a line feed, splitting the CSV at line feeds gives back its rows |
| LegacyForm.MakeItems | src/components/safety-inspection-form.tsx:31-90 | new, pairwise distinct item objects that hold the given rows, in order |
| LegacyForm.MakeSections | src/components/safety-inspection-form.tsx:31-90 | new, distinct item objects that hold the seed rows, section by section |
| LegacyForm.MakeColumns | src/components/safety-inspection-form.tsx:31-90 | both columns are built from new item objects, and no object is shared between the columns |
| LegacyForm.Mount | src/components/safety-inspection-form.tsx:17-90 | the mounted component's state is empty metadata plus the seed sections, and the invariant holds |
| LegacyForm.SafetyInspectionForm.constructor | src/components/safety-inspection-form.tsx:17-90 | empty metadata, and columns of new objects that hold the given seeds |
| LegacyForm.LegacyItem.constructor | src/components/safety-inspection-form.tsx:6-10 | a new item object holds the given question and answers |
| LegacyForm.SafetyInspectionForm.HandleCheckboxChange | src/components/safety-inspection-form.tsx:92-116 | the state becomes `ToggleState(old, ...)`: only the clicked item object changes; the other column and the metadata are kept |
| LegacyForm.SafetyInspectionForm.SetMetadata | src/components/safety-inspection-form.tsx:18-24 | the state becomes `WithMetadata(old, key, value)`; the columns are kept |
| LegacyForm.SafetyInspectionForm.HandleDateSelect | src/components/safety-inspection-form.tsx:365-369 | the date field becomes `formatDateForInput` of the picked day, with the year `new Date` gives it; everything else is kept |
| LegacyForm.SafetyInspectionForm.WriteDocument | src/components/safety-inspection-form.tsx:146-295 | the appended text is the filled document template for the current state |
| LegacyForm.SafetyInspectionForm.GenerateFormContent | src/components/safety-inspection-form.tsx:146-295 | the content is `Document` of the current state |
| LegacyForm.SafetyInspectionForm.GenerateCsvContent | src/components/safety-inspection-form.tsx:297-315 | the text is `CsvDocument` of the current state: head rows, item rows, closing rows |
| LegacyForm.SafetyInspectionForm.DownloadAsWord | src/components/safety-inspection-form.tsx:118-130 | the file is `construction_safety_inspection_<date>.doc`, holds the document and is typed `application/msword` |
| LegacyForm.SafetyInspectionForm.DownloadAsExcel | src/components/safety-inspection-form.tsx:132-144 | the file is `construction_safety_inspection_<date>.csv`, holds the CSV and is typed `text/csv;charset=utf-8;` |
| LegacyForm.ToggleInPlace | src/components/safety-inspection-form.tsx:100-107 | the item object's new row is `ToggleRow` of its old row |
| LegacyForm.ToggleInColumn | src/components/safety-inspection-form.tsx:98-109 | after the in-place change, the column reads as `ToggleBlocks` of what it read before |
| LegacyForm.ToggledState | src/components/safety-inspection-form.tsx:111-115 | a click that changes one column this way and keeps everything else gives `ToggleState` |
| LegacyForm.AppendItemRows | src/components/safety-inspection-form.tsx:212-220 | the inner loop appends the item rows of the section's objects |
| LegacyForm.AppendSectionBlock | src/components/safety-inspection-form.tsx:208-221 | one outer pass appends the section's block |
| LegacyForm.AppendColumn | src/components/safety-inspection-form.tsx:207-222 | the outer loop appends the column's content |
| LegacyForm.BlocksOfAppend | src/components/safety-inspection-form.tsx:304 | `[...leftSections, ...rightSections]` reads as the left blocks followed by the right blocks |
| LegacyForm.HeadLines | src/components/safety-inspection-form.tsx:298-303 | the opening `csv +=` statements write the eight head rows |
| LegacyForm.TailLines | src/components/safety-inspection-form.tsx:310-312 | the closing statements write a blank row and the three closing rows |
| LegacyForm.AppendCsvItems | src/components/safety-inspection-form.tsx:305-307 | the inner loop appends one row per item of the section |
| LegacyForm.AppendCsvSections | src/components/safety-inspection-form.tsx:304-308 | the outer loop appends the sections' item rows in order |

## Left out

- React rendering and JSX are not modelled; this includes every presentational component, the pages, and the `confirm` dialog. The show/hide flags `showDownloadMenu` and `showCalendar` are not modelled either.
- Browser download plumbing is replaced by the value handed to the browser: a `DownloadedFile` with name, content and MIME type. This covers the Blob, `URL.createObjectURL` and the anchor click.
- `navigator.share`, the clipboard and `alert` are left out. Only the share text is modelled.
- Dates are inputs, not computed:
  - `new Date().toISOString().split("T")[0]` is the `date` string parameter;
  - the calendar (`getDaysInMonth`, `getFirstDayOfMonth`, `navigateMonth`) is left out;
  - the calendar date is the year, month and day parameters of `HandleDateSelect`.
- `LegacyValues.FormatDateForInput` requires a month from 0 to 11 and a day from 1 to 31. It does not model how JavaScript's `Date` rolls over an out-of-range day; the calendar only offers days of the shown month.
- `LegacyForm.SafetyInspectionForm.HandleDateSelect` shares that requires. It models `new Date`'s reading of a year from 0 to 99 as 1900 to 1999 (`LegacyValues.DateYear`), but not the rollover of an out-of-range day.
- A draft that loads on mount is not checked for exclusivity. `InspectionForm.InspectionFormController.Mount` promises the invariant only when the loaded draft, or the initial state, has no item with both boxes checked.
- The debounce timer is reduced to `AutoSave`, the timer firing. Timer cancellation and timing are left out.
- `JSON.stringify`/`JSON.parse` are an abstract codec. `Storage.SaveThenLoad` assumes the codec round-trips and never gives an empty text.
- A `localStorage` exception is a `fault` parameter of each storage operation. The console logging is left out.
- Zod's internals are left out:
  - the false branch of `error instanceof z.ZodError` is left out, since the schemas only throw `ZodError`;
  - the order of issues follows the schema's key order;
  - messages are modelled only as far as the schemas fix them.
- JSON numbers are not distinguished beyond their type name.
- `toLowerCase` and `\s` are modelled on ASCII. Unicode case mapping and Unicode whitespace are left out.
- `BaseExporter.Exporter.GenerateFilename` is modelled, but nothing in the application calls it.
- CSS blocks and the template markup are constant text chunks. Their whitespace is not reproduced character for character. The properties are stated about where each value sits relative to the chunks around it.
- No HTML escaping and no CSV quote-escaping happen in the source, and none is modelled. The lemmas about reading a row back require the values to hold no quote (for quoted cells) or no comma, quote or line feed (for bare cells).
- Indices are assumed valid. `InspectionForm.InspectionFormController.HandleCheckboxChange` and `LegacyForm.SafetyInspectionForm.HandleCheckboxChange` require in-range indices, because the UI only passes indices of rendered items. Out of range, the source would throw or write to `undefined`.
- `LegacyForm.SafetyInspectionForm.HandleCheckboxChange` requires the invariant that no item object is shared. Under that invariant, setting a column to its shallow copy holds the same objects in the same order. So the setter's re-render is not modelled separately, and the column field keeps its value.
- `InspectionForm.InspectionFormController.AutoSave` does not change `isDirty` or `hasDraft`, because the source never resets them after a save.

## Notes on the source

These notes record behaviour as the source has it:

- The two CSV exporters differ in layout and quoting:
  - the modular CSV exporter writes metadata values unquoted, so a value holding a comma splits into two cells (`CsvExporter.MetadataCommaSplitsCell`);
  - the component's CSV is flat, one row per item, where the modular exporter lays the columns side by side.
- The placeholders differ: the component's CSV uses `[No comments]` for empty comments, and the component uses `[Specific location or area of inspection]` for an empty location (`LegacyDocuments.PlaceholdersDiffer`).
- The component's Word file marks answers `☑`/`☐`, where the modular exporter writes `X` or nothing.
- The component's download names are dated but never depend on the project, unlike `generateFilename`.
- Clicking the same box twice does not restore an erased opposite answer (`InspectionForm.ToggleTwiceLosesOtherField`).
- The draft key is `form_draft_` followed by the form id (`src/lib/constants.ts:205`).
- The modular CSV exporter always quotes questions and the closing rows, and never quotes metadata values.
- The modular exporters' download name is the caller's file name, a dot and the extension. Only `generateFilename` and the component's names carry a date.
