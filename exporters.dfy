/**
 * The exporter factory: `createExporter` picks the exporter for an export
 * format, and `exportForm` builds one and downloads the form through it.
 * The format is typed `"word" | "excel"`, but nothing stops another string at
 * run time, so it is modelled as a string and the `throw` of the default case
 * as an `Err` carrying the error's message.
 */
module Exporters {
  import opened Types
  import opened BaseExporter
  import CsvExporter
  import WordExporter

  /** The name each exporter goes by as an export format. */
  function FormatName(kind: Kind): (format: string)
    ensures format == (if kind == WordFile then "word" else "excel")
  {
    match kind
    case WordFile => "word"
    case CsvFile => "excel"
  }

  /** The message of the error `createExporter` throws for an unknown format. */
  function UnknownFormat(format: string): string {
    "Unknown export format: " + format
  }

  /** The `switch` of `createExporter`: which exporter a format names, or the error. */
  function FormatKind(format: string): (r: Result<Kind, string>)
    ensures r.Err? ==> r.error == UnknownFormat(format)
  {
    if format == "word" then Ok(WordFile)
    else if format == "excel" then Ok(CsvFile)
    else Err(UnknownFormat(format))
  }

  /**
   * Exactly the two format names are known, each names its own exporter, and
   * the format an exporter is picked by is its name.
   */
  lemma FormatKindRoundTrip(format: string, kind: Kind)
    ensures FormatKind(FormatName(kind)) == Ok(kind)
    ensures FormatKind(format) == Ok(kind) <==> format == FormatName(kind)
    ensures FormatKind(format).Err? <==> format != "word" && format != "excel"
  {
  }

  /** `createExporter(format, formState, formTitle)`: a new exporter holding the state and the title, or the error. */
  method CreateExporter(format: string, formState: FormState, formTitle: string) returns (r: Result<Exporter, string>)
    ensures FormatKind(format).Err? ==> r == Err(UnknownFormat(format))
    ensures FormatKind(format).Ok? ==>
      && r.Ok? && fresh(r.value)
      && r.value.kind == FormatKind(format).value
      && r.value.formState == formState && r.value.formTitle == formTitle
  {
    match FormatKind(format)
    case Err(e) =>
      r := Err(e);
    case Ok(kind) =>
      var exporter := new Exporter(kind, formState, formTitle);
      r := Ok(exporter);
  }

  /**
   * What exporting `filename` in `format` hands to the browser when the
   * exporter of each kind generates `content(kind)`: the picked exporter's
   * download, or the error `createExporter` throws.
   */
  function Exporting(format: string, filename: string, content: Kind -> string): (r: Result<DownloadedFile, string>)
    ensures format == "word" ==> r == Ok(DownloadedFile(filename + ".doc", content(WordFile), "application/msword"))
    ensures format == "excel" ==> r == Ok(DownloadedFile(filename + ".csv", content(CsvFile), "text/csv;charset=utf-8;"))
    ensures format != "word" && format != "excel" ==> r == Err("Unknown export format: " + format)
  {
    assert FileName(filename, "doc") == filename + ".doc";
    assert FileName(filename, "csv") == filename + ".csv";
    match FormatKind(format)
    case Err(e) => Err(e)
    case Ok(kind) => Ok(Packaged(kind, filename, content(kind)))
  }

  /** What `exportForm` hands to the browser: the exporters generate the form's content. */
  function Exported(format: string, s: FormState, title: string, filename: string): (r: Result<DownloadedFile, string>)
    ensures format == "word" ==> r == Ok(DownloadedFile(filename + ".doc", WordExporter.GenerateContent(s, title), "application/msword"))
    ensures format == "excel" ==> r == Ok(DownloadedFile(filename + ".csv", CsvExporter.Document(s, title), "text/csv;charset=utf-8;"))
    ensures format != "word" && format != "excel" ==> r == Err("Unknown export format: " + format)
  {
    Exporting(format, filename, kind => Content(kind, s, title))
  }

  /** `exportForm(format, formState, formTitle, filename)`. */
  method ExportForm(format: string, formState: FormState, formTitle: string, filename: string)
    returns (r: Result<DownloadedFile, string>)
    ensures r == Exported(format, formState, formTitle, filename)
  {
    var created := CreateExporter(format, formState, formTitle);
    match created
    case Err(e) =>
      r := Err(e);
    case Ok(exporter) =>
      var d := exporter.Download(filename);
      r := Ok(d);
  }
}
