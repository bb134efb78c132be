/**
 * The common part of the exporters: an exporter holds the form state and the
 * form title it was built with, and `download` hands the browser a file
 * named after the caller's file name and the exporter's extension, holding
 * the exporter's content under its MIME type. The Blob, the object URL and
 * the anchor click are the browser's side of that hand-over and are left out:
 * `Download` returns what is handed over.
 */
module BaseExporter {
  import opened Types
  import CsvExporter
  import WordExporter

  /** The two concrete exporters: `WordExporter` and `CSVExporter`. */
  datatype Kind = WordFile | CsvFile

  /** `getFileExtension()` of each exporter. */
  function Extension(kind: Kind): (ext: string)
    ensures ext == (if kind == WordFile then "doc" else "csv")
  {
    if kind == WordFile then WordExporter.FILE_EXTENSION else CsvExporter.FILE_EXTENSION
  }

  /** `getMimeType()` of each exporter. */
  function MimeType(kind: Kind): (mime: string)
    ensures mime == (if kind == WordFile then "application/msword" else "text/csv;charset=utf-8;")
  {
    if kind == WordFile then WordExporter.MIME_TYPE else CsvExporter.MIME_TYPE
  }

  /** `generateContent()` of each exporter. */
  function Content(kind: Kind, s: FormState, title: string): string {
    if kind == WordFile then WordExporter.GenerateContent(s, title) else CsvExporter.Document(s, title)
  }

  /** `${filename}.${extension}`. */
  function FileName(filename: string, ext: string): (name: string)
    ensures |name| == |filename| + 1 + |ext|
    ensures name[..|filename|] == filename && name[|filename|] == '.' && name[|filename| + 1..] == ext
  {
    filename + "." + ext
  }

  /** Different file names never give the same download name for one extension. */
  lemma FileNameInjective(a: string, b: string, ext: string)
    ensures FileName(a, ext) == FileName(b, ext) <==> a == b
  {
    if FileName(a, ext) == FileName(b, ext) {
      assert a == FileName(a, ext)[..|a|];
    }
  }

  /** What `download` hands to the browser: the file name, the content and its MIME type. */
  datatype DownloadedFile = DownloadedFile(name: string, content: string, mimeType: string)

  /** The file an exporter of `kind` hands over for `filename` when it generated `content`. */
  function Packaged(kind: Kind, filename: string, content: string): (d: DownloadedFile)
    ensures |d.name| == |filename| + 1 + |Extension(kind)|
    ensures d.name[..|filename|] == filename && d.name[|filename|..] == "." + Extension(kind)
    ensures d.content == content && d.mimeType == MimeType(kind)
  {
    DownloadedFile(FileName(filename, Extension(kind)), content, MimeType(kind))
  }

  /** The download an exporter of `kind` makes of `filename`. */
  function DownloadOf(kind: Kind, s: FormState, title: string, filename: string): DownloadedFile {
    Packaged(kind, filename, Content(kind, s, title))
  }

  /** `BaseExporter` with the subclass it is an instance of. */
  class Exporter {
    const kind: Kind
    var formState: FormState
    var formTitle: string

    /** Stores the form state and the title as they are. */
    constructor (kind: Kind, formState: FormState, formTitle: string)
      ensures this.kind == kind && this.formState == formState && this.formTitle == formTitle
    {
      this.kind := kind;
      this.formState := formState;
      this.formTitle := formTitle;
    }

    method GenerateContent() returns (content: string)
      ensures content == Content(kind, formState, formTitle)
    {
      if kind == WordFile {
        content := WordExporter.GenerateContent(formState, formTitle);
      } else {
        content := CsvExporter.GenerateContent(formState, formTitle);
      }
    }

    /** `download(filename)`: the content under the exporter's MIME type, named `filename` plus the extension and no date. */
    method Download(filename: string) returns (d: DownloadedFile)
      ensures d == DownloadOf(kind, formState, formTitle, filename)
    {
      var content := GenerateContent();
      var mimeType := MimeType(kind);
      var name := filename + "." + Extension(kind);
      d := DownloadedFile(name, content, mimeType);
    }

    /** `generateFilename()`, with `new Date().toISOString().split("T")[0]` as the `date` parameter. */
    function GenerateFilename(date: string): (name: string)
      reads this
      ensures var slug := Slug(formState.projectName);
        && |name| == |slug| + 1 + |date|
        && name[..|slug|] == slug && name[|slug|] == '_' && name[|slug| + 1..] == date
        && NoSpace(name[..|slug|]) && NoUpper(name[..|slug|])
    {
      GeneratedFilenameParts(formState.projectName, date);
      GeneratedFilename(formState.projectName, date)
    }
  }

  /** The whitespace characters of ASCII: tab, line feed, vertical tab, form feed, carriage return and space. */
  predicate IsSpace(c: char) {
    c == ' ' || '\t' <= c <= '\r'
  }

  predicate IsUpper(c: char) {
    'A' <= c <= 'Z'
  }

  function LowerChar(c: char): (l: char)
    ensures !IsUpper(l)
    ensures IsSpace(l) <==> IsSpace(c)
    ensures !IsUpper(c) ==> l == c
  {
    if IsUpper(c) then (c as int + 32) as char else c
  }

  /** `toLowerCase()` on ASCII letters. */
  function Lower(s: string): (r: string)
    ensures |r| == |s|
  {
    if s == [] then [] else [LowerChar(s[0])] + Lower(s[1..])
  }

  predicate NoUpper(s: string) {
    forall i :: 0 <= i < |s| ==> !IsUpper(s[i])
  }

  predicate NoSpace(s: string) {
    forall i :: 0 <= i < |s| ==> !IsSpace(s[i])
  }

  /** Each character lowered in place: the result has no capital letter and whitespace where the input had it. */
  lemma {:induction false} LowerCharwise(s: string)
    ensures forall i :: 0 <= i < |s| ==> Lower(s)[i] == LowerChar(s[i])
    ensures NoUpper(Lower(s))
  {
    if s != [] {
      LowerCharwise(s[1..]);
      assert forall i :: 1 <= i < |s| ==> Lower(s)[i] == Lower(s[1..])[i - 1];
    }
  }

  /** A text without capitals is its own lower case, so lowering twice is lowering once. */
  lemma {:induction false} LowerKeepsLower(s: string)
    requires NoUpper(s)
    ensures Lower(s) == s
  {
    if s != [] {
      assert NoUpper(s[1..]) by {
        assert forall i :: 0 <= i < |s[1..]| ==> s[1..][i] == s[i + 1];
      }
      LowerKeepsLower(s[1..]);
    }
  }

  /** Drops the whitespace at the front of a text. */
  function DropSpaces(s: string): (r: string)
    ensures |r| <= |s| && r == s[|s| - |r|..]
    ensures r == [] || !IsSpace(r[0])
    ensures forall i :: 0 <= i < |s| - |r| ==> IsSpace(s[i])
  {
    if s != [] && IsSpace(s[0]) then DropSpaces(s[1..]) else s
  }

  /** `replace(/\s+/g, "_")`: each maximal run of whitespace becomes one underscore. */
  function Underscored(s: string): string
    decreases |s|
  {
    if s == [] then []
    else if IsSpace(s[0]) then "_" + Underscored(DropSpaces(s[1..]))
    else [s[0]] + Underscored(s[1..])
  }

  lemma NoSpaceAppend(a: string, b: string)
    requires NoSpace(a) && NoSpace(b)
    ensures NoSpace(a + b)
  {
    assert forall i :: |a| <= i < |a + b| ==> (a + b)[i] == b[i - |a|];
  }

  lemma NoUpperAppend(a: string, b: string)
    requires NoUpper(a) && NoUpper(b)
    ensures NoUpper(a + b)
  {
    assert forall i :: |a| <= i < |a + b| ==> (a + b)[i] == b[i - |a|];
  }

  /** What is rewritten after the first character. */
  function UnderscoredRest(s: string): (rest: string)
    requires s != []
    ensures |rest| < |s| && rest == s[|s| - |rest|..]
  {
    if IsSpace(s[0]) then DropSpaces(s[1..]) else s[1..]
  }

  lemma UnderscoredStep(s: string)
    requires s != []
    ensures Underscored(s) == (if IsSpace(s[0]) then "_" else [s[0]]) + Underscored(UnderscoredRest(s))
  {
  }

  /** No whitespace is left. */
  lemma {:induction false} UnderscoredNoSpace(s: string)
    ensures NoSpace(Underscored(s))
    decreases |s|
  {
    if s != [] {
      var rest := UnderscoredRest(s);
      UnderscoredNoSpace(rest);
      UnderscoredStep(s);
      NoSpaceAppend(if IsSpace(s[0]) then "_" else [s[0]], Underscored(rest));
    }
  }

  /** No capital letter is brought in. */
  lemma {:induction false} UnderscoredNoUpper(s: string)
    requires NoUpper(s)
    ensures NoUpper(Underscored(s))
    decreases |s|
  {
    if s != [] {
      var rest := UnderscoredRest(s);
      assert forall i :: 0 <= i < |rest| ==> rest[i] == s[|s| - |rest| + i];
      UnderscoredNoUpper(rest);
      UnderscoredStep(s);
      NoUpperAppend(if IsSpace(s[0]) then "_" else [s[0]], Underscored(rest));
    }
  }

  /** A text without whitespace is left as it is. */
  lemma {:induction false} UnderscoredKeepsPlain(s: string)
    requires NoSpace(s)
    ensures Underscored(s) == s
    decreases |s|
  {
    if s != [] {
      assert !IsSpace(s[0]);
      assert NoSpace(s[1..]) by {
        assert forall i :: 0 <= i < |s[1..]| ==> s[1..][i] == s[i + 1];
      }
      UnderscoredKeepsPlain(s[1..]);
    }
  }

  /**
   * How a text is rewritten: a stretch without whitespace is kept, the
   * whitespace run after it becomes one underscore, and the rest is rewritten
   * from the first character after the run.
   */
  lemma {:induction false} UnderscoredRun(word: string, run: string, rest: string)
    requires NoSpace(word) && run != [] && NoSpace(rest[..if rest == [] then 0 else 1])
    requires forall i :: 0 <= i < |run| ==> IsSpace(run[i])
    ensures Underscored(word + run + rest) == word + "_" + Underscored(rest)
    decreases |word|
  {
    var text := word + run + rest;
    if word == [] {
      assert Underscored(text) == word + "_" + Underscored(rest) by {
        assert text == run + rest;
        assert rest != [] ==> rest[..1][0] == rest[0];
        UnderscoredLeadingRun(run, rest);
      }
    } else {
      assert Underscored(text) == word + "_" + Underscored(rest) by {
        assert text[0] == word[0] && !IsSpace(text[0]) && text[1..] == word[1..] + run + rest;
        assert Underscored(text[1..]) == word[1..] + "_" + Underscored(rest) by {
          assert NoSpace(word[1..]) by {
            assert forall i :: 0 <= i < |word[1..]| ==> word[1..][i] == word[i + 1];
          }
          UnderscoredRun(word[1..], run, rest);
        }
        UnderscoredStep(text);
        assert word == [word[0]] + word[1..];
      }
    }
  }

  /** A leading whitespace run becomes one underscore. */
  lemma UnderscoredLeadingRun(run: string, rest: string)
    requires run != [] && forall i :: 0 <= i < |run| ==> IsSpace(run[i])
    requires rest == [] || !IsSpace(rest[0])
    ensures Underscored(run + rest) == "_" + Underscored(rest)
  {
    var text := run + rest;
    assert IsSpace(text[0]) && text[1..] == run[1..] + rest;
    assert UnderscoredRest(text) == rest by {
      DropRun(run[1..], rest);
    }
    UnderscoredStep(text);
  }

  /** A whitespace run is dropped up to the first character after it. */
  lemma {:induction false} DropRun(run: string, rest: string)
    requires forall i :: 0 <= i < |run| ==> IsSpace(run[i])
    requires rest == [] || !IsSpace(rest[0])
    ensures DropSpaces(run + rest) == rest
    decreases |run|
  {
    if run == [] {
      assert run + rest == rest;
    } else {
      assert (run + rest)[1..] == run[1..] + rest;
      DropRun(run[1..], rest);
    }
  }

  /** The file name stem of `generateFilename`: the project name lowered, whitespace runs turned into underscores. */
  function Slug(projectName: string): (slug: string)
    ensures NoSpace(slug) && NoUpper(slug)
  {
    var lowered := Lower(projectName);
    LowerCharwise(projectName);
    UnderscoredNoSpace(lowered);
    UnderscoredNoUpper(lowered);
    Underscored(lowered)
  }

  function GeneratedFilename(projectName: string, date: string): string {
    Slug(projectName) + "_" + date
  }

  /** The stem has no whitespace and no capital letter, and it is its own stem. */
  lemma SlugClean(projectName: string)
    ensures NoSpace(Slug(projectName)) && NoUpper(Slug(projectName))
    ensures Slug(Slug(projectName)) == Slug(projectName)
  {
    var slug := Slug(projectName);
    LowerKeepsLower(slug);
    UnderscoredKeepsPlain(slug);
  }

  /** `generateFilename()` is the stem, an underscore and the date. */
  lemma GeneratedFilenameParts(projectName: string, date: string)
    ensures var name, slug := GeneratedFilename(projectName, date), Slug(projectName);
      && |name| == |slug| + 1 + |date|
      && name[..|slug|] == slug && name[|slug|] == '_' && name[|slug| + 1..] == date
      && NoSpace(name[..|slug|])
  {
    SlugClean(projectName);
    var name, slug := GeneratedFilename(projectName, date), Slug(projectName);
    assert name == slug + ("_" + date);
  }
}
