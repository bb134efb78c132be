/**
 * Comma-separated records in the manner of RFC 4180. A record is written as
 * its cells joined by commas, a cell either bare or enclosed in double
 * quotes; the reader takes a field up to the next comma, or from an opening
 * quote to its closing one, inside which a doubled quote stands for one
 * quote and commas are data. The exporters only write; the reader is the
 * reference against which their rows are shown to carry their cells.
 */
module Csv {

  /** A cell as written: bare text, or text between double quotes. */
  datatype Cell = Bare(text: string) | Quoted(text: string)

  function Render(c: Cell): string {
    match c
    case Bare(t) => t
    case Quoted(t) => "\"" + t + "\""
  }

  /** The cells joined by commas. */
  function Record(cells: seq<Cell>): string
    decreases |cells|
  {
    if cells == [] then ""
    else if |cells| == 1 then Render(cells[0])
    else Render(cells[0]) + "," + Record(cells[1..])
  }

  function Texts(cells: seq<Cell>): seq<string> {
    seq(|cells|, i requires 0 <= i < |cells| => cells[i].text)
  }

  /** No character of `s` opens or ends a field outside quotes. */
  predicate Plain(s: string) {
    ',' !in s && '"' !in s
  }

  predicate QuoteFree(s: string) {
    '"' !in s
  }

  /** A cell the reader gets back unchanged: a bare cell is plain, a quoted one has no quote. */
  predicate Readable(c: Cell) {
    match c
    case Bare(t) => Plain(t)
    case Quoted(t) => QuoteFree(t)
  }

  /** Outside quotes, inside quotes, or just after a quote inside quotes. */
  datatype Mode = Outside | Inside | QuoteSeen

  /** The cells finished so far and the one being read. */
  datatype Reading = Reading(mode: Mode, field: string, fields: seq<string>)

  const START: Reading := Reading(Outside, "", [])

  function Step(r: Reading, c: char): Reading {
    match r.mode
    case Outside =>
      if c == ',' then Reading(Outside, "", r.fields + [r.field])
      else if c == '"' then r.(mode := Inside)
      else r.(field := r.field + [c])
    case Inside =>
      if c == '"' then r.(mode := QuoteSeen)
      else r.(field := r.field + [c])
    case QuoteSeen =>
      if c == '"' then Reading(Inside, r.field + ['"'], r.fields)
      else if c == ',' then Reading(Outside, "", r.fields + [r.field])
      else Reading(Outside, r.field + [c], r.fields)
  }

  /** Feeds the characters of `s` one by one. */
  function Run(r: Reading, s: string): Reading
    decreases |s|
  {
    if s == [] then r else Run(Step(r, s[0]), s[1..])
  }

  /** The cells of one record as a reader sees them. */
  function Fields(line: string): seq<string> {
    var r := Run(START, line);
    r.fields + [r.field]
  }

  /** Reading a concatenation is reading its parts in turn. */
  lemma {:induction false} RunAppend(r: Reading, a: string, b: string)
    ensures Run(r, a + b) == Run(Run(r, a), b)
    decreases |a|
  {
    if a == [] {
      assert a + b == b;
    } else {
      assert (a + b)[0] == a[0];
      assert (a + b)[1..] == a[1..] + b;
      RunAppend(Step(r, a[0]), a[1..], b);
    }
  }

  /** Outside quotes, plain text is added to the current cell. */
  lemma {:induction false} RunPlain(r: Reading, s: string)
    requires r.mode == Outside && Plain(s)
    ensures Run(r, s) == r.(field := r.field + s)
    decreases |s|
  {
    if s == [] {
      assert r.field + s == r.field;
    } else {
      assert s[0] in s;
      assert s == [s[0]] + s[1..];
      RunPlain(Step(r, s[0]), s[1..]);
      assert r.field + [s[0]] + s[1..] == r.field + s;
    }
  }

  /** Inside quotes, text without quotes is added to the current cell. */
  lemma {:induction false} RunQuoteFree(r: Reading, s: string)
    requires r.mode == Inside && QuoteFree(s)
    ensures Run(r, s) == r.(field := r.field + s)
    decreases |s|
  {
    if s == [] {
      assert r.field + s == r.field;
    } else {
      assert s[0] in s;
      assert s == [s[0]] + s[1..];
      RunQuoteFree(Step(r, s[0]), s[1..]);
      assert r.field + [s[0]] + s[1..] == r.field + s;
    }
  }

  /** Reading one readable cell from the start of a field: its text is the current cell. */
  lemma RunCell(r: Reading, c: Cell)
    requires r.mode == Outside && r.field == "" && Readable(c)
    ensures Run(r, Render(c)).field == c.text && Run(r, Render(c)).fields == r.fields
    ensures Run(r, Render(c)).mode != Inside
  {
    match c
    case Bare(t) =>
      RunPlain(r, t);
      assert "" + t == t;
    case Quoted(t) =>
      RunAppend(r, "\"" + t, "\"");
      RunAppend(r, "\"", t);
      assert "\""[1..] == "";
      RunQuoteFree(r.(mode := Inside), t);
      assert "" + t == t;
  }

  /** Reading a record from the start of a field appends its cells' texts. */
  lemma {:induction false} RunRecord(r: Reading, cells: seq<Cell>)
    requires r.mode == Outside && r.field == "" && cells != []
    requires forall i :: 0 <= i < |cells| ==> Readable(cells[i])
    ensures var e := Run(r, Record(cells)); e.fields + [e.field] == r.fields + Texts(cells)
    decreases |cells|
  {
    var c := cells[0];
    RunCell(r, c);
    if |cells| == 1 {
      assert Texts(cells) == [c.text];
    } else {
      var rest := cells[1..];
      var mid := Run(r, Render(c));
      RunAppend(r, Render(c) + ",", Record(rest));
      RunAppend(r, Render(c), ",");
      assert ","[1..] == "";
      var next := Reading(Outside, "", r.fields + [c.text]);
      assert Run(mid, ",") == next;
      RunRecord(next, rest);
      assert Texts(cells) == [c.text] + Texts(rest);
    }
  }

  /** A reader gets back the texts of the cells written, when every cell is readable. */
  lemma ReadRecord(cells: seq<Cell>, texts: seq<string>)
    requires cells != []
    requires forall i :: 0 <= i < |cells| ==> Readable(cells[i])
    requires |texts| == |cells| && forall i :: 0 <= i < |cells| ==> texts[i] == cells[i].text
    ensures Fields(Record(cells)) == texts
  {
    RunRecord(START, cells);
    assert Texts(cells) == texts;
  }

  /** A comma inside a bare cell ends it early: `a,b` written bare reads back as two cells. */
  lemma BareCommaSplits(a: string, b: string)
    requires Plain(a) && Plain(b)
    ensures Fields(Record([Bare(a + "," + b)])) == [a, b]
  {
    assert Record([Bare(a + "," + b)]) == Record([Bare(a), Bare(b)]);
    ReadRecord([Bare(a), Bare(b)], [a, b]);
  }

  /** A character other than a comma or a quote is in a record only when it is in one of its cells. */
  lemma {:induction false} RecordAvoids(cells: seq<Cell>, ch: char)
    requires ch != ',' && ch != '"'
    requires forall i :: 0 <= i < |cells| ==> ch !in cells[i].text
    ensures ch !in Record(cells)
    decreases |cells|
  {
    if cells != [] {
      assert ch !in Render(cells[0]);
      if |cells| > 1 {
        RecordAvoids(cells[1..], ch);
      }
    }
  }
}
