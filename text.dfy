/**
 * String helpers shared by the exporters: JavaScript's `a || b` on strings,
 * `join`, line assembly and decimal rendering of numbers.
 */
module Text {

  /** `s || fallback`: the empty string is falsy. */
  function OrElse(s: string, fallback: string): (r: string)
    ensures r == s || r == fallback
    ensures r == s <==> s != "" || fallback == ""
  {
    if s == "" then fallback else s
  }

  /** Every row followed by a line feed: text built by `s += row + "\n"`. */
  function Unlines(rows: seq<string>): string {
    if rows == [] then "" else rows[0] + "\n" + Unlines(rows[1..])
  }

  lemma {:induction false} UnlinesAppend(a: seq<string>, b: seq<string>)
    ensures Unlines(a + b) == Unlines(a) + Unlines(b)
  {
    if a == [] {
      assert a + b == b;
    } else {
      assert (a + b)[1..] == a[1..] + b;
      UnlinesAppend(a[1..], b);
    }
  }

  predicate NoLineFeed(s: string) {
    '\n' !in s
  }

  /** Position of the first line feed, or the length when there is none. */
  function LineEnd(s: string): (k: nat)
    ensures k <= |s| && NoLineFeed(s[..k])
    ensures k < |s| ==> s[k] == '\n'
  {
    if s == [] || s[0] == '\n' then 0 else 1 + LineEnd(s[1..])
  }

  /** Cuts text at its line feeds; a final line feed does not open an empty last row. */
  function SplitLines(s: string): seq<string>
    decreases |s|
  {
    if s == [] then []
    else
      var k := LineEnd(s);
      if k == |s| then [s] else [s[..k]] + SplitLines(s[k + 1..])
  }

  lemma {:induction false} LineEndOfRow(row: string, rest: string)
    requires NoLineFeed(row)
    ensures LineEnd(row + "\n" + rest) == |row|
    decreases |row|
  {
    var s := row + "\n" + rest;
    if row == [] {
      assert s[0] == '\n';
    } else {
      assert s[0] == row[0] && s[1..] == row[1..] + "\n" + rest;
      LineEndOfRow(row[1..], rest);
    }
  }

  /** A row without line feeds, then a line feed, splits off as the first line. */
  lemma SplitLinesStep(row: string, rest: string)
    requires NoLineFeed(row)
    ensures SplitLines(row + "\n" + rest) == [row] + SplitLines(rest)
  {
    var s := row + "\n" + rest;
    LineEndOfRow(row, rest);
    assert s[..|row|] == row;
    assert s[|row| + 1..] == rest;
  }

  /** Rows without line feeds are recovered from the text built by `Unlines`. */
  lemma {:induction false} SplitUnlines(rows: seq<string>)
    requires AllLineFree(rows)
    ensures SplitLines(Unlines(rows)) == rows
    decreases |rows|
  {
    if rows != [] {
      assert Unlines(rows) == rows[0] + "\n" + Unlines(rows[1..]);
      SplitLinesStep(rows[0], Unlines(rows[1..]));
      SplitUnlines(rows[1..]);
      assert rows == [rows[0]] + rows[1..];
    }
  }

  lemma SeqAssoc<T>(a: seq<T>, b: seq<T>, c: seq<T>)
    ensures a + b + c == a + (b + c)
  {
  }

  /** Appending one row after a prefix and text built by `Unlines`. */
  lemma UnlinesSnocAfter(text: string, rows: seq<string>, row: string)
    ensures text + Unlines(rows) + row + "\n" == text + Unlines(rows + [row])
  {
    UnlinesSnoc(rows, row);
  }

  /** Appending more rows after a prefix and text built by `Unlines`. */
  lemma UnlinesAppendAfter(text: string, rows: seq<string>, more: seq<string>)
    ensures text + Unlines(rows) + Unlines(more) == text + Unlines(rows + more)
  {
    UnlinesAppend(rows, more);
  }

  /** Appending one row to text built by `Unlines`. */
  lemma UnlinesSnoc(rows: seq<string>, row: string)
    ensures Unlines(rows + [row]) == Unlines(rows) + row + "\n"
  {
    UnlinesAppend(rows, [row]);
    assert Unlines([row]) == row + "\n" + Unlines([]);
  }

  lemma TakeAll<T>(xs: seq<T>, n: nat)
    requires n == |xs|
    ensures xs[..n] == xs
  {
  }

  lemma TakeSnoc<T>(xs: seq<T>, n: nat)
    requires 0 < n <= |xs|
    ensures xs[..n] == xs[..n - 1] + [xs[n - 1]]
  {
  }

  /** `xss.flat()`, and on strings `parts.join("")`: built one part at a time from the left. */
  function Flatten<T>(xss: seq<seq<T>>): seq<T>
    decreases |xss|
  {
    if xss == [] then [] else Flatten(xss[..|xss| - 1]) + xss[|xss| - 1]
  }

  lemma FlattenSnoc<T>(xss: seq<seq<T>>, xs: seq<T>)
    ensures Flatten(xss + [xs]) == Flatten(xss) + xs
  {
    assert (xss + [xs])[..|xss|] == xss;
  }

  /** Flattening a concatenation flattens each part in turn. */
  lemma {:induction false} FlattenAppend<T>(a: seq<seq<T>>, b: seq<seq<T>>)
    ensures Flatten(a + b) == Flatten(a) + Flatten(b)
    decreases |b|
  {
    if b == [] {
      assert a + b == a;
    } else {
      var init := b[..|b| - 1];
      assert a + b == (a + init) + [b[|b| - 1]];
      FlattenSnoc(a + init, b[|b| - 1]);
      FlattenAppend(a, init);
      FlattenSnoc(init, b[|b| - 1]);
      assert init + [b[|b| - 1]] == b;
    }
  }

  /** Part `i` sits in the flattened sequence right after the parts before it. */
  lemma {:induction false} FlattenPlacement<T>(xss: seq<seq<T>>, i: nat)
    requires i < |xss|
    ensures |Flatten(xss[..i])| + |xss[i]| <= |Flatten(xss)|
    ensures Flatten(xss)[|Flatten(xss[..i])|..|Flatten(xss[..i])| + |xss[i]|] == xss[i]
    decreases |xss|
  {
    var n := |xss|;
    var init := xss[..n - 1];
    assert Flatten(xss) == Flatten(init) + xss[n - 1];
    if i == n - 1 {
      assert xss[..i] == init;
    } else {
      FlattenPlacement(init, i);
      assert init[..i] == xss[..i];
      assert init[i] == xss[i];
      var a := |Flatten(xss[..i])|;
      assert Flatten(xss)[a..a + |xss[i]|] == Flatten(init)[a..a + |xss[i]|];
    }
  }

  /** When every part has at least `m` elements, so many per part are flattened. */
  lemma {:induction false} FlattenLength<T>(xss: seq<seq<T>>, m: nat)
    requires forall i :: 0 <= i < |xss| ==> |xss[i]| >= m
    ensures |Flatten(xss)| >= m * |xss|
    decreases |xss|
  {
    if xss != [] {
      var init := xss[..|xss| - 1];
      FlattenLength(init, m);
      assert m * |xss| == m * |init| + m;
    }
  }

  lemma {:induction false} FlattenLineFree(xss: seq<seq<string>>)
    requires forall i :: 0 <= i < |xss| ==> AllLineFree(xss[i])
    ensures AllLineFree(Flatten(xss))
    decreases |xss|
  {
    if xss != [] {
      var init := xss[..|xss| - 1];
      FlattenLineFree(init);
      AllLineFreeAppend(Flatten(init), xss[|xss| - 1]);
    }
  }

  /** Rows that open with `first` and a blank row and close with `last`, joined: the text opens with `first` and a blank line and closes with `last`. */
  lemma UnlinesEdges(rows: seq<string>, first: string, last: string)
    requires |rows| >= 2 && rows[0] == first && rows[1] == "" && rows[|rows| - 1] == last
    ensures var text := Unlines(rows);
      && |text| >= |first| + 2 && text[..|first| + 2] == first + "\n\n"
      && |text| >= |last| + 1 && text[|text| - |last| - 1..] == last + "\n"
  {
    UnlinesStart(rows);
    assert rows == rows[..|rows| - 1] + [last];
    UnlinesSnoc(rows[..|rows| - 1], last);
  }

  /** The text of rows opens with its first two rows. */
  lemma UnlinesStart(rows: seq<string>)
    requires |rows| >= 2
    ensures |Unlines(rows)| >= |rows[0]| + |rows[1]| + 2
    ensures Unlines(rows)[..|rows[0]| + |rows[1]| + 2] == rows[0] + "\n" + rows[1] + "\n"
  {
    assert rows[1..][1..] == rows[2..];
    var rest := Unlines(rows[2..]);
    assert Unlines(rows) == rows[0] + "\n" + rows[1] + "\n" + rest;
  }

  lemma Unlines1(a: string)
    ensures Unlines([a]) == a + "\n"
  {
    assert Unlines([a]) == a + "\n" + Unlines([]);
  }

  lemma Unlines2(a: string, b: string)
    ensures Unlines([a, b]) == a + "\n" + b + "\n"
  {
    assert Unlines([b]) == b + "\n" + Unlines([]);
    assert Unlines([a, b]) == a + "\n" + Unlines([b]);
  }

  /** An empty row is a lone line feed: `x + "\n\n"` ends a row and then an empty one. */
  lemma EmptyRow(x: string)
    ensures x + "\n" == x + "" + "\n"
    ensures x + "\n\n" == x + "\n" + "" + "\n"
  {
    assert x + "" == x;
    assert "\n\n" == "\n" + "\n";
  }

  /** A first row, the rows after it and an empty last row, written after a prefix. */
  lemma UnlinesFramed(text: string, first: string, rows: seq<string>)
    ensures text + first + "\n" + Unlines(rows) + "\n" == text + Unlines([first] + rows + [""])
  {
    UnlinesAppend([first] + rows, [""]);
    UnlinesAppend([first], rows);
    Unlines1(first);
    Unlines1("");
    EmptyRow(text + first + "\n" + Unlines(rows));
  }

  predicate AllLineFree(rows: seq<string>) {
    forall k :: 0 <= k < |rows| ==> NoLineFeed(rows[k])
  }

  lemma AllLineFreeAppend(a: seq<string>, b: seq<string>)
    requires AllLineFree(a) && AllLineFree(b)
    ensures AllLineFree(a + b)
  {
    forall k | 0 <= k < |a + b| ensures NoLineFeed((a + b)[k]) {
      if k >= |a| {
        assert (a + b)[k] == b[k - |a|];
      }
    }
  }

  /** `parts.join(sep)`. */
  function Join(parts: seq<string>, sep: string): string {
    if parts == [] then ""
    else if |parts| == 1 then parts[0]
    else parts[0] + sep + Join(parts[1..], sep)
  }

  predicate IsDigit(c: char) {
    '0' <= c <= '9'
  }

  function DigitChar(d: nat): (c: char)
    requires d < 10
    ensures IsDigit(c)
  {
    "0123456789"[d]
  }

  function DigitValue(c: char): (d: nat)
    requires IsDigit(c)
    ensures d < 10
  {
    (c as int - '0' as int) as nat
  }

  /** `String(n)` for a non-negative integer. */
  function NatToString(n: nat): (s: string)
    decreases n
  {
    if n < 10 then [DigitChar(n)] else NatToString(n / 10) + [DigitChar(n % 10)]
  }

  /** Reads a string of decimal digits back as a number. */
  function ParseNat(s: string): nat
    requires forall i :: 0 <= i < |s| ==> IsDigit(s[i])
    decreases |s|
  {
    if s == [] then 0 else ParseNat(s[..|s| - 1]) * 10 + DigitValue(s[|s| - 1])
  }

  predicate AllDigits(s: string) {
    forall i :: 0 <= i < |s| ==> IsDigit(s[i])
  }

  lemma {:induction false} NatToStringDigits(n: nat)
    ensures |NatToString(n)| >= 1 && AllDigits(NatToString(n))
    ensures n >= 10 ==> |NatToString(n)| >= 2
    decreases n
  {
    if n >= 10 {
      NatToStringDigits(n / 10);
    }
  }

  /** Decimal rendering is inverted by decimal reading. */
  lemma {:induction false} NatToStringRoundTrip(n: nat)
    ensures AllDigits(NatToString(n)) && ParseNat(NatToString(n)) == n
    decreases n
  {
    NatToStringDigits(n);
    var s := NatToString(n);
    if n < 10 {
      assert s[..|s| - 1] == [];
      assert DigitValue(DigitChar(n)) == n by {
        assert "0123456789"[n] as int == '0' as int + n;
      }
    } else {
      NatToStringRoundTrip(n / 10);
      assert s[..|s| - 1] == NatToString(n / 10);
      var d := n % 10;
      assert DigitValue(DigitChar(d)) == d by {
        assert "0123456789"[d] as int == '0' as int + d;
      }
    }
  }

  /**
   * A template literal: `chunks[0]${holes[0]}chunks[1]...${holes[n-1]}chunks[n]`,
   * evaluated from the left.
   */
  function Fill(chunks: seq<string>, holes: seq<string>): (r: string)
    requires |chunks| == |holes| + 1
    decreases |holes|
  {
    if holes == [] then chunks[0]
    else Fill(chunks[..|holes|], holes[..|holes| - 1]) + holes[|holes| - 1] + chunks[|holes|]
  }

  /** Where hole `k` of a template goes: after the chunks and holes before it. */
  function HoleOffset(chunks: seq<string>, holes: seq<string>, k: nat): nat
    requires |chunks| == |holes| + 1 && k < |holes|
  {
    |Fill(chunks[..k + 1], holes[..k])|
  }

  /** A filled template ends with its last chunk. */
  lemma FillEnds(chunks: seq<string>, holes: seq<string>)
    requires |chunks| == |holes| + 1
    ensures |Fill(chunks, holes)| >= |chunks[|holes|]|
    ensures Fill(chunks, holes)[|Fill(chunks, holes)| - |chunks[|holes|]|..] == chunks[|holes|]
  {
  }

  /** Filling the first `m` holes gives a prefix of the filled template. */
  lemma {:induction false} FillPrefix(chunks: seq<string>, holes: seq<string>, m: nat)
    requires |chunks| == |holes| + 1 && m <= |holes|
    ensures |Fill(chunks[..m + 1], holes[..m])| <= |Fill(chunks, holes)|
    ensures Fill(chunks, holes)[..|Fill(chunks[..m + 1], holes[..m])|] == Fill(chunks[..m + 1], holes[..m])
    decreases |holes|
  {
    var n := |holes|;
    if m == n {
      assert chunks[..m + 1] == chunks && holes[..m] == holes;
    } else {
      var c, h := chunks[..n], holes[..n - 1];
      var shorter := Fill(c, h);
      assert Fill(chunks, holes) == shorter + holes[n - 1] + chunks[n];
      FillPrefix(c, h, m);
      assert c[..m + 1] == chunks[..m + 1] && h[..m] == holes[..m];
      var p := Fill(chunks[..m + 1], holes[..m]);
      assert Fill(chunks, holes)[..|p|] == shorter[..|p|];
    }
  }

  /** Slices of a prefix are slices of the whole. */
  lemma SliceOfPrefix(r: string, u: string, a: nat, b: nat)
    requires |u| <= |r| && r[..|u|] == u && a <= b <= |u|
    ensures r[a..b] == u[a..b]
  {
    forall i | 0 <= i < b - a
      ensures r[a..b][i] == u[a..b][i]
    {
      assert r[a + i] == r[..|u|][a + i];
    }
  }

  /** The pieces of `x + y + z`, sliced back out. */
  lemma SliceThree(x: string, y: string, z: string)
    ensures var u := x + y + z;
      && u[..|x|] == x && u[|x|..|x| + |y|] == y && u[|x| + |y|..] == z
  {
    var u := x + y + z;
    assert u == x + (y + z);
  }

  /** Hole `k` sits between chunk `k` and chunk `k + 1`. */
  lemma FillHole(chunks: seq<string>, holes: seq<string>, k: nat)
    requires |chunks| == |holes| + 1 && k < |holes|
    ensures var o, r := HoleOffset(chunks, holes, k), Fill(chunks, holes);
      && |chunks[k]| <= o && o + |holes[k]| + |chunks[k + 1]| <= |r|
      && r[o - |chunks[k]|..o] == chunks[k]
      && r[o..o + |holes[k]|] == holes[k]
      && r[o + |holes[k]|..o + |holes[k]| + |chunks[k + 1]|] == chunks[k + 1]
  {
    var r := Fill(chunks, holes);
    var before := Fill(chunks[..k + 1], holes[..k]);
    var upTo := Fill(chunks[..k + 2], holes[..k + 1]);
    assert chunks[..k + 2][..k + 1] == chunks[..k + 1];
    assert holes[..k + 1][..k] == holes[..k];
    assert upTo == before + holes[k] + chunks[k + 1];
    FillEnds(chunks[..k + 1], holes[..k]);
    FillPrefix(chunks, holes, k + 1);
    SliceThree(before, holes[k], chunks[k + 1]);
    var o, h, c := |before|, |holes[k]|, |chunks[k]|;
    SliceOfPrefix(r, upTo, o - c, o);
    assert upTo[o - c..o] == before[o - c..];
    SliceOfPrefix(r, upTo, o, o + h);
    SliceOfPrefix(r, upTo, o + h, |upTo|);
  }

  /** Every hole of a filled template sits at its offset, right between the chunks around it. */
  lemma FillAllHoles(chunks: seq<string>, holes: seq<string>)
    requires |chunks| == |holes| + 1
    ensures forall k {:trigger HoleOffset(chunks, holes, k)} :: 0 <= k < |holes| ==>
      Placed(Fill(chunks, holes), HoleOffset(chunks, holes, k), holes[k], chunks[k], chunks[k + 1])
  {
    forall k | 0 <= k < |holes|
      ensures Placed(Fill(chunks, holes), HoleOffset(chunks, holes, k), holes[k], chunks[k], chunks[k + 1])
    {
      HoleBetween(chunks, holes, k);
    }
  }

  /** A hole of a filled template sits right between the chunks around it. */
  lemma HoleBetween(chunks: seq<string>, holes: seq<string>, k: nat)
    requires |chunks| == |holes| + 1 && k < |holes|
    ensures Placed(Fill(chunks, holes), HoleOffset(chunks, holes, k), holes[k], chunks[k], chunks[k + 1])
  {
    assert chunks[k][|chunks[k]| - |chunks[k]|..] == chunks[k];
    assert chunks[k + 1][..|chunks[k + 1]|] == chunks[k + 1];
    HolePlaced(chunks, holes, k, chunks[k], chunks[k + 1]);
  }

  /** Two fillings that agree on the first `m` holes agree up to where hole `m` goes. */
  lemma FillAgrees(chunks: seq<string>, holes: seq<string>, other: seq<string>, m: nat)
    requires |chunks| == |holes| + 1 && |other| == |holes| && m <= |holes|
    requires holes[..m] == other[..m]
    ensures var p := |Fill(chunks[..m + 1], holes[..m])|;
      && p <= |Fill(chunks, holes)| && p <= |Fill(chunks, other)|
      && Fill(chunks, holes)[..p] == Fill(chunks, other)[..p]
  {
    FillPrefix(chunks, holes, m);
    FillPrefix(chunks, other, m);
  }

  predicate StartsWith(s: string, prefix: string) {
    |prefix| <= |s| && s[..|prefix|] == prefix
  }

  predicate EndsWith(s: string, suffix: string) {
    |suffix| <= |s| && s[|s| - |suffix|..] == suffix
  }

  /** `value` occurs in `text` at offset `o`, right after `before` and right before `after`. */
  predicate Placed(text: string, o: nat, value: string, before: string, after: string) {
    && o + |value| <= |text|
    && text[o..o + |value|] == value
    && EndsWith(text[..o], before)
    && StartsWith(text[o + |value|..], after)
  }

  /** `sub` occurs in `text` at offset `o`. */
  predicate Occurs(text: string, o: nat, sub: string) {
    o + |sub| <= |text| && text[o..o + |sub|] == sub
  }

  /** What occurs in a part of a text occurs in the text, shifted by where the part starts. */
  lemma OccursWithin(text: string, o: nat, sub: string, p: nat, v: string)
    requires Occurs(text, o, sub) && Occurs(sub, p, v)
    ensures Occurs(text, o + p, v)
  {
    forall i | 0 <= i < |v|
      ensures text[o + p..o + p + |v|][i] == v[i]
    {
      assert v[i] == sub[p..p + |v|][i] == sub[p + i];
      assert sub[p + i] == text[o..o + |sub|][p + i];
    }
  }

  /** A placement inside a part of a text is a placement in the text. */
  lemma PlacedWithin(text: string, o: nat, sub: string, p: nat, v: string, before: string, after: string)
    requires Occurs(text, o, sub) && Placed(sub, p, v, before, after)
    ensures Placed(text, o + p, v, before, after)
  {
    OccursWithin(text, o, sub, p, v);
    assert Occurs(sub, 0, sub[..p]);
    OccursWithin(text, o, sub, 0, sub[..p]);
    EndsWithChunk(text, o + p, sub[..p], before);
    var q := p + |v|;
    assert Occurs(sub, q, sub[q..]);
    OccursWithin(text, o, sub, q, sub[q..]);
    StartsWithChunk(text, o + q, sub[q..], after);
  }

  /** A piece of a part of a text, and a placement inside that piece, found in the text within the part. */
  lemma PieceWithin(text: string, lo: nat, part: string, p: nat, piece: string, h: nat, v: string, before: string, after: string)
    requires Occurs(text, lo, part) && Occurs(part, p, piece) && Placed(piece, h, v, before, after)
    ensures exists o :: lo <= o && o + |piece| <= lo + |part| && Occurs(text, o, piece) && Placed(text, o + h, v, before, after)
  {
    OccursWithin(text, lo, part, p, piece);
    PlacedWithin(text, lo + p, piece, h, v, before, after);
    assert lo <= lo + p && lo + p + |piece| <= lo + |part| && Occurs(text, lo + p, piece) && Placed(text, lo + p + h, v, before, after);
  }

  /** Text that ends with a chunk ends with every suffix of the chunk. */
  lemma EndsWithChunk(r: string, o: nat, chunk: string, suffix: string)
    requires |chunk| <= o <= |r| && r[o - |chunk|..o] == chunk && EndsWith(chunk, suffix)
    ensures EndsWith(r[..o], suffix)
  {
    forall i | 0 <= i < |suffix|
      ensures r[..o][o - |suffix|..][i] == suffix[i]
    {
      assert r[..o][o - |suffix| + i] == r[o - |chunk|..o][|chunk| - |suffix| + i];
    }
  }

  /** Text that starts with a chunk starts with every prefix of the chunk. */
  lemma StartsWithChunk(r: string, o: nat, chunk: string, prefix: string)
    requires o + |chunk| <= |r| && r[o..o + |chunk|] == chunk && StartsWith(chunk, prefix)
    ensures StartsWith(r[o..], prefix)
  {
    forall i | 0 <= i < |prefix|
      ensures r[o..][..|prefix|][i] == prefix[i]
    {
      assert r[o..][i] == r[o..o + |chunk|][i];
    }
  }

  /** A hole of a template is placed between the end of the chunk before it and the start of the chunk after it. */
  lemma HolePlaced(chunks: seq<string>, holes: seq<string>, k: nat, before: string, after: string)
    requires |chunks| == |holes| + 1 && k < |holes|
    requires EndsWith(chunks[k], before) && StartsWith(chunks[k + 1], after)
    ensures Placed(Fill(chunks, holes), HoleOffset(chunks, holes, k), holes[k], before, after)
  {
    var o, r := HoleOffset(chunks, holes, k), Fill(chunks, holes);
    FillHole(chunks, holes, k);
    EndsWithChunk(r, o, chunks[k], before);
    StartsWithChunk(r, o + |holes[k]|, chunks[k + 1], after);
  }

  lemma EndsWithPrepend(head: string, a: string, b: string)
    requires EndsWith(a, b)
    ensures EndsWith(head + a, b)
  {
    assert (head + a)[|head + a| - |b|..] == a[|a| - |b|..];
  }

  lemma HoleOffsetFirst(chunks: seq<string>, holes: seq<string>)
    requires |chunks| == |holes| + 1 && 0 < |holes|
    ensures HoleOffset(chunks, holes, 0) == |chunks[0]|
  {
    assert Fill(chunks[..1], holes[..0]) == chunks[..1][0];
  }

  /** Filling one hole more appends that hole and the chunk after it: a template literal is built from the left. */
  lemma FillStep(chunks: seq<string>, holes: seq<string>, k: nat)
    requires |chunks| == |holes| + 1 && k < |holes|
    ensures Fill(chunks[..k + 2], holes[..k + 1]) == Fill(chunks[..k + 1], holes[..k]) + holes[k] + chunks[k + 1]
  {
    var c, h := chunks[..k + 2], holes[..k + 1];
    assert c[..k + 1] == chunks[..k + 1] && h[..k] == holes[..k];
  }

  /** Each hole starts where the one before it ends plus the chunk between them. */
  lemma HoleOffsetNext(chunks: seq<string>, holes: seq<string>, k: nat)
    requires |chunks| == |holes| + 1 && k + 1 < |holes|
    ensures HoleOffset(chunks, holes, k + 1) == HoleOffset(chunks, holes, k) + |holes[k]| + |chunks[k + 1]|
  {
    var c, h := chunks[..k + 2], holes[..k + 1];
    assert c[..k + 1] == chunks[..k + 1] && h[..k] == holes[..k];
    assert Fill(c, h) == Fill(chunks[..k + 1], holes[..k]) + holes[k] + chunks[k + 1];
  }

  /** Every concatenation starts with its first part and ends with its last. */
  lemma ConcatTags()
    ensures forall x: string, y: string :: EndsWith(x + y, y) && StartsWith(x + y, x)
    ensures forall x: string, y: string, z: string :: StartsWith(x + y + z, x)
  {
    forall x: string, y: string
      ensures EndsWith(x + y, y) && StartsWith(x + y, x)
    {
      assert (x + y)[|x|..] == y;
      assert (x + y)[..|x|] == x;
    }
    forall x: string, y: string, z: string
      ensures StartsWith(x + y + z, x)
    {
      assert (x + y + z)[..|x|] == x;
    }
  }
}
