/**
 Texts within Telegram's limits (backend/app/services/hevc_bot.py): lengths are counted in
 UTF-16 code units (section 2.1 of RFC 2781).
 */
module ReleaseList {
  import opened Json

  /** Code units of one character: two for a surrogate pair. */
  function Units(c: char): (n: nat)
    ensures 1 <= n <= 2
  {
    if c as int < 0x1_0000 then 1 else 2
  }

  /** `telegram_text_length` */
  function Length(s: string): nat {
    if s == "" then 0 else Length(s[..|s| - 1]) + Units(s[|s| - 1])
  }

  lemma {:induction false} LengthOfBoth(a: string, b: string)
    ensures Length(a + b) == Length(a) + Length(b)
  {
    if b == "" { assert a + b == a; }
    else {
      var n := |b| - 1;
      LengthOfBoth(a, b[..n]);
      assert (a + b)[..|a + b| - 1] == a + b[..n];
    }
  }

  // ---- truncation -----------------------------------------------------------------

  /** How many characters fit into `budget`: all of them, or the next one would not. */
  ghost predicate LongestFit(s: string, budget: int, n: nat) {
    && n <= |s| && (n > 0 ==> Length(s[..n]) <= budget)
    && (n < |s| ==> Length(s[..n + 1]) > budget)
  }

  lemma {:induction false} PrefixLength(s: string, i: nat, j: nat)
    requires i <= j <= |s|
    ensures Length(s[..i]) + (j - i) <= Length(s[..j])
    decreases j - i
  {
    if i < j {
      PrefixLength(s, i, j - 1);
      assert s[..j][..j - 1] == s[..j - 1];
    }
  }

  /** There is only one longest fit. */
  lemma LongestFitOnce(s: string, budget: int, i: nat, j: nat)
    requires LongestFit(s, budget, i) && LongestFit(s, budget, j)
    ensures i == j
  {
    if i < j { PrefixLength(s, i + 1, j); }
    if j < i { PrefixLength(s, j + 1, i); }
  }

  /** `truncate_telegram_text`: never over the limit, and never shorter than it must be. */
  method Truncate(value: string, maxLen: int, suffix: string) returns (r: string)
    ensures maxLen <= 0 ==> r == ""
    ensures 0 < maxLen && Length(value) <= maxLen ==> r == value
    ensures 0 < maxLen < Length(value) ==>
      var tail := if Length(suffix) <= maxLen then suffix else "";
      exists n: nat :: LongestFit(value, maxLen - Length(tail), n) && r == value[..n] + tail
    ensures Length(r) <= if maxLen < 0 then 0 else maxLen
  {
    if maxLen <= 0 { return ""; }
    if Length(value) <= maxLen { return value; }
    var tail := if Length(suffix) <= maxLen then suffix else "";
    var budget := maxLen - Length(tail);
    var n, used := 0, 0;
    while n < |value| && used + Units(value[n]) <= budget
      invariant n <= |value| && used == Length(value[..n]) && used <= budget
    {
      assert value[..n + 1][..n] == value[..n];
      used := used + Units(value[n]);
      n := n + 1;
    }
    if n < |value| { assert value[..n + 1][..n] == value[..n]; }
    LengthOfBoth(value[..n], tail);
    assert LongestFit(value, budget, n);
    r := value[..n] + tail;
  }

  // ---- the lines of one release ------------------------------------------------------

  function Join(lines: seq<string>): string {
    if lines == [] then ""
    else if |lines| == 1 then lines[0]
    else Join(lines[..|lines| - 1]) + "\n" + lines[|lines| - 1]
  }

  const ELLIPSIS := "…"

  lemma {:induction false} JoinedLength(lines: seq<string>, line: string)
    ensures Length(Join(lines + [line])) == Length(Join(lines)) + Length(line) + if lines == [] then 0 else 1
  {
    assert (lines + [line])[..|lines|] == lines;
    if lines != [] {
      LengthOfBoth(Join(lines), "\n");
      LengthOfBoth(Join(lines) + "\n", line);
      assert Length("\n") == 1 by { assert "\n"[..0] == ""; }
    }
  }

  /** The first `n` lines fit, and unless they are all, the next one does not. */
  ghost predicate LinesFit(lines: seq<string>, maxLen: int, n: nat) {
    && n <= |lines| && (n > 0 ==> Length(Join(lines[..n])) <= maxLen)
    && (n < |lines| ==> Length(Join(lines[..n + 1])) > maxLen)
  }

  function WithEllipsis(lines: seq<string>, maxLen: int, n: nat): seq<string>
    requires n <= |lines|
  {
    if n < |lines| && Length(Join(lines[..n] + [ELLIPSIS])) <= maxLen then lines[..n] + [ELLIPSIS] else lines[..n]
  }

  /** The length loop of `format_release_detail`: whole lines, then an ellipsis if it still fits. */
  method JoinFitting(lines: seq<string>, maxLen: int) returns (r: string)
    ensures exists n: nat :: LinesFit(lines, maxLen, n) && r == Join(WithEllipsis(lines, maxLen, n))
    ensures 0 <= maxLen ==> Length(r) <= maxLen
  {
    hide Join, Length, LinesFit;
    NoLines();
    var n, used := 0, 0;
    while n < |lines| && used + Length(lines[n]) + (if n > 0 then 1 else 0) <= maxLen
      invariant n <= |lines| && used == Length(Join(lines[..n])) && (n > 0 ==> used <= maxLen)
    {
      NextLine(lines, n);
      used := used + Length(lines[n]) + (if n > 0 then 1 else 0);
      n := n + 1;
    }
    var kept := lines[..n];
    JoinedLength(kept, ELLIPSIS);
    if n < |lines| {
      NextLine(lines, n);
      if used + Length(ELLIPSIS) + (if n > 0 then 1 else 0) <= maxLen { kept := kept + [ELLIPSIS]; }
    }
    FitsHere(lines, maxLen, n);
    r := Join(kept);
  }

  lemma NoLines()
    ensures Length(Join([])) == 0
  {}

  lemma NextLine(lines: seq<string>, n: nat)
    requires n < |lines|
    ensures Length(Join(lines[..n + 1])) == Length(Join(lines[..n])) + Length(lines[n]) + if n > 0 then 1 else 0
  {
    JoinedLength(lines[..n], lines[n]);
    assert lines[..n + 1] == lines[..n] + [lines[n]];
  }

  lemma FitsHere(lines: seq<string>, maxLen: int, n: nat)
    requires n <= |lines| && (n > 0 ==> Length(Join(lines[..n])) <= maxLen)
    requires n < |lines| ==> Length(Join(lines[..n + 1])) > maxLen
    ensures LinesFit(lines, maxLen, n)
  {}

  // ---- splitting a list of releases ------------------------------------------------------

  datatype Chunk<T> = Chunk(text: string, rows: seq<T>)

  /** A formatted row, with the empty line before it. */
  function Block<T>(format: T -> string, row: T): string {
    "\n\n" + format(row)
  }

  function TextOf<T>(heading: string, format: T -> string, rows: seq<T>): string {
    if rows == [] then heading else TextOf(heading, format, rows[..|rows| - 1]) + Block(format, rows[|rows| - 1])
  }

  function Flatten<T>(split: seq<seq<T>>): seq<T> {
    if split == [] then [] else Flatten(split[..|split| - 1]) + split[|split| - 1]
  }

  /** One row always goes somewhere; more than one must fit. */
  predicate Fits<T>(heading: string, format: T -> string, maxLen: int, rows: seq<T>) {
    |rows| <= 1 || Length(TextOf(heading, format, rows)) <= maxLen
  }

  /** A way to send the rows in order, in messages that are not empty and fit if they hold several rows. */
  ghost predicate Sendable<T(!new)>(heading: string, format: T -> string, maxLen: int, rows: seq<T>, split: seq<seq<T>>) {
    && Flatten(split) == rows
    && forall k :: 0 <= k < |split| ==> split[k] != [] && Fits(heading, format, maxLen, split[k])
  }

  /** The message could not have taken the first row of the next one. */
  ghost predicate Closed<T(!new)>(heading: string, format: T -> string, maxLen: int, rows: seq<T>, next: seq<T>) {
    next != [] && !Fits(heading, format, maxLen, rows + [next[0]])
  }

  ghost predicate Full<T(!new)>(heading: string, format: T -> string, maxLen: int, split: seq<seq<T>>) {
    forall j, k :: 0 <= j && k == j + 1 && k < |split| ==> Closed(heading, format, maxLen, split[j], split[k])
  }

  function RowsOf<T>(chunks: seq<Chunk<T>>): (r: seq<seq<T>>)
    ensures |r| == |chunks| && forall k :: 0 <= k < |r| ==> r[k] == chunks[k].rows
  {
    seq(|chunks|, k requires 0 <= k < |chunks| => chunks[k].rows)
  }

  /** `split_release_list`; `empty` is the text for an empty list. */
  method Split<T(!new)>(rows: seq<T>, heading: string, empty: string, format: T -> string, maxLen: int) returns (chunks: seq<Chunk<T>>)
    ensures rows == [] ==> chunks == [Chunk(heading + "\n\n" + empty, [])]
    ensures rows != [] ==> Sendable(heading, format, maxLen, rows, RowsOf(chunks)) && Full(heading, format, maxLen, RowsOf(chunks))
    ensures rows != [] ==> forall c :: c in chunks ==> c.text == TextOf(heading, format, c.rows)
  {
    hide Fits, TextOf, Length, Flatten, Full, Block;
    if rows == [] { return [Chunk(heading + "\n\n" + empty, [])]; }
    NothingYet(heading, format, maxLen);
    chunks := [];
    var current, currentRows := heading, [];
    var n := 0;
    while n < |rows|
      invariant n <= |rows| && (n > 0 ==> currentRows != []) && (n == 0 ==> chunks == [] && currentRows == [])
      invariant current == TextOf(heading, format, currentRows) && Fits(heading, format, maxLen, currentRows)
      invariant Flatten(RowsOf(chunks)) + currentRows == rows[..n]
      invariant forall c :: c in chunks ==> c.text == TextOf(heading, format, c.rows)
      invariant forall k :: 0 <= k < |chunks| ==> chunks[k].rows != [] && Fits(heading, format, maxLen, chunks[k].rows)
      invariant currentRows != [] ==> Full(heading, format, maxLen, RowsOf(chunks) + [currentRows])
    {
      var row := rows[n];
      var block := Block(format, row);
      TextOfNext(heading, format, currentRows, row);
      FitsNext(heading, format, maxLen, currentRows, row);
      if currentRows != [] && Length(current + block) > maxLen {
        FullNext(heading, format, maxLen, RowsOf(chunks), currentRows, row);
        FlattenNext(RowsOf(chunks), currentRows);
        assert RowsOf(chunks + [Chunk(current, currentRows)]) == RowsOf(chunks) + [currentRows];
        chunks := chunks + [Chunk(current, currentRows)];
        TextOfNext(heading, format, [], row);
        FitsNext(heading, format, maxLen, [], row);
        assert [] + [row] == [row];
        current, currentRows := heading + block, [row];
      } else {
        FullGrows(heading, format, maxLen, RowsOf(chunks), currentRows, row);
        current, currentRows := current + block, currentRows + [row];
      }
      assert rows[..n + 1] == rows[..n] + [row];
      n := n + 1;
    }
    FlattenNext(RowsOf(chunks), currentRows);
    assert RowsOf(chunks + [Chunk(current, currentRows)]) == RowsOf(chunks) + [currentRows];
    chunks := chunks + [Chunk(current, currentRows)];
    assert rows[..n] == rows;
  }

  lemma NothingYet<T>(heading: string, format: T -> string, maxLen: int)
    ensures TextOf(heading, format, []) == heading && Fits(heading, format, maxLen, []) && Flatten<T>([]) == []
  {}

  lemma TextOfNext<T>(heading: string, format: T -> string, rows: seq<T>, row: T)
    ensures TextOf(heading, format, rows + [row]) == TextOf(heading, format, rows) + Block(format, row)
  {
    assert (rows + [row])[..|rows|] == rows;
  }

  lemma FlattenNext<T>(split: seq<seq<T>>, last: seq<T>)
    ensures Flatten(split + [last]) == Flatten(split) + last
  {
    assert (split + [last])[..|split|] == split;
  }

  lemma FitsNext<T>(heading: string, format: T -> string, maxLen: int, rows: seq<T>, row: T)
    ensures Fits(heading, format, maxLen, rows + [row]) <==>
      rows == [] || Length(TextOf(heading, format, rows) + Block(format, row)) <= maxLen
  {
    TextOfNext(heading, format, rows, row);
  }

  /** The current message is closed because the next row does not fit. */
  lemma FullNext<T(!new)>(heading: string, format: T -> string, maxLen: int, split: seq<seq<T>>, current: seq<T>, row: T)
    requires Full(heading, format, maxLen, split + [current]) && !Fits(heading, format, maxLen, current + [row])
    ensures Full(heading, format, maxLen, split + [current] + [[row]])
  {
    hide Fits;
    var after := split + [current] + [[row]];
    forall j, k | 0 <= j && k == j + 1 && k < |after|
      ensures Closed(heading, format, maxLen, after[j], after[k])
    {
      if j < |split| { assert after[j] == (split + [current])[j] && after[k] == (split + [current])[k]; }
    }
  }

  lemma FullGrows<T(!new)>(heading: string, format: T -> string, maxLen: int, split: seq<seq<T>>, current: seq<T>, row: T)
    requires current == [] ==> split == []
    requires current != [] ==> Full(heading, format, maxLen, split + [current])
    ensures Full(heading, format, maxLen, split + [current + [row]])
  {
    hide Fits;
    var after := split + [current + [row]];
    forall j, k | 0 <= j && k == j + 1 && k < |after|
      ensures Closed(heading, format, maxLen, after[j], after[k])
    {
      assert Closed(heading, format, maxLen, (split + [current])[j], (split + [current])[k]);
      assert after[j] == (split + [current])[j] && after[k][0] == (split + [current])[k][0];
    }
  }

  // ---- no split is shorter -----------------------------------------------------------------

  /** Rows in the first `k` messages. */
  function Covered<T>(split: seq<seq<T>>, k: nat): nat
    requires k <= |split|
  {
    if k == 0 then 0 else Covered(split, k - 1) + |split[k - 1]|
  }

  lemma {:induction false} CoveredAll<T>(split: seq<seq<T>>, k: nat)
    requires k <= |split|
    ensures Covered(split, k) == |Flatten(split[..k])| && Covered(split, k) <= |Flatten(split)|
    ensures Flatten(split[..k]) == Flatten(split)[..Covered(split, k)]
    decreases |split| - k
  {
    if k == |split| {
      assert split[..k] == split;
      CoveredSize(split, k);
    } else {
      CoveredAll(split, k + 1);
      assert split[..k + 1] == split[..k] + [split[k]];
      FlattenNext(split[..k], split[k]);
      CoveredSize(split, k);
      assert Flatten(split)[..Covered(split, k + 1)][..Covered(split, k)] == Flatten(split)[..Covered(split, k)];
    }
  }

  lemma {:induction false} CoveredSize<T>(split: seq<seq<T>>, k: nat)
    requires k <= |split|
    ensures Covered(split, k) == |Flatten(split[..k])|
  {
    if k > 0 {
      CoveredSize(split, k - 1);
      assert split[..k] == split[..k - 1] + [split[k - 1]];
      FlattenNext(split[..k - 1], split[k - 1]);
    }
  }

  lemma MessageRows<T>(split: seq<seq<T>>, k: nat)
    requires k < |split|
    ensures Covered(split, k) + |split[k]| == Covered(split, k + 1) <= |Flatten(split)|
    ensures Flatten(split)[Covered(split, k)..Covered(split, k + 1)] == split[k]
  {
    CoveredAll(split, k);
    CoveredAll(split, k + 1);
    assert split[..k + 1] == split[..k] + [split[k]];
    FlattenNext(split[..k], split[k]);
  }

  lemma {:induction false} TextGrows<T>(heading: string, format: T -> string, a: seq<T>, b: seq<T>)
    ensures Length(TextOf(heading, format, a + b)) >= Length(TextOf(heading, format, a))
  {
    if b == [] { assert a + b == a; }
    else {
      var n := |b| - 1;
      TextGrows(heading, format, a, b[..n]);
      assert (a + b)[..|a + b| - 1] == a + b[..n];
      LengthOfBoth(TextOf(heading, format, a + b[..n]), Block(format, b[n]));
    }
  }

  lemma {:induction false} TextDrops<T>(heading: string, format: T -> string, a: seq<T>, b: seq<T>)
    ensures Length(TextOf(heading, format, a + b)) >= Length(TextOf(heading, format, b))
  {
    if b == [] {
      TextGrows(heading, format, [], a);
      assert a + b == a && [] + a == a;
    } else {
      var n := |b| - 1;
      TextDrops(heading, format, a, b[..n]);
      assert (a + b)[..|a + b| - 1] == a + b[..n];
      LengthOfBoth(TextOf(heading, format, a + b[..n]), Block(format, b[n]));
      LengthOfBoth(TextOf(heading, format, b[..n]), Block(format, b[n]));
    }
  }

  /** What fits, fits with fewer rows. */
  lemma PartFits<T>(heading: string, format: T -> string, maxLen: int, rows: seq<T>, i: nat, j: nat)
    requires i <= j <= |rows| && Fits(heading, format, maxLen, rows)
    ensures Fits(heading, format, maxLen, rows[i..j])
  {
    TextGrows(heading, format, rows[..j], rows[j..]);
    TextDrops(heading, format, rows[..i], rows[i..j]);
    assert rows[..j] + rows[j..] == rows && rows[..i] + rows[i..j] == rows[..j];
  }

  /** After `k` messages the greedy split is never behind another one. */
  lemma {:induction false} GreedyIsAhead<T(!new)>(heading: string, format: T -> string, maxLen: int, rows: seq<T>,
                                                 greedy: seq<seq<T>>, other: seq<seq<T>>, k: nat)
    requires Sendable(heading, format, maxLen, rows, greedy) && Full(heading, format, maxLen, greedy)
    requires Sendable(heading, format, maxLen, rows, other)
    requires k <= |greedy| && k <= |other|
    ensures Covered(other, k) <= Covered(greedy, k)
  {
    hide Sendable, Full, Fits;
    SendableFacts(heading, format, maxLen, rows, greedy);
    SendableFacts(heading, format, maxLen, rows, other);
    if k > 0 {
      GreedyIsAhead(heading, format, maxLen, rows, greedy, other, k - 1);
      MessageRows(greedy, k - 1);
      MessageRows(other, k - 1);
      var g, h, o, p := Covered(greedy, k - 1), Covered(greedy, k), Covered(other, k - 1), Covered(other, k);
      if h < p {
        LastReachesEnd(greedy, k);
        LastReachesEnd(other, k);
        MessageRows(greedy, k);
        OneMoreRow(rows, g, h, greedy[k - 1], greedy[k]);
        SliceOfSlice(rows, o, p, g, h + 1);
        PartFits(heading, format, maxLen, other[k - 1], g - o, h + 1 - o);
        NotFull(heading, format, maxLen, greedy, k - 1);
      }
    }
  }

  lemma OneMoreRow<T>(rows: seq<T>, g: nat, h: nat, a: seq<T>, b: seq<T>)
    requires g <= h && b != [] && h + |b| <= |rows| && rows[g..h] == a && rows[h..h + |b|] == b
    ensures rows[g..h + 1] == a + [b[0]]
  {
    assert rows[h..h + |b|][0] == rows[h];
    assert rows[g..h + 1] == rows[g..h] + [rows[h]];
  }

  lemma SliceOfSlice<T>(s: seq<T>, o: nat, p: nat, g: nat, h: nat)
    requires o <= g <= h <= p <= |s|
    ensures s[o..p][g - o..h - o] == s[g..h]
  {
    var t := s[o..p];
    forall i | 0 <= i < h - g ensures t[g - o..h - o][i] == s[g..h][i] {
      assert t[g - o..h - o][i] == t[g - o + i] == s[g + i];
    }
  }

  lemma SendableFacts<T(!new)>(heading: string, format: T -> string, maxLen: int, rows: seq<T>, split: seq<seq<T>>)
    requires Sendable(heading, format, maxLen, rows, split)
    ensures Flatten(split) == rows && forall k :: 0 <= k < |split| ==> split[k] != [] && Fits(heading, format, maxLen, split[k])
  {}

  lemma NotFull<T(!new)>(heading: string, format: T -> string, maxLen: int, split: seq<seq<T>>, k: nat)
    requires Full(heading, format, maxLen, split) && k < |split| - 1
    ensures split[k + 1] != []
    ensures !Fits(heading, format, maxLen, split[k] + [split[k + 1][0]])
  {}

  lemma LastReachesEnd<T>(split: seq<seq<T>>, k: nat)
    requires k <= |split|
    ensures Covered(split, k) <= |Flatten(split)|
    ensures k == |split| ==> Covered(split, k) == |Flatten(split)|
    ensures k < |split| && split[k] != [] ==> Covered(split, k) < |Flatten(split)|
  {
    CoveredAll(split, k);
    assert split[..|split|] == split;
    if k < |split| { MessageRows(split, k); }
  }

  /** The greedy split uses the fewest messages of all ways to send the rows in order. */
  lemma FewestMessages<T(!new)>(heading: string, format: T -> string, maxLen: int, rows: seq<T>, greedy: seq<seq<T>>, other: seq<seq<T>>)
    requires Sendable(heading, format, maxLen, rows, greedy) && Full(heading, format, maxLen, greedy)
    requires Sendable(heading, format, maxLen, rows, other)
    ensures |greedy| <= |other|
  {
    SendableFacts(heading, format, maxLen, rows, greedy);
    SendableFacts(heading, format, maxLen, rows, other);
    hide Sendable, Full, Fits;
    LastReachesEnd(other, |other|);
    if |other| < |greedy| {
      LastReachesEnd(greedy, |other|);
      GreedyIsAhead(heading, format, maxLen, rows, greedy, other, |other|);
    }
  }

  // ---- what a message looks like -----------------------------------------------------------

  /** An empty line and the formatted row, for every row. */
  function RowLines<T>(format: T -> string, rows: seq<T>): seq<string> {
    if rows == [] then [] else RowLines(format, rows[..|rows| - 1]) + ["", format(rows[|rows| - 1])]
  }

  lemma JoinNext(lines: seq<string>, line: string)
    requires lines != []
    ensures Join(lines + [line]) == Join(lines) + "\n" + line
  {
    assert (lines + [line])[..|lines|] == lines;
  }

  /** A message is the heading and then, row by row, an empty line and the row. */
  lemma {:induction false} TextIsLines<T>(heading: string, format: T -> string, rows: seq<T>)
    ensures TextOf(heading, format, rows) == Join([heading] + RowLines(format, rows))
  {
    if rows == [] { assert [heading] + RowLines(format, rows) == [heading]; }
    else {
      var n := |rows| - 1;
      TextIsLines(heading, format, rows[..n]);
      var before, last := [heading] + RowLines(format, rows[..n]), format(rows[n]);
      assert [heading] + RowLines(format, rows) == before + [""] + [last];
      JoinNext(before, "");
      JoinNext(before + [""], last);
      var text := Join(before);
      assert text + "\n" + "" + "\n" + last == text + ("\n\n" + last);
    }
  }
}
