/** The monitor's tail of the event log: it reads the last half megabyte instead of the whole file. */
module Monitor {
  import opened Wrappers
  import B = Base64

  type Byte = B.Byte

  const WINDOW := 524288
  const ROWS := 500
  const LF: Byte := 10
  const CR: Byte := 13

  predicate IsBreak(b: Byte) { b == LF || b == CR }

  /** Where the first line ends. */
  function LineEnd(b: seq<Byte>): (n: nat)
    ensures n <= |b|
    ensures forall i | 0 <= i < n :: !IsBreak(b[i])
    ensures n < |b| ==> IsBreak(b[n])
  {
    if b == [] || IsBreak(b[0]) then 0 else LineEnd(b[1..]) + 1
  }

  /** Where the next line starts: behind LF, CR or CR LF. */
  function NextLine(b: seq<Byte>): (n: nat)
    requires b != []
    ensures 0 < n <= |b|
  {
    var n := LineEnd(b);
    if n == |b| then n
    else if b[n] == CR && n + 1 < |b| && b[n + 1] == LF then n + 2
    else n + 1
  }

  /** `bytes.splitlines`. */
  function SplitLines(b: seq<Byte>): seq<seq<Byte>> {
    if b == [] then [] else [b[..LineEnd(b)]] + SplitLines(b[NextLine(b)..])
  }

  function Last<T>(n: nat, s: seq<T>): seq<T> { if |s| > n then s[|s| - n..] else s }

  ghost predicate IsSuffix<T>(t: seq<T>, s: seq<T>) { |t| <= |s| && s[|s| - |t|..] == t }

  function WindowOf(file: seq<Byte>): seq<Byte> { Last(WINDOW, file) }

  function Kept(file: seq<Byte>): seq<seq<Byte>> {
    var lines := SplitLines(WindowOf(file));
    Last(ROWS, if |file| > WINDOW && lines != [] then lines[1..] else lines)
  }

  lemma EndIsUnique(b: seq<Byte>, n: nat)
    requires n <= |b|
    requires forall i | 0 <= i < n :: !IsBreak(b[i])
    requires n < |b| ==> IsBreak(b[n])
    ensures LineEnd(b) == n
  {
  }

  /** When the first line of a text reaches into its window, both go on with the same line. */
  lemma SameNextLine(before: seq<Byte>, window: seq<Byte>)
    requires window != [] && NextLine(before + window) > |before|
    ensures NextLine(before + window) == |before| + NextLine(window)
  {
    var text := before + window;
    var n := LineEnd(text);
    if n >= |before| {
      forall i | 0 <= i < n - |before| ensures !IsBreak(window[i]) { assert window[i] == text[|before| + i]; }
      EndIsUnique(window, n - |before|);
    } else {
      assert text[n + 1] == window[0];
      EndIsUnique(window, 0);
    }
  }

  lemma SuffixOfTail<T>(t: seq<T>, head: seq<T>, tail: seq<T>)
    requires IsSuffix(t, tail)
    ensures IsSuffix(t, head + tail)
  {
  }

  /** The lines behind the first line of a window are lines of the whole text, and not all of them. */
  lemma {:induction false} WindowLinesAreLines(before: seq<Byte>, window: seq<Byte>)
    requires window != []
    ensures SplitLines(window) != []
    ensures IsSuffix(SplitLines(window)[1..], SplitLines(before + window))
    ensures |SplitLines(window)| <= |SplitLines(before + window)|
    decreases |before|
  {
    hide LineEnd, NextLine;
    var text := before + window;
    var n := NextLine(text);
    if n > |before| {
      SameNextLine(before, window);
      assert text[n..] == window[n - |before|..];
    } else {
      assert text[n..] == before[n..] + window;
      WindowLinesAreLines(before[n..], window);
      SuffixOfTail(SplitLines(window)[1..], [text[..LineEnd(text)]], SplitLines(text[n..]));
    }
  }

  lemma LastOfSuffix<T>(n: nat, t: seq<T>, s: seq<T>)
    requires IsSuffix(t, s)
    ensures IsSuffix(Last(n, t), s)
    ensures Last(n, t) == Last(n, s) <==> |t| >= n || |t| == |s|
  {
    if Last(n, t) == Last(n, s) {
      assert |Last(n, t)| == |Last(n, s)|;
    }
  }

  /** Whatever the file holds, the lines kept are the last lines of the file, and they are exactly
      its last 500 when it fits the window or the window holds more than 500 lines. */
  lemma TailIsSuffix(file: seq<Byte>)
    ensures IsSuffix(Kept(file), SplitLines(file))
    ensures Kept(file) == Last(ROWS, SplitLines(file))
       <==> |file| <= WINDOW || |SplitLines(WindowOf(file))| > ROWS
  {
    hide SplitLines;
    if |file| > WINDOW {
      var before, window := file[..|file| - WINDOW], WindowOf(file);
      assert file == before + window;
      WindowLinesAreLines(before, window);
      LastOfSuffix(ROWS, SplitLines(window)[1..], SplitLines(file));
    } else {
      LastOfSuffix(ROWS, SplitLines(file), SplitLines(file));
    }
  }

  // ---- the rows ----

  datatype Value = Text(string) | Number(real) | Flag(bool) | Null | Compound

  /** What a line parses to. */
  datatype Parsed = Invalid | NotObject | Object(fields: map<string, Value>)

  const FIELDS := {"at", "account_id", "event", "source", "phase", "http", "length", "actual_model", "completed",
                   "transport_error", "error", "error_code", "stop", "captured", "renewed", "test_success",
                   "next_attempt", "auth_block"}

  function Public(fields: map<string, Value>): map<string, Value> {
    map k | k in fields && k in FIELDS && !fields[k].Compound? :: fields[k]
  }

  function RowsOf(lines: seq<seq<Byte>>, parse: seq<Byte> -> Parsed): seq<map<string, Value>> {
    if lines == [] then []
    else
      var rest, last := lines[..|lines| - 1], parse(lines[|lines| - 1]);
      RowsOf(rest, parse) + if last.Object? then [Public(last.fields)] else []
  }

  /** `None` when a kept line is JSON but not an object: reading its items raises. */
  method TailEvents(file: Option<seq<Byte>>, parse: seq<Byte> -> Parsed)
    returns (rows: Option<seq<map<string, Value>>>)
    ensures file.None? ==> rows == Some([])
    ensures file.Some? ==>
      if exists line | line in Kept(file.value) :: parse(line).NotObject? then rows.None?
      else rows == Some(RowsOf(Kept(file.value), parse))
  {
    hide SplitLines;
    if file.None? {
      return Some([]);
    }
    var size := |file.value|;
    var lines := SplitLines(file.value[(if size > WINDOW then size - WINDOW else 0)..]);
    if size > WINDOW && lines != [] {
      lines := lines[1..];
    }
    lines := Last(ROWS, lines);
    assert lines == Kept(file.value);
    var out := [];
    for i := 0 to |lines|
      invariant out == RowsOf(lines[..i], parse)
      invariant forall line | line in lines[..i] :: !parse(line).NotObject?
    {
      assert lines[..i + 1][..i] == lines[..i];
      match parse(lines[i])
      case Invalid =>
      case NotObject =>
        return None;
      case Object(fields) =>
        out := out + [Public(fields)];
    }
    assert lines[..|lines|] == lines;
    return Some(out);
  }

  /** Nothing but the published fields leaves the monitor, and no compound value. */
  lemma {:induction false} RowsArePublic(lines: seq<seq<Byte>>, parse: seq<Byte> -> Parsed)
    ensures |RowsOf(lines, parse)| <= |lines|
    ensures forall row: map<string, Value>, k | row in RowsOf(lines, parse) && k in row ::
      k in FIELDS && !row[k].Compound?
  {
    hide FIELDS;
    if lines != [] {
      RowsArePublic(lines[..|lines| - 1], parse);
    }
  }
}
