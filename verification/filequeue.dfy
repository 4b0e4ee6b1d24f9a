/** The client library's file transport: records wait in a queue, leave it
    in batches, and are appended to the current file as CSV or text lines;
    a file that would grow past its size limit is replaced by a rotated one.
    The file system is a map from paths to contents. */
module FileQueue {
  import opened Wrappers
  import opened Strs

  datatype Format = JsonFile | CsvFile | TxtFile | OtherFormat(name: string)

  datatype Options = Options(
    enabled: bool,
    format: Format,
    filePath: string,
    flushIntervalMs: int,
    recordsPerInterval: int,
    maxFileSizeBytes: int)

  /** A queued record. `payloadText` is the template's output as compact
      JSON text, `metadataText` the record's metadata as JSON text or `""`
      when the record has none, `tags` is present only when the record's
      tags are an array. */
  datatype Item = Item(
    level: string,
    payloadText: string,
    message: string,
    tags: Option<seq<string>>,
    metadataText: string,
    timestamp: string)

  datatype FileQueue = FileQueue(
    options: Options,
    items: seq<Item>,
    timer: bool,
    currentFilePath: string,
    csvHeaderWritten: bool)

  /** Paths to file contents; a size is a length in characters. */
  type Fs = map<string, string>

  function NewFileQueue(o: Options): (q: FileQueue)
    ensures q.items == [] && !q.timer && q.currentFilePath == o.filePath && !q.csvHeaderWritten
  {
    FileQueue(o, [], false, o.filePath, false)
  }

  datatype Status = Status(pending: nat, filePath: string)

  /** `getStatus`. */
  function GetStatus(q: FileQueue): (s: Status)
    ensures s.pending == |q.items| && s.filePath == q.currentFilePath
  {
    Status(|q.items|, q.currentFilePath)
  }

  /** `clear`. */
  function Clear(q: FileQueue): (r: FileQueue)
    ensures r.items == [] && !r.timer
    ensures r.options == q.options && r.currentFilePath == q.currentFilePath
    ensures r.csvHeaderWritten == q.csvHeaderWritten
  {
    q.(items := [], timer := false)
  }

  /** A partial set of options; an absent field keeps the current value. */
  datatype OptionsUpdate = OptionsUpdate(
    enabled: Option<bool>,
    format: Option<Format>,
    filePath: Option<string>,
    flushIntervalMs: Option<int>,
    recordsPerInterval: Option<int>,
    maxFileSizeBytes: Option<int>)

  function MergeOptions(o: Options, u: OptionsUpdate): (r: Options)
    ensures r.enabled == u.enabled.GetOr(o.enabled) && r.format == u.format.GetOr(o.format)
    ensures r.filePath == u.filePath.GetOr(o.filePath)
    ensures r.flushIntervalMs == u.flushIntervalMs.GetOr(o.flushIntervalMs)
    ensures r.recordsPerInterval == u.recordsPerInterval.GetOr(o.recordsPerInterval)
    ensures r.maxFileSizeBytes == u.maxFileSizeBytes.GetOr(o.maxFileSizeBytes)
  {
    Options(u.enabled.GetOr(o.enabled), u.format.GetOr(o.format), u.filePath.GetOr(o.filePath),
            u.flushIntervalMs.GetOr(o.flushIntervalMs), u.recordsPerInterval.GetOr(o.recordsPerInterval),
            u.maxFileSizeBytes.GetOr(o.maxFileSizeBytes))
  }

  /** `updateOptions`: merged options; a non-empty new path becomes the
      current file and forgets the header; the timer runs again only while
      records wait. */
  function UpdateOptions(q: FileQueue, u: OptionsUpdate): (r: FileQueue)
    ensures r.options == MergeOptions(q.options, u) && r.items == q.items
    ensures r.timer == (|q.items| > 0)
    ensures u.filePath.Some? && u.filePath.value != "" ==>
      r.currentFilePath == u.filePath.value && !r.csvHeaderWritten
    ensures !(u.filePath.Some? && u.filePath.value != "") ==>
      r.currentFilePath == q.currentFilePath && r.csvHeaderWritten == q.csvHeaderWritten
  {
    var moved := u.filePath.Some? && u.filePath.value != "";
    q.(options := MergeOptions(q.options, u),
       currentFilePath := if moved then u.filePath.value else q.currentFilePath,
       csvHeaderWritten := if moved then false else q.csvHeaderWritten,
       timer := |q.items| > 0)
  }

  /** The synchronous part of `flush`: `splice(0, n)` takes at most `n`
      records from the front, none when `n` is not positive. */
  function TakeBatch(q: FileQueue): (r: (seq<Item>, FileQueue))
    ensures r.0 + r.1.items == q.items
    ensures |r.0| == if q.options.recordsPerInterval <= 0 then 0
                     else if q.options.recordsPerInterval < |q.items| then q.options.recordsPerInterval
                     else |q.items|
    ensures r.1 == q.(items := r.1.items)
  {
    var n := q.options.recordsPerInterval;
    var k := if n <= 0 then 0 else if n < |q.items| then n else |q.items|;
    assert q.items == q.items[..k] + q.items[k..];
    (q.items[..k], q.(items := q.items[k..]))
  }

  // ---------------------------------------------------------------- lines

  /** A CSV row: the payload text with every `"` doubled, in quotes, on a
      line of its own. */
  function CsvRow(payloadText: string): string {
    "\"" + ReplaceChars(payloadText, {'"'}, "\"\"") + "\"\n"
  }

  function CsvRows(batch: seq<Item>): string
    decreases |batch|
  {
    if |batch| == 0 then "" else CsvRow(batch[0].payloadText) + CsvRows(batch[1..])
  }

  /** Reading a quoted CSV field back: `""` stands for `"`, and a lone `"`
      cannot occur inside the field. */
  function Undouble(s: string): (r: Option<string>)
    decreases |s|
  {
    if |s| == 0 then Some("")
    else if s[0] == '"' then
      if |s| >= 2 && s[1] == '"' then
        match Undouble(s[2..])
        case None => None
        case Some(t) => Some("\"" + t)
      else None
    else
      match Undouble(s[1..])
      case None => None
      case Some(t) => Some([s[0]] + t)
  }

  /** The field of a CSV row, if `row` is one. */
  function ParseCsvRow(row: string): (r: Option<string>) {
    if |row| >= 3 && row[0] == '"' && row[|row| - 2..] == "\"\n" then Undouble(row[1..|row| - 2])
    else None
  }

  lemma {:induction false} UndoubleDoubled(s: string)
    ensures Undouble(ReplaceChars(s, {'"'}, "\"\"")) == Some(s)
    decreases |s|
  {
    if |s| > 0 {
      UndoubleDoubled(s[1..]);
      var rest := ReplaceChars(s[1..], {'"'}, "\"\"");
      if s[0] == '"' {
        var d := "\"\"" + rest;
        assert ReplaceChars(s, {'"'}, "\"\"") == d;
        assert d[2..] == rest;
        assert s == "\"" + s[1..];
      } else {
        var d := [s[0]] + rest;
        assert ReplaceChars(s, {'"'}, "\"\"") == d;
        assert d[1..] == rest;
        assert s == [s[0]] + s[1..];
      }
    }
  }

  /** A CSV row reads back as the payload text it was made from. */
  lemma CsvRowRoundTrip(payloadText: string)
    ensures ParseCsvRow(CsvRow(payloadText)) == Some(payloadText)
  {
    var d := ReplaceChars(payloadText, {'"'}, "\"\"");
    var row := CsvRow(payloadText);
    assert row[1..|row| - 2] == d;
    UndoubleDoubled(payloadText);
  }

  function TagsText(it: Item): string {
    if it.tags.Some? then Join(it.tags.value, ", ") else ""
  }

  /** A text line: `[ts] LEVEL: message`, the tags only when their join is
      not empty, the metadata only when there is some, then a newline. */
  function TxtLine(it: Item): string {
    "[" + it.timestamp + "] " + it.level + ": " + it.message
    + (if TagsText(it) != "" then " | tags: " + TagsText(it) else "")
    + (if it.metadataText != "" then " | metadata: " + it.metadataText else "")
    + "\n"
  }

  function TxtLines(batch: seq<Item>): string
    decreases |batch|
  {
    if |batch| == 0 then "" else TxtLine(batch[0]) + TxtLines(batch[1..])
  }

  function CountChar(s: string, c: char): (n: nat)
    decreases |s|
  {
    if |s| == 0 then 0 else (if s[0] == c then 1 else 0) + CountChar(s[1..], c)
  }

  lemma {:induction false} CountCharAppend(a: string, b: string, c: char)
    ensures CountChar(a + b, c) == CountChar(a, c) + CountChar(b, c)
    decreases |a|
  {
    if |a| > 0 {
      CountCharAppend(a[1..], b, c);
      assert (a + b)[1..] == a[1..] + b;
    } else {
      assert a + b == b;
    }
  }

  lemma {:induction false} CountCharAbsent(s: string, c: char)
    requires c !in s
    ensures CountChar(s, c) == 0
    decreases |s|
  {
    if |s| > 0 {
      CountCharAbsent(s[1..], c);
    }
  }

  /** The fields of a record that end up on its text line hold no newline. */
  predicate LineSafe(it: Item) {
    '\n' !in it.timestamp && '\n' !in it.level && '\n' !in it.message && '\n' !in it.metadataText
    && (it.tags.Some? ==> forall k :: 0 <= k < |it.tags.value| ==> '\n' !in it.tags.value[k])
  }

  /** The text format writes exactly one line per record when the
      record's fields are single-line. */
  lemma {:induction false} TxtOneLinePerRecord(batch: seq<Item>)
    requires forall i :: 0 <= i < |batch| ==> LineSafe(batch[i])
    ensures CountChar(TxtLines(batch), '\n') == |batch|
    decreases |batch|
  {
    if |batch| > 0 {
      TxtOneLinePerRecord(batch[1..]);
      TxtLineOneNewline(batch[0]);
      CountCharAppend(TxtLine(batch[0]), TxtLines(batch[1..]), '\n');
    }
  }

  /** One single-line record gives exactly one newline. */
  lemma TxtLineOneNewline(it: Item)
    requires LineSafe(it)
    ensures CountChar(TxtLine(it), '\n') == 1
  {
    if it.tags.Some? {
      JoinFree(it.tags.value, ", ", '\n');
    }
    var tagsPart := if TagsText(it) != "" then " | tags: " + TagsText(it) else "";
    var metaPart := if it.metadataText != "" then " | metadata: " + it.metadataText else "";
    var body := "[" + it.timestamp + "] " + it.level + ": " + it.message + tagsPart + metaPart;
    assert TxtLine(it) == body + "\n";
    assert '\n' !in body;
    CountCharAbsent(body, '\n');
    CountCharAppend(body, "\n", '\n');
  }

  // ------------------------------------------------------------- rotation

  function LastIndex(s: string, c: char): (r: Option<nat>)
    ensures r.Some? ==> r.value < |s| && s[r.value] == c && c !in s[r.value + 1..]
    ensures r.None? <==> c !in s
    decreases |s|
  {
    if |s| == 0 then None
    else if s[|s| - 1] == c then Some(|s| - 1)
    else
      var r := LastIndex(s[..|s| - 1], c);
      assert s == s[..|s| - 1] + [s[|s| - 1]];
      if r.Some? then
        assert s[r.value + 1..] == s[..|s| - 1][r.value + 1..] + [s[|s| - 1]];
        r
      else r
  }

  lemma {:induction false} LastIndexAppend(a: string, b: string, c: char)
    ensures c in b ==> LastIndex(a + b, c) == Some(|a| + LastIndex(b, c).value)
    ensures c !in b ==> LastIndex(a + b, c) == LastIndex(a, c)
    decreases |b|
  {
    if |b| > 0 {
      var init, last := b[..|b| - 1], b[|b| - 1];
      assert b == init + [last];
      assert (a + b)[..|a + b| - 1] == a + init;
      LastIndexAppend(a, init, c);
      if last != c {
        assert c in b <==> c in init;
      }
    } else {
      assert a + b == a;
    }
  }

  /** The start of the last path component. */
  function BaseStart(p: string): (k: nat)
    ensures k <= |p| && '/' !in p[k..]
  {
    match LastIndex(p, '/')
    case None => 0
    case Some(i) => i + 1
  }

  /** `path.extname` for a path not ending in `/`: from the last `.` of
      the last component, unless that dot opens the component or the
      component is `..`. */
  function Extname(p: string): (e: string)
    ensures |e| <= |p| && p[|p| - |e|..] == e
    ensures e != "" ==> e[0] == '.' && '.' !in e[1..] && '/' !in e
  {
    var k := BaseStart(p);
    var e := ComponentExt(p[k..]);
    assert p[|p| - |e|..] == e by {
      assert p[k..][|p| - k - |e|..] == p[|p| - |e|..];
    }
    e
  }

  /** The extension of one path component `b`. */
  function ComponentExt(b: string): (e: string)
    requires '/' !in b
    ensures |e| <= |b| && b[|b| - |e|..] == e
    ensures e != "" ==> |e| < |b| && e[0] == '.' && '.' !in e[1..] && '/' !in e
  {
    match LastIndex(b, '.')
    case None => ""
    case Some(i) =>
      if i == 0 || b == ".." then ""
      else
        assert b[i..][1..] == b[i + 1..];
        b[i..]
  }

  /** `rotateFile`: the configured path with `-` and the timestamp (its
      `:` and `.` turned into `-`) put before the extension. */
  function RotatedPath(filePath: string, iso: string): string {
    var e := Extname(filePath);
    filePath[..|filePath| - |e|] + "-" + ReplaceChars(iso, {':', '.'}, "-") + e
  }

  /** The timestamp part of a rotated name holds no `.`, and no `/` when
      the clock reading has none. */
  lemma StampFree(iso: string)
    requires '/' !in iso
    ensures var t := ReplaceChars(iso, {':', '.'}, "-"); '.' !in t && '/' !in t && |t| == |iso|
  {
    var t := ReplaceChars(iso, {':', '.'}, "-");
    forall k | 0 <= k < |t| ensures t[k] != '.' && t[k] != '/' {
      assert iso[k] in iso;
    }
  }

  lemma BaseStartSkips(a: string, m: string, e: string)
    requires '/' !in m && '/' !in e
    ensures BaseStart(a + m + e) == BaseStart(a) && BaseStart(a + e) == BaseStart(a)
  {
    LastIndexAppend(a + m, e, '/');
    LastIndexAppend(a, m, '/');
    LastIndexAppend(a, e, '/');
  }

  /** The last dot of a component ending in an extension is the
      extension's dot. */
  lemma LastDotIsExtension(pre: string, e: string)
    requires |e| > 0 && e[0] == '.' && '.' !in e[1..]
    ensures LastIndex(pre + e, '.') == Some(|pre|)
  {
    assert LastIndex(e, '.') == Some(0) by {
      assert e[0] in e;
    }
    LastIndexAppend(pre, e, '.');
  }

  /** A non-empty extension starts after the first character of the last
      component. */
  lemma ExtnameStarts(p: string)
    requires Extname(p) != ""
    ensures var b := p[BaseStart(p)..]; |b| > |Extname(p)| && b[|b| - |Extname(p)|..] == Extname(p)
  {
  }

  lemma ExtnameFrom(p: string, pre: string, e: string)
    requires p[BaseStart(p)..] == pre + e && |pre| > 0 && |e| > 0 && e[0] == '.' && '.' !in e[1..]
    requires pre + e != ".."
    ensures Extname(p) == e
  {
    LastDotIsExtension(pre, e);
    assert (pre + e)[|pre|..] == e;
  }

  /** An extension placed after a longer last component stays the
      extension when more dot-free text is put in front of it. */
  lemma ExtnameInsert(base: string, mid: string, e: string)
    requires |e| > 0 && e[0] == '.' && '.' !in e[1..] && '/' !in e
    requires |mid| > 0 && '/' !in mid && '.' !in mid
    requires |(base + e)[BaseStart(base + e)..]| > |e|
    ensures Extname(base + mid + e) == e
  {
    BaseStartSkips(base, mid, e);
    var s := BaseStart(base);
    assert (base + e)[s..] == base[s..] + e;
    var pre := base[s..];
    assert (base + mid + e)[s..] == (pre + mid) + e;
    assert |(pre + mid) + e| >= 3;
    ExtnameFrom(base + mid + e, pre + mid, e);
  }

  lemma RotationSplit(filePath: string, iso: string, e: string, base: string, mid: string)
    requires '/' !in iso && e == Extname(filePath) && e != ""
    requires base == filePath[..|filePath| - |e|] && mid == "-" + ReplaceChars(iso, {':', '.'}, "-")
    ensures Extname(base + mid + e) == e && |base + mid + e| > |filePath|
  {
    assert filePath == base + e;
    assert |base + e| < |base + mid + e| by {
      StampPartFree(iso);
    }
    assert Extname(base + mid + e) == e by {
      StampPartFree(iso);
      ExtnameStarts(filePath);
      ExtnameInsert(base, mid, e);
    }
  }

  /** The part a rotation inserts is non-empty and holds no `.` or `/`. */
  lemma StampPartFree(iso: string)
    requires '/' !in iso
    ensures var mid := "-" + ReplaceChars(iso, {':', '.'}, "-"); |mid| > 0 && '/' !in mid && '.' !in mid
  {
    var t := ReplaceChars(iso, {':', '.'}, "-");
    StampFree(iso);
    assert forall x :: x in "-" + t <==> x == '-' || x in t;
  }

  /** A rotated file is a different file with the same extension. */
  lemma RotationKeepsExtension(filePath: string, iso: string)
    requires '/' !in iso && Extname(filePath) != ""
    ensures RotatedPath(filePath, iso) != filePath
    ensures Extname(RotatedPath(filePath, iso)) == Extname(filePath)
  {
    var e := Extname(filePath);
    var base := filePath[..|filePath| - |e|];
    var mid := "-" + ReplaceChars(iso, {':', '.'}, "-");
    RotatedPathParts(filePath, iso, e, base, mid);
    RotationSplit(filePath, iso, e, base, mid);
  }

  lemma RotatedPathParts(filePath: string, iso: string, e: string, base: string, mid: string)
    requires e == Extname(filePath) && base == filePath[..|filePath| - |e|]
    requires mid == "-" + ReplaceChars(iso, {':', '.'}, "-")
    ensures RotatedPath(filePath, iso) == base + mid + e
  {
  }

  // ---------------------------------------------------------------- files

  const Header: string := "payload\n"

  function Content(fs: Fs, path: string): string {
    if path in fs then fs[path] else ""
  }

  predicate Blank(fs: Fs, path: string) {
    Content(fs, path) == ""
  }

  /** `fs.appendFile`: creates the file when it is missing. */
  function AppendFile(fs: Fs, path: string, s: string): (r: Fs)
    ensures r.Keys == fs.Keys + {path}
    ensures r[path] == Content(fs, path) + s
    ensures forall p :: p in fs && p != path ==> r[p] == fs[p]
  {
    fs[path := Content(fs, path) + s]
  }

  /** Where an append landed, whether the header flag is up afterwards,
      the file system, and whether the chunk was refused for its size. */
  datatype Appended = Appended(path: string, headerWritten: bool, fs: Fs, tooLarge: bool)

  /** `appendWithRotation` as written. A missing file lowers the header
      flag; a file that would outgrow the limit is rotated; a CSV chunk
      without its own header gets one when the flag is down (rotating
      again if header and chunk together are too large); a chunk larger
      than the limit is refused after that. */
  function AppendAsWritten(path: string, headerWritten: bool, fs: Fs, o: Options,
                           content: string, iso1: string, iso2: string): (r: Appended)
    ensures r.tooLarge <==> |content| > o.maxFileSizeBytes
    ensures path in fs && |fs[path]| + |content| > o.maxFileSizeBytes && o.format != CsvFile ==>
      r.path == RotatedPath(o.filePath, iso1)
    ensures path in fs && |fs[path]| + |content| <= o.maxFileSizeBytes && (headerWritten || o.format != CsvFile) ==>
      r.path == path
    ensures !r.tooLarge ==> r.path in r.fs && EndsWith(r.fs[r.path], content)
    ensures r.tooLarge ==> forall p :: p in fs && p != r.path ==> p in r.fs && r.fs[p] == fs[p]
    ensures forall p :: p in fs && p != r.path ==> p in r.fs && r.fs[p] == fs[p]
  {
    var max := o.maxFileSizeBytes;
    var grows := path in fs && |fs[path]| + |content| > max;
    var p1 := if grows then RotatedPath(o.filePath, iso1) else path;
    var h1 := path in fs && !grows && headerWritten;
    var needHeader := !h1 && o.format == CsvFile && !StartsWith(content, "payload");
    var p2 := if needHeader && |Header| + |content| > max then RotatedPath(o.filePath, iso2) else p1;
    var fs1 := if needHeader then AppendFile(fs, p2, Header) else fs;
    var h2 := h1 || needHeader;
    if |content| > max then Appended(p2, h2, fs1, true)
    else Appended(p2, h2, AppendFile(fs1, p2, content), false)
  }

  predicate EndsWith(s: string, t: string) {
    |t| <= |s| && s[|s| - |t|..] == t
  }

  /** The corrected append: the header goes in front of a CSV chunk exactly
      when the file it lands in is missing or empty. Rotation and the size
      refusal are as written. */
  function Append(path: string, fs: Fs, o: Options, content: string, iso1: string, iso2: string): (r: Appended)
    ensures r.tooLarge <==> |content| > o.maxFileSizeBytes
    ensures path in fs && |fs[path]| + |content| > o.maxFileSizeBytes && o.format != CsvFile ==>
      r.path == RotatedPath(o.filePath, iso1)
    ensures !(path in fs && |fs[path]| + |content| > o.maxFileSizeBytes) && !Blank(fs, path) ==> r.path == path
    ensures !r.tooLarge ==> r.path in r.fs
    ensures !r.tooLarge ==>
      r.fs[r.path] == Content(fs, r.path) + (if o.format == CsvFile && Blank(fs, r.path) then Header else "") + content
    ensures r.tooLarge ==>
      Content(r.fs, r.path) == Content(fs, r.path) + (if o.format == CsvFile && Blank(fs, r.path) then Header else "")
    ensures forall p :: p in fs && p != r.path ==> p in r.fs && r.fs[p] == fs[p]
    ensures forall p :: p in r.fs ==> p in fs || p == r.path
  {
    var max := o.maxFileSizeBytes;
    var grows := path in fs && |fs[path]| + |content| > max;
    var p1 := if grows then RotatedPath(o.filePath, iso1) else path;
    var wants := o.format == CsvFile && Blank(fs, p1);
    var p2 := if wants && |Header| + |content| > max then RotatedPath(o.filePath, iso2) else p1;
    var header := o.format == CsvFile && Blank(fs, p2);
    var fs1 := if header then AppendFile(fs, p2, Header) else fs;
    var flag := o.format == CsvFile && !Blank(fs1, p2);
    if |content| > max then Appended(p2, flag, fs1, true)
    else
      assert Content(fs1, p2) == Content(fs, p2) + (if header then Header else "");
      Appended(p2, o.format == CsvFile, AppendFile(fs1, p2, content), false)
  }

  // -------------------------------------------------------------- flushing

  datatype Outcome = NothingToWrite | Wrote | UnknownFormat(name: string) | RecordTooLarge
                   | ToJsonWriter(batch: seq<Item>)

  datatype Flushed = Flushed(queue: FileQueue, fs: Fs, outcome: Outcome)

  /** The text a batch of a line format appends: one quoted row or one
      line per record. */
  function Chunk(f: Format, batch: seq<Item>): string {
    if f.CsvFile? then CsvRows(batch) else TxtLines(batch)
  }

  /** The result of writing `content` to the active file: refused exactly
      when it is larger than the limit, otherwise the file the queue now
      points at ends with it; files other than that one are untouched. */
  predicate LandsAtEnd(fs: Fs, content: string, max: int, r: Flushed) {
    && (r.outcome == RecordTooLarge <==> |content| > max)
    && (r.outcome != RecordTooLarge ==>
          r.outcome == Wrote && r.queue.currentFilePath in r.fs && EndsWith(r.fs[r.queue.currentFilePath], content))
    && (forall p :: p in fs && p != r.queue.currentFilePath ==> p in r.fs && r.fs[p] == fs[p])
  }

  /** `writeBatch` with the corrected append (a CSV file gets its header
      only when it is missing or empty). The JSON writer is not part of
      this model: its batch is handed over and the files stay as they
      are. */
  function WriteBatch(q: FileQueue, fs: Fs, batch: seq<Item>, iso1: string, iso2: string): (r: Flushed)
    ensures q.options.format.OtherFormat? ==> r == Flushed(q, fs, UnknownFormat(q.options.format.name))
    ensures q.options.format.JsonFile? ==> r == Flushed(q, fs, ToJsonWriter(batch))
    ensures q.options.format.CsvFile? || q.options.format.TxtFile? ==>
      LandsAtEnd(fs, Chunk(q.options.format, batch), q.options.maxFileSizeBytes, r)
    ensures r.queue.items == q.items && r.queue.options == q.options && r.queue.timer == q.timer
  {
    match q.options.format
    case OtherFormat(name) => Flushed(q, fs, UnknownFormat(name))
    case JsonFile => Flushed(q, fs, ToJsonWriter(batch))
    case CsvFile =>
      var a := Append(q.currentFilePath, fs, q.options, CsvRows(batch), iso1, iso2);
      Flushed(q.(currentFilePath := a.path, csvHeaderWritten := a.headerWritten), a.fs,
              if a.tooLarge then RecordTooLarge else Wrote)
    case TxtFile =>
      var a := Append(q.currentFilePath, fs, q.options, TxtLines(batch), iso1, iso2);
      Flushed(q.(currentFilePath := a.path, csvHeaderWritten := a.headerWritten), a.fs,
              if a.tooLarge then RecordTooLarge else Wrote)
  }

  /** `flush` over the corrected append: nothing happens on an empty
      queue or an empty batch; a batch leaves the queue whether or not its
      write succeeds. `iso1`/`iso2` are the clock readings a rotation would
      use. */
  function Flush(q: FileQueue, fs: Fs, iso1: string, iso2: string): (r: Flushed)
    ensures |TakeBatch(q).0| == 0 ==> r == Flushed(q, fs, NothingToWrite)
    ensures |TakeBatch(q).0| > 0 && (q.options.format.CsvFile? || q.options.format.TxtFile?) ==>
      LandsAtEnd(fs, Chunk(q.options.format, TakeBatch(q).0), q.options.maxFileSizeBytes, r)
    ensures |TakeBatch(q).0| > 0 && q.options.format.JsonFile? ==> r.fs == fs && r.outcome == ToJsonWriter(TakeBatch(q).0)
    ensures r.queue.items == TakeBatch(q).1.items && r.queue.options == q.options
  {
    var (batch, rest) := TakeBatch(q);
    if |batch| == 0 then Flushed(q, fs, NothingToWrite)
    else WriteBatch(rest, fs, batch, iso1, iso2)
  }

  /** `enqueue` over the corrected append: the record joins the tail;
      once the queue holds a whole batch, the oldest batch is flushed; the
      timer runs afterwards. */
  function Enqueue(q: FileQueue, fs: Fs, it: Item, iso1: string, iso2: string): (r: Flushed)
    ensures r.queue.timer && r.queue.options == q.options
    ensures |q.items| + 1 < q.options.recordsPerInterval ==>
      r.queue.items == q.items + [it] && r.fs == fs && r.outcome == NothingToWrite
    ensures |q.items| + 1 >= q.options.recordsPerInterval ==>
      r.queue.items == TakeBatch(q.(items := q.items + [it])).1.items
    ensures |q.items| + 1 >= q.options.recordsPerInterval > 0 && (q.options.format.CsvFile? || q.options.format.TxtFile?) ==>
      LandsAtEnd(fs, Chunk(q.options.format, TakeBatch(q.(items := q.items + [it])).0), q.options.maxFileSizeBytes, r)
  {
    var q1 := q.(items := q.items + [it]);
    if |q1.items| >= q.options.recordsPerInterval then
      var f := Flush(q1, fs, iso1, iso2);
      f.(queue := f.queue.(timer := true))
    else Flushed(q1.(timer := true), fs, NothingToWrite)
  }

  // --------------------------------------------------- the CSV file shape

  /** Every line is a quoted row: each line starts with `"` and the text
      ends with a newline. No row can be a second header. */
  predicate RowsOnly(t: string) {
    (|t| > 0 ==> t[0] == '"' && t[|t| - 1] == '\n')
    && forall i :: 0 <= i < |t| - 1 && t[i] == '\n' ==> t[i + 1] == '"'
  }

  /** A CSV file of this transport: empty, or one header followed by rows. */
  predicate CsvShaped(s: string) {
    s == "" || (StartsWith(s, Header) && RowsOnly(s[|Header|..]))
  }

  predicate AllCsvShaped(fs: Fs) {
    forall p :: p in fs ==> CsvShaped(fs[p])
  }

  lemma RowsOnlyAppend(a: string, b: string)
    requires RowsOnly(a) && RowsOnly(b)
    ensures RowsOnly(a + b)
  {
    var t := a + b;
    forall i | 0 <= i < |t| - 1 && t[i] == '\n'
      ensures t[i + 1] == '"'
    {
      if i + 1 < |a| {
        assert a[i] == '\n';
      } else if i + 1 == |a| {
        assert t[i + 1] == b[0];
      } else {
        assert b[i - |a|] == '\n';
      }
    }
  }

  lemma RowsOnlyRow(payloadText: string)
    requires '\n' !in payloadText
    ensures RowsOnly(CsvRow(payloadText))
  {
    var d := ReplaceChars(payloadText, {'"'}, "\"\"");
    NoNewlineDoubled(payloadText);
    var row := CsvRow(payloadText);
    assert row == "\"" + d + "\"\n";
  }

  lemma {:induction false} NoNewlineDoubled(s: string)
    requires '\n' !in s
    ensures '\n' !in ReplaceChars(s, {'"'}, "\"\"")
    decreases |s|
  {
    if |s| > 0 {
      NoNewlineDoubled(s[1..]);
    }
  }

  /** The payload texts of the batch are single-line, as compact JSON is. */
  predicate CompactPayloads(batch: seq<Item>) {
    forall i :: 0 <= i < |batch| ==> '\n' !in batch[i].payloadText
  }

  lemma {:induction false} RowsOnlyRows(batch: seq<Item>)
    requires CompactPayloads(batch)
    ensures RowsOnly(CsvRows(batch))
    decreases |batch|
  {
    if |batch| > 0 {
      RowsOnlyRow(batch[0].payloadText);
      RowsOnlyRows(batch[1..]);
      RowsOnlyAppend(CsvRow(batch[0].payloadText), CsvRows(batch[1..]));
    }
  }

  lemma ShapedAppendRows(old_: string, rows: string)
    requires CsvShaped(old_) && RowsOnly(rows)
    ensures CsvShaped(old_ + (if old_ == "" then Header else "") + rows)
  {
    var s := old_ + (if old_ == "" then Header else "") + rows;
    if old_ == "" {
      assert s == Header + rows;
      assert s[|Header|..] == rows;
    } else {
      assert s[|Header|..] == old_[|Header|..] + rows;
      RowsOnlyAppend(old_[|Header|..], rows);
    }
  }

  /** With the corrected append, a CSV transport keeps every file one
      header followed by rows, whatever state its header flag is in. */
  lemma CsvWriteKeepsOneHeader(q: FileQueue, fs: Fs, batch: seq<Item>, iso1: string, iso2: string)
    requires q.options.format == CsvFile && AllCsvShaped(fs) && CompactPayloads(batch)
    ensures AllCsvShaped(WriteBatch(q, fs, batch, iso1, iso2).fs)
  {
    RowsOnlyRows(batch);
    AppendKeepsShape(q.currentFilePath, fs, q.options, CsvRows(batch), iso1, iso2);
  }

  /** A corrected CSV append of rows keeps every file in shape. */
  lemma AppendKeepsShape(path: string, fs: Fs, o: Options, rows: string, iso1: string, iso2: string)
    requires o.format == CsvFile && AllCsvShaped(fs) && RowsOnly(rows)
    ensures AllCsvShaped(Append(path, fs, o, rows, iso1, iso2).fs)
  {
    var a := Append(path, fs, o, rows, iso1, iso2);
    var old_ := Content(fs, a.path);
    assert CsvShaped(old_) by {
      if a.path in fs { assert CsvShaped(fs[a.path]); }
    }
    if !a.tooLarge {
      assert a.fs[a.path] == Content(a.fs, a.path);
    }
    ShapedAfterAppend(old_, Content(a.fs, a.path), rows, a.tooLarge);
    forall p | p in a.fs ensures CsvShaped(a.fs[p]) {
      if p != a.path {
        assert CsvShaped(fs[p]);
      } else {
        assert a.fs[p] == Content(a.fs, a.path);
      }
    }
  }

  /** A file in shape stays in shape when a header goes in front of rows
      exactly when it was empty, with or without the rows. */
  lemma ShapedAfterAppend(old_: string, new_: string, rows: string, tooLarge: bool)
    requires CsvShaped(old_) && RowsOnly(rows)
    requires !tooLarge ==> new_ == old_ + (if old_ == "" then Header else "") + rows
    requires tooLarge ==> new_ == old_ + (if old_ == "" then Header else "")
    ensures CsvShaped(new_)
  {
    if tooLarge {
      if old_ == "" {
        assert new_[|Header|..] == "";
      } else {
        assert new_ == old_;
      }
    } else {
      ShapedAppendRows(old_, rows);
    }
  }

  /** The invariant carries over to `flush` and `enqueue`. */
  lemma CsvFlushKeepsOneHeader(q: FileQueue, fs: Fs, iso1: string, iso2: string)
    requires q.options.format == CsvFile && AllCsvShaped(fs) && CompactPayloads(q.items)
    ensures AllCsvShaped(Flush(q, fs, iso1, iso2).fs)
  {
    var (batch, rest) := TakeBatch(q);
    if |batch| > 0 {
      assert CompactPayloads(batch) by {
        forall i | 0 <= i < |batch| ensures '\n' !in batch[i].payloadText {
          assert batch[i] == q.items[i];
        }
      }
      CsvWriteKeepsOneHeader(rest, fs, batch, iso1, iso2);
    }
  }

  // -------------------------------------------------- the code as written

  /** `writeCsv` as written: the chunk carries the header when the flag is
      down, and the flag is raised before the append sees the file. */
  function WriteBatchAsWritten(q: FileQueue, fs: Fs, batch: seq<Item>, iso1: string, iso2: string): (r: Flushed)
    ensures r.queue.items == q.items && r.queue.options == q.options
    ensures q.options.format.OtherFormat? ==> r == Flushed(q, fs, UnknownFormat(q.options.format.name))
  {
    match q.options.format
    case OtherFormat(name) => Flushed(q, fs, UnknownFormat(name))
    case JsonFile => Flushed(q, fs, ToJsonWriter(batch))
    case CsvFile =>
      var content := (if q.csvHeaderWritten then "" else Header) + CsvRows(batch);
      var a := AppendAsWritten(q.currentFilePath, true, fs, q.options, content, iso1, iso2);
      Flushed(q.(currentFilePath := a.path, csvHeaderWritten := a.headerWritten), a.fs,
              if a.tooLarge then RecordTooLarge else Wrote)
    case TxtFile =>
      var a := AppendAsWritten(q.currentFilePath, q.csvHeaderWritten, fs, q.options, TxtLines(batch), iso1, iso2);
      Flushed(q.(currentFilePath := a.path, csvHeaderWritten := a.headerWritten), a.fs,
              if a.tooLarge then RecordTooLarge else Wrote)
  }

  function FlushAsWritten(q: FileQueue, fs: Fs, iso1: string, iso2: string): (r: Flushed)
    ensures r.queue.items == TakeBatch(q).1.items
  {
    var (batch, rest) := TakeBatch(q);
    if |batch| == 0 then Flushed(q, fs, NothingToWrite)
    else WriteBatchAsWritten(rest, fs, batch, iso1, iso2)
  }

  const Demo: Options := Options(true, CsvFile, "logs/app.csv", 5000, 1, 1000)
  const DemoItem: Item := Item("INFO", "{}", "m", None, "", "t")
  const DemoRow: string := "\"{}\"\n"

  lemma DemoRowValue()
    ensures CsvRows([DemoItem]) == DemoRow
  {
    assert ReplaceChars("{}", {'"'}, "\"\"") == "{}";
  }

  const DemoPath: string := "logs/app.csv"
  const DemoQueue: FileQueue := NewFileQueue(Demo).(items := [DemoItem])

  lemma DemoTake()
    ensures TakeBatch(DemoQueue) == ([DemoItem], DemoQueue.(items := []))
  {
    var items := DemoQueue.items;
    assert items == [DemoItem];
    assert items[..1] == [DemoItem] && items[1..] == [];
  }

  lemma DemoNotShaped()
    ensures !CsvShaped(Header + DemoRow + Header + DemoRow)
  {
    var s := Header + DemoRow + Header + DemoRow;
    assert s[|Header|..][4] == '\n' && s[|Header|..][5] == 'p';
  }

  /** The first as-written append to a missing file: the chunk brings its
      header, and the flag comes back down. */
  lemma DemoFirstAppendAsWritten()
    ensures AppendAsWritten(DemoPath, true, map[], Demo, Header + DemoRow, "a", "b")
      == Appended(DemoPath, false, map[DemoPath := Header + DemoRow], false)
  {
    assert StartsWith(Header + DemoRow, "payload");
  }

  /** An as-written append of a chunk with its own header to an existing
      file keeps that header. */
  lemma DemoSecondAppendAsWritten()
    ensures AppendAsWritten(DemoPath, true, map[DemoPath := Header + DemoRow], Demo, Header + DemoRow, "a", "b")
      == Appended(DemoPath, true, map[DemoPath := Header + DemoRow + Header + DemoRow], false)
  {
    assert StartsWith(Header + DemoRow, "payload");
    var fs := map[DemoPath := Header + DemoRow];
    var r := AppendFile(fs, DemoPath, Header + DemoRow);
    assert r.Keys == {DemoPath} && r[DemoPath] == Header + DemoRow + Header + DemoRow;
    assert r == map[DemoPath := Header + DemoRow + Header + DemoRow];
  }

  /** As written, two one-record flushes into a missing file leave two
      headers in it: the first append clears the flag it was given. */
  lemma NewFileGetsSecondHeaderAsWritten()
    ensures var r1 := FlushAsWritten(DemoQueue, map[], "a", "b");
      var r2 := FlushAsWritten(r1.queue.(items := [DemoItem]), r1.fs, "a", "b");
      r1.fs == map[DemoPath := Header + DemoRow] && !r1.queue.csvHeaderWritten
      && r2.fs == map[DemoPath := Header + DemoRow + Header + DemoRow] && !AllCsvShaped(r2.fs)
  {
    DemoRowValue();
    DemoTake();
    DemoFirstAppendAsWritten();
    var r1 := FlushAsWritten(DemoQueue, map[], "a", "b");
    assert r1.queue == DemoQueue.(items := [], currentFilePath := DemoPath, csvHeaderWritten := false);
    var q1 := r1.queue.(items := [DemoItem]);
    assert q1 == DemoQueue;
    assert TakeBatch(q1) == ([DemoItem], DemoQueue.(items := []));
    DemoSecondAppendAsWritten();
    DemoNotShaped();
    var r2 := FlushAsWritten(q1, r1.fs, "a", "b");
    assert DemoPath in r2.fs;
  }

  /** As written, a new queue appending to an existing CSV file puts a
      second header in the middle of it. */
  lemma ExistingFileGetsSecondHeaderAsWritten()
    ensures var fs := map[DemoPath := Header + DemoRow];
      var r := FlushAsWritten(DemoQueue, fs, "a", "b");
      AllCsvShaped(fs) && r.fs == map[DemoPath := Header + DemoRow + Header + DemoRow] && !AllCsvShaped(r.fs)
  {
    var fs := map[DemoPath := Header + DemoRow];
    assert AllCsvShaped(fs) by {
      assert fs[DemoPath][|Header|..] == DemoRow;
    }
    DemoFlushExistingAsWritten();
    var r := FlushAsWritten(DemoQueue, fs, "a", "b");
    assert !AllCsvShaped(r.fs) by {
      DemoNotShaped();
      assert DemoPath in r.fs;
    }
  }

  lemma DemoFlushExistingAsWritten()
    ensures FlushAsWritten(DemoQueue, map[DemoPath := Header + DemoRow], "a", "b").fs
      == map[DemoPath := Header + DemoRow + Header + DemoRow]
  {
    var fs := map[DemoPath := Header + DemoRow];
    DemoTake();
    var rest := DemoQueue.(items := []);
    assert !rest.csvHeaderWritten && rest.currentFilePath == DemoPath && rest.options == Demo;
    assert (if rest.csvHeaderWritten then "" else Header) + CsvRows([DemoItem]) == Header + DemoRow by {
      DemoRowValue();
    }
    DemoSecondAppendAsWritten();
  }

  lemma DemoFirstAppend()
    ensures Append(DemoPath, map[], Demo, DemoRow, "a", "b").fs == map[DemoPath := Header + DemoRow]
    ensures Append(DemoPath, map[], Demo, DemoRow, "a", "b").path == DemoPath
  {
    var a := Append(DemoPath, map[], Demo, DemoRow, "a", "b");
    assert a.path == DemoPath;
    assert a.fs.Keys == {DemoPath} && a.fs[DemoPath] == Header + DemoRow;
    assert a.fs == map[DemoPath := Header + DemoRow];
  }

  lemma DemoSecondAppend()
    ensures Append(DemoPath, map[DemoPath := Header + DemoRow], Demo, DemoRow, "a", "b").fs
      == map[DemoPath := Header + DemoRow + DemoRow]
  {
    var fs := map[DemoPath := Header + DemoRow];
    var a := Append(DemoPath, fs, Demo, DemoRow, "a", "b");
    assert a.path == DemoPath;
    assert a.fs.Keys == {DemoPath};
  }

  /** With the corrected append the same two flushes give one header. */
  lemma NewFileGetsOneHeader()
    ensures var r1 := Flush(DemoQueue, map[], "a", "b");
      var r2 := Flush(r1.queue.(items := [DemoItem]), r1.fs, "a", "b");
      r2.fs == map[DemoPath := Header + DemoRow + DemoRow] && AllCsvShaped(r2.fs)
  {
    DemoRowValue();
    DemoTake();
    DemoFirstAppend();
    var r1 := Flush(DemoQueue, map[], "a", "b");
    assert r1.queue.currentFilePath == DemoPath;
    var q1 := r1.queue.(items := [DemoItem]);
    assert TakeBatch(q1) == ([DemoItem], q1.(items := []));
    DemoSecondAppend();
    DemoTwoRowsShaped();
  }

  /** A file holding the header and two rows is in shape. */
  lemma DemoTwoRowsShaped()
    ensures AllCsvShaped(map[DemoPath := Header + DemoRow + DemoRow])
  {
    DemoRowValue();
    var s := Header + DemoRow + DemoRow;
    assert s[|Header|..] == DemoRow + DemoRow;
    RowsOnlyAppend(DemoRow, DemoRow);
  }
}
