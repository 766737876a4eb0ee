/**
 The append-only log file of a run: one JSON object a line. Reading it back
 tolerates a last line that a crash cut short, and removes it.

 An entry is its sequence number and one text standing for the remaining fields;
 the object is spelled {number,"text"} with the text escaped as in a JSON string.
 */
module LogLines {
  import opened Common

  datatype Entry = Entry(number: nat, text: string)

  // ---------------------------------------------------------------------
  // One line

  predicate IsDigit(c: char) {
    '0' <= c <= '9'
  }

  function Digits(n: nat): string {
    (if n < 10 then [] else Digits(n / 10)) + [('0' as int + n % 10) as char]
  }

  function ParseDigits(t: string): nat
    requires forall c | c in t :: IsDigit(c)
  {
    if t == [] then 0 else
    assert t[|t| - 1] in t && IsDigit(t[|t| - 1]);
    ParseDigits(t[..|t| - 1]) * 10 + (t[|t| - 1] as int - '0' as int)
  }

  function CountDigits(t: string): (n: nat)
    ensures n <= |t| && forall c | c in t[..n] :: IsDigit(c)
  {
    if t == [] || !IsDigit(t[0]) then 0 else 1 + CountDigits(t[1..])
  }

  function EscapeChar(c: char): string {
    match c
    case '"' => "\\\""
    case '\\' => "\\\\"
    case '\n' => "\\n"
    case '\r' => "\\r"
    case _ => [c]
  }

  function Escape(s: string): string {
    if s == [] then [] else EscapeChar(s[0]) + Escape(s[1..])
  }

  function Unescape(c: char): Option<char> {
    match c
    case '"' => Some('"')
    case '\\' => Some('\\')
    case 'n' => Some('\n')
    case 'r' => Some('\r')
    case _ => None
  }

  /** The text of a string literal whose opening quote was read, and what follows
      its closing quote. */
  function ParseText(t: string): Option<(string, string)> {
    if t == [] || t[0] == '\n' || t[0] == '\r' then None
    else if t[0] == '"' then Some(([], t[1..]))
    else if t[0] == '\\' then
      if |t| < 2 || Unescape(t[1]).None? then None else
      match ParseText(t[2..])
      case None => None
      case Some((text, rest)) => Some(([Unescape(t[1]).value] + text, rest))
    else
      match ParseText(t[1..])
      case None => None
      case Some((text, rest)) => Some(([t[0]] + text, rest))
  }

  function Encode(e: Entry): string {
    "{" + Digits(e.number) + ",\"" + Escape(e.text) + "\"}"
  }

  function Decode(line: string): Option<Entry> {
    if line == [] || line[0] != '{' then None else
    var t := line[1..];
    var n := CountDigits(t);
    if n == 0 || |t| < n + 2 || t[n] != ',' || t[n + 1] != '"' then None else
    match ParseText(t[n + 2..])
    case None => None
    case Some((text, rest)) => if rest == "}" then Some(Entry(ParseDigits(t[..n]), text)) else None
  }

  lemma {:induction false} DigitsParse(n: nat)
    ensures Digits(n) != [] && forall c | c in Digits(n) :: IsDigit(c)
    ensures ParseDigits(Digits(n)) == n
  {
    if n >= 10 {
      DigitsParse(n / 10);
      assert Digits(n)[..|Digits(n)| - 1] == Digits(n / 10);
    }
  }

  lemma {:induction false} CountDigitsStops(ds: string, rest: string)
    requires forall c | c in ds :: IsDigit(c)
    requires rest == [] || !IsDigit(rest[0])
    ensures CountDigits(ds + rest) == |ds|
  {
    if ds == [] {
      assert ds + rest == rest;
    } else {
      assert (ds + rest)[1..] == ds[1..] + rest;
      CountDigitsStops(ds[1..], rest);
    }
  }

  /** One character of the text is read back, and the rest is read the same way. */
  lemma EscapedCharReads(c: char, tail: string)
    ensures ParseText(EscapeChar(c) + tail) ==
            match ParseText(tail)
            case None => None
            case Some((text, rest)) => Some(([c] + text, rest))
  {
    var t := EscapeChar(c) + tail;
    if |EscapeChar(c)| == 2 {
      assert t[0] == '\\' && t[1] == EscapeChar(c)[1] && t[2..] == tail;
    } else {
      assert t[0] == c && t[1..] == tail;
    }
  }

  lemma EscapeCharCut(c: char)
    ensures ParseText(EscapeChar(c)[..1]).None?
  {
    if |EscapeChar(c)| == 1 { assert EscapeChar(c)[1..] == []; }
  }

  lemma {:induction false} TextRoundTrip(s: string, rest: string)
    ensures ParseText(Escape(s) + "\"" + rest) == Some((s, rest))
  {
    if s == [] {
      assert Escape(s) + "\"" + rest == "\"" + rest;
      assert ("\"" + rest)[1..] == rest;
    } else {
      TextRoundTrip(s[1..], rest);
      EscapedCharReads(s[0], Escape(s[1..]) + "\"" + rest);
      FourParts(EscapeChar(s[0]), Escape(s[1..]), "\"", rest);
      assert [s[0]] + s[1..] == s;
    }
  }

  /** A string literal without its closing quote is not one. */
  lemma {:induction false} CutTextFails(s: string, k: nat)
    requires k <= |Escape(s)|
    ensures ParseText(Escape(s)[..k]).None?
  {
    if s != [] && k > 0 {
      var head, tail := EscapeChar(s[0]), Escape(s[1..]);
      if k >= |head| {
        CutTextFails(s[1..], k - |head|);
        EscapedCharReads(s[0], tail[..k - |head|]);
        assert Escape(s)[..k] == head + tail[..k - |head|];
      } else {
        EscapeCharCut(s[0]);
        assert Escape(s)[..k] == head[..1];
      }
    }
  }

  lemma {:induction false} EscapeHasNoNewline(s: string)
    ensures '\n' !in Escape(s) && '\r' !in Escape(s)
  {
    if s != [] {
      EscapeHasNoNewline(s[1..]);
    }
  }

  lemma EncodeShape(e: Entry)
    ensures |Encode(e)| >= 2 && Encode(e)[0] == '{' && Encode(e)[|Encode(e)| - 1] == '}'
    ensures '\n' !in Encode(e)
  {
    EscapeHasNoNewline(e.text);
    DigitsParse(e.number);
  }

  function DecodeText(number: nat, body: string): Option<Entry> {
    match ParseText(body)
    case None => None
    case Some((text, rest)) => if rest == "}" then Some(Entry(number, text)) else None
  }

  lemma DecodeBody(ds: string, body: string)
    requires ds != [] && forall c | c in ds :: IsDigit(c)
    ensures Decode("{" + ds + ",\"" + body) == DecodeText(ParseDigits(ds), body)
  {
    var line, after := "{" + ds + ",\"" + body, ",\"" + body;
    assert line[1..] == ds + after;
    CountDigitsStops(ds, after);
    assert (ds + after)[..|ds|] == ds;
    assert (ds + after)[|ds| + 2..] == body;
  }

  /** Decoding an object followed by anything: it decodes exactly when nothing
      follows. */
  lemma DecodeEncodedPlus(e: Entry, more: string)
    ensures Decode(Encode(e) + more) == if more == [] then Some(e) else None
  {
    DigitsParse(e.number);
    var body := Escape(e.text) + "\"" + ("}" + more);
    assert Encode(e) + more == "{" + Digits(e.number) + ",\"" + body;
    DecodeBody(Digits(e.number), body);
    TextRoundTrip(e.text, "}" + more);
  }

  lemma CutBeforeTextFails(ds: string, after: string)
    requires forall c | c in ds :: IsDigit(c)
    requires |after| < 2 && (after != [] ==> !IsDigit(after[0]))
    ensures Decode("{" + ds + after).None?
  {
    assert ("{" + ds + after)[1..] == ds + after;
    CountDigitsStops(ds, after);
  }

  lemma CutInTextFails(text: string, ds: string, k: nat)
    requires ds != [] && forall c | c in ds :: IsDigit(c)
    requires k < |Escape(text) + "\"}"|
    ensures Decode("{" + ds + ",\"" + (Escape(text) + "\"}")[..k]).None?
  {
    var body := (Escape(text) + "\"}")[..k];
    DecodeBody(ds, body);
    if k <= |Escape(text)| {
      assert body == Escape(text)[..k];
      CutTextFails(text, k);
    } else {
      assert body == Escape(text) + "\"" + [];
      TextRoundTrip(text, []);
    }
  }

  lemma CutHead(e: Entry, k: nat)
    requires k <= |Digits(e.number)| + 2
    ensures k < |Encode(e)|
    ensures var ds := Digits(e.number);
            Encode(e)[..k] ==
            if k == 0 then [] else if k <= |ds| + 1 then "{" + ds[..k - 1] else "{" + ds + ","
  {
  }

  lemma CutTail(e: Entry, k: nat)
    requires |Digits(e.number)| + 2 < k < |Encode(e)|
    ensures var ds := Digits(e.number);
            Encode(e)[..k] == "{" + ds + ",\"" + (Escape(e.text) + "\"}")[..k - |ds| - 3]
  {
  }

  lemma CutHeadFails(e: Entry, k: nat)
    requires k <= |Digits(e.number)| + 2
    ensures k < |Encode(e)| && Decode(Encode(e)[..k]).None?
  {
    var ds := Digits(e.number);
    DigitsParse(e.number);
    CutHead(e, k);
    if 0 < k <= |ds| + 1 {
      CutBeforeTextFails(ds[..k - 1], []);
      assert "{" + ds[..k - 1] + [] == "{" + ds[..k - 1];
    } else if k > 0 {
      CutBeforeTextFails(ds, ",");
    }
  }

  lemma CutTailFails(e: Entry, k: nat)
    requires |Digits(e.number)| + 2 < k < |Encode(e)|
    ensures Decode(Encode(e)[..k]).None?
  {
    CutTail(e, k);
    DigitsParse(e.number);
    CutInTextFails(e.text, Digits(e.number), k - |Digits(e.number)| - 3);
  }

  /** No proper prefix of an object decodes. */
  lemma CutObjectFails(e: Entry, k: nat)
    requires k < |Encode(e)|
    ensures Decode(Encode(e)[..k]).None?
  {
    if k <= |Digits(e.number)| + 2 { CutHeadFails(e, k); } else { CutTailFails(e, k); }
  }

  // ---------------------------------------------------------------------
  // The file

  predicate IsBlank(c: char) {
    c == ' ' || c == '\t' || c == '\n' || c == '\r'
  }

  function TrimStart(s: string): string {
    if s != [] && IsBlank(s[0]) then TrimStart(s[1..]) else s
  }

  function TrimEnd(s: string): string {
    if s != [] && IsBlank(s[|s| - 1]) then TrimEnd(s[..|s| - 1]) else s
  }

  function Strip(s: string): string {
    TrimEnd(TrimStart(s))
  }

  /** Length of the first line, its newline included. */
  function LineLength(file: string): (n: nat)
    ensures n <= |file| && (file != [] ==> n > 0)
  {
    if file == [] then 0 else if file[0] == '\n' then 1 else 1 + LineLength(file[1..])
  }

  /** The entries of a log and the file as reading leaves it, or a refusal. */
  datatype Log = Log(entries: seq<Entry>, file: string) | Corrupt

  function Prepend(entries: seq<Entry>, line: string, log: Log): Log {
    if log.Corrupt? then log else Log(entries + log.entries, line + log.file)
  }

  /** What the reader makes of one line. */
  datatype LineKind = Blank | Holds(entry: Entry) | Unreadable

  function KindOf(line: string): LineKind {
    if Strip(line) == [] then Blank else
    match Decode(Strip(line))
    case Some(e) => Holds(e)
    case None => Unreadable
  }

  function ReadLog(file: string): Log
    decreases |file|
  {
    if file == [] then Log([], []) else
    var n := LineLength(file);
    var line, rest := file[..n], file[n..];
    match KindOf(line)
    case Blank => Prepend([], line, ReadLog(rest))
    case Holds(e) => Prepend([e], line, ReadLog(rest))
    case Unreadable => if rest == [] then Log([], []) else Corrupt
  }

  lemma PrependMore(entries: seq<Entry>, more: seq<Entry>, before: string, line: string, log: Log)
    ensures Prepend(entries, before, Prepend(more, line, log)) == Prepend(entries + more, before + line, log)
  {
    if log.Log? {
      assert entries + (more + log.entries) == entries + more + log.entries;
      assert before + (line + log.file) == before + line + log.file;
    }
  }

  /** The reader stands at `pos` and has these entries; what the whole file reads as. */
  function ReadFrom(file: string, pos: nat, entries: seq<Entry>): Log
    requires pos <= |file|
  {
    Prepend(entries, file[..pos], ReadLog(file[pos..]))
  }

  lemma LineOff(file: string, pos: nat, n: nat)
    requires pos + n <= |file|
    ensures file[pos..][..n] == file[pos..pos + n] && file[pos..][n..] == file[pos + n..]
    ensures file[..pos] + file[pos..pos + n] == file[..pos + n]
  {
  }

  lemma NextLineReads(file: string, pos: nat, n: nat)
    requires pos < |file| && n == LineLength(file[pos..])
    ensures var line, rest := file[pos..pos + n], file[pos + n..];
            ReadLog(file[pos..]) ==
            match KindOf(line)
            case Blank => Prepend([], line, ReadLog(rest))
            case Holds(e) => Prepend([e], line, ReadLog(rest))
            case Unreadable => if rest == [] then Log([], []) else Corrupt
  {
    LineOff(file, pos, n);
  }

  /** What one more line, of the given kind, makes of the rest. */
  lemma OneLineRead(file: string, pos: nat, n: nat, entries: seq<Entry>, kind: LineKind)
    requires pos < |file| && n == LineLength(file[pos..]) && kind == KindOf(file[pos..pos + n])
    ensures ReadFrom(file, pos, entries) ==
            match kind
            case Blank => ReadFrom(file, pos + n, entries)
            case Holds(e) => ReadFrom(file, pos + n, entries + [e])
            case Unreadable => if file[pos + n..] == [] then Log(entries, file[..pos]) else Corrupt
  {
    NextLineReads(file, pos, n);
    LineOff(file, pos, n);
    assert entries + [] == entries && file[..pos] + [] == file[..pos];
    match kind
    case Blank => PrependMore(entries, [], file[..pos], file[pos..pos + n], ReadLog(file[pos + n..]));
    case Holds(e) => PrependMore(entries, [e], file[..pos], file[pos..pos + n], ReadLog(file[pos + n..]));
    case Unreadable =>
  }

  lemma WholeFileRead(file: string)
    ensures ReadLog(file) == ReadFrom(file, 0, [])
  {
    assert file[0..] == file;
    var log := ReadLog(file);
    assert log.Log? ==> [] + log.entries == log.entries && file[..0] + log.file == log.file;
  }

  lemma NothingLeftToRead(file: string, entries: seq<Entry>)
    ensures ReadFrom(file, |file|, entries) == Log(entries, file)
  {
    assert file[|file|..] == [] && file[..|file|] + [] == file && entries + [] == entries;
  }

  /** One line, stripped and decoded. */
  method ReadLine(line: string) returns (kind: LineKind)
    ensures kind == KindOf(line)
  {
    var stripped := Strip(line);
    if stripped == [] { return Blank; }
    var decoded := Decode(stripped);
    kind := if decoded.None? then Unreadable else Holds(decoded.value);
  }

  /** Reads line by line; an unreadable last line is dropped from the file, an
      unreadable line anywhere else refuses the log. */
  method ReadLogs(file: string) returns (log: Log)
    ensures log == ReadLog(file)
  {
    var entries, pos := [], 0;
    WholeFileRead(file);
    while pos < |file|
      invariant 0 <= pos <= |file|
      invariant ReadLog(file) == ReadFrom(file, pos, entries)
    {
      var n := LineLength(file[pos..]);
      var kind := ReadLine(file[pos..pos + n]);
      OneLineRead(file, pos, n, entries, kind);
      if kind.Unreadable? { return if pos + n == |file| then Log(entries, file[..pos]) else Corrupt; }
      if kind.Holds? { entries := entries + [kind.entry]; }
      pos := pos + n;
    }
    NothingLeftToRead(file, entries);
    log := Log(entries, file);
  }

  // ---------------------------------------------------------------------
  // What reading means, line by line

  ghost predicate AllBlank(s: string) {
    forall c | c in s :: IsBlank(c)
  }

  /** Stripping takes the blanks off both ends and nothing else. */
  ghost predicate Stripped(s: string, core: string, l: string, r: string) {
    s == l + core + r && AllBlank(l) && AllBlank(r)
    && (core != [] ==> !IsBlank(core[0]) && !IsBlank(core[|core| - 1]))
  }

  lemma {:induction false} TrimStartIs(s: string) returns (l: string)
    ensures s == l + TrimStart(s) && AllBlank(l) && (TrimStart(s) != [] ==> !IsBlank(TrimStart(s)[0]))
  {
    l := [];
    if s != [] && IsBlank(s[0]) {
      l := TrimStartIs(s[1..]);
      l := [s[0]] + l;
    }
  }

  lemma {:induction false} TrimEndIs(s: string) returns (r: string)
    ensures s == TrimEnd(s) + r && AllBlank(r)
    ensures TrimEnd(s) != [] ==> TrimEnd(s)[0] == s[0] && !IsBlank(TrimEnd(s)[|TrimEnd(s)| - 1])
  {
    r := [];
    if s != [] && IsBlank(s[|s| - 1]) {
      r := TrimEndIs(s[..|s| - 1]);
      r := r + [s[|s| - 1]];
    }
  }

  lemma StripIs(s: string) returns (l: string, r: string)
    ensures Stripped(s, Strip(s), l, r) && (Strip(s) == [] <==> AllBlank(s))
  {
    l := TrimStartIs(s);
    r := TrimEndIs(TrimStart(s));
    assert Strip(s) != [] ==> s[|l|] == Strip(s)[0];
  }

  /** The lines of a file: all but the last end with their only newline. */
  ghost predicate Splits(lines: seq<string>, file: string) {
    file == Concat(lines)
    && forall i | 0 <= i < |lines| ::
         && lines[i] != [] && (forall k | 0 <= k < |lines[i]| - 1 :: lines[i][k] != '\n')
         && (i < |lines| - 1 ==> lines[i][|lines[i]| - 1] == '\n')
  }

  function Concat(lines: seq<string>): string {
    if lines == [] then [] else lines[0] + Concat(lines[1..])
  }

  function Kinds(lines: seq<string>): (kinds: seq<LineKind>)
    ensures |kinds| == |lines| && forall i | 0 <= i < |lines| :: kinds[i] == KindOf(lines[i])
  {
    if lines == [] then [] else [KindOf(lines[0])] + Kinds(lines[1..])
  }

  /** These are the entries that the lines hold, in order, and where they stand. */
  ghost predicate HeldAt(kinds: seq<LineKind>, entries: seq<Entry>, places: seq<nat>) {
    && |places| == |entries|
    && (forall k | 0 <= k < |places| :: places[k] < |kinds| && kinds[places[k]] == Holds(entries[k]))
    && (forall k, l | 0 <= k < l < |places| :: places[k] < places[l])
    && (forall i | 0 <= i < |kinds| && kinds[i].Holds? :: i in places)
  }

  /** A log is refused when a line that is not the last cannot be read; else it gives what
      its lines hold, and loses its last line when that cannot be read. */
  ghost predicate ReadsLines(lines: seq<string>, log: Log) {
    && (log.Corrupt? <==> RefusedLine(lines))
    && (log.Log? ==>
          (exists places :: HeldAt(Kinds(lines), log.entries, places)) && log.file == Concat(Readable(lines)))
  }

  ghost predicate RefusedLine(lines: seq<string>) {
    exists i | 0 <= i < |lines| - 1 :: KindOf(lines[i]).Unreadable?
  }

  /** The lines without a last one that cannot be read. */
  ghost function Readable(lines: seq<string>): seq<string> {
    if lines != [] && KindOf(lines[|lines| - 1]).Unreadable? then lines[..|lines| - 1] else lines
  }

  lemma FirstLine(lines: seq<string>, file: string)
    requires Splits(lines, file) && lines != []
    ensures LineLength(file) == |lines[0]| && file[..|lines[0]|] == lines[0]
    ensures file[|lines[0]|..] == Concat(lines[1..]) && Splits(lines[1..], Concat(lines[1..]))
    ensures (file[|lines[0]|..] == [] <==> |lines| == 1)
  {
    var line, rest := lines[0], Concat(lines[1..]);
    assert forall i | 0 <= i < |lines[1..]| :: lines[1..][i] == lines[i + 1];
    if |lines| > 1 {
      assert lines[1..][0] == lines[1] != [];
      assert line == line[..|line| - 1] + "\n";
      LineEnds(line[..|line| - 1], rest);
      assert line[..|line| - 1] + "\n" + rest == file;
    } else {
      assert rest == [] && file == line;
      LineIsAll(line);
    }
  }

  lemma {:induction false} LineEnds(line: string, rest: string)
    requires forall k | 0 <= k < |line| :: line[k] != '\n'
    ensures LineLength(line + "\n" + rest) == |line| + 1
  {
    if line != [] {
      assert (line + "\n" + rest)[1..] == line[1..] + "\n" + rest;
      LineEnds(line[1..], rest);
    }
  }

  lemma {:induction false} LineIsAll(line: string)
    requires forall k | 0 <= k < |line| - 1 :: line[k] != '\n'
    ensures LineLength(line) == |line|
  {
    if |line| > 1 { LineIsAll(line[1..]); }
  }

  lemma {:induction false} LineIsWhole(file: string)
    ensures var n := LineLength(file);
            && (forall k | 0 <= k < n - 1 :: file[k] != '\n') && (n < |file| ==> file[n - 1] == '\n')
  {
    if file != [] && file[0] != '\n' { LineIsWhole(file[1..]); }
  }

  /** Every file has its lines. */
  lemma {:induction false} EveryFileSplits(file: string) returns (lines: seq<string>)
    ensures Splits(lines, file)
    decreases |file|
  {
    lines := [];
    if file != [] {
      var n := LineLength(file);
      LineIsWhole(file);
      var rest := EveryFileSplits(file[n..]);
      lines := [file[..n]] + rest;
      assert lines[1..] == rest;
    }
  }

  /** For every file, whatever its lines hold. */
  lemma {:induction false} ReadLogReadsLines(lines: seq<string>, file: string)
    requires Splits(lines, file)
    ensures ReadsLines(lines, ReadLog(file))
    decreases |lines|
  {
    if lines == [] {
      assert HeldAt(Kinds(lines), [], []);
    } else {
      var rest := Concat(lines[1..]);
      FirstLine(lines, file);
      ReadLogReadsLines(lines[1..], rest);
      FirstLineRead(lines, ReadLog(rest), ReadLog(file));
    }
  }

  lemma RefusedOneMore(lines: seq<string>)
    requires lines != []
    ensures RefusedLine(lines) <==> RefusedLine(lines[1..]) || (|lines| > 1 && KindOf(lines[0]).Unreadable?)
  {
    var tail := lines[1..];
    assert forall i | 0 <= i < |tail| :: tail[i] == lines[i + 1];
    if RefusedLine(tail) {
      var i :| 0 <= i < |tail| - 1 && KindOf(tail[i]).Unreadable?;
      assert KindOf(lines[i + 1]).Unreadable?;
    }
  }

  lemma ReadableOneMore(lines: seq<string>)
    requires lines != [] && !(|lines| == 1 && KindOf(lines[0]).Unreadable?)
    ensures Concat(Readable(lines)) == lines[0] + Concat(Readable(lines[1..]))
  {
    if |lines| > 1 {
      assert lines[1..][|lines| - 2] == lines[|lines| - 1];
      assert lines[..|lines| - 1][1..] == lines[1..][..|lines| - 2];
    }
  }

  lemma FirstLineRead(lines: seq<string>, rest: Log, log: Log)
    requires lines != [] && ReadsLines(lines[1..], rest)
    requires log == match KindOf(lines[0])
                    case Blank => Prepend([], lines[0], rest)
                    case Holds(e) => Prepend([e], lines[0], rest)
                    case Unreadable => if |lines| == 1 then Log([], []) else Corrupt
    ensures ReadsLines(lines, log)
  {
    RefusedOneMore(lines);
    if KindOf(lines[0]).Unreadable? {
      if |lines| == 1 {
        assert HeldAt(Kinds(lines), [], []);
        assert Readable(lines) == [];
      }
    } else if rest.Log? {
      ReadableOneMore(lines);
      var places :| HeldAt(Kinds(lines[1..]), rest.entries, places);
      var all := HeldOneMore(Kinds(lines), rest.entries, places);
    }
  }

  /** The same places, one line further on. */
  ghost predicate Shifted(places: seq<nat>, later: seq<nat>) {
    |later| == |places| && forall k | 0 <= k < |places| :: later[k] == places[k] + 1
  }

  lemma HeldLater(kinds: seq<LineKind>, entries: seq<Entry>, places: seq<nat>, later: seq<nat>)
    requires kinds != [] && HeldAt(kinds[1..], entries, places) && Shifted(places, later)
    ensures forall k | 0 <= k < |later| :: 0 < later[k] < |kinds| && kinds[later[k]] == Holds(entries[k])
    ensures forall i | 0 < i < |kinds| && kinds[i].Holds? :: i in later
  {
    forall k | 0 <= k < |later| ensures 0 < later[k] < |kinds| && kinds[later[k]] == Holds(entries[k]) {
      assert kinds[1..][places[k]] == kinds[later[k]];
    }
    forall i | 0 < i < |kinds| && kinds[i].Holds? ensures i in later {
      assert kinds[1..][i - 1] == kinds[i];
      var k :| 0 <= k < |places| && places[k] == i - 1;
      assert later[k] == i;
    }
  }

  /** With a first line that holds an entry, before places further on. */
  lemma HeldWithFirst(kinds: seq<LineKind>, e: Entry, entries: seq<Entry>, later: seq<nat>)
    requires kinds != [] && kinds[0] == Holds(e) && |later| == |entries|
    requires forall k | 0 <= k < |later| :: 0 < later[k] < |kinds| && kinds[later[k]] == Holds(entries[k])
    requires forall k, l | 0 <= k < l < |later| :: later[k] < later[l]
    requires forall i | 0 < i < |kinds| && kinds[i].Holds? :: i in later
    ensures HeldAt(kinds, [e] + entries, [0] + later)
  {
    var held, all: seq<nat> := [e] + entries, [0] + later;
    forall k | 0 <= k < |all| ensures all[k] < |kinds| && kinds[all[k]] == Holds(held[k]) {
      if k > 0 { assert all[k] == later[k - 1] && held[k] == entries[k - 1]; }
    }
    forall i | 0 <= i < |kinds| && kinds[i].Holds? ensures i in all {
      if i == 0 { assert all[0] == 0; }
    }
  }

  lemma {:induction false} Shift(places: seq<nat>) returns (later: seq<nat>)
    ensures Shifted(places, later)
  {
    later := [];
    if places != [] {
      var rest := Shift(places[1..]);
      later := [places[0] + 1] + rest;
    }
  }

  lemma HeldOneMore(kinds: seq<LineKind>, entries: seq<Entry>, places: seq<nat>) returns (all: seq<nat>)
    requires kinds != [] && HeldAt(kinds[1..], entries, places) && !kinds[0].Unreadable?
    ensures HeldAt(kinds, (if kinds[0].Holds? then [kinds[0].entry] else []) + entries, all)
  {
    var later := Shift(places);
    HeldLater(kinds, entries, places, later);
    assert forall k, l | 0 <= k < l < |later| :: later[k] < later[l];
    if kinds[0].Holds? {
      HeldWithFirst(kinds, kinds[0].entry, entries, later);
      all := [0] + later;
    } else {
      all := later;
      assert [] + entries == entries;
    }
  }

  function Line(e: Entry): string {
    Encode(e) + "\n"
  }

  function Lines(entries: seq<Entry>): string {
    if entries == [] then [] else Line(entries[0]) + Lines(entries[1..])
  }

  lemma {:induction false} LinesAppend(entries: seq<Entry>, e: Entry)
    ensures Lines(entries + [e]) == Lines(entries) + Line(e)
  {
    if entries == [] {
      assert entries + [e] == [e] && Lines([e][1..]) == [];
    } else {
      assert (entries + [e])[1..] == entries[1..] + [e];
      LinesAppend(entries[1..], e);
      Regroup(Line(entries[0]), Lines(entries[1..]), Line(e));
    }
  }

  lemma {:induction false} LineLengthStops(line: string, rest: string)
    requires '\n' !in line
    ensures LineLength(line + "\n" + rest) == |line| + 1
    ensures LineLength(line) == |line|
  {
    if line == [] {
      assert line + "\n" + rest == "\n" + rest;
    } else {
      assert (line + "\n" + rest)[1..] == line[1..] + "\n" + rest;
      LineLengthStops(line[1..], rest);
    }
  }

  /** Stripping a line that begins with a brace keeps a nonempty prefix of it. */
  lemma {:induction false} StripIsPrefix(line: string)
    requires line != [] && line[0] == '{'
    ensures Strip(line) != [] && Strip(line) <= line
  {
    TrimEndIsPrefix(line);
  }

  lemma {:induction false} TrimEndIsPrefix(line: string)
    requires line != [] && line[0] == '{'
    ensures TrimEnd(line) != [] && TrimEnd(line) <= line
  {
    if IsBlank(line[|line| - 1]) {
      TrimEndIsPrefix(line[..|line| - 1]);
    }
  }

  lemma StripLine(e: Entry)
    ensures Strip(Line(e)) == Strip(Encode(e)) == Encode(e)
  {
    EncodeShape(e);
    assert Line(e)[..|Line(e)| - 1] == Encode(e);
  }

  lemma ReadOneLine(e: Entry, rest: string)
    ensures ReadLog(Line(e) + rest) == Prepend([e], Line(e), ReadLog(rest))
  {
    var file := Line(e) + rest;
    EncodeShape(e);
    LineLengthStops(Encode(e), rest);
    StripLine(e);
    assert file == Encode(e) + "\n" + rest;
    assert file[..|Line(e)|] == Line(e) && file[|Line(e)|..] == rest;
    DecodeEncodedPlus(e, []);
    assert Encode(e) + [] == Encode(e);
  }

  lemma {:induction false} ReadWholeLines(entries: seq<Entry>, rest: string)
    ensures ReadLog(Lines(entries) + rest) == Prepend(entries, Lines(entries), ReadLog(rest))
  {
    if entries == [] {
      assert Lines(entries) + rest == rest;
      var log := ReadLog(rest);
      assert log.Log? ==> [] + log.entries == log.entries && [] + log.file == log.file;
    } else {
      var e, others := entries[0], entries[1..];
      assert Lines(entries) + rest == Line(e) + (Lines(others) + rest);
      ReadOneLine(e, Lines(others) + rest);
      ReadWholeLines(others, rest);
      PrependMore([e], others, Line(e), Lines(others), ReadLog(rest));
      assert [e] + others == entries;
    }
  }

  lemma ReadComplete(entries: seq<Entry>)
    ensures ReadLog(Lines(entries)) == Log(entries, Lines(entries))
  {
    ReadWholeLines(entries, []);
    assert Lines(entries) + [] == Lines(entries) && entries + [] == entries;
  }

  /** A log cut strictly inside its last object reads as if that object had never
      been started, and the fragment is gone from the file. */
  lemma CutInsideRecovers(entries: seq<Entry>, e: Entry, k: nat)
    requires k < |Encode(e)|
    ensures ReadLog(Lines(entries) + Encode(e)[..k]) == Log(entries, Lines(entries))
  {
    ReadWholeLines(entries, Encode(e)[..k]);
    ReadFragment(e, k);
    assert Lines(entries) + [] == Lines(entries) && entries + [] == entries;
  }

  lemma ReadFragment(e: Entry, k: nat)
    requires k < |Encode(e)|
    ensures ReadLog(Encode(e)[..k]) == Log([], [])
  {
    var fragment := Encode(e)[..k];
    EncodeShape(e);
    if k > 0 {
      LineLengthStops(fragment, []);
      StripIsPrefix(fragment);
      var j := |Strip(fragment)|;
      assert Strip(fragment) == Encode(e)[..j];
      CutObjectFails(e, j);
      assert fragment[..k] == fragment && fragment[k..] == [];
    }
  }

  /** A log cut between its last object and the newline reads with that entry,
      but keeps its missing newline. */
  lemma CutBeforeNewlineReads(entries: seq<Entry>, e: Entry)
    ensures ReadLog(Lines(entries) + Encode(e)) == Log(entries + [e], Lines(entries) + Encode(e))
  {
    ReadWholeLines(entries, Encode(e));
    EncodeShape(e);
    LineLengthStops(Encode(e), []);
    StripLine(e);
    DecodeEncodedPlus(e, []);
    assert Encode(e) + [] == Encode(e);
    assert Encode(e)[..|Encode(e)|] == Encode(e) && Encode(e)[|Encode(e)|..] == [];
    assert ReadLog(Encode(e)) == Log([e], Encode(e));
  }

  lemma StripJoined(e: Entry, f: Entry)
    ensures Strip(Encode(e) + Line(f)) == Encode(e) + Encode(f)
  {
    EncodeShape(e);
    EncodeShape(f);
    var joined, content := Encode(e) + Line(f), Encode(e) + Encode(f);
    assert joined == content + "\n" && joined[..|joined| - 1] == content;
    assert content[|content| - 1] == '}' && TrimEnd(content) == content;
    assert TrimStart(joined) == joined;
  }

  /** Two objects on one line are unreadable: as the last line they are dropped,
      before further lines they refuse the log. */
  lemma ReadJoined(e: Entry, f: Entry, more: string)
    ensures ReadLog(Encode(e) + Line(f) + more) == if more == [] then Log([], []) else Corrupt
  {
    EncodeShape(e);
    EncodeShape(f);
    var joined, content := Encode(e) + Line(f), Encode(e) + Encode(f);
    var file := joined + more;
    assert file == content + "\n" + more;
    LineLengthStops(content, more);
    assert file[..|joined|] == joined && file[|joined|..] == more;
    StripJoined(e, f);
    DecodeEncodedPlus(e, Encode(f));
  }

  lemma JoinedObjectsAreLost(entries: seq<Entry>, e: Entry, f: Entry, more: string)
    ensures ReadLog(Lines(entries) + Encode(e) + Line(f) + more)
            == if more == [] then Log(entries, Lines(entries)) else Corrupt
  {
    FourParts(Lines(entries), Encode(e), Line(f), more);
    ReadWholeLines(entries, Encode(e) + Line(f) + more);
    ReadJoined(e, f, more);
    assert Lines(entries) + [] == Lines(entries) && entries + [] == entries;
  }

  lemma FourParts(a: string, b: string, c: string, d: string)
    ensures a + b + c + d == a + (b + c + d)
  {
  }

  /** The entries of a log whose last append was cut after `cut` characters. */
  function KeptEntries(entries: seq<Entry>, e: Entry, cut: nat): seq<Entry> {
    if cut < |Encode(e)| then entries else entries + [e]
  }

  /** What reading that log leaves in the file. */
  function RecoveredFile(entries: seq<Entry>, e: Entry, cut: nat): string {
    if cut == |Encode(e)| then Lines(entries) + Encode(e) else Lines(KeptEntries(entries, e, cut))
  }

  lemma CutReads(entries: seq<Entry>, e: Entry, cut: nat)
    requires cut <= |Line(e)|
    ensures ReadLog(Lines(entries) + Line(e)[..cut])
            == Log(KeptEntries(entries, e, cut), RecoveredFile(entries, e, cut))
  {
    if cut < |Encode(e)| {
      assert Line(e)[..cut] == Encode(e)[..cut];
      CutInsideRecovers(entries, e, cut);
    } else if cut == |Encode(e)| {
      assert Line(e)[..cut] == Encode(e);
      CutBeforeNewlineReads(entries, e);
    } else {
      assert Line(e)[..cut] == Line(e);
      LinesAppend(entries, e);
      ReadComplete(entries + [e]);
    }
  }

  lemma {:induction false} LinesJoin(entries: seq<Entry>, more: seq<Entry>)
    ensures Lines(entries + more) == Lines(entries) + Lines(more)
  {
    if entries == [] {
      assert [] + more == more;
    } else {
      assert (entries + more)[1..] == entries[1..] + more;
      LinesJoin(entries[1..], more);
    }
  }

  /** What the recovered log reads as once `fs` were appended to it. */
  function ReadAfterAppends(entries: seq<Entry>, e: Entry, cut: nat, fs: seq<Entry>): Log {
    if cut != |Encode(e)| || fs == [] then
      Log(KeptEntries(entries, e, cut) + fs, RecoveredFile(entries, e, cut) + Lines(fs))
    else if |fs| == 1 then Log(entries, Lines(entries))
    else Corrupt
  }

  /** What a log reads as after a crash cut the append of `e` to its first `cut`
      characters, the process came back and read it, and `fs` were appended. All of
      it reads back exactly when the cut was not at the missing newline or nothing
      was appended. Otherwise one append is dropped together with `e`, and after
      two or more the log is refused. */
  lemma AppendsAfterCut(entries: seq<Entry>, e: Entry, cut: nat, fs: seq<Entry>)
    requires cut <= |Line(e)|
    ensures ReadLog(Lines(entries) + Line(e)[..cut])
            == Log(KeptEntries(entries, e, cut), RecoveredFile(entries, e, cut))
    ensures ReadLog(RecoveredFile(entries, e, cut) + Lines(fs)) == ReadAfterAppends(entries, e, cut, fs)
  {
    CutReads(entries, e, cut);
    if cut != |Encode(e)| {
      AppendsToWholeLines(KeptEntries(entries, e, cut), fs);
    } else {
      AppendsAfterNewlineLost(entries, e, fs);
    }
  }

  lemma AppendsToWholeLines(entries: seq<Entry>, fs: seq<Entry>)
    ensures ReadLog(Lines(entries) + Lines(fs)) == Log(entries + fs, Lines(entries) + Lines(fs))
  {
    LinesJoin(entries, fs);
    ReadComplete(entries + fs);
  }

  lemma AppendsAfterNewlineLost(entries: seq<Entry>, e: Entry, fs: seq<Entry>)
    ensures ReadLog(Lines(entries) + Encode(e) + Lines(fs)) == ReadAfterAppends(entries, e, |Encode(e)|, fs)
  {
    var file := Lines(entries) + Encode(e);
    if fs == [] {
      assert file + Lines(fs) == file && entries + [e] + [] == entries + [e];
      CutBeforeNewlineReads(entries, e);
    } else {
      assert file + Lines(fs) == file + Line(fs[0]) + Lines(fs[1..]);
      JoinedObjectsAreLost(entries, e, fs[0], Lines(fs[1..]));
      assert |fs| > 1 ==> Lines(fs[1..]) != [];
    }
  }
}
