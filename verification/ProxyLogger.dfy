/** The streaming log splitter of pkg/executor/executor.go: `proxyLogger`
    cuts the byte stream of a hook's stdout or stderr into records.

    The JSON parser behind `tryLogJSON` is a parameter: any deterministic
    classifier of byte strings. */
module ProxyLogger {
  import opened Common

  /** bufio.MaxScanTokenSize */
  const MAX_SCAN_TOKEN_SIZE: nat := 65536

  const TAB: byte := 9
  const NEWLINE: byte := 10
  const CARRIAGE_RETURN: byte := 13
  const SPACE: byte := 32
  const QUOTE: byte := 34
  const OPEN_BRACKET: byte := 91
  const OPEN_BRACE: byte := 123

  /** What `tryLogJSON` makes of a document: it was logged, it is a proper prefix
      of a document (io.ErrUnexpectedEOF), or it is any other error. */
  datatype Verdict = Complete | Incomplete | Malformed

  datatype Config = Config(logProxyHookJSON: bool, tryLogJSON: Bytes -> Verdict)

  /** What reaches the log: a parsed document or a line of text, trimmed and truncated. */
  datatype Emission = Document(doc: Bytes) | Text(line: Bytes)

  /** `records` lists the arguments of every call of `logLine` so far. */
  datatype Stream = Stream(buf: Bytes, jsonBuf: Bytes, records: seq<Bytes>, emitted: seq<Emission>)

  const EMPTY_STREAM := Stream([], [], [], [])

  // ---------------------------------------------------------------------
  // The decisions of the code, as functions

  /** bytes.IndexByte(b, '\n') */
  function IndexOfNewline(b: Bytes): (i: int)
    ensures -1 <= i < |b|
    ensures i >= 0 ==> b[i] == NEWLINE && NEWLINE !in b[..i]
    ensures i == -1 ==> NEWLINE !in b
  {
    if b == [] then -1
    else if b[0] == NEWLINE then 0
    else
      var r := IndexOfNewline(b[1..]);
      if r < 0 then -1 else assert b[..r + 1] == [b[0]] + b[1..][..r]; r + 1
  }

  /** The cutset " \t\r\n" of `hasPendingJSON`. */
  predicate IsBlank(c: byte) {
    c == SPACE || c == TAB || c == CARRIAGE_RETURN || c == NEWLINE
  }

  predicate AllBlank(b: Bytes) {
    forall i :: 0 <= i < |b| ==> IsBlank(b[i])
  }

  /** bytes.TrimLeft(b, " \t\r\n") */
  function TrimLeft(b: Bytes): Bytes {
    if b != [] && IsBlank(b[0]) then TrimLeft(b[1..]) else b
  }

  /** The prefix tests "{", and "[" or "\"" when JSON output is proxied. */
  predicate StartsDocument(cfg: Config, b: Bytes) {
    b != [] && (b[0] == OPEN_BRACE || (cfg.logProxyHookJSON && (b[0] == OPEN_BRACKET || b[0] == QUOTE)))
  }

  predicate HasPendingJSON(cfg: Config, jsonBuf: Bytes, buf: Bytes) {
    jsonBuf != [] || StartsDocument(cfg, TrimLeft(buf))
  }

  /** The number of bytes the next round of Write's loop cuts off; 0 stops the loop. */
  function CutSize(cfg: Config, jsonBuf: Bytes, buf: Bytes): (n: nat)
    ensures n <= |buf|
  {
    var lineSize := IndexOfNewline(buf) + 1;
    if && !HasPendingJSON(cfg, jsonBuf, buf)
       && |buf| >= MAX_SCAN_TOKEN_SIZE
       && (lineSize == 0 || lineSize > MAX_SCAN_TOKEN_SIZE)
    then MAX_SCAN_TOKEN_SIZE
    else lineSize
  }

  /** The length of the white space rune (unicode.IsSpace, UTF-8) at the front of `b`; 0 if there is none. */
  function SpaceRune(b: Bytes): (n: nat)
    ensures n <= |b|
  {
    if |b| >= 1 && (9 <= b[0] <= 13 || b[0] == SPACE) then 1
    else if |b| >= 2 && b[0] == 0xC2 && (b[1] == 0x85 || b[1] == 0xA0) then 2
    else if |b| >= 3
         && ( || (b[0] == 0xE1 && b[1] == 0x9A && b[2] == 0x80)
              || (b[0] == 0xE2 && b[1] == 0x80 && (0x80 <= b[2] <= 0x8A || b[2] == 0xA8 || b[2] == 0xA9 || b[2] == 0xAF))
              || (b[0] == 0xE2 && b[1] == 0x81 && b[2] == 0x9F)
              || (b[0] == 0xE3 && b[1] == 0x80 && b[2] == 0x80)) then 3
    else 0
  }

  /** The left end of strings.TrimSpace. */
  function TrimSpaceLeft(b: Bytes): Bytes {
    var n := SpaceRune(b);
    if n == 0 then b else TrimSpaceLeft(b[n..])
  }

  /** The length of the white space rune at the end of `b`; 0 if there is none. */
  function LastSpaceRune(b: Bytes): (n: nat)
    ensures n <= |b|
    ensures n > 0 ==> SpaceRune(b[|b| - n..]) == n
  {
    if |b| >= 1 && SpaceRune(b[|b| - 1..]) == 1 then 1
    else if |b| >= 2 && SpaceRune(b[|b| - 2..]) == 2 then 2
    else if |b| >= 3 && SpaceRune(b[|b| - 3..]) == 3 then 3
    else 0
  }

  function TrimSpaceRight(b: Bytes): (r: Bytes)
    ensures r <= b
  {
    var n := LastSpaceRune(b);
    if n == 0 then b else TrimSpaceRight(b[..|b| - n])
  }

  /** strings.TrimSpace */
  function TrimSpace(b: Bytes): Bytes {
    TrimSpaceRight(TrimSpaceLeft(b))
  }

  lemma {:induction false} TrimSpaceLeftStarts(b: Bytes)
    ensures SpaceRune(TrimSpaceLeft(b)) == 0
    decreases |b|
  {
    var n := SpaceRune(b);
    if n != 0 {
      TrimSpaceLeftStarts(b[n..]);
    }
  }

  lemma {:induction false} RightTrimLeavesStart(b: Bytes)
    requires b != [] && SpaceRune(b) == 0
    ensures TrimSpaceRight(b) != []
    decreases |b|
  {
    var n := LastSpaceRune(b);
    if n != 0 {
      var init := b[..|b| - n];
      assert n < |b| by {
        assert b[0..] == b;
      }
      SpaceRuneOfPrefix(b, |b| - n);
      RightTrimLeavesStart(init);
    }
  }

  lemma SpaceRuneOfPrefix(b: Bytes, k: nat)
    requires k <= |b| && SpaceRune(b) == 0
    ensures SpaceRune(b[..k]) == 0
  {
  }

  /** Trimming the right end changes neither whether anything is left nor how it starts. */
  lemma TrimSpaceStarts(cfg: Config, b: Bytes)
    ensures TrimSpace(b) == [] <==> TrimSpaceLeft(b) == []
    ensures StartsDocument(cfg, TrimSpace(b)) <==> StartsDocument(cfg, TrimSpaceLeft(b))
  {
    TrimSpaceLeftStarts(b);
    if TrimSpaceLeft(b) != [] {
      RightTrimLeavesStart(TrimSpaceLeft(b));
    }
  }

  const MAX_TEXT_SIZE: nat := 10000

  /** ":truncated" */
  const TRUNCATED: Bytes := [58, 116, 114, 117, 110, 99, 97, 116, 101, 100]

  /** The line that logText passes on. */
  function LogText(line: Bytes): (r: Bytes)
    ensures |r| <= MAX_TEXT_SIZE + |TRUNCATED|
  {
    var trimmed := TrimSpace(line);
    if |trimmed| > MAX_TEXT_SIZE then trimmed[..MAX_TEXT_SIZE] + TRUNCATED else trimmed
  }

  /** Whether `logLine` treats `raw` as (part of) a document. */
  predicate InDocument(cfg: Config, jsonBuf: Bytes, raw: Bytes) {
    jsonBuf != [] || StartsDocument(cfg, TrimSpaceLeft(raw))
  }

  /** The document collected so far, after `logLine(raw)`. */
  function NextJsonBuf(cfg: Config, jsonBuf: Bytes, raw: Bytes): Bytes {
    if InDocument(cfg, jsonBuf, raw) && cfg.tryLogJSON(jsonBuf + raw).Incomplete? then jsonBuf + raw else []
  }

  /** What `logLine(raw)` logs. */
  function Emissions(cfg: Config, jsonBuf: Bytes, raw: Bytes): seq<Emission> {
    if InDocument(cfg, jsonBuf, raw) then
      match cfg.tryLogJSON(jsonBuf + raw)
      case Incomplete => []
      case Malformed => [Text(LogText(jsonBuf + raw))]
      case Complete => [Document(jsonBuf + raw)]
    else if TrimSpaceLeft(raw) == [] then []
    else if cfg.tryLogJSON(raw).Complete? then [Document(raw)]
    else [Text(LogText(TrimSpace(raw)))]
  }

  /** logLine */
  function LoggedLine(cfg: Config, s: Stream, raw: Bytes): Stream {
    s.(jsonBuf := NextJsonBuf(cfg, s.jsonBuf, raw),
       records := s.records + [raw],
       emitted := s.emitted + Emissions(cfg, s.jsonBuf, raw))
  }

  /** One round of Write's loop: log the first `n` bytes and drop them from the buffer. */
  function Cut(cfg: Config, s: Stream, n: nat): Stream
    requires n <= |s.buf|
  {
    LoggedLine(cfg, s, s.buf[..n]).(buf := s.buf[n..])
  }

  /** Write's loop. */
  function Drained(cfg: Config, s: Stream): Stream
    decreases |s.buf|
  {
    var n := CutSize(cfg, s.jsonBuf, s.buf);
    if n == 0 then s else Drained(cfg, Cut(cfg, s, n))
  }

  function Written(cfg: Config, s: Stream, p: Bytes): Stream {
    Drained(cfg, s.(buf := s.buf + p))
  }

  function Flushed(cfg: Config, s: Stream): Stream {
    var t := if s.buf != [] then LoggedLine(cfg, s, s.buf).(buf := []) else s;
    if t.jsonBuf != [] then t.(jsonBuf := [], emitted := t.emitted + [Text(LogText(t.jsonBuf))]) else t
  }

  /** Any number of Write calls, in order. */
  function Fed(cfg: Config, s: Stream, chunks: seq<Bytes>): Stream
    decreases |chunks|
  {
    if chunks == [] then s else Fed(cfg, Written(cfg, s, chunks[0]), chunks[1..])
  }

  /** The logger after the hook wrote `chunks` and exited. */
  function Output(cfg: Config, chunks: seq<Bytes>): Stream {
    Flushed(cfg, Fed(cfg, EMPTY_STREAM, chunks))
  }

  // ---------------------------------------------------------------------
  // Conservation, bounds and progress

  lemma {:induction false} DrainConserves(cfg: Config, s: Stream)
    ensures Concat(Drained(cfg, s).records) + Drained(cfg, s).buf == Concat(s.records) + s.buf
    decreases |s.buf|
  {
    var n := CutSize(cfg, s.jsonBuf, s.buf);
    if n != 0 {
      var line, rest := s.buf[..n], s.buf[n..];
      ConcatSnoc(s.records, line);
      assert (Concat(s.records) + line) + rest == Concat(s.records) + s.buf;
      DrainConserves(cfg, Cut(cfg, s, n));
    }
  }

  /** Nothing is lost, duplicated or reordered: the records and what is still buffered
      are, byte for byte, what was written. */
  lemma {:induction false} StreamIsConserved(cfg: Config, s: Stream, chunks: seq<Bytes>)
    ensures
      var t := Fed(cfg, s, chunks);
      Concat(t.records) + t.buf == Concat(s.records) + s.buf + Concat(chunks)
    decreases |chunks|
  {
    if chunks != [] {
      DrainConserves(cfg, s.(buf := s.buf + chunks[0]));
      StreamIsConserved(cfg, Written(cfg, s, chunks[0]), chunks[1..]);
    }
  }

  /** After the final flush the records alone are the whole stream. */
  lemma OutputIsWholeStream(cfg: Config, chunks: seq<Bytes>)
    ensures Concat(Output(cfg, chunks).records) == Concat(chunks)
    ensures Output(cfg, chunks).buf == [] && Output(cfg, chunks).jsonBuf == []
  {
    StreamIsConserved(cfg, EMPTY_STREAM, chunks);
    var t := Fed(cfg, EMPTY_STREAM, chunks);
    ConcatSnoc(t.records, t.buf);
    assert Concat(EMPTY_STREAM.records) + EMPTY_STREAM.buf == [] && [] + Concat(chunks) == Concat(chunks);
    if t.buf == [] {
      assert Concat(t.records) + [] == Concat(t.records);
      assert Output(cfg, chunks).records == t.records;
    } else {
      assert Output(cfg, chunks).records == t.records + [t.buf];
    }
  }

  /** What is left in the buffer after a Write holds no newline, and is below the cap unless
      a document is being collected. */
  lemma {:induction false} BufferAfterDrain(cfg: Config, s: Stream)
    ensures
      var t := Drained(cfg, s);
      NEWLINE !in t.buf && (|t.buf| < MAX_SCAN_TOKEN_SIZE || HasPendingJSON(cfg, t.jsonBuf, t.buf))
    decreases |s.buf|
  {
    var n := CutSize(cfg, s.jsonBuf, s.buf);
    if n != 0 {
      BufferAfterDrain(cfg, Cut(cfg, s, n));
    }
  }

  /** The document being collected after `logLine` was called on each of `records`. */
  function JsonBufAfter(cfg: Config, records: seq<Bytes>): Bytes {
    if records == [] then []
    else NextJsonBuf(cfg, JsonBufAfter(cfg, records[..|records| - 1]), records[|records| - 1])
  }

  /** Everything logged by those calls. */
  function EmittedBy(cfg: Config, records: seq<Bytes>): seq<Emission> {
    if records == [] then []
    else
      var before := records[..|records| - 1];
      EmittedBy(cfg, before) + Emissions(cfg, JsonBufAfter(cfg, before), records[|records| - 1])
  }

  /** Record `i` is handed over outside of any document and has text that opens none. */
  predicate HasText(cfg: Config, records: seq<Bytes>, i: nat)
    requires i < |records|
  {
    && JsonBufAfter(cfg, records[..i]) == []
    && TrimLeft(records[i]) != []
    && !StartsDocument(cfg, TrimLeft(records[i]))
  }

  predicate TextRecordsCapped(cfg: Config, records: seq<Bytes>) {
    forall i :: 0 <= i < |records| && HasText(cfg, records, i) ==> |records[i]| <= MAX_SCAN_TOKEN_SIZE
  }

  /** What holds between any two steps of the logger. */
  predicate WellLogged(cfg: Config, s: Stream) {
    && TextRecordsCapped(cfg, s.records)
    && s.jsonBuf == JsonBufAfter(cfg, s.records)
    && s.emitted == EmittedBy(cfg, s.records)
  }

  lemma AppendKeepsCapped(cfg: Config, records: seq<Bytes>, raw: Bytes)
    requires TextRecordsCapped(cfg, records)
    requires HasText(cfg, records + [raw], |records|) ==> |raw| <= MAX_SCAN_TOKEN_SIZE
    ensures TextRecordsCapped(cfg, records + [raw])
  {
    var rs := records + [raw];
    forall i | 0 <= i < |rs| && HasText(cfg, rs, i)
      ensures |rs[i]| <= MAX_SCAN_TOKEN_SIZE
    {
      if i < |records| {
        assert rs[..i] == records[..i];
        assert HasText(cfg, records, i);
      }
    }
  }

  lemma LogLineKeepsWellLogged(cfg: Config, s: Stream, raw: Bytes)
    requires WellLogged(cfg, s)
    requires s.jsonBuf == [] && TrimLeft(raw) != [] && !StartsDocument(cfg, TrimLeft(raw)) ==> |raw| <= MAX_SCAN_TOKEN_SIZE
    ensures WellLogged(cfg, LoggedLine(cfg, s, raw))
  {
    var rs := s.records + [raw];
    assert rs[..|s.records|] == s.records;
    AppendKeepsCapped(cfg, s.records, raw);
  }

  lemma {:induction false} TrimLeftOfPrefix(a: Bytes, b: Bytes)
    ensures TrimLeft(a) == [] ==> TrimLeft(a + b) == TrimLeft(b)
    ensures TrimLeft(a) != [] ==> TrimLeft(a + b) == TrimLeft(a) + b
    ensures TrimLeft(a) == [] <==> AllBlank(a)
    decreases |a|
  {
    if a == [] {
      assert a + b == b;
    } else if IsBlank(a[0]) {
      assert (a + b)[1..] == a[1..] + b;
      TrimLeftOfPrefix(a[1..], b);
      assert AllBlank(a) <==> AllBlank(a[1..]) by {
        assert forall i :: 1 <= i < |a| ==> a[i] == a[1..][i - 1];
      }
    }
  }

  lemma {:induction false} DrainKeepsWellLogged(cfg: Config, s: Stream)
    requires WellLogged(cfg, s)
    ensures WellLogged(cfg, Drained(cfg, s))
    decreases |s.buf|
  {
    var n := CutSize(cfg, s.jsonBuf, s.buf);
    if n != 0 {
      var raw := s.buf[..n];
      assert raw + s.buf[n..] == s.buf;
      TrimLeftOfPrefix(raw, s.buf[n..]);
      LogLineKeepsWellLogged(cfg, s, raw);
      DrainKeepsWellLogged(cfg, Cut(cfg, s, n));
    }
  }

  lemma {:induction false} FeedKeepsWellLogged(cfg: Config, s: Stream, chunks: seq<Bytes>)
    requires WellLogged(cfg, s) && Drained(cfg, s) == s
    ensures var t := Fed(cfg, s, chunks); WellLogged(cfg, t) && Drained(cfg, t) == t
    decreases |chunks|
  {
    if chunks != [] {
      DrainKeepsWellLogged(cfg, s.(buf := s.buf + chunks[0]));
      DrainIsIdempotent(cfg, s.(buf := s.buf + chunks[0]));
      FeedKeepsWellLogged(cfg, Written(cfg, s, chunks[0]), chunks[1..]);
    }
  }

  lemma {:induction false} DrainIsIdempotent(cfg: Config, s: Stream)
    ensures Drained(cfg, Drained(cfg, s)) == Drained(cfg, s)
    decreases |s.buf|
  {
    var n := CutSize(cfg, s.jsonBuf, s.buf);
    if n != 0 {
      DrainIsIdempotent(cfg, Cut(cfg, s, n));
    }
  }

  /** However the stream is chunked, no record with text exceeds the cap outside of documents, and what is logged
      is determined by the records. */
  lemma TextRecordsFitTheCap(cfg: Config, chunks: seq<Bytes>)
    ensures
      var t := Output(cfg, chunks);
      && TextRecordsCapped(cfg, t.records)
      && t.emitted == EmittedBy(cfg, t.records)
         + (if JsonBufAfter(cfg, t.records) == [] then [] else [Text(LogText(JsonBufAfter(cfg, t.records)))])
  {
    FeedKeepsWellLogged(cfg, EMPTY_STREAM, chunks);
    FlushKeepsWellLogged(cfg, Fed(cfg, EMPTY_STREAM, chunks));
  }

  lemma FlushKeepsWellLogged(cfg: Config, t: Stream)
    requires WellLogged(cfg, t) && Drained(cfg, t) == t
    ensures
      var f := Flushed(cfg, t);
      && TextRecordsCapped(cfg, f.records)
      && f.emitted == EmittedBy(cfg, f.records)
         + (if JsonBufAfter(cfg, f.records) == [] then [] else [Text(LogText(JsonBufAfter(cfg, f.records)))])
  {
    if t.buf != [] {
      BufferAfterDrain(cfg, t);
      LogLineKeepsWellLogged(cfg, t, t.buf);
      FlushEmpty(cfg, LoggedLine(cfg, t, t.buf).(buf := []));
      assert Flushed(cfg, t) == Flushed(cfg, LoggedLine(cfg, t, t.buf).(buf := []));
    } else {
      FlushEmpty(cfg, t);
    }
  }

  lemma FlushEmpty(cfg: Config, t: Stream)
    requires t.buf == [] && t.jsonBuf == JsonBufAfter(cfg, t.records) && t.emitted == EmittedBy(cfg, t.records)
    ensures
      var f := Flushed(cfg, t);
      && f.records == t.records
      && f.emitted == t.emitted + (if t.jsonBuf == [] then [] else [Text(LogText(t.jsonBuf))])
  {
    assert t.emitted + [] == t.emitted;
  }

  // ---------------------------------------------------------------------
  // Independence from chunk boundaries

  /** A record starts here with at least 65536 blank bytes and no newline among them, and the first
      byte that is not blank opens a document. Whether those blanks are cut off at the cap depends
      on whether that byte has been written yet. */
  predicate LooksAheadPastCap(cfg: Config, jsonBuf: Bytes, rest: Bytes) {
    && jsonBuf == []
    && |rest| >= MAX_SCAN_TOKEN_SIZE
    && AllBlank(rest[..MAX_SCAN_TOKEN_SIZE])
    && NEWLINE !in rest[..MAX_SCAN_TOKEN_SIZE]
    && StartsDocument(cfg, TrimLeft(rest))
  }

  /** Some record of `rest` starts that way, when all of it is written at once. */
  predicate Ambiguous(cfg: Config, jsonBuf: Bytes, rest: Bytes)
    decreases |rest|
  {
    || LooksAheadPastCap(cfg, jsonBuf, rest)
    || (var n := CutSize(cfg, jsonBuf, rest);
        n > 0 && Ambiguous(cfg, NextJsonBuf(cfg, jsonBuf, rest[..n]), rest[n..]))
  }

  lemma {:induction false} NewlineOfPrefix(a: Bytes, b: Bytes)
    ensures NEWLINE in a ==> IndexOfNewline(a + b) == IndexOfNewline(a)
    ensures NEWLINE !in a ==> IndexOfNewline(a + b) == -1 || IndexOfNewline(a + b) >= |a|
    decreases |a|
  {
    if a == [] {
      assert a + b == b;
    } else {
      assert (a + b)[1..] == a[1..] + b;
      assert a == [a[0]] + a[1..];
      NewlineOfPrefix(a[1..], b);
    }
  }

  /** A cut decided on a part of the stream is the cut the whole stream would give. */
  lemma CutIgnoresTheFuture(cfg: Config, jsonBuf: Bytes, a: Bytes, b: Bytes)
    requires CutSize(cfg, jsonBuf, a) > 0
    requires !LooksAheadPastCap(cfg, jsonBuf, a + b)
    ensures CutSize(cfg, jsonBuf, a + b) == CutSize(cfg, jsonBuf, a)
  {
    NewlineOfPrefix(a, b);
    TrimLeftOfPrefix(a, b);
    if TrimLeft(a) == [] && |a| >= MAX_SCAN_TOKEN_SIZE {
      assert (a + b)[..MAX_SCAN_TOKEN_SIZE] == a[..MAX_SCAN_TOKEN_SIZE];
    }
  }

  /** Draining what came first and then the rest is draining it all. */
  lemma {:induction false} DrainInTwoSteps(cfg: Config, s: Stream, p: Bytes)
    requires !Ambiguous(cfg, s.jsonBuf, s.buf + p)
    ensures
      var t := Drained(cfg, s);
      && Drained(cfg, t.(buf := t.buf + p)) == Drained(cfg, s.(buf := s.buf + p))
      && !Ambiguous(cfg, t.jsonBuf, t.buf + p)
    decreases |s.buf|
  {
    var n := CutSize(cfg, s.jsonBuf, s.buf);
    if n != 0 {
      CutIgnoresTheFuture(cfg, s.jsonBuf, s.buf, p);
      var whole := s.buf + p;
      assert whole[..n] == s.buf[..n] && whole[n..] == s.buf[n..] + p;
      DrainInTwoSteps(cfg, Cut(cfg, s, n), p);
    }
  }

  lemma {:induction false} FeedIsOneWrite(cfg: Config, s: Stream, chunks: seq<Bytes>)
    requires Drained(cfg, s) == s
    requires !Ambiguous(cfg, s.jsonBuf, s.buf + Concat(chunks))
    ensures Fed(cfg, s, chunks) == Written(cfg, s, Concat(chunks))
    decreases |chunks|
  {
    if chunks == [] {
      assert s.(buf := s.buf + []) == s;
    } else {
      var p, tail := chunks[0], chunks[1..];
      WriteInTwoSteps(cfg, s, p, Concat(tail));
      FeedIsOneWrite(cfg, Written(cfg, s, p), tail);
    }
  }

  lemma WriteInTwoSteps(cfg: Config, s: Stream, p: Bytes, rest: Bytes)
    requires !Ambiguous(cfg, s.jsonBuf, s.buf + (p + rest))
    ensures
      var t := Written(cfg, s, p);
      && Drained(cfg, t) == t && !Ambiguous(cfg, t.jsonBuf, t.buf + rest)
      && Written(cfg, t, rest) == Written(cfg, s, p + rest)
  {
    var s1 := s.(buf := s.buf + p);
    AppendAssociates(s.buf, p, rest);
    assert s1.(buf := s1.buf + rest) == s.(buf := s.buf + (p + rest));
    DrainInTwoSteps(cfg, s1, rest);
    DrainIsIdempotent(cfg, s1);
  }

  lemma {:induction false} DrainOnlyAppends(cfg: Config, s: Stream)
    ensures s.records <= Drained(cfg, s).records
    decreases |s.buf|
  {
    var n := CutSize(cfg, s.jsonBuf, s.buf);
    if n != 0 {
      DrainOnlyAppends(cfg, Cut(cfg, s, n));
    }
  }

  /** A cut of the whole stream is also made when the stream is written up to anywhere behind it. */
  lemma CutOfPrefix(cfg: Config, jsonBuf: Bytes, whole: Bytes, k: nat)
    requires k <= |whole| && 0 < CutSize(cfg, jsonBuf, whole) <= k
    requires !LooksAheadPastCap(cfg, jsonBuf, whole)
    ensures CutSize(cfg, jsonBuf, whole[..k]) == CutSize(cfg, jsonBuf, whole)
  {
    var a, b := whole[..k], whole[k..];
    assert a + b == whole;
    NewlineOfPrefix(a, b);
    TrimLeftOfPrefix(a, b);
    if TrimLeft(a) == [] && k >= MAX_SCAN_TOKEN_SIZE {
      assert whole[..MAX_SCAN_TOKEN_SIZE] == a[..MAX_SCAN_TOKEN_SIZE];
    }
  }

  /** The records when `a` and then `b` are written, and flushed. */
  function RecordsOfTwo(cfg: Config, s: Stream, a: Bytes, b: Bytes): seq<Bytes> {
    Flushed(cfg, Written(cfg, Written(cfg, s, a), b)).records
  }

  function RecordsOfOne(cfg: Config, s: Stream, a: Bytes): seq<Bytes> {
    Flushed(cfg, Written(cfg, s, a)).records
  }

  /** An ambiguous stream gives different records when it is written in one piece and when it is
      written in two, split behind position `k`. */
  lemma {:induction false} AmbiguousStreamsDiverge(cfg: Config, s: Stream, rest: Bytes) returns (k: nat)
    requires s.buf == [] && Ambiguous(cfg, s.jsonBuf, rest)
    ensures k <= |rest|
    ensures RecordsOfTwo(cfg, s, rest[..k], rest[k..]) != RecordsOfOne(cfg, s, rest)
    decreases |rest|
  {
    if LooksAheadPastCap(cfg, s.jsonBuf, rest) {
      k := MAX_SCAN_TOKEN_SIZE;
      BlanksAreCutAtTheCap(cfg, s, rest);
      BlanksAreKept(cfg, s, rest);
    } else {
      var n := CutSize(cfg, s.jsonBuf, rest);
      var s1 := LoggedLine(cfg, s, rest[..n]);
      var k1 := AmbiguousStreamsDiverge(cfg, s1, rest[n..]);
      k := n + k1;
      SkipFirstCutOfTwo(cfg, s, rest, k);
      SkipFirstCutOfOne(cfg, s, rest);
    }
  }

  lemma SkipFirstCutOfTwo(cfg: Config, s: Stream, rest: Bytes, k: nat)
    requires s.buf == [] && k <= |rest| && 0 < CutSize(cfg, s.jsonBuf, rest) <= k
    requires !LooksAheadPastCap(cfg, s.jsonBuf, rest)
    ensures
      var n := CutSize(cfg, s.jsonBuf, rest);
      var s1 := LoggedLine(cfg, s, rest[..n]);
      RecordsOfTwo(cfg, s, rest[..k], rest[k..]) == RecordsOfTwo(cfg, s1, rest[n..][..k - n], rest[n..][k - n..])
  {
    var n := CutSize(cfg, s.jsonBuf, rest);
    FirstCut(cfg, s, rest, k);
    assert rest[n..k] == rest[n..][..k - n] && rest[k..] == rest[n..][k - n..];
    SameAfterFirstWrite(cfg, s, rest[..k], LoggedLine(cfg, s, rest[..n]), rest[n..k], rest[k..]);
  }

  lemma SameAfterFirstWrite(cfg: Config, s: Stream, a: Bytes, s': Stream, a': Bytes, b: Bytes)
    requires Written(cfg, s, a) == Written(cfg, s', a')
    ensures RecordsOfTwo(cfg, s, a, b) == RecordsOfTwo(cfg, s', a', b)
  {
  }

  lemma SkipFirstCutOfOne(cfg: Config, s: Stream, rest: Bytes)
    requires s.buf == [] && 0 < CutSize(cfg, s.jsonBuf, rest)
    requires !LooksAheadPastCap(cfg, s.jsonBuf, rest)
    ensures
      var n := CutSize(cfg, s.jsonBuf, rest);
      RecordsOfOne(cfg, s, rest) == RecordsOfOne(cfg, LoggedLine(cfg, s, rest[..n]), rest[n..])
  {
    var n := CutSize(cfg, s.jsonBuf, rest);
    FirstCut(cfg, s, rest, |rest|);
    assert rest[..|rest|] == rest && rest[n..|rest|] == rest[n..];
  }

  /** Writing a stream up to `k` starts with the first cut of the whole stream. */
  lemma FirstCut(cfg: Config, s: Stream, rest: Bytes, k: nat)
    requires s.buf == [] && k <= |rest| && 0 < CutSize(cfg, s.jsonBuf, rest) <= k
    requires !LooksAheadPastCap(cfg, s.jsonBuf, rest)
    ensures
      var n := CutSize(cfg, s.jsonBuf, rest);
      Written(cfg, s, rest[..k]) == Written(cfg, LoggedLine(cfg, s, rest[..n]), rest[n..k])
  {
    var n := CutSize(cfg, s.jsonBuf, rest);
    CutOfPrefix(cfg, s.jsonBuf, rest, k);
    var a, b := rest[..n], rest[n..k];
    assert rest[..k] == a + b;
    FirstLine(cfg, s, a, b);
  }

  /** Writing starts with the first cut. */
  lemma FirstLine(cfg: Config, s: Stream, a: Bytes, b: Bytes)
    requires s.buf == [] && CutSize(cfg, s.jsonBuf, a + b) == |a| > 0
    ensures Written(cfg, s, a + b) == Written(cfg, LoggedLine(cfg, s, a), b)
  {
    var s1, t := s.(buf := a + b), LoggedLine(cfg, s, a);
    assert s.buf + (a + b) == a + b && t.buf + b == b;
    assert (a + b)[..|a|] == a && (a + b)[|a|..] == b;
    assert Cut(cfg, s1, |a|) == t.(buf := b);
  }

  lemma BlanksAreCutAtTheCap(cfg: Config, s: Stream, rest: Bytes)
    requires s.buf == [] && LooksAheadPastCap(cfg, s.jsonBuf, rest)
    ensures
      var t := Written(cfg, Written(cfg, s, rest[..MAX_SCAN_TOKEN_SIZE]), rest[MAX_SCAN_TOKEN_SIZE..]);
      s.records + [rest[..MAX_SCAN_TOKEN_SIZE]] <= Flushed(cfg, t).records
  {
    var a, b := rest[..MAX_SCAN_TOKEN_SIZE], rest[MAX_SCAN_TOKEN_SIZE..];
    TrimLeftOfPrefix(a, []);
    var t := LoggedLine(cfg, s, a);
    assert Written(cfg, s, a) == t by {
      assert s.buf + a == a && a[..MAX_SCAN_TOKEN_SIZE] == a && a[MAX_SCAN_TOKEN_SIZE..] == [];
      assert CutSize(cfg, s.jsonBuf, a) == MAX_SCAN_TOKEN_SIZE;
      assert Cut(cfg, s.(buf := a), MAX_SCAN_TOKEN_SIZE) == t;
      assert Drained(cfg, t) == t;
    }
    DrainOnlyAppends(cfg, t.(buf := t.buf + b));
  }

  lemma PendingPastCap(cfg: Config, jsonBuf: Bytes, rest: Bytes)
    requires LooksAheadPastCap(cfg, jsonBuf, rest)
    ensures |rest| > MAX_SCAN_TOKEN_SIZE
    ensures CutSize(cfg, jsonBuf, rest) == 0 || CutSize(cfg, jsonBuf, rest) > MAX_SCAN_TOKEN_SIZE
  {
    var a, b := rest[..MAX_SCAN_TOKEN_SIZE], rest[MAX_SCAN_TOKEN_SIZE..];
    assert a + b == rest;
    NewlineOfPrefix(a, b);
    TrimLeftOfPrefix(a, b);
  }

  lemma BlanksAreKept(cfg: Config, s: Stream, rest: Bytes)
    requires s.buf == [] && LooksAheadPastCap(cfg, s.jsonBuf, rest)
    ensures
      var rs := Flushed(cfg, Written(cfg, s, rest)).records;
      s.records < rs && |rs[|s.records|]| > MAX_SCAN_TOKEN_SIZE
  {
    PendingPastCap(cfg, s.jsonBuf, rest);
    var whole := s.(buf := rest);
    assert Written(cfg, s, rest) == Drained(cfg, whole) by {
      assert s.buf + rest == rest;
    }
    var n := CutSize(cfg, s.jsonBuf, rest);
    if n > 0 {
      var c := Cut(cfg, whole, n);
      assert c.records == s.records + [rest[..n]];
      DrainOnlyAppends(cfg, c);
    }
  }

  /** Chunking independence, exactly: all ways of splitting a stream into Write calls give the same
      records if and only if no record of it starts with 65536 blank bytes, none of them a newline,
      in front of a document. */
  lemma ChunkingIndependence(cfg: Config, stream: Bytes)
    ensures
      (forall chunks: seq<Bytes> | Concat(chunks) == stream ::
         Output(cfg, chunks).records == Output(cfg, [stream]).records)
      <==> !Ambiguous(cfg, [], stream)
  {
    assert Concat([stream]) == stream;
    if Ambiguous(cfg, [], stream) {
      var k := AmbiguousStreamsDiverge(cfg, EMPTY_STREAM, stream);
      var chunks := [stream[..k], stream[k..]];
      TwoChunks(cfg, stream[..k], stream[k..]);
      assert stream[..k] + stream[k..] == stream;
      assert Output(cfg, chunks).records != Output(cfg, [stream]).records;
    } else {
      forall chunks: seq<Bytes> | Concat(chunks) == stream
        ensures Output(cfg, chunks) == Output(cfg, [stream])
      {
        WholeLogIsIndependent(cfg, chunks);
      }
    }
  }

  lemma TwoChunks(cfg: Config, a: Bytes, b: Bytes)
    ensures Concat([a, b]) == a + b
    ensures Fed(cfg, EMPTY_STREAM, [a, b]) == Written(cfg, Written(cfg, EMPTY_STREAM, a), b)
    ensures Fed(cfg, EMPTY_STREAM, [a + b]) == Written(cfg, EMPTY_STREAM, a + b)
  {
    assert [a, b][1..] == [b] && [b][1..] == [];
    assert Concat([b]) == b + [];
    assert [a + b][1..] == [];
    assert Fed(cfg, Written(cfg, EMPTY_STREAM, a), [b]) == Written(cfg, Written(cfg, EMPTY_STREAM, a), b);
  }

  /** Not only the records: the whole log is the same. */
  lemma WholeLogIsIndependent(cfg: Config, chunks: seq<Bytes>)
    requires !Ambiguous(cfg, [], Concat(chunks))
    ensures Output(cfg, chunks) == Output(cfg, [Concat(chunks)])
  {
    var stream := Concat(chunks);
    assert [stream][1..] == [];
    assert Fed(cfg, EMPTY_STREAM, [stream]) == Written(cfg, EMPTY_STREAM, stream);
    assert !Ambiguous(cfg, EMPTY_STREAM.jsonBuf, EMPTY_STREAM.buf + stream) by {
      assert EMPTY_STREAM.buf + stream == stream;
    }
    FeedIsOneWrite(cfg, EMPTY_STREAM, chunks);
  }

  /** 65536 blanks in a row, within one line. */
  ghost predicate BlankRunAt(b: Bytes, i: nat) {
    && i + MAX_SCAN_TOKEN_SIZE <= |b|
    && AllBlank(b[i..i + MAX_SCAN_TOKEN_SIZE])
    && NEWLINE !in b[i..i + MAX_SCAN_TOKEN_SIZE]
  }

  /** A stream with no such run anywhere is safe for every chunking. */
  lemma {:induction false} OnlyLongBlankRunsAreAmbiguous(cfg: Config, jsonBuf: Bytes, rest: Bytes) returns (i: nat)
    requires Ambiguous(cfg, jsonBuf, rest)
    ensures BlankRunAt(rest, i)
    decreases |rest|
  {
    if LooksAheadPastCap(cfg, jsonBuf, rest) {
      i := 0;
    } else {
      var n := CutSize(cfg, jsonBuf, rest);
      var j := OnlyLongBlankRunsAreAmbiguous(cfg, NextJsonBuf(cfg, jsonBuf, rest[..n]), rest[n..]);
      i := n + j;
      assert rest[n..][j..j + MAX_SCAN_TOKEN_SIZE] == rest[i..i + MAX_SCAN_TOKEN_SIZE];
    }
  }

  /** Such streams exist: 65536 spaces in front of an opening brace. */
  lemma SpacesThenBraceIsAmbiguous(cfg: Config, spaces: Bytes)
    requires |spaces| == MAX_SCAN_TOKEN_SIZE && forall i :: 0 <= i < |spaces| ==> spaces[i] == SPACE
    ensures Ambiguous(cfg, [], spaces + [OPEN_BRACE])
  {
    var rest := spaces + [OPEN_BRACE];
    assert rest[..MAX_SCAN_TOKEN_SIZE] == spaces;
    TrimLeftOfPrefix(spaces, [OPEN_BRACE]);
    assert TrimLeft(rest) == TrimLeft([OPEN_BRACE]) == [OPEN_BRACE];
    assert LooksAheadPastCap(cfg, [], rest);
  }

  /** A second flush logs nothing. */
  lemma FlushIsIdempotent(cfg: Config, s: Stream)
    ensures Flushed(cfg, Flushed(cfg, s)) == Flushed(cfg, s)
  {
  }

  // ---------------------------------------------------------------------
  // The cap on blank records

  /** Record `i` is handed over outside of any document and opens none. */
  predicate IsOutside(cfg: Config, records: seq<Bytes>, i: nat)
    requires i < |records|
  {
    JsonBufAfter(cfg, records[..i]) == [] && !InDocument(cfg, [], records[i])
  }

  predicate OutsideRecordsCapped(cfg: Config, records: seq<Bytes>) {
    forall i :: 0 <= i < |records| && IsOutside(cfg, records, i) ==> |records[i]| <= MAX_SCAN_TOKEN_SIZE
  }

  /** Record `i` is handed over outside of any document and blank. */
  predicate IsBlankRecord(cfg: Config, records: seq<Bytes>, i: nat)
    requires i < |records|
  {
    JsonBufAfter(cfg, records[..i]) == [] && TrimLeft(records[i]) == []
  }

  predicate BlankRecordsCapped(cfg: Config, records: seq<Bytes>) {
    forall i :: 0 <= i < |records| && IsBlankRecord(cfg, records, i) ==> |records[i]| <= MAX_SCAN_TOKEN_SIZE
  }

  lemma {:induction false} OpensByEitherTrim(cfg: Config, b: Bytes)
    ensures StartsDocument(cfg, TrimLeft(b)) ==> StartsDocument(cfg, TrimSpaceLeft(b))
    ensures TrimLeft(b) == [] ==> TrimSpaceLeft(b) == []
    decreases |b|
  {
    if b != [] && IsBlank(b[0]) {
      OpensByEitherTrim(cfg, b[1..]);
    }
  }

  /** A record outside of documents has text or is blank. */
  lemma OutsideIsTextOrBlank(cfg: Config, records: seq<Bytes>)
    requires TextRecordsCapped(cfg, records)
    ensures OutsideRecordsCapped(cfg, records) <==> BlankRecordsCapped(cfg, records)
  {
    forall i | 0 <= i < |records|
      ensures IsBlankRecord(cfg, records, i) ==> IsOutside(cfg, records, i)
      ensures IsOutside(cfg, records, i) ==> IsBlankRecord(cfg, records, i) || HasText(cfg, records, i)
    {
      OpensByEitherTrim(cfg, records[i]);
    }
  }

  /** A blank line of more than 65536 bytes in front of a document: both together keep the line in one piece. */
  predicate BlankLineAhead(cfg: Config, jsonBuf: Bytes, rest: Bytes) {
    && LooksAheadPastCap(cfg, jsonBuf, rest)
    && CutSize(cfg, jsonBuf, rest) > 0
    && TrimLeft(rest[..CutSize(cfg, jsonBuf, rest)]) == []
  }

  /** Some record of `rest` starts that way. Where blanks in front of a document fill the cap, the stream may be cut
      there or at the end of the line, so that both ways count. */
  predicate Exceeds(cfg: Config, jsonBuf: Bytes, rest: Bytes)
    decreases |rest|
  {
    || BlankLineAhead(cfg, jsonBuf, rest)
    || (LooksAheadPastCap(cfg, jsonBuf, rest) && Exceeds(cfg, [], rest[MAX_SCAN_TOKEN_SIZE..]))
    || (var n := CutSize(cfg, jsonBuf, rest);
        n > 0 && Exceeds(cfg, NextJsonBuf(cfg, jsonBuf, rest[..n]), rest[n..]))
  }

  /** Only ambiguous streams can exceed the cap. */
  lemma {:induction false} OnlyAmbiguousExceed(cfg: Config, jsonBuf: Bytes, rest: Bytes)
    requires Exceeds(cfg, jsonBuf, rest)
    ensures Ambiguous(cfg, jsonBuf, rest)
    decreases |rest|
  {
    if !LooksAheadPastCap(cfg, jsonBuf, rest) {
      var n := CutSize(cfg, jsonBuf, rest);
      OnlyAmbiguousExceed(cfg, NextJsonBuf(cfg, jsonBuf, rest[..n]), rest[n..]);
    }
  }

  /** A cut decided on a part of the stream is that of the whole stream, or cuts blanks in front of a document at
      the cap. */
  lemma CutOfStart(cfg: Config, jsonBuf: Bytes, a: Bytes, b: Bytes)
    requires CutSize(cfg, jsonBuf, a) > 0
    ensures || CutSize(cfg, jsonBuf, a + b) == CutSize(cfg, jsonBuf, a)
            || (LooksAheadPastCap(cfg, jsonBuf, a + b) && CutSize(cfg, jsonBuf, a) == MAX_SCAN_TOKEN_SIZE)
  {
    if !LooksAheadPastCap(cfg, jsonBuf, a + b) {
      CutIgnoresTheFuture(cfg, jsonBuf, a, b);
    } else {
      NewlineOfPrefix(a, b);
      TrimLeftOfPrefix(a, b);
      var k := if |a| < MAX_SCAN_TOKEN_SIZE then |a| else MAX_SCAN_TOKEN_SIZE;
      assert a[..k] == (a + b)[..MAX_SCAN_TOKEN_SIZE][..k];
    }
  }

  /** A blank record beyond the cap is a blank line in front of a document. */
  lemma LongBlankCut(cfg: Config, jsonBuf: Bytes, buf: Bytes, future: Bytes)
    requires jsonBuf == [] && CutSize(cfg, jsonBuf, buf) > MAX_SCAN_TOKEN_SIZE
    requires TrimLeft(buf[..CutSize(cfg, jsonBuf, buf)]) == []
    ensures BlankLineAhead(cfg, jsonBuf, buf + future)
  {
    var n := CutSize(cfg, jsonBuf, buf);
    var raw, whole := buf[..n], buf + future;
    TrimLeftOfPrefix(raw, []);
    TrimLeftOfPrefix(buf, future);
    NewlineOfPrefix(buf, future);
    assert n == IndexOfNewline(buf) + 1 && StartsDocument(cfg, TrimLeft(buf));
    assert whole[..n] == raw && whole[..MAX_SCAN_TOKEN_SIZE] == raw[..MAX_SCAN_TOKEN_SIZE];
    assert buf[..n - 1][..MAX_SCAN_TOKEN_SIZE] == whole[..MAX_SCAN_TOKEN_SIZE];
  }

  lemma BlankAppendKeepsCapped(cfg: Config, records: seq<Bytes>, raw: Bytes)
    requires BlankRecordsCapped(cfg, records)
    requires JsonBufAfter(cfg, records) == [] && TrimLeft(raw) == [] ==> |raw| <= MAX_SCAN_TOKEN_SIZE
    ensures BlankRecordsCapped(cfg, records + [raw])
  {
    var rs := records + [raw];
    forall i | 0 <= i < |rs| && IsBlankRecord(cfg, rs, i)
      ensures |rs[i]| <= MAX_SCAN_TOKEN_SIZE
    {
      assert i < |records| ==> rs[..i] == records[..i];
      assert rs[..|records|] == records;
      if i < |records| {
        assert IsBlankRecord(cfg, records, i);
      }
    }
  }

  lemma BlanksOpenNothing(cfg: Config, b: Bytes)
    requires AllBlank(b)
    ensures TrimLeft(b) == [] && NextJsonBuf(cfg, [], b) == []
  {
    TrimLeftOfPrefix(b, []);
    OpensByEitherTrim(cfg, b);
  }

  lemma CutIsBlankCapped(cfg: Config, s: Stream, future: Bytes)
    requires s.jsonBuf == JsonBufAfter(cfg, s.records) && BlankRecordsCapped(cfg, s.records)
    requires !BlankLineAhead(cfg, s.jsonBuf, s.buf + future)
    ensures BlankRecordsCapped(cfg, Cut(cfg, s, CutSize(cfg, s.jsonBuf, s.buf)).records)
  {
    var n := CutSize(cfg, s.jsonBuf, s.buf);
    if s.jsonBuf == [] && TrimLeft(s.buf[..n]) == [] && n > MAX_SCAN_TOKEN_SIZE {
      LongBlankCut(cfg, s.jsonBuf, s.buf, future);
    }
    BlankAppendKeepsCapped(cfg, s.records, s.buf[..n]);
  }

  lemma CutStaysBelow(cfg: Config, jsonBuf: Bytes, buf: Bytes, future: Bytes)
    requires !Exceeds(cfg, jsonBuf, buf + future) && CutSize(cfg, jsonBuf, buf) > 0
    ensures var n := CutSize(cfg, jsonBuf, buf); !Exceeds(cfg, NextJsonBuf(cfg, jsonBuf, buf[..n]), buf[n..] + future)
  {
    var n, whole := CutSize(cfg, jsonBuf, buf), buf + future;
    CutOfStart(cfg, jsonBuf, buf, future);
    assert whole[..n] == buf[..n] && whole[n..] == buf[n..] + future;
    if CutSize(cfg, jsonBuf, whole) != n {
      BlanksOpenNothing(cfg, whole[..n]);
    }
  }

  lemma {:induction false} DrainKeepsBlankCapped(cfg: Config, s: Stream, future: Bytes)
    requires WellLogged(cfg, s) && BlankRecordsCapped(cfg, s.records) && !Exceeds(cfg, s.jsonBuf, s.buf + future)
    ensures var t := Drained(cfg, s); BlankRecordsCapped(cfg, t.records) && !Exceeds(cfg, t.jsonBuf, t.buf + future)
    decreases |s.buf|
  {
    var n := CutSize(cfg, s.jsonBuf, s.buf);
    if n != 0 {
      var raw := s.buf[..n];
      assert raw + s.buf[n..] == s.buf;
      TrimLeftOfPrefix(raw, s.buf[n..]);
      LogLineKeepsWellLogged(cfg, s, raw);
      CutIsBlankCapped(cfg, s, future);
      CutStaysBelow(cfg, s.jsonBuf, s.buf, future);
      DrainKeepsBlankCapped(cfg, Cut(cfg, s, n), future);
    }
  }

  lemma {:induction false} FeedKeepsBlankCapped(cfg: Config, s: Stream, chunks: seq<Bytes>)
    requires WellLogged(cfg, s) && BlankRecordsCapped(cfg, s.records)
    requires !Exceeds(cfg, s.jsonBuf, s.buf + Concat(chunks))
    ensures BlankRecordsCapped(cfg, Fed(cfg, s, chunks).records)
    decreases |chunks|
  {
    if chunks != [] {
      var s1, future := s.(buf := s.buf + chunks[0]), Concat(chunks[1..]);
      assert s.buf + (chunks[0] + future) == s1.buf + future;
      DrainKeepsWellLogged(cfg, s1);
      DrainKeepsBlankCapped(cfg, s1, future);
      FeedKeepsBlankCapped(cfg, Drained(cfg, s1), chunks[1..]);
    }
  }

  lemma OutputKeepsBlankCapped(cfg: Config, chunks: seq<Bytes>)
    requires !Exceeds(cfg, [], Concat(chunks))
    ensures BlankRecordsCapped(cfg, Output(cfg, chunks).records)
  {
    assert EMPTY_STREAM.buf + Concat(chunks) == Concat(chunks);
    FeedKeepsWellLogged(cfg, EMPTY_STREAM, chunks);
    FeedKeepsBlankCapped(cfg, EMPTY_STREAM, chunks);
    var t := Fed(cfg, EMPTY_STREAM, chunks);
    BufferAfterDrain(cfg, t);
    BlankAppendKeepsCapped(cfg, t.records, t.buf);
  }

  /** What is written in one piece becomes one record, if that is its first cut. */
  lemma OneCut(cfg: Config, s: Stream, a: Bytes)
    requires s.buf == [] && CutSize(cfg, s.jsonBuf, a) == |a| > 0
    ensures Written(cfg, s, a) == LoggedLine(cfg, s, a)
  {
    assert s.buf + a == a && a[..|a|] == a && a[|a|..] == [];
    var t := LoggedLine(cfg, s, a);
    assert Cut(cfg, s.(buf := a), |a|) == t;
    assert Drained(cfg, t) == t;
  }

  /** A blank line ahead of a document is handed over in one piece. */
  lemma BlankLineIsOneRecord(cfg: Config, s: Stream, rest: Bytes)
    requires s.buf == [] && BlankLineAhead(cfg, s.jsonBuf, rest)
    ensures
      var n := CutSize(cfg, s.jsonBuf, rest);
      n > MAX_SCAN_TOKEN_SIZE && s.records + [rest[..n]] <= Flushed(cfg, Written(cfg, s, rest)).records
  {
    PendingPastCap(cfg, s.jsonBuf, rest);
    assert s.buf + rest == rest;
    var n := CutSize(cfg, s.jsonBuf, rest);
    DrainOnlyAppends(cfg, Cut(cfg, s.(buf := rest), n));
  }

  lemma UncappedStays(cfg: Config, before: seq<Bytes>, raw: Bytes, records: seq<Bytes>)
    requires JsonBufAfter(cfg, before) == [] && TrimLeft(raw) == [] && |raw| > MAX_SCAN_TOKEN_SIZE
    requires before + [raw] <= records
    ensures !BlankRecordsCapped(cfg, records)
  {
    var i := |before|;
    assert records[..i] == before && records[i] == (before + [raw])[i];
    assert IsBlankRecord(cfg, records, i);
  }

  /** The first cut, when no more than it is written. */
  lemma CutOfItself(cfg: Config, jsonBuf: Bytes, rest: Bytes)
    requires CutSize(cfg, jsonBuf, rest) > 0 && !BlankLineAhead(cfg, jsonBuf, rest)
    ensures var n := CutSize(cfg, jsonBuf, rest); CutSize(cfg, jsonBuf, rest[..n]) == n
  {
    var n := CutSize(cfg, jsonBuf, rest);
    if !LooksAheadPastCap(cfg, jsonBuf, rest) {
      CutOfPrefix(cfg, jsonBuf, rest, n);
    } else {
      var a, b := rest[..n], rest[n..];
      assert a + b == rest;
      NewlineOfPrefix(a, b);
      TrimLeftOfPrefix(a, b);
    }
  }

  lemma BlanksAloneAreCut(cfg: Config, rest: Bytes)
    requires LooksAheadPastCap(cfg, [], rest)
    ensures CutSize(cfg, [], rest[..MAX_SCAN_TOKEN_SIZE]) == MAX_SCAN_TOKEN_SIZE
  {
    TrimLeftOfPrefix(rest[..MAX_SCAN_TOKEN_SIZE], []);
  }

  /** These chunks of `rest` hand over a blank record beyond the cap. */
  predicate HandOver(cfg: Config, s: Stream, chunks: seq<Bytes>, rest: Bytes) {
    Concat(chunks) == rest && !BlankRecordsCapped(cfg, Flushed(cfg, Fed(cfg, s, chunks)).records)
  }

  lemma {:induction false} ExceedingChunks(cfg: Config, s: Stream, rest: Bytes) returns (chunks: seq<Bytes>)
    requires s.buf == [] && s.jsonBuf == JsonBufAfter(cfg, s.records) && Exceeds(cfg, s.jsonBuf, rest)
    ensures HandOver(cfg, s, chunks, rest)
    decreases |rest|
  {
    if BlankLineAhead(cfg, s.jsonBuf, rest) {
      chunks := [rest];
      BlankLineChunk(cfg, s, rest);
    } else {
      var k := ExceedingCut(cfg, s.jsonBuf, rest);
      var a, b := rest[..k], rest[k..];
      assert a + b == rest;
      LogLineTracksDocument(cfg, s, a);
      var more := ExceedingChunks(cfg, LoggedLine(cfg, s, a), b);
      HandOverLater(cfg, s, a, b, more);
      chunks := [a] + more;
    }
  }

  lemma HandOverLater(cfg: Config, s: Stream, a: Bytes, b: Bytes, more: seq<Bytes>)
    requires s.buf == [] && CutSize(cfg, s.jsonBuf, a) == |a| > 0
    requires HandOver(cfg, LoggedLine(cfg, s, a), more, b)
    ensures HandOver(cfg, s, [a] + more, a + b)
  {
    FirstChunk(cfg, s, a, more);
    SameHandOver(cfg, s, [a] + more, a + b, LoggedLine(cfg, s, a), more, b);
  }

  lemma SameHandOver(cfg: Config, s: Stream, chunks: seq<Bytes>, rest: Bytes, s': Stream, chunks': seq<Bytes>, rest': Bytes)
    requires HandOver(cfg, s', chunks', rest')
    requires Concat(chunks) == rest && Fed(cfg, s, chunks) == Fed(cfg, s', chunks')
    ensures HandOver(cfg, s, chunks, rest)
  {
  }

  lemma BlankLineChunk(cfg: Config, s: Stream, rest: Bytes)
    requires s.buf == [] && s.jsonBuf == JsonBufAfter(cfg, s.records) && BlankLineAhead(cfg, s.jsonBuf, rest)
    ensures HandOver(cfg, s, [rest], rest)
  {
    OneChunk(cfg, s, rest);
    BlankLineIsOneRecord(cfg, s, rest);
    UncappedStays(cfg, s.records, rest[..CutSize(cfg, s.jsonBuf, rest)], Flushed(cfg, Written(cfg, s, rest)).records);
  }

  lemma LogLineTracksDocument(cfg: Config, s: Stream, raw: Bytes)
    requires s.jsonBuf == JsonBufAfter(cfg, s.records)
    ensures LoggedLine(cfg, s, raw).jsonBuf == JsonBufAfter(cfg, s.records + [raw])
  {
    assert (s.records + [raw])[..|s.records|] == s.records;
  }

  lemma OneChunk(cfg: Config, s: Stream, a: Bytes)
    ensures Concat([a]) == a && Fed(cfg, s, [a]) == Written(cfg, s, a)
  {
    assert [a][1..] == [] && Concat([a]) == a + [];
  }

  lemma FirstChunk(cfg: Config, s: Stream, a: Bytes, more: seq<Bytes>)
    requires s.buf == [] && CutSize(cfg, s.jsonBuf, a) == |a| > 0
    ensures Concat([a] + more) == a + Concat(more)
    ensures Fed(cfg, s, [a] + more) == Fed(cfg, LoggedLine(cfg, s, a), more)
  {
    OneCut(cfg, s, a);
    assert ([a] + more)[1..] == more;
  }

  /** The first cut on the way to such a record. */
  lemma ExceedingCut(cfg: Config, jsonBuf: Bytes, rest: Bytes) returns (k: nat)
    requires Exceeds(cfg, jsonBuf, rest) && !BlankLineAhead(cfg, jsonBuf, rest)
    ensures 0 < k <= |rest| && CutSize(cfg, jsonBuf, rest[..k]) == k
    ensures Exceeds(cfg, NextJsonBuf(cfg, jsonBuf, rest[..k]), rest[k..])
  {
    if LooksAheadPastCap(cfg, jsonBuf, rest) && Exceeds(cfg, [], rest[MAX_SCAN_TOKEN_SIZE..]) {
      k := MAX_SCAN_TOKEN_SIZE;
      BlanksAloneAreCut(cfg, rest);
      BlanksOpenNothing(cfg, rest[..k]);
    } else {
      k := CutSize(cfg, jsonBuf, rest);
      CutOfItself(cfg, jsonBuf, rest);
    }
  }

  /** The cap, exactly: however a stream is chunked, no record exceeds 65536 bytes outside of documents, if and only
      if no record of it starts with a blank line that does so in front of a document. */
  lemma CapHoldsIff(cfg: Config, stream: Bytes)
    ensures
      (forall chunks: seq<Bytes> | Concat(chunks) == stream :: OutsideRecordsCapped(cfg, Output(cfg, chunks).records))
      <==> !Exceeds(cfg, [], stream)
  {
    if Exceeds(cfg, [], stream) {
      var chunks := ExceedingChunks(cfg, EMPTY_STREAM, stream);
      TextRecordsFitTheCap(cfg, chunks);
      OutsideIsTextOrBlank(cfg, Output(cfg, chunks).records);
      assert !OutsideRecordsCapped(cfg, Output(cfg, chunks).records);
    } else {
      forall chunks: seq<Bytes> | Concat(chunks) == stream
        ensures OutsideRecordsCapped(cfg, Output(cfg, chunks).records)
      {
        TextRecordsFitTheCap(cfg, chunks);
        OutputKeepsBlankCapped(cfg, chunks);
        OutsideIsTextOrBlank(cfg, Output(cfg, chunks).records);
      }
    }
  }

  /** One Write of 65536 spaces, a newline and an opening brace hands over a record of 65537 bytes. */
  lemma SpacesNewlineBraceExceeds(cfg: Config, spaces: Bytes)
    requires |spaces| == MAX_SCAN_TOKEN_SIZE && forall i :: 0 <= i < |spaces| ==> spaces[i] == SPACE
    ensures
      var records := Output(cfg, [spaces + [NEWLINE, OPEN_BRACE]]).records;
      |records| > 0 && records[0] == spaces + [NEWLINE] && IsOutside(cfg, records, 0) && !OutsideRecordsCapped(cfg, records)
  {
    var line, rest := spaces + [NEWLINE], spaces + [NEWLINE, OPEN_BRACE];
    assert rest == line + [OPEN_BRACE] && rest[..MAX_SCAN_TOKEN_SIZE] == spaces;
    NewlineOfPrefix(spaces, [NEWLINE, OPEN_BRACE]);
    assert rest[MAX_SCAN_TOKEN_SIZE] == NEWLINE;
    FirstNewline(spaces, [OPEN_BRACE]);
    TrimLeftOfPrefix(line, [OPEN_BRACE]);
    assert TrimLeft([OPEN_BRACE]) == [OPEN_BRACE];
    assert rest[..|line|] == line;
    assert BlankLineAhead(cfg, [], rest);
    BlankLineIsOneRecord(cfg, EMPTY_STREAM, rest);
    assert [rest][1..] == [] && EMPTY_STREAM.records + [line] == [line];
    assert Fed(cfg, EMPTY_STREAM, [rest]) == Written(cfg, EMPTY_STREAM, rest);
    var records := Output(cfg, [rest]).records;
    assert records[0] == [line][0] && records[..0] == [];
    OpensByEitherTrim(cfg, line);
    assert IsOutside(cfg, records, 0);
  }

  lemma {:induction false} FirstNewline(a: Bytes, b: Bytes)
    requires NEWLINE !in a
    ensures IndexOfNewline(a + [NEWLINE] + b) == |a|
    ensures a + [NEWLINE] + b == a + ([NEWLINE] + b)
  {
    var x := a + [NEWLINE] + b;
    assert x[|a|] == NEWLINE;
    NewlineOfPrefix(a, [NEWLINE] + b);
    assert x == a + ([NEWLINE] + b);
  }

  /** The cases of logLine, by the line trimmed at both ends. */
  lemma LogLineCases(cfg: Config, jsonBuf: Bytes, emitted: seq<Emission>, raw: Bytes)
    ensures
      var line, next, all := TrimSpace(raw), NextJsonBuf(cfg, jsonBuf, raw), emitted + Emissions(cfg, jsonBuf, raw);
      if line == [] && jsonBuf == [] then next == [] && all == emitted
      else if jsonBuf != [] || StartsDocument(cfg, line) then
        var err := cfg.tryLogJSON(jsonBuf + raw);
        if err.Incomplete? then next == jsonBuf + raw && all == emitted
        else next == [] && all == emitted + [if err.Malformed? then Text(LogText(jsonBuf + raw)) else Document(jsonBuf + raw)]
      else
        next == [] && all == emitted + [if cfg.tryLogJSON(raw).Complete? then Document(raw) else Text(LogText(line))]
  {
    TrimSpaceStarts(cfg, raw);
    assert emitted + [] == emitted;
    if !InDocument(cfg, jsonBuf, raw) {
      assert NextJsonBuf(cfg, jsonBuf, raw) == [];
    } else if cfg.tryLogJSON(jsonBuf + raw).Incomplete? {
      assert Emissions(cfg, jsonBuf, raw) == [];
    }
  }

  // ---------------------------------------------------------------------
  // White space

  /** The UTF-8 encoding of a code point of the Basic Multilingual Plane. */
  function Utf8(cp: nat): Bytes
    requires cp < 0x10000
  {
    if cp < 0x80 then [cp as byte]
    else if cp < 0x800 then [(0xC0 + cp / 64) as byte, (0x80 + cp % 64) as byte]
    else [(0xE0 + cp / 4096) as byte, (0x80 + cp / 64 % 64) as byte, (0x80 + cp % 64) as byte]
  }

  /** unicode.IsSpace: the code points with the property White_Space. */
  predicate IsSpace(cp: nat) {
    || 9 <= cp <= 13 || cp == 0x20 || cp == 0x85 || cp == 0xA0 || cp == 0x1680
    || 0x2000 <= cp <= 0x200A || cp == 0x2028 || cp == 0x2029 || cp == 0x202F || cp == 0x205F || cp == 0x3000
  }

  predicate BeginsWith(b: Bytes, cp: nat) {
    cp < 0x10000 && Utf8(cp) <= b
  }

  /** The white space runes are the encodings of white space. */
  lemma SpaceRuneIsUnicodeSpace(b: Bytes)
    ensures SpaceRune(b) > 0 <==> exists cp: nat :: IsSpace(cp) && BeginsWith(b, cp)
    ensures forall cp: nat :: IsSpace(cp) && BeginsWith(b, cp) ==> SpaceRune(b) == |Utf8(cp)|
  {
    forall cp: nat | IsSpace(cp) && BeginsWith(b, cp)
      ensures SpaceRune(b) == |Utf8(cp)|
    {
      SpaceHasRune(b, cp);
    }
    if SpaceRune(b) > 0 {
      var cp := RuneHasSpace(b);
      assert IsSpace(cp) && BeginsWith(b, cp);
    }
  }

  lemma SpaceHasRune(b: Bytes, cp: nat)
    requires IsSpace(cp) && BeginsWith(b, cp)
    ensures SpaceRune(b) == |Utf8(cp)|
  {
    var u := Utf8(cp);
    assert forall i :: 0 <= i < |u| ==> b[i] == u[i];
  }

  lemma RuneHasSpace(b: Bytes) returns (cp: nat)
    requires SpaceRune(b) > 0
    ensures IsSpace(cp) && BeginsWith(b, cp)
  {
    match SpaceRune(b)
    case 1 =>
      cp := b[0] as nat;
      assert Utf8(cp) == b[..1];
    case 2 =>
      cp := b[1] as nat;
      assert Utf8(cp) == b[..2];
    case _ =>
      cp := (b[0] as nat - 0xE0) * 4096 + (b[1] as nat - 0x80) * 64 + (b[2] as nat - 0x80);
      assert Utf8(cp) == b[..3];
  }

  predicate AllSpace(b: Bytes) {
    b == [] || (SpaceRune(b) > 0 && AllSpace(b[SpaceRune(b)..]))
  }

  predicate EndsIn(b: Bytes, n: nat) {
    0 < n <= |b| && SpaceRune(b[|b| - n..]) == n
  }

  predicate EndsInSpace(b: Bytes) {
    exists n: nat :: n <= 3 && EndsIn(b, n)
  }

  /** A rune does not depend on what follows it. */
  lemma RuneAlone(r: Bytes, b: Bytes)
    ensures SpaceRune(r) > 0 ==> SpaceRune(r + b) == SpaceRune(r)
    ensures SpaceRune(r + b) == |r| > 0 ==> SpaceRune(r) == |r|
  {
  }

  lemma {:induction false} AllSpaceAppend(a: Bytes, b: Bytes)
    requires AllSpace(a) && AllSpace(b)
    ensures AllSpace(a + b)
    decreases |a|
  {
    if a == [] {
      assert a + b == b;
    } else {
      var n := SpaceRune(a);
      RuneAlone(a, b);
      AllSpaceAppend(a[n..], b);
      assert (a + b)[n..] == a[n..] + b;
    }
  }

  lemma {:induction false} LeftIsSpace(b: Bytes) returns (a: Bytes)
    ensures b == a + TrimSpaceLeft(b) && AllSpace(a)
    decreases |b|
  {
    var n := SpaceRune(b);
    if n == 0 {
      a := [];
    } else {
      var r, tail := b[..n], b[n..];
      var rest := LeftIsSpace(tail);
      a := r + rest;
      assert b == r + tail;
      RuneAlone(r, tail);
      OneRuneIsSpace(r);
      AllSpaceAppend(r, rest);
      AppendAssociates(r, rest, TrimSpaceLeft(b));
    }
  }

  /** Only white space is cut off at the end. */
  predicate CutAtEnd(b: Bytes, c: Bytes) {
    b == TrimSpaceRight(b) + c && AllSpace(c)
  }

  lemma {:induction false} RightIsSpace(b: Bytes) returns (c: Bytes)
    ensures CutAtEnd(b, c)
    decreases |b|
  {
    var n := LastSpaceRune(b);
    if n == 0 {
      c := [];
      assert b == b + c;
    } else {
      var rest := RightIsSpace(b[..|b| - n]);
      c := rest + b[|b| - n..];
      OneMoreRune(b, n, rest);
    }
  }

  lemma OneMoreRune(b: Bytes, n: nat, rest: Bytes)
    requires LastSpaceRune(b) == n > 0 && CutAtEnd(b[..|b| - n], rest)
    ensures CutAtEnd(b, rest + b[|b| - n..])
  {
    var init, r := b[..|b| - n], b[|b| - n..];
    var trimmed := TrimSpaceRight(init);
    assert TrimSpaceRight(b) == trimmed;
    OneRuneIsSpace(r);
    AllSpaceAppend(rest, r);
    AppendAssociates(trimmed, rest, r);
    assert b == init + r;
  }

  predicate EndIsTrimmed(b: Bytes) {
    LastSpaceRune(b) == 0
  }

  lemma {:induction false} RightTrimIsDone(b: Bytes)
    ensures EndIsTrimmed(TrimSpaceRight(b))
    decreases |b|
  {
    var n := LastSpaceRune(b);
    if n == 0 {
      assert TrimSpaceRight(b) == b;
    } else {
      var init := b[..|b| - n];
      RightTrimIsDone(init);
      assert TrimSpaceRight(b) == TrimSpaceRight(init);
    }
  }

  lemma OneRuneIsSpace(r: Bytes)
    requires SpaceRune(r) == |r| > 0
    ensures AllSpace(r)
  {
    assert r[|r|..] == [];
  }

  lemma {:induction false} RightTrimStarts(b: Bytes)
    requires SpaceRune(b) == 0
    ensures SpaceRune(TrimSpaceRight(b)) == 0
    decreases |b|
  {
    var n := LastSpaceRune(b);
    if n != 0 {
      SpaceRuneOfPrefix(b, |b| - n);
      RightTrimStarts(b[..|b| - n]);
    }
  }

  lemma LastRuneEnds(b: Bytes)
    ensures EndIsTrimmed(b) <==> !EndsInSpace(b)
  {
    assert EndsIn(b, 1) || EndsIn(b, 2) || EndsIn(b, 3) <==> EndsInSpace(b);
  }

  /** strings.TrimSpace: white space at both ends is cut off, and what is left neither begins nor ends with any. */
  lemma TrimmedAtBothEnds(b: Bytes) returns (a: Bytes, c: Bytes)
    ensures b == a + TrimSpace(b) + c && AllSpace(a) && AllSpace(c)
    ensures SpaceRune(TrimSpace(b)) == 0 && !EndsInSpace(TrimSpace(b))
  {
    a := LeftIsSpace(b);
    var rest := TrimSpaceLeft(b);
    c := RightIsSpace(rest);
    var text := TrimSpaceRight(rest);
    assert text == TrimSpace(b);
    AppendAssociates(a, text, c);
    TrimSpaceLeftStarts(b);
    RightTrimIsDone(rest);
    RightTrimStarts(rest);
    LastRuneEnds(text);
  }

  /** The text of a line: the line without white space at its ends, cut off behind 10000 bytes. */
  lemma TextOfLine(line: Bytes) returns (a: Bytes, text: Bytes, c: Bytes)
    ensures line == a + text + c && AllSpace(a) && AllSpace(c) && SpaceRune(text) == 0 && !EndsInSpace(text)
    ensures LogText(line) == if |text| <= 10000 then text else text[..10000] + TRUNCATED
  {
    a, c := TrimmedAtBothEnds(line);
    text := TrimSpace(line);
  }

  /** A record is collected, and nothing logged yet, if and only if what is there with it is an incomplete document, and
      one is being collected or the text of the record begins with "{", or with "[" or "\"" when JSON is proxied. */
  lemma CollectedIff(cfg: Config, jsonBuf: Bytes, raw: Bytes) returns (a: Bytes, text: Bytes, c: Bytes)
    requires raw != []
    ensures raw == a + text + c && AllSpace(a) && AllSpace(c) && SpaceRune(text) == 0 && !EndsInSpace(text)
    ensures
      NextJsonBuf(cfg, jsonBuf, raw) != []
      <==> && cfg.tryLogJSON(jsonBuf + raw).Incomplete?
           && (|| jsonBuf != []
               || (text != [] && (text[0] == 123 || (cfg.logProxyHookJSON && (text[0] == 91 || text[0] == 34)))))
  {
    a, c := TrimmedAtBothEnds(raw);
    text := TrimSpace(raw);
    TrimSpaceStarts(cfg, raw);
  }

  // ---------------------------------------------------------------------
  // Conservation of what is logged

  lemma TrimTwice(b: Bytes)
    ensures LogText(TrimSpace(b)) == LogText(b)
  {
    var a, c := TrimmedAtBothEnds(b);
    var t := TrimSpace(b);
    LastRuneEnds(t);
    assert TrimSpaceLeft(t) == t && TrimSpaceRight(t) == t;
  }

  /** The records put together to what is logged at once: a document, or a single record outside of documents. */
  function Pieces(cfg: Config, records: seq<Bytes>): seq<Bytes> {
    if records == [] then []
    else
      var init, last := records[..|records| - 1], records[|records| - 1];
      Pieces(cfg, init) + (if JsonBufAfter(cfg, records) != [] then [] else [JsonBufAfter(cfg, init) + last])
  }

  /** A piece is logged as a document if it is one, and else with its own text; white space alone is not. */
  function LoggedAs(cfg: Config, piece: Bytes): seq<Emission> {
    if AllSpace(piece) then []
    else if cfg.tryLogJSON(piece).Complete? then [Document(piece)]
    else [Text(LogText(piece))]
  }

  function AllLoggedAs(cfg: Config, pieces: seq<Bytes>): seq<Emission> {
    if pieces == [] then [] else AllLoggedAs(cfg, pieces[..|pieces| - 1]) + LoggedAs(cfg, pieces[|pieces| - 1])
  }

  lemma AllLoggedSnoc(cfg: Config, pieces: seq<Bytes>, piece: Bytes)
    ensures AllLoggedAs(cfg, pieces + [piece]) == AllLoggedAs(cfg, pieces) + LoggedAs(cfg, piece)
  {
    var all := pieces + [piece];
    assert all[..|all| - 1] == pieces && all[|all| - 1] == piece;
  }

  lemma {:induction false} SpaceIsTrimmed(b: Bytes)
    ensures AllSpace(b) <==> TrimSpaceLeft(b) == []
    decreases |b|
  {
    var n := SpaceRune(b);
    if n > 0 {
      SpaceIsTrimmed(b[n..]);
    }
  }

  /** Behind white space, a byte that opens a document stays the first whatever follows. */
  lemma {:induction false} OpenerStays(cfg: Config, a: Bytes, b: Bytes)
    requires StartsDocument(cfg, TrimSpaceLeft(a))
    ensures StartsDocument(cfg, TrimSpaceLeft(a + b))
    decreases |a|
  {
    var n := SpaceRune(a);
    RuneAlone(a, b);
    if n > 0 {
      OpenerStays(cfg, a[n..], b);
      assert (a + b)[n..] == a[n..] + b;
    } else {
      assert SpaceRune(a + b) == 0;
    }
  }

  /** A document that is being collected is incomplete, and begins with its opener. */
  predicate IsCollected(cfg: Config, jsonBuf: Bytes) {
    jsonBuf != [] ==> cfg.tryLogJSON(jsonBuf).Incomplete? && StartsDocument(cfg, TrimSpaceLeft(jsonBuf))
  }

  lemma RecordIsLogged(cfg: Config, jsonBuf: Bytes, raw: Bytes)
    requires IsCollected(cfg, jsonBuf) && raw != []
    ensures IsCollected(cfg, NextJsonBuf(cfg, jsonBuf, raw))
    ensures
      if NextJsonBuf(cfg, jsonBuf, raw) != [] then NextJsonBuf(cfg, jsonBuf, raw) == jsonBuf + raw && Emissions(cfg, jsonBuf, raw) == []
      else Emissions(cfg, jsonBuf, raw) == LoggedAs(cfg, jsonBuf + raw)
  {
    var piece := jsonBuf + raw;
    SpaceIsTrimmed(piece);
    if InDocument(cfg, jsonBuf, raw) {
      if jsonBuf != [] {
        OpenerStays(cfg, jsonBuf, raw);
      } else {
        assert piece == raw;
      }
    } else {
      assert piece == raw;
      TrimTwice(raw);
    }
  }

  predicate NoneEmpty(records: seq<Bytes>) {
    forall i :: 0 <= i < |records| ==> records[i] != []
  }

  lemma {:induction false} PiecesAreLogged(cfg: Config, records: seq<Bytes>)
    requires NoneEmpty(records)
    ensures IsCollected(cfg, JsonBufAfter(cfg, records))
    ensures Concat(Pieces(cfg, records)) + JsonBufAfter(cfg, records) == Concat(records)
    ensures EmittedBy(cfg, records) == AllLoggedAs(cfg, Pieces(cfg, records))
  {
    if records != [] {
      var init, last := records[..|records| - 1], records[|records| - 1];
      assert records == init + [last] && NoneEmpty(init);
      PiecesAreLogged(cfg, init);
      var buf, pieces := JsonBufAfter(cfg, init), Pieces(cfg, init);
      RecordIsLogged(cfg, buf, last);
      ConcatSnoc(init, last);
      AppendAssociates(Concat(pieces), buf, last);
      if JsonBufAfter(cfg, records) == [] {
        ConcatSnoc(pieces, buf + last);
        AllLoggedSnoc(cfg, pieces, buf + last);
      } else {
        assert pieces + [] == pieces && EmittedBy(cfg, init) + [] == EmittedBy(cfg, init);
      }
    }
  }

  lemma {:induction false} DrainKeepsNoEmpty(cfg: Config, s: Stream)
    requires NoneEmpty(s.records)
    ensures NoneEmpty(Drained(cfg, s).records)
    decreases |s.buf|
  {
    var n := CutSize(cfg, s.jsonBuf, s.buf);
    if n != 0 {
      DrainKeepsNoEmpty(cfg, Cut(cfg, s, n));
    }
  }

  lemma {:induction false} FeedKeepsNoEmpty(cfg: Config, s: Stream, chunks: seq<Bytes>)
    requires NoneEmpty(s.records)
    ensures NoneEmpty(Fed(cfg, s, chunks).records)
    decreases |chunks|
  {
    if chunks != [] {
      DrainKeepsNoEmpty(cfg, s.(buf := s.buf + chunks[0]));
      FeedKeepsNoEmpty(cfg, Written(cfg, s, chunks[0]), chunks[1..]);
    }
  }

  /** Nothing that a hook prints is lost: however the stream is chunked, it is cut into pieces that are the whole stream, and
      the log is, in order, each piece that is not just white space: as a document if it is one, else with its text. */
  lemma EveryPieceIsLogged(cfg: Config, chunks: seq<Bytes>) returns (pieces: seq<Bytes>)
    ensures Concat(pieces) == Concat(chunks)
    ensures Output(cfg, chunks).emitted == AllLoggedAs(cfg, pieces)
  {
    var t := Output(cfg, chunks);
    FeedKeepsNoEmpty(cfg, EMPTY_STREAM, chunks);
    assert NoneEmpty(t.records);
    PiecesAreLogged(cfg, t.records);
    TextRecordsFitTheCap(cfg, chunks);
    OutputIsWholeStream(cfg, chunks);
    pieces := Pieces(cfg, t.records);
    var rest := JsonBufAfter(cfg, t.records);
    if rest != [] {
      ConcatSnoc(pieces, rest);
      AllLoggedSnoc(cfg, pieces, rest);
      SpaceIsTrimmed(rest);
      pieces := pieces + [rest];
    } else {
      assert Concat(pieces) + [] == Concat(pieces) && t.emitted == EmittedBy(cfg, t.records) + [];
    }
  }

  // ---------------------------------------------------------------------
  // The logger itself

  class ProxyLogger {
    const cfg: Config
    var buf: Bytes
    var jsonBuf: Bytes
    /** The sink: what was passed to the underlying logger. */
    var emitted: seq<Emission>
    /** The arguments of all calls of LogLine. */
    ghost var records: seq<Bytes>

    constructor (cfg: Config)
      ensures this.cfg == cfg && State() == EMPTY_STREAM
    {
      this.cfg := cfg;
      buf, jsonBuf, emitted, records := [], [], [], [];
    }

    ghost function State(): Stream
      reads this
    {
      Stream(buf, jsonBuf, records, emitted)
    }

    method Write(p: Bytes) returns (n: nat)
      modifies this
      ensures n == |p|
      ensures State() == Written(cfg, old(State()), p)
      ensures NEWLINE !in buf && (|buf| < MAX_SCAN_TOKEN_SIZE || HasPendingJSON(cfg, jsonBuf, buf))
      ensures Concat(records) + buf == old(Concat(records) + buf) + p
    {
      buf := buf + p;
      ghost var start := State();
      while |buf| > 0
        invariant Drained(cfg, State()) == Drained(cfg, start)
        decreases |buf|
      {
        var lineSize := IndexOfNewline(buf) + 1;
        var pending := HasPending();
        if !pending && |buf| >= MAX_SCAN_TOKEN_SIZE && (lineSize == 0 || lineSize > MAX_SCAN_TOKEN_SIZE) {
          lineSize := MAX_SCAN_TOKEN_SIZE;
        }
        if lineSize == 0 {
          break;
        }
        LogLine(buf[..lineSize]);
        buf := buf[lineSize..];
      }
      n := |p|;
      BufferAfterDrain(cfg, start);
      DrainConserves(cfg, start);
    }

    method HasPending() returns (r: bool)
      ensures r == HasPendingJSON(cfg, jsonBuf, buf)
    {
      if |jsonBuf| > 0 {
        return true;
      }
      r := StartsDocument(cfg, TrimLeft(buf));
    }

    method LogLine(raw: Bytes)
      modifies this`jsonBuf, this`emitted, this`records
      ensures State() == LoggedLine(cfg, old(State()), raw)
    {
      records := records + [raw];
      LogLineCases(cfg, jsonBuf, emitted, raw);
      var line := TrimSpace(raw);
      if line == [] && |jsonBuf| == 0 {
        return;
      }
      if |jsonBuf| > 0 || StartsDocument(cfg, line) {
        jsonBuf := jsonBuf + raw;
        var err := cfg.tryLogJSON(jsonBuf);
        if err.Incomplete? {
          return;
        }
        emitted := emitted + [if err.Malformed? then Text(LogText(jsonBuf)) else Document(jsonBuf)];
        jsonBuf := [];
        return;
      }
      var err := cfg.tryLogJSON(raw);
      emitted := emitted + [if err.Complete? then Document(raw) else Text(LogText(line))];
    }

    method Flush()
      modifies this
      ensures State() == Flushed(cfg, old(State()))
      ensures buf == [] && jsonBuf == []
    {
      if |buf| > 0 {
        LogLine(buf);
        buf := [];
      }
      if |jsonBuf| > 0 {
        emitted := emitted + [Text(LogText(jsonBuf))];
        jsonBuf := [];
      }
    }
  }
}
