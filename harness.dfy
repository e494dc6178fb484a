/**
 * The KMSTest base class that every scenario derives from: the log file
 * that interleaves kernel records with the harness's own lines, the
 * console status of each test step, the page-flip counter, the plane
 * commits with their properties masked to 64 bits, and the check of the
 * kernel log that runs after a test body.
 */
module Harness {
  import opened Wrappers
  import opened Text
  import opened KernelLog
  import opened KmsgReader
  import opened Events
  import opened Kms

  /** 2^64: commit property values reach the kernel as unsigned 64-bit integers. */
  const U64: int := 0x1_0000_0000_0000_0000

  /** `v & ((1 << 64) - 1)` on Python's unbounded integers: the residue of v in [0, 2^64). */
  function Mask64(v: int): (r: int)
    ensures 0 <= r < U64
    ensures (v - r) % U64 == 0
  {
    v % U64
  }

  /** Values already in range pass unchanged, negative ones wrap to 2^64 + v, and masking twice is masking once. */
  lemma Mask64Spec(v: int)
    ensures 0 <= v < U64 ==> Mask64(v) == v
    ensures -U64 <= v < 0 ==> Mask64(v) == U64 + v
    ensures Mask64(Mask64(v)) == Mask64(v)
  {
  }

  /**
   * Python's `a % m`: the remainder takes the sign of the divisor, and a
   * zero divisor raises ZeroDivisionError.
   */
  function PyMod(a: int, m: int): (r: Result<int, PyError>)
    ensures r.Failure? <==> m == 0
    ensures r.Failure? ==> r.error == ZeroDivisionError
  {
    if m == 0 then Failure(ZeroDivisionError)
    else if m > 0 then Success(a % m)
    else Success(-((-a) % (-m)))
  }

  /** A multiple of n strictly between -n and n is zero. */
  lemma MultipleInRange(d: int, n: int)
    requires n > 0 && -n < d * n < n
    ensures d == 0
  {
  }

  /** The Euclidean remainder is the only one in range. */
  lemma ModUnique(a: int, n: int, k: int, r: int)
    requires n > 0 && 0 <= r < n && a == k * n + r
    ensures a % n == r
  {
    var k', r' := a / n, a % n;
    assert a == k' * n + r';
    assert (k - k') * n == r' - r;
    MultipleInRange(k - k', n);
  }

  /**
   * Where Python's `x % m` lands: in [0, m) for a positive divisor, in
   * (m, 0] for a negative one. With a zero divisor nothing is stored, so
   * a position that started at 0 stays there.
   */
  predicate InModRange(x: int, m: int) {
    if m > 0 then 0 <= x < m else if m < 0 then m < x <= 0 else x == 0
  }

  /**
   * The remainder lies on the divisor's side of zero: for a positive
   * divisor it is the Euclidean remainder, and for a negative one it is
   * the Euclidean remainder shifted by the divisor.
   */
  lemma PyModSpec(a: int, m: int)
    requires m != 0
    ensures InModRange(PyMod(a, m).value, m)
    ensures m > 0 ==> PyMod(a, m).value == a % m
    ensures m < 0 ==> PyMod(a, m).value == if a % (-m) == 0 then 0 else a % (-m) + m
  {
    if m < 0 {
      var n := -m;
      var q := (-a) / n;
      var r := (-a) % n;
      assert -a == q * n + r && 0 <= r < n;
      if r == 0 {
        ModUnique(a, n, -q, 0);
      } else {
        ModUnique(a, n, -q - 1, n - r);
      }
    }
  }

  /** Python's `b ^ 1`: flip the lowest bit (two's complement for negative b). */
  function XorOne(b: int): int {
    if b % 2 == 0 then b + 1 else b - 1
  }

  /** Toggling twice is the identity, and it swaps the two buffer indices. */
  lemma XorOneSpec(b: int)
    ensures XorOne(XorOne(b)) == b
    ensures b == 0 ==> XorOne(b) == 1
    ensures b == 1 ==> XorOne(b) == 0
  {
  }

  /** __format_props: the same keys, each value masked to 64 bits. */
  function FormatProps(props: map<string, int>): (r: map<string, int>)
    ensures r.Keys == props.Keys
    ensures forall k :: k in r ==> 0 <= r[k] < U64 && (props[k] - r[k]) % U64 == 0
  {
    map k | k in props :: Mask64(props[k])
  }

  /** Formatting leaves in-range values alone and is idempotent. */
  lemma FormatPropsSpec(props: map<string, int>)
    ensures forall k :: k in props && 0 <= props[k] < U64 ==> FormatProps(props)[k] == props[k]
    ensures FormatProps(FormatProps(props)) == FormatProps(props)
  {
    forall k | k in props {
      Mask64Spec(props[k]);
    }
  }

  datatype Rect = Rect(left: int, top: int, width: int, height: int)

  /** The property dictionary atomic_plane_set builds, before formatting. */
  function PlaneProps(fb: Framebuffer, crtc: Crtc, source: Rect, destination: Rect): map<string, int> {
    map[
      "FB_ID" := fb.id,
      "CRTC_ID" := crtc.id,
      "SRC_X" := source.left * 65536,
      "SRC_Y" := source.top * 65536,
      "SRC_W" := source.width * 65536,
      "SRC_H" := source.height * 65536,
      "CRTC_X" := destination.left,
      "CRTC_Y" := destination.top,
      "CRTC_W" := destination.width,
      "CRTC_H" := destination.height]
  }

  const PlanePropNames: set<string> :=
    {"FB_ID", "CRTC_ID", "SRC_X", "SRC_Y", "SRC_W", "SRC_H", "CRTC_X", "CRTC_Y", "CRTC_W", "CRTC_H"}

  /** The properties atomic_plane_set adds to the request for the plane. */
  function PlaneRequest(fb: Framebuffer, crtc: Crtc, source: Rect, destination: Rect): (r: map<string, int>)
    ensures r.Keys == PlanePropNames
    ensures forall k :: k in r ==> 0 <= r[k] < U64
  {
    FormatProps(PlaneProps(fb, crtc, source, destination))
  }

  /** A 16.16 fixed-point coordinate after masking: its fraction bits are zero, and an in-range value is exact. */
  lemma FixedPoint(v: int)
    ensures Mask64(v * 65536) % 65536 == 0
    ensures 0 <= v * 65536 < U64 ==> Mask64(v * 65536) == v * 65536
  {
    var q := (v * 65536) / U64;
    assert v * 65536 == q * U64 + Mask64(v * 65536);
    assert Mask64(v * 65536) == (v - q * 0x1_0000_0000_0000) * 65536;
    Mask64Spec(v * 65536);
  }

  /**
   * The source rectangle is sent in 16.16 fixed point, the destination as
   * given, and a negative destination offset as its 64-bit two's complement.
   */
  lemma PlaneRequestSpec(fb: Framebuffer, crtc: Crtc, source: Rect, destination: Rect)
    ensures PlaneRequest(fb, crtc, source, destination)["SRC_X"] == Mask64(source.left * 65536)
    ensures PlaneRequest(fb, crtc, source, destination)["SRC_W"] == Mask64(source.width * 65536)
    ensures PlaneRequest(fb, crtc, source, destination)["SRC_X"] % 65536 == 0
    ensures PlaneRequest(fb, crtc, source, destination)["SRC_Y"] % 65536 == 0
    ensures 0 <= source.width * 65536 < U64 ==>
      PlaneRequest(fb, crtc, source, destination)["SRC_W"] == source.width * 65536
    ensures 0 <= source.height * 65536 < U64 ==>
      PlaneRequest(fb, crtc, source, destination)["SRC_H"] == source.height * 65536
    ensures -U64 <= destination.left < 0 ==>
      PlaneRequest(fb, crtc, source, destination)["CRTC_X"] == U64 + destination.left
    ensures -U64 <= destination.top < 0 ==>
      PlaneRequest(fb, crtc, source, destination)["CRTC_Y"] == U64 + destination.top
    ensures 0 <= fb.id < U64 ==> PlaneRequest(fb, crtc, source, destination)["FB_ID"] == fb.id
  {
    FixedPoint(source.left);
    FixedPoint(source.top);
    FixedPoint(source.width);
    FixedPoint(source.height);
    Mask64Spec(destination.left);
    Mask64Spec(destination.top);
    Mask64Spec(fb.id);
  }

  /**
   * One atomic_plane_set request: the plane and what it is asked to show.
   * The properties the kernel receives for it are Props.
   */
  datatype Commit = PlaneCommit(planeId: int, fb: Framebuffer, crtc: Crtc, source: Rect, destination: Rect)

  /** The property dictionary a commit sends for its plane. */
  function Props(c: Commit): (r: map<string, int>)
    ensures r.Keys == PlanePropNames
    ensures forall k :: k in r ==> 0 <= r[k] < U64
  {
    PlaneRequest(c.fb, c.crtc, c.source, c.destination)
  }

  /** The whole framebuffer, as both the source and the destination of a flip. */
  function Screen(fb: Framebuffer): Rect {
    Rect(0, 0, fb.width, fb.height)
  }

  /** What a flip handler commits: the framebuffer shown whole, at the origin. */
  function FullScreen(plane: Plane, crtc: Crtc, fb: Framebuffer): Commit {
    PlaneCommit(plane.id, fb, crtc, Screen(fb), Screen(fb))
  }

  /** A full-screen flip sends the framebuffer's size in 16.16 fixed point and places it at the origin. */
  lemma FullScreenProps(plane: Plane, crtc: Crtc, fb: Framebuffer)
    requires 0 <= fb.width * 65536 < U64 && 0 <= fb.height * 65536 < U64
    ensures Props(FullScreen(plane, crtc, fb))["SRC_W"] == fb.width * 65536
    ensures Props(FullScreen(plane, crtc, fb))["SRC_H"] == fb.height * 65536
    ensures Props(FullScreen(plane, crtc, fb))["SRC_X"] == 0
    ensures Props(FullScreen(plane, crtc, fb))["CRTC_X"] == 0
  {
    PlaneRequestSpec(fb, crtc, Screen(fb), Screen(fb));
    Mask64Spec(0);
  }

  /** A log file line: "K [ts] text" for a kernel record, "U [now] text" for the harness's own. */
  datatype LogLine = K(timestampUs: int, text: string) | U(text: string)

  /** The K lines for a batch of kernel records, in order. */
  function KLines(msgs: seq<Message>): (ls: seq<LogLine>)
    ensures |ls| == |msgs|
    ensures forall i :: 0 <= i < |msgs| ==> ls[i] == K(msgs[i].timestampUs, msgs[i].msg)
  {
    seq(|msgs|, i requires 0 <= i < |msgs| => K(msgs[i].timestampUs, msgs[i].msg))
  }

  /** Writing one more record appends its K line. */
  lemma KLinesSnoc(msgs: seq<Message>, i: nat)
    requires i < |msgs|
    ensures KLines(msgs[..i + 1]) == KLines(msgs[..i]) + [K(msgs[i].timestampUs, msgs[i].msg)]
  {
    var a, b := KLines(msgs[..i + 1]), KLines(msgs[..i]) + [K(msgs[i].timestampUs, msgs[i].msg)];
    forall j | 0 <= j < |a| ensures a[j] == b[j] {
      assert msgs[..i + 1][j] == msgs[j];
      if j < i {
        assert msgs[..i][j] == msgs[j];
      }
    }
  }

  /** The for loop of event(): one K line per record, in order. */
  method WriteKernelLines(msgs: seq<Message>) returns (written: seq<LogLine>)
    ensures written == KLines(msgs)
  {
    written := [];
    for i := 0 to |msgs|
      invariant written == KLines(msgs[..i])
    {
      KLinesSnoc(msgs, i);
      written := written + [K(msgs[i].timestampUs, msgs[i].msg)];
    }
    assert msgs[..|msgs|] == msgs;
  }

  /** The log file of a test, fed from its own reader of the kernel log. */
  class Logger {
    const reader: KernelLogReader
    var lines: seq<LogLine>

    predicate Valid()
      reads this, reader, reader.kmsg
    {
      reader.Valid()
    }

    /** What the next drain of the kernel log returns. */
    function Pending(): Result<seq<Message>, PyError>
      requires Valid()
      reads this, reader, reader.kmsg
    {
      reader.Pending()
    }

    constructor (kmsg: Kmsg)
      ensures fresh(reader) && reader.kmsg == kmsg && reader.parse == ParseEntry
      ensures Valid() && lines == [] && reader.cursor == |kmsg.entries|
    {
      reader := new KernelLogReader(kmsg);
      lines := [];
    }

    /**
     * event(): write every pending kernel record as a K line, in arrival
     * order. A failed read propagates and writes nothing.
     */
    method Event() returns (o: Outcome<PyError>)
      requires Valid()
      modifies this, reader
      ensures Valid()
      ensures old(Pending()).Success? ==>
        o == Completed && lines == old(lines) + KLines(old(Pending()).value)
        && reader.cursor == |reader.kmsg.entries| && Pending() == Success([])
      ensures old(Pending()).Failure? ==>
        o == Raised(old(Pending()).error) && lines == old(lines) && old(reader.cursor) < reader.cursor
    {
      var r := reader.Read();
      if r.Failure? {
        return Raised(r.error);
      }
      assert reader.kmsg.entries[reader.cursor..] == [];
      var written := WriteKernelLines(r.value);
      lines := lines + written;
      o := Completed;
    }

    /** log(): drain the kernel log first, then write the harness's own U line after it. */
    method Log(text: string) returns (o: Outcome<PyError>)
      requires Valid()
      modifies this, reader
      ensures Valid()
      ensures old(Pending()).Success? ==>
        o == Completed && lines == old(lines) + KLines(old(Pending()).value) + [U(text)]
        && reader.cursor == |reader.kmsg.entries| && Pending() == Success([])
      ensures old(Pending()).Failure? ==> o == Raised(old(Pending()).error) && lines == old(lines)
    {
      o := Event();
      if o.Raised? {
        return;
      }
      lines := lines + [U(text)];
    }
  }

  /** What fail(), skip() and success() return: the bound method, never the value True. */
  datatype Completion = Failed | Skipped | Succeeded

  /** What start() writes to the console. */
  function StartLine(name: string): string {
    "Testing " + name + ": "
  }

  /** What fail(), skip() and success() write after start()'s line. */
  function StatusLine(name: string, c: Completion): string {
    match c
    case Failed => "\rTesting " + name + ": FAIL\n"
    case Skipped => "SKIP\n"
    case Succeeded => "\rTesting " + name + ": SUCCESS\n"
  }

  /** The console text of one step that was started and then completed. */
  function StepText(name: string, c: Completion): string {
    StartLine(name) + StatusLine(name, c)
  }

  /** start() followed by a completion writes the step's text. */
  lemma StepTextAfter(out: string, name: string, c: Completion)
    ensures out + StartLine(name) + StatusLine(name, c) == out + StepText(name, c)
  {
  }

  /** The console text of a run of completed steps, in order. */
  function Transcript(names: seq<string>, cs: seq<Completion>): string
    requires |names| == |cs|
  {
    Concat(StepTexts(names, cs))
  }

  /** The text of each completed step, in order. */
  function StepTexts(names: seq<string>, cs: seq<Completion>): (ts: seq<string>)
    requires |names| == |cs|
    ensures |ts| == |cs| && forall i :: 0 <= i < |cs| ==> ts[i] == StepText(names[i], cs[i])
  {
    seq(|cs|, i requires 0 <= i < |cs| => StepText(names[i], cs[i]))
  }

  /** Texts written one after the other. */
  function Concat(ss: seq<string>): string
  {
    if |ss| == 0 then "" else Concat(ss[..|ss| - 1]) + ss[|ss| - 1]
  }

  lemma AppendAssoc(a: string, b: string, c: string)
    ensures a + b + c == a + (b + c)
  {
  }

  /** Taking k + 1 elements of x followed by s takes x and the first k of s. */
  lemma TakeCons<T>(x: T, s: seq<T>, k: nat)
    requires k <= |s|
    ensures ([x] + s)[..k + 1] == [x] + s[..k]
  {
  }

  /** Output only ever grows: a prefix of a prefix is a prefix. */
  lemma PrefixTrans(a: string, b: string, c: string)
    requires a <= b && b <= c
    ensures a <= c
  {
  }

  /** Writing two batches of texts, one after the other, writes the texts of both in order. */
  lemma {:induction false} ConcatAppend(a: seq<string>, b: seq<string>)
    ensures Concat(a + b) == Concat(a) + Concat(b)
    decreases |b|
  {
    if |b| == 0 {
      assert a + b == a;
    } else {
      var k := |b| - 1;
      ConcatAppend(a, b[..k]);
      assert (a + b)[..|a + b| - 1] == a + b[..k];
      assert (a + b)[|a + b| - 1] == b[k];
      AppendAssoc(Concat(a), Concat(b[..k]), b[k]);
    }
  }

  /** One more completed step extends the transcript by its text. */
  lemma TranscriptSnoc(names: seq<string>, cs: seq<Completion>, c: Completion)
    requires |cs| < |names|
    ensures Transcript(names[..|cs| + 1], cs + [c]) == Transcript(names[..|cs|], cs) + StepText(names[|cs|], c)
  {
    var all := StepTexts(names[..|cs| + 1], cs + [c]);
    assert all[..|cs|] == StepTexts(names[..|cs|], cs);
  }

  lemma TranscriptOne(name: string, c: Completion)
    ensures Transcript([name], [c]) == StepText(name, c)
  {
    var ts := StepTexts([name], [c]);
    assert ts[..0] == [] && ts[0] == StepText(name, c);
    assert Concat(ts) == Concat([]) + StepText(name, c);
  }

  /** The transcript of two runs of steps, one after the other, is the first's followed by the second's. */
  lemma TranscriptConcat(n1: seq<string>, n2: seq<string>, c1: seq<Completion>, c2: seq<Completion>)
    requires |n1| == |c1| && |n2| == |c2|
    ensures Transcript(n1 + n2, c1 + c2) == Transcript(n1, c1) + Transcript(n2, c2)
  {
    assert StepTexts(n1 + n2, c1 + c2) == StepTexts(n1, c1) + StepTexts(n2, c2);
    ConcatAppend(StepTexts(n1, c1), StepTexts(n2, c2));
  }

  /** A step run before a run of steps puts its text in front of theirs. */
  lemma TranscriptCons(name: string, c: Completion, names: seq<string>, cs: seq<Completion>)
    requires |names| == |cs|
    ensures Transcript([name] + names, [c] + cs) == StepText(name, c) + Transcript(names, cs)
  {
    TranscriptConcat([name], names, [c], cs);
    TranscriptOne(name, c);
  }

  /** Each completed step's console text ends its line, so the next step starts on a fresh one. */
  lemma TranscriptLines(names: seq<string>, cs: seq<Completion>)
    requires |names| == |cs|
    ensures |Transcript(names, cs)| > 0 ==> Transcript(names, cs)[|Transcript(names, cs)| - 1] == '\n'
    ensures |cs| > 0 <==> |Transcript(names, cs)| > 0
  {
    if |cs| > 0 {
      var t := StepText(names[|cs| - 1], cs[|cs| - 1]);
      assert StepTexts(names, cs)[|cs| - 1] == t;
      assert t[|t| - 1] == '\n';
    }
  }

  /** The U lines for a sequence of texts logged one after the other. */
  function ULines(texts: seq<string>): (ls: seq<LogLine>)
    ensures |ls| == |texts|
    ensures forall i :: 0 <= i < |texts| ==> ls[i] == U(texts[i])
  {
    seq(|texts|, i requires 0 <= i < |texts| => U(texts[i]))
  }

  /** The texts a flip handler logs when it records the first and the last flip of a run. */
  function FirstFlipNote(frame: int): string {
    "first page flip frame " + IntToString(frame)
  }

  function LastFlipNote(frame: int): string {
    "last page flip frame " + IntToString(frame)
  }

  /**
   * What a flip handler logs: the first flip of a run (the counter, already
   * bumped, is 1), then the last one when a stop has been requested.
   */
  function FlipLog(flips: int, stopRequested: bool, frame: int): (ls: seq<LogLine>)
    ensures |ls| <= 2
    ensures (flips == 1 || stopRequested) <==> |ls| > 0
  {
    (if flips == 1 then [U(FirstFlipNote(frame))] else []) + (if stopRequested then [U(LastFlipNote(frame))] else [])
  }

  /** Some record's first line carries a fault signature. */
  predicate AnyFault(msgs: seq<Message>) {
    exists i :: 0 <= i < |msgs| && IsFault(msgs[i].msg)
  }

  /** The reason the kernel log check fails a step with. */
  const KernelFaultReason := "Post Test Kernel Fault Found"

  /** What select() found ready in one pass of the loop, in dispatch order. */
  datatype Ready =
    | LogReadable                       // the logger's kernel log reader
    | FlipComplete(frame: int, time: int) // a FLIP_COMPLETE event read from the card
    | FrameCaptured(diff: int)          // a captured frame, and how much it differs from the output

  /**
   * One pass of run()'s loop: the records the kernel logged since the
   * previous pass, the ready sources, and the clock fire_timers reads.
   */
  datatype Wakeup = Wakeup(logged: seq<Entry>, ready: seq<Ready>, clock: int)

  /** One call of run(duration): the clock reading it starts from and the passes of its loop. */
  datatype Phase = Phase(now: int, passes: seq<Wakeup>)

  /** The number of page-flip events among ready sources. */
  function FlipEvents(rs: seq<Ready>): (n: nat)
    ensures n <= |rs|
  {
    if |rs| == 0 then 0
    else (if rs[|rs| - 1].FlipComplete? then 1 else 0) + FlipEvents(rs[..|rs| - 1])
  }

  /** The number of page-flip events in a run of passes. */
  function Flips(ws: seq<Wakeup>): nat {
    if |ws| == 0 then 0 else Flips(ws[..|ws| - 1]) + FlipEvents(ws[|ws| - 1].ready)
  }

  /** Counting is additive over consecutive passes. */
  lemma {:induction false} FlipsConcat(a: seq<Wakeup>, b: seq<Wakeup>)
    ensures Flips(a + b) == Flips(a) + Flips(b)
    decreases |b|
  {
    if |b| > 0 {
      assert (a + b)[..|a + b| - 1] == a + b[..|b| - 1];
      assert (a + b)[|a + b| - 1] == b[|b| - 1];
      FlipsConcat(a, b[..|b| - 1]);
    } else {
      assert a + b == a;
    }
  }

  /** Counting is additive over consecutive ready sources. */
  lemma {:induction false} FlipEventsConcat(a: seq<Ready>, b: seq<Ready>)
    ensures FlipEvents(a + b) == FlipEvents(a) + FlipEvents(b)
    decreases |b|
  {
    if |b| > 0 {
      assert (a + b)[..|a + b| - 1] == a + b[..|b| - 1];
      assert (a + b)[|a + b| - 1] == b[|b| - 1];
      FlipEventsConcat(a, b[..|b| - 1]);
    } else {
      assert a + b == a;
    }
  }

  /** The base class of a scenario. */
  class KmsTest {
    const kmsg: Kmsg
    const logger: Logger
    const loop: EventLoop
    var flips: int
    var testName: string
    var named: bool  // whether start() has assigned test_name yet
    var stdout: string
    var commits: seq<Commit>

    predicate Valid()
      reads this, logger, logger.reader, logger.reader.kmsg, loop
    {
      logger.reader.kmsg == kmsg && logger.Valid() && loop.Valid()
    }

    constructor (kmsg: Kmsg)
      ensures this.kmsg == kmsg && Valid()
      ensures fresh(logger) && fresh(logger.reader) && fresh(loop) && logger.reader.parse == ParseEntry
      ensures logger.lines == [] && logger.reader.cursor == |kmsg.entries|
      ensures loop.timers == [] && !loop.stopped
      ensures flips == 0 && testName == "" && !named && stdout == "" && commits == []
    {
      this.kmsg := kmsg;
      logger := new Logger(kmsg);
      loop := new EventLoop();
      flips := 0;
      testName := "";
      named := false;
      stdout := "";
      commits := [];
    }

    /** Log a line, then write to the console only if logging did not raise. */
    method Report(text: string, console: string) returns (o: Outcome<PyError>)
      requires Valid()
      modifies logger, logger.reader, this`stdout
      ensures Valid()
      ensures old(logger.Pending()).Success? ==>
        o == Completed && stdout == old(stdout) + console
        && logger.lines == old(logger.lines) + KLines(old(logger.Pending()).value) + [U(text)]
        && logger.Pending() == Success([])
      ensures old(logger.Pending()).Failure? ==>
        o == Raised(old(logger.Pending()).error) && stdout == old(stdout) && logger.lines == old(logger.lines)
    {
      o := logger.Log(text);
      if o.Completed? {
        stdout := stdout + console;
      }
    }

    /** start(): name the step, log it, and print "Testing <name>: ". */
    method Start(name: string) returns (o: Outcome<PyError>)
      requires Valid()
      modifies logger, logger.reader, this`stdout, this`testName, this`named
      ensures Valid() && testName == name && named
      ensures old(logger.Pending()).Success? ==>
        o == Completed && stdout == old(stdout) + StartLine(name)
        && logger.lines == old(logger.lines) + KLines(old(logger.Pending()).value) + [U("Testing " + name)]
        && logger.Pending() == Success([])
      ensures old(logger.Pending()).Failure? ==>
        o == Raised(old(logger.Pending()).error) && stdout == old(stdout) && logger.lines == old(logger.lines)
    {
      testName, named := name, true;
      o := Report("Testing " + name, StartLine(name));
    }

    /**
     * progress(): rewrite the status line with a counter. Before any
     * start() the step has no name and reading it raises.
     */
    method Progress(current: int, maximum: int) returns (o: Outcome<PyError>)
      modifies this`stdout
      ensures named ==> (o == Completed
        && stdout == old(stdout) + "\rTesting " + testName + ": " + IntToString(current) + "/" + IntToString(maximum))
      ensures !named ==> o == Raised(AttributeError) && stdout == old(stdout)
    {
      if !named {
        return Raised(AttributeError);
      }
      stdout := stdout + "\rTesting " + testName + ": " + IntToString(current) + "/" + IntToString(maximum);
      o := Completed;
    }

    /**
     * fail(): log the reason and end the status line with FAIL. Before any start() the line is
     * still logged and flushed, then reading the step name raises.
     */
    method Fail(reason: string) returns (r: Result<Completion, PyError>)
      requires Valid()
      modifies logger, logger.reader, this`stdout
      ensures Valid()
      ensures old(logger.Pending()).Success? ==>
        logger.lines == old(logger.lines) + KLines(old(logger.Pending()).value) + [U("Test failed. Reason: " + reason)]
        && logger.Pending() == Success([])
        && (named ==> r == Success(Failed) && stdout == old(stdout) + StatusLine(testName, Failed))
        && (!named ==> r == Failure(AttributeError) && stdout == old(stdout))
      ensures old(logger.Pending()).Failure? ==>
        r == Failure(old(logger.Pending()).error) && stdout == old(stdout) && logger.lines == old(logger.lines)
    {
      var o := Report("Test failed. Reason: " + reason, if named then StatusLine(testName, Failed) else "");
      r := if o.Raised? then Failure(o.error) else if named then Success(Failed) else Failure(AttributeError);
    }

    /** skip(): log the reason and print only "SKIP". */
    method Skip(reason: string) returns (r: Result<Completion, PyError>)
      requires Valid()
      modifies logger, logger.reader, this`stdout
      ensures Valid()
      ensures old(logger.Pending()).Success? ==>
        r == Success(Skipped) && stdout == old(stdout) + StatusLine(testName, Skipped)
        && logger.lines == old(logger.lines) + KLines(old(logger.Pending()).value) + [U("Test skipped. Reason: " + reason)]
        && logger.Pending() == Success([])
      ensures old(logger.Pending()).Failure? ==>
        r == Failure(old(logger.Pending()).error) && stdout == old(stdout) && logger.lines == old(logger.lines)
    {
      var o := Report("Test skipped. Reason: " + reason, StatusLine(testName, Skipped));
      r := if o.Raised? then Failure(o.error) else Success(Skipped);
    }

    /**
     * success(): log completion and end the status line with SUCCESS. Before any start() the line is
     * still logged and flushed, then reading the step name raises.
     */
    method Succeed() returns (r: Result<Completion, PyError>)
      requires Valid()
      modifies logger, logger.reader, this`stdout
      ensures Valid()
      ensures old(logger.Pending()).Success? ==>
        logger.lines == old(logger.lines) + KLines(old(logger.Pending()).value) + [U("Test completed successfully")]
        && logger.Pending() == Success([])
        && (named ==> r == Success(Succeeded) && stdout == old(stdout) + StatusLine(testName, Succeeded))
        && (!named ==> r == Failure(AttributeError) && stdout == old(stdout))
      ensures old(logger.Pending()).Failure? ==>
        r == Failure(old(logger.Pending()).error) && stdout == old(stdout) && logger.lines == old(logger.lines)
    {
      var o := Report("Test completed successfully", if named then StatusLine(testName, Succeeded) else "");
      r := if o.Raised? then Failure(o.error) else if named then Success(Succeeded) else Failure(AttributeError);
    }

    /** The base class's flip handler: count the flip before the scenario's handler runs. */
    method CountFlip()
      modifies this`flips
      ensures flips == old(flips) + 1
    {
      flips := flips + 1;
    }

    /** run(duration), up to its loop: reset the flip counter and arm the event loop. */
    method BeginRun(duration: int, now: int) returns (timeout: Option<int>)
      requires Valid()
      modifies this`flips, loop
      ensures Valid() && flips == 0 && !loop.stopped
      ensures loop.timers == Armed(old(loop.timers), duration, now)
      ensures timeout == NextTimeout(loop.timers, now)
    {
      flips := 0;
      timeout := loop.Arm(duration, now);
    }

    /** atomic_plane_set: submit the plane's new framebuffer and rectangles, masked to 64 bits. */
    method AtomicPlaneSet(plane: Plane, crtc: Crtc, source: Rect, destination: Rect, fb: Framebuffer)
      modifies this`commits
      ensures commits == old(commits) + [PlaneCommit(plane.id, fb, crtc, source, destination)]
    {
      commits := commits + [PlaneCommit(plane.id, fb, crtc, source, destination)];
    }

    /**
     * The check KernelLogValidator adds after a test body: drain the
     * validator's own reader once and fail the step if any record's first
     * line carries a fault signature. FAIL is appended to the console,
     * after whatever the body printed.
     */
    method CheckKernelLog(klog: KernelLogReader) returns (o: Outcome<PyError>)
      requires Valid() && klog.Valid() && klog != logger.reader
      modifies logger, logger.reader, this`stdout, klog
      ensures Valid()
      ensures old(klog.Pending()).Failure? ==>
        o == Raised(old(klog.Pending()).error) && stdout == old(stdout) && logger.lines == old(logger.lines)
      ensures old(klog.Pending()).Success? && !AnyFault(old(klog.Pending()).value) ==>
        o == Completed && stdout == old(stdout) && logger.lines == old(logger.lines)
      ensures old(klog.Pending()).Success? && AnyFault(old(klog.Pending()).value) ==>
        (old(logger.Pending()).Success? ==>
          logger.lines == old(logger.lines) + KLines(old(logger.Pending()).value)
            + [U("Test failed. Reason: " + KernelFaultReason)]
          && (named ==> o == Completed && stdout == old(stdout) + StatusLine(testName, Failed))
          && (!named ==> o == Raised(AttributeError) && stdout == old(stdout)))
        && (old(logger.Pending()).Failure? ==> o == Raised(old(logger.Pending()).error) && stdout == old(stdout))
    {
      ghost var pending := logger.Pending();
      var r := klog.Read();
      assert logger.Pending() == pending;
      if r.Failure? {
        return Raised(r.error);
      }
      var fault := ScanForFaults(r.value);
      if fault {
        var f := Fail(KernelFaultReason);
        if f.Failure? {
          return Raised(f.error);
        }
      }
      o := Completed;
    }
  }
}
