/**
 * The VIN loopback scenario: a test image is flipped between two identical
 * framebuffers on the HDMI-A-1 connector while the VIN capture device,
 * looped back over an HDMI cable, captures frames that are compared with
 * the image shown. Ten captures, or a five-second timer, request the stop.
 */
module VinLoopback {
  import opened Wrappers
  import opened Text
  import opened KmsgReader
  import opened Events
  import opened Kms
  import opened Harness
  import PageFlip

  /** The only connector the scenario drives. */
  const HdmiName := "HDMI-A-1"

  /** The name of the scenario's single step. */
  const StepName := "VIN Loopback on connector " + HdmiName

  /** Captures after which main no longer waits for the timer. */
  const CaptureLimit := 10

  /** The reason fail() is given when some captured frame differed from the output. */
  const ComparisonReason := "Frame comparisons failed"

  /** The line logged after that failure, before the output image is saved. */
  const SaveNote := "Saving output image as /tmp/original.bin"

  /**
   * What the card, the capture device and the system do during the step:
   * the connectors and planes, the ids of the two output and the two
   * capture framebuffers, what the mode set returns, the capture device
   * node, and the two event-loop runs (the settling one and the capture one).
   */
  datatype Loopback = Loopback(
    connectors: seq<Connector>, planes: seq<Plane>,
    fb0: int, fb1: int, vin0: int, vin1: int, modeSet: int, device: string,
    settle: Phase, capture: Phase)

  /** The first connector named HDMI-A-1, if any. */
  function HdmiConnector(cs: seq<Connector>): (r: Option<Connector>)
    ensures r.None? <==> forall i :: 0 <= i < |cs| ==> cs[i].fullname != HdmiName
    ensures r.Some? ==> exists k :: (0 <= k < |cs| && cs[k] == r.value && r.value.fullname == HdmiName
      && forall i :: 0 <= i < k ==> cs[i].fullname != HdmiName)
    decreases |cs|
  {
    if |cs| == 0 then None
    else if cs[0].fullname == HdmiName then Some(cs[0])
    else
      var r := HdmiConnector(cs[1..]);
      assert forall i :: 1 <= i < |cs| ==> cs[i] == cs[1..][i - 1];
      if r.Some? then
        var k :| 0 <= k < |cs[1..]| && cs[1..][k] == r.value && r.value.fullname == HdmiName
          && forall i :: 0 <= i < k ==> cs[1..][i].fullname != HdmiName;
        assert cs[k + 1] == r.value;
        r
      else r
  }

  /**
   * get_connector: the search loop over the card's connectors. The name
   * it is given is not used; the connector is always HDMI-A-1.
   */
  method GetConnector(connectors: seq<Connector>, name: string) returns (found: Option<Connector>)
    ensures found == HdmiConnector(connectors)
  {
    for i := 0 to |connectors|
      invariant forall j :: 0 <= j < i ==> connectors[j].fullname != HdmiName
    {
      if connectors[i].fullname == HdmiName {
        var r := HdmiConnector(connectors);
        var k :| 0 <= k < |connectors| && connectors[k] == r.value && r.value.fullname == HdmiName
          && forall j :: 0 <= j < k ==> connectors[j].fullname != HdmiName;
        assert k == i;
        return Some(connectors[i]);
      }
    }
    found := None;
  }

  /** The log ends with the given lines. */
  predicate EndsWith(lines: seq<LogLine>, tail: seq<LogLine>) {
    |tail| <= |lines| && lines[|lines| - |tail|..] == tail
  }

  /** Why the step is skipped before anything is shown, if it is. */
  predicate SkipCause(cs: seq<Connector>, planes: seq<Plane>) {
    match HdmiConnector(cs)
    case None => true
    case Some(c) => !c.connected || NothingFits(c, planes)
  }

  /** The connector has no CRTC, its CRTC no plane, or it has no mode. */
  predicate NothingFits(c: Connector, planes: seq<Plane>) {
    CrtcFor(c).None? || PageFlip.NoPlaneFor(planes, CrtcFor(c).value) || c.defaultMode.None?
  }

  /** The line logged for each frame captured. */
  function CaptureNote(n: int, diff: int): string {
    "Frame Capture: " + IntToString(n) + " with difference " + IntToString(diff)
  }

  /** The raw file a differing capture is saved to. */
  function CaptureFile(n: int, mode: Mode): string {
    "/tmp/captured" + IntToString(n) + "." + IntToString(mode.hdisplay) + "x" + IntToString(mode.vdisplay) + ".raw"
  }

  function CorruptNote(n: int, mode: Mode): string {
    "Corrupt frame written to " + CaptureFile(n, mode)
  }

  /** The number of captures that differed from the output. */
  function Mismatches(ds: seq<int>): (n: nat)
    ensures n <= |ds|
  {
    if |ds| == 0 then 0 else Mismatches(ds[..|ds| - 1]) + (if ds[|ds| - 1] != 0 then 1 else 0)
  }

  /** No mismatch is counted exactly when every capture matched. */
  lemma {:induction false} MismatchesZero(ds: seq<int>)
    ensures Mismatches(ds) == 0 <==> forall i :: 0 <= i < |ds| ==> ds[i] == 0
    decreases |ds|
  {
    if |ds| > 0 {
      var front := ds[..|ds| - 1];
      MismatchesZero(front);
      assert forall i :: 0 <= i < |front| ==> front[i] == ds[i];
    }
  }

  /**
   * The reason main fails the step with once a plane and a mode are found,
   * in the order it checks: the mode set, no capture, a differing capture,
   * no flip, then the stop handshake; None for success.
   */
  function Verdict(modeSet: int, captured: int, failures: int, flips: int, stopRequested: bool): (reason: Option<string>)
    ensures reason.None? <==> modeSet >= 0 && captured != 0 && failures == 0 && flips != 0 && !stopRequested
  {
    if modeSet < 0 then Some("atomic mode set failed with " + IntToString(modeSet))
    else if captured == 0 then Some("No frames captured")
    else if failures != 0 then Some(ComparisonReason)
    else if flips == 0 then Some("No page flip registered")
    else if stopRequested then Some("Last page flip not registered")
    else None
  }

  /** What fail() and the lines after it log for a reason. */
  function FailLines(reason: string): seq<LogLine> {
    [U(PageFlip.FailNote(reason))] + (if reason == ComparisonReason then [U(SaveNote)] else [])
  }

  class VinLoopbackTest {
    const test: KmsTest
    var crtc: Crtc
    var plane: Plane
    var mode: Mode
    var fbs: seq<Framebuffer>
    var vin: seq<Framebuffer>
    var frontBuf: int
    var frameStart: int
    var frameEnd: int
    var timeStart: int
    var timeEnd: int
    var stopRequested: bool
    var captured: int
    var failures: int
    // The capture buffers queued at the device, whether it streams, and
    // whether its descriptor is registered with the event loop.
    var queued: int
    var streaming: bool
    var captureRegistered: bool
    // The difference of every frame captured since configure_vin, in order.
    ghost var diffs: seq<int>

    predicate Valid()
      reads this, test, test.logger, test.logger.reader, test.logger.reader.kmsg, test.loop
    {
      test.Valid()
    }

    /** Two output framebuffers and a front buffer index of 0 or 1. */
    predicate Buffers()
      reads this
    {
      |fbs| == 2 && (frontBuf == 0 || frontBuf == 1)
    }

    /** The counters agree with the captures seen: one per frame, one failure per differing frame. */
    ghost predicate Counted()
      reads this
    {
      captured == |diffs| && failures == Mismatches(diffs)
    }

    ghost predicate Flipping()
      reads this, test, test.logger, test.logger.reader, test.logger.reader.kmsg, test.loop
    {
      Valid() && Buffers() && Counted()
    }

    constructor (kmsg: Kmsg)
      ensures Valid() && Counted() && fresh(test) && fresh(test.logger) && fresh(test.logger.reader) && fresh(test.loop)
      ensures test.kmsg == kmsg && test.logger.reader.parse == ParseEntry
      ensures test.logger.reader.cursor == |kmsg.entries| && test.stdout == ""
      ensures !captureRegistered && !streaming && queued == 0
      ensures captured == 0 && failures == 0 && diffs == []
    {
      test := new KmsTest(kmsg);
      fbs, vin := [], [];
      captured, failures, diffs := 0, 0, [];
      queued, streaming, captureRegistered := 0, false, false;
    }

    /**
     * handle_page_flip: record the first flip of a run; when a stop was
     * requested, record the last flip, stop the loop and clear the request
     * without flipping; otherwise show the front buffer and toggle it.
     */
    method HandlePageFlip(frame: int, time: int) returns (o: Outcome<PyError>)
      requires Valid() && Buffers()
      modifies this`frameStart, this`timeStart, this`frameEnd, this`timeEnd, this`stopRequested, this`frontBuf
      modifies test.logger, test.logger.reader, test.loop, test`commits
      ensures Valid() && Buffers() && test.loop.timers == old(test.loop.timers)
      ensures !(test.flips == 1 || old(stopRequested)) ==> unchanged(test.logger, test.logger.reader)
      ensures (test.flips == 1 || old(stopRequested)) && old(test.logger.Pending()).Success? ==>
        test.logger.lines == old(test.logger.lines) + KLines(old(test.logger.Pending()).value)
          + FlipLog(test.flips, old(stopRequested), frame)
      ensures (test.flips == 1 || old(stopRequested)) && old(test.logger.Pending()).Failure? ==>
        o == Raised(old(test.logger.Pending()).error) && test.logger.lines == old(test.logger.lines)
        && unchanged(this) && test.commits == old(test.commits) && test.loop.stopped == old(test.loop.stopped)
      ensures !(test.flips == 1 || old(stopRequested)) ==> o == Completed
      ensures o.Completed? ==>
        if test.flips == 1 then frameStart == frame && timeStart == time
        else frameStart == old(frameStart) && timeStart == old(timeStart)
      ensures o.Completed? && old(stopRequested) ==>
        frameEnd == frame && timeEnd == time && test.loop.stopped && !stopRequested
        && frontBuf == old(frontBuf) && test.commits == old(test.commits)
      ensures o.Completed? && !old(stopRequested) ==>
        frameEnd == old(frameEnd) && timeEnd == old(timeEnd) && !stopRequested
        && test.loop.stopped == old(test.loop.stopped) && frontBuf == 1 - old(frontBuf)
        && test.commits == old(test.commits) + [FullScreen(plane, crtc, fbs[old(frontBuf)])]
    {
      o := RecordFirst(frame, time);
      if o.Raised? {
        return;
      }
      if stopRequested {
        o := AcknowledgeStop(frame, time);
      } else {
        ShowNext();
      }
    }

    /** The first flip of a run (the counter is already 1): log it, then record its frame and time. */
    method RecordFirst(frame: int, time: int) returns (o: Outcome<PyError>)
      requires Valid()
      modifies this`frameStart, this`timeStart, test.logger, test.logger.reader
      ensures Valid()
      ensures test.flips != 1 ==> o == Completed && unchanged(this, test.logger, test.logger.reader)
      ensures test.flips == 1 && old(test.logger.Pending()).Success? ==>
        o == Completed && frameStart == frame && timeStart == time && test.logger.Pending() == Success([])
        && test.logger.lines == old(test.logger.lines) + KLines(old(test.logger.Pending()).value) + [U(FirstFlipNote(frame))]
      ensures test.flips == 1 && old(test.logger.Pending()).Failure? ==>
        o == Raised(old(test.logger.Pending()).error) && test.logger.lines == old(test.logger.lines)
        && unchanged(this)
    {
      o := Completed;
      if test.flips == 1 {
        o := test.logger.Log(FirstFlipNote(frame));
        if o.Completed? {
          frameStart, timeStart := frame, time;
        }
      }
    }

    /** The flip after a stop request: log and record it, stop the loop and clear the request. */
    method AcknowledgeStop(frame: int, time: int) returns (o: Outcome<PyError>)
      requires Valid()
      modifies this`frameEnd, this`timeEnd, this`stopRequested, test.logger, test.logger.reader, test.loop
      ensures Valid() && test.loop.timers == old(test.loop.timers)
      ensures old(test.logger.Pending()).Success? ==>
        o == Completed && frameEnd == frame && timeEnd == time && test.loop.stopped && !stopRequested
        && test.logger.lines == old(test.logger.lines) + KLines(old(test.logger.Pending()).value) + [U(LastFlipNote(frame))]
      ensures old(test.logger.Pending()).Failure? ==>
        o == Raised(old(test.logger.Pending()).error) && test.logger.lines == old(test.logger.lines)
        && frameEnd == old(frameEnd) && timeEnd == old(timeEnd) && stopRequested == old(stopRequested)
        && test.loop.stopped == old(test.loop.stopped)
    {
      o := test.logger.Log(LastFlipNote(frame));
      if o.Raised? {
        return;
      }
      frameEnd, timeEnd := frame, time;
      test.loop.Stop();
      stopRequested := false;
    }

    /** A flip that is not the last: commit the front buffer whole and toggle the index. */
    method ShowNext()
      requires Buffers()
      modifies this`frontBuf, test`commits
      ensures Buffers() && frontBuf == 1 - old(frontBuf)
      ensures test.commits == old(test.commits) + [FullScreen(plane, crtc, fbs[old(frontBuf)])]
    {
      var fb := fbs[frontBuf];
      frontBuf := XorOne(frontBuf);
      test.AtomicPlaneSet(plane, crtc, Screen(fb), Screen(fb), fb);
    }

    /** stop_page_flip: request the stop from the next flip and stop capture streaming. */
    method StopPageFlip()
      modifies this`stopRequested, this`streaming
      ensures stopRequested && !streaming
    {
      stopRequested := true;
      streaming := false;
    }

    /**
     * handle_frame_capture: nothing once a stop is requested; otherwise
     * dequeue the captured buffer, log its difference from the front
     * buffer, log a differing frame as corrupt and count it as a failure,
     * requeue the buffer and count the capture; the tenth capture requests
     * the stop.
     */
    method HandleFrameCapture(diff: int) returns (o: Outcome<PyError>)
      requires Valid() && Counted()
      modifies this`captured, this`failures, this`queued, this`stopRequested, this`streaming, this`diffs
      modifies test.logger, test.logger.reader
      ensures Valid() && Counted()
      ensures old(stopRequested) ==> o == Completed && unchanged(this, test.logger, test.logger.reader)
      ensures !old(stopRequested) && old(test.logger.Pending()).Failure? ==>
        o == Raised(old(test.logger.Pending()).error) && test.logger.lines == old(test.logger.lines)
        && queued == old(queued) - 1 && captured == old(captured) && failures == old(failures)
        && !stopRequested && streaming == old(streaming)
      ensures !old(stopRequested) && old(test.logger.Pending()).Success? ==>
        o == Completed && queued == old(queued)
        && captured == old(captured) + 1 && failures == old(failures) + (if diff != 0 then 1 else 0)
        && diffs == old(diffs) + [diff]
        && test.logger.lines == old(test.logger.lines) + KLines(old(test.logger.Pending()).value)
          + [U(CaptureNote(old(captured), diff))] + (if diff != 0 then [U(CorruptNote(old(captured), mode))] else [])
        && (stopRequested <==> captured >= CaptureLimit)
        && (if captured >= CaptureLimit then !streaming else streaming == old(streaming))
    {
      if stopRequested {
        return Completed;
      }
      queued := queued - 1;
      o := test.logger.Log(CaptureNote(captured, diff));
      if o.Raised? {
        return;
      }
      CountCapture(diff);
    }

    /**
     * The rest of a capture once its line is logged: a differing frame is
     * reported, the buffer is requeued, the capture is counted, and the
     * tenth one requests the stop.
     */
    method CountCapture(diff: int)
      requires Valid() && Counted() && test.logger.Pending() == Success([])
      modifies this`captured, this`failures, this`queued, this`stopRequested, this`streaming, this`diffs
      modifies test.logger, test.logger.reader
      ensures Valid() && Counted()
      ensures queued == old(queued) + 1 && captured == old(captured) + 1
      ensures failures == old(failures) + (if diff != 0 then 1 else 0) && diffs == old(diffs) + [diff]
      ensures test.logger.lines == old(test.logger.lines) + (if diff != 0 then [U(CorruptNote(old(captured), mode))] else [])
      ensures stopRequested <==> old(stopRequested) || captured >= CaptureLimit
      ensures if captured >= CaptureLimit then !streaming else streaming == old(streaming)
    {
      if diff != 0 {
        ReportCorrupt();
      }
      queued := queued + 1;
      captured := captured + 1;
      diffs := diffs + [diff];
      if captured >= CaptureLimit {
        StopPageFlip();
      }
    }

    /** A differing frame: saved to a raw file (not modelled), logged, and counted. */
    method ReportCorrupt()
      requires Valid() && test.logger.Pending() == Success([])
      modifies this`failures, test.logger, test.logger.reader
      ensures Valid() && failures == old(failures) + 1
      ensures test.logger.lines == old(test.logger.lines) + [U(CorruptNote(captured, mode))]
    {
      var o := test.logger.Log(CorruptNote(captured, mode));
      assert KLines([]) == [];
      failures := failures + 1;
    }

    /** The timer callbacks that fired, in order; LoopStop has already run. */
    method FireCallbacks(fired: seq<Timer>)
      modifies this`stopRequested, this`streaming
      ensures stopRequested <==> old(stopRequested) || exists i :: 0 <= i < |fired| && fired[i].callback.StopPageFlip?
    {
      for i := 0 to |fired|
        invariant stopRequested <==> old(stopRequested) || exists j :: 0 <= j < i && fired[j].callback.StopPageFlip?
      {
        if fired[i].callback.StopPageFlip? {
          StopPageFlip();
        }
      }
    }

    /**
     * The ready sources of one pass, in order: the kernel log source
     * drains the log, each page-flip event bumps the base class's counter
     * before the handler runs, and a captured frame goes to the capture
     * handler once the capture device is registered.
     */
    method Dispatch(ready: seq<Ready>) returns (o: Outcome<PyError>)
      requires Flipping()
      modifies this`frameStart, this`timeStart, this`frameEnd, this`timeEnd, this`stopRequested, this`frontBuf
      modifies this`captured, this`failures, this`queued, this`streaming, this`diffs
      modifies test.logger, test.logger.reader, test.loop, test`commits, test`flips
      ensures Flipping() && test.loop.timers == old(test.loop.timers)
      ensures o.Completed? ==> test.flips == old(test.flips) + FlipEvents(ready)
    {
      o := Completed;
      var i := 0;
      while i < |ready|
        invariant i <= |ready| && o == Completed
        invariant Flipping() && test.loop.timers == old(test.loop.timers)
        invariant test.flips == old(test.flips) + FlipEvents(ready[..i])
        decreases |ready| - i
      {
        assert ready[..i + 1][..i] == ready[..i];
        o := DispatchOne(ready[i]);
        if o.Raised? {
          return;
        }
        i := i + 1;
      }
      assert ready[..i] == ready;
    }

    /** The callback of one ready source. */
    method DispatchOne(r: Ready) returns (o: Outcome<PyError>)
      requires Flipping()
      modifies this`frameStart, this`timeStart, this`frameEnd, this`timeEnd, this`stopRequested, this`frontBuf
      modifies this`captured, this`failures, this`queued, this`streaming, this`diffs
      modifies test.logger, test.logger.reader, test.loop, test`commits, test`flips
      ensures Flipping() && test.loop.timers == old(test.loop.timers)
      ensures test.flips == old(test.flips) + (if r.FlipComplete? then 1 else 0)
    {
      o := Completed;
      match r {
        case LogReadable =>
          o := test.logger.Event();
        case FlipComplete(frame, time) =>
          test.CountFlip();
          o := HandlePageFlip(frame, time);
        case FrameCaptured(diff) =>
          if captureRegistered {
            o := HandleFrameCapture(diff);
          }
      }
    }

    /**
     * One pass of run()'s loop: the kernel appends what it logged, the
     * ready sources are dispatched, then the due timers fire.
     */
    method Pass(w: Wakeup) returns (o: Outcome<PyError>)
      requires Flipping()
      modifies this`frameStart, this`timeStart, this`frameEnd, this`timeEnd, this`stopRequested, this`frontBuf
      modifies this`captured, this`failures, this`queued, this`streaming, this`diffs
      modifies test.logger, test.logger.reader, test.loop, test`commits, test`flips, test.kmsg
      ensures Flipping()
      ensures test.kmsg.entries == old(test.kmsg.entries) + w.logged
      ensures o.Completed? ==> test.flips == old(test.flips) + FlipEvents(w.ready)
    {
      test.kmsg.Append(w.logged);
      o := Dispatch(w.ready);
      if o.Raised? {
        return;
      }
      var fired := test.loop.FireTimers(w.clock);
      FireCallbacks(fired);
    }

    /**
     * run(duration) with this scenario's callbacks: reset the flip
     * counter, arm the loop, run passes until the loop is stopped or the
     * schedule ends, and drop the remaining timers.
     */
    method Run(duration: int, ph: Phase) returns (o: Outcome<PyError>, ran: nat)
      requires Flipping()
      modifies this`frameStart, this`timeStart, this`frameEnd, this`timeEnd, this`stopRequested, this`frontBuf
      modifies this`captured, this`failures, this`queued, this`streaming, this`diffs
      modifies test.logger, test.logger.reader, test.loop, test`commits, test`flips, test.kmsg
      ensures Flipping() && ran <= |ph.passes|
      ensures old(test.kmsg.entries) <= test.kmsg.entries
      ensures o.Completed? ==> test.loop.timers == [] && test.flips == Flips(ph.passes[..ran])
      ensures o.Completed? && ran < |ph.passes| ==> test.loop.stopped
    {
      var timeout := test.BeginRun(duration, ph.now);
      ran := 0;
      o := Completed;
      while !test.loop.stopped && ran < |ph.passes|
        invariant ran <= |ph.passes| && o == Completed
        invariant Flipping()
        invariant old(test.kmsg.entries) <= test.kmsg.entries
        invariant test.flips == Flips(ph.passes[..ran])
      {
        o := Pass(ph.passes[ran]);
        if o.Raised? {
          return;
        }
        assert ph.passes[..ran + 1][..ran] == ph.passes[..ran];
        ran := ran + 1;
      }
      test.loop.Finish();
    }

    /**
     * configure_vin: log the capture device, reset the capture counters,
     * queue both capture buffers, start streaming and register the device
     * with the event loop. Format and port setup is not modelled.
     */
    method ConfigureVin(device: string) returns (o: Outcome<PyError>)
      requires Valid()
      modifies this`captured, this`failures, this`diffs, this`queued, this`streaming, this`captureRegistered
      modifies test.logger, test.logger.reader
      ensures Valid()
      ensures old(test.logger.Pending()).Success? ==>
        o == Completed && captured == 0 && failures == 0 && diffs == [] && Counted()
        && queued == |vin| && streaming && captureRegistered
        && test.logger.lines == old(test.logger.lines) + KLines(old(test.logger.Pending()).value) + [U("Using VIN : " + device)]
      ensures old(test.logger.Pending()).Failure? ==>
        o == Raised(old(test.logger.Pending()).error) && test.logger.lines == old(test.logger.lines)
        && unchanged(this)
    {
      o := test.logger.Log("Using VIN : " + device);
      if o.Raised? {
        return;
      }
      captured, failures, diffs := 0, 0, [];
      queued := |vin|;
      streaming := true;
      captureRegistered := true;
    }

    /** The verdict after the capture run, in the order main checks it. */
    method Conclude() returns (r: Result<Completion, PyError>)
      requires Valid() && Counted() && test.named
      modifies test.logger, test.logger.reader, test`stdout
      ensures Valid()
      ensures old(test.logger.Pending()).Failure? ==>
        r == Failure(old(test.logger.Pending()).error) && test.stdout == old(test.stdout)
      ensures old(test.logger.Pending()).Success? ==>
        r.Success? && r.value != Skipped && test.stdout == old(test.stdout) + StatusLine(test.testName, r.value)
      ensures old(test.logger.Pending()).Success? && Verdict(0, captured, failures, test.flips, stopRequested).Some? ==>
        r == Success(Failed) && test.logger.lines == old(test.logger.lines) + KLines(old(test.logger.Pending()).value)
          + FailLines(Verdict(0, captured, failures, test.flips, stopRequested).value)
      ensures old(test.logger.Pending()).Success? && Verdict(0, captured, failures, test.flips, stopRequested).None? ==>
        r == Success(Succeeded) && test.logger.lines == old(test.logger.lines) + KLines(old(test.logger.Pending()).value)
          + [U("Test completed successfully")]
      // A success means frames were captured and every one matched the output.
      ensures r == Success(Succeeded) ==> |diffs| > 0 && forall i :: 0 <= i < |diffs| ==> diffs[i] == 0
    {
      MismatchesZero(diffs);
      if captured == 0 {
        r := test.Fail("No frames captured");
        return;
      }
      if failures != 0 {
        r := ReportComparisons();
        return;
      }
      if test.flips == 0 {
        r := test.Fail("No page flip registered");
        return;
      }
      if stopRequested {
        r := test.Fail("Last page flip not registered");
        return;
      }
      r := test.Succeed();
    }

    /** The comparison failure: fail(), then the note about the saved output image (the file is not modelled). */
    method ReportComparisons() returns (r: Result<Completion, PyError>)
      requires Valid() && test.named
      modifies test.logger, test.logger.reader, test`stdout
      ensures Valid()
      ensures old(test.logger.Pending()).Failure? ==>
        r == Failure(old(test.logger.Pending()).error) && test.stdout == old(test.stdout)
      ensures old(test.logger.Pending()).Success? ==>
        r == Success(Failed) && test.stdout == old(test.stdout) + StatusLine(test.testName, Failed)
        && test.logger.lines == old(test.logger.lines) + KLines(old(test.logger.Pending()).value)
          + FailLines(ComparisonReason)
    {
      r := test.Fail(ComparisonReason);
      if r.Failure? {
        return;
      }
      var o := test.logger.Log(SaveNote);
      assert KLines([]) == [];
    }

    /** The run state main resets before flipping. */
    method ResetRunState()
      modifies this`frontBuf, this`frameStart, this`frameEnd, this`timeStart, this`timeEnd, this`stopRequested
      ensures frontBuf == 0 && frameStart == 0 && frameEnd == 0 && timeStart == 0 && timeEnd == 0 && !stopRequested
    {
      frontBuf := 0;
      frameStart, frameEnd := 0, 0;
      timeStart, timeEnd := 0, 0;
      stopRequested := false;
    }

    /**
     * main(): start the step, find HDMI-A-1, skip when it is missing or
     * disconnected or when no CRTC, plane or mode fits, then show the
     * test image and capture it.
     */
    method RunMain(s: Loopback) returns (r: Result<Completion, PyError>)
      requires Valid() && Counted()
      modifies this, test, test.logger, test.logger.reader, test.loop, test.kmsg
      ensures Valid() && old(test.kmsg.entries) <= test.kmsg.entries
      ensures test.testName == StepName
      ensures r.Success? ==> test.stdout == old(test.stdout) + StepText(StepName, r.value)
      ensures r.Failure? ==> old(test.stdout) <= test.stdout
      ensures r.Success? ==> (r.value == Skipped <==> SkipCause(s.connectors, s.planes))
      ensures old(test.logger.Pending()).Success? && SkipCause(s.connectors, s.planes) ==> r == Success(Skipped)
      ensures r.Success? && r.value != Skipped ==>
        (r.value == Succeeded <==> Verdict(s.modeSet, captured, failures, test.flips, stopRequested).None?)
      ensures r == Success(Failed) ==> (Verdict(s.modeSet, captured, failures, test.flips, stopRequested).Some?
        && EndsWith(test.logger.lines, FailLines(Verdict(s.modeSet, captured, failures, test.flips, stopRequested).value)))
      ensures r == Success(Succeeded) ==> |diffs| > 0 && forall i :: 0 <= i < |diffs| ==> diffs[i] == 0
    {
      var o := test.Start(StepName);
      if o.Raised? {
        return Failure(o.error);
      }
      r := Select(s);
      if r.Success? {
        StepTextAfter(old(test.stdout), StepName, r.value);
      }
    }

    /** The part of main after start(): every way the step can end. */
    method Select(s: Loopback) returns (r: Result<Completion, PyError>)
      requires Valid() && Counted() && test.named
      modifies this`crtc, this`plane, this`mode, this`fbs, this`vin
      modifies this`frameStart, this`timeStart, this`frameEnd, this`timeEnd, this`stopRequested, this`frontBuf
      modifies this`captured, this`failures, this`queued, this`streaming, this`diffs, this`captureRegistered
      modifies test.logger, test.logger.reader, test.loop, test`commits, test`flips, test`stdout, test.kmsg
      ensures Valid() && old(test.kmsg.entries) <= test.kmsg.entries
      ensures test.testName == old(test.testName)
      ensures r.Success? ==> test.stdout == old(test.stdout) + StatusLine(test.testName, r.value)
      ensures r.Failure? ==> test.stdout == old(test.stdout)
      ensures r.Success? ==> (r.value == Skipped <==> SkipCause(s.connectors, s.planes))
      ensures old(test.logger.Pending()).Success? && SkipCause(s.connectors, s.planes) ==> r == Success(Skipped)
      ensures r.Success? && r.value != Skipped ==>
        (r.value == Succeeded <==> Verdict(s.modeSet, captured, failures, test.flips, stopRequested).None?)
      ensures r == Success(Failed) ==> (Verdict(s.modeSet, captured, failures, test.flips, stopRequested).Some?
        && EndsWith(test.logger.lines, FailLines(Verdict(s.modeSet, captured, failures, test.flips, stopRequested).value)))
      ensures r == Success(Succeeded) ==> |diffs| > 0 && forall i :: 0 <= i < |diffs| ==> diffs[i] == 0
    {
      var found := GetConnector(s.connectors, HdmiName);
      if found.None? {
        r := test.Skip("HDMI output connector not found");
        return;
      }
      var c := found.value;
      if !c.connected {
        r := test.Skip("unconnected connector");
        return;
      }
      r := Choose(s, c);
    }

    /** For the connected HDMI-A-1: skip when no CRTC, plane or mode fits, otherwise show and capture. */
    method Choose(s: Loopback, c: Connector) returns (r: Result<Completion, PyError>)
      requires Valid() && Counted() && test.named
      modifies this`crtc, this`plane, this`mode, this`fbs, this`vin
      modifies this`frameStart, this`timeStart, this`frameEnd, this`timeEnd, this`stopRequested, this`frontBuf
      modifies this`captured, this`failures, this`queued, this`streaming, this`diffs, this`captureRegistered
      modifies test.logger, test.logger.reader, test.loop, test`commits, test`flips, test`stdout, test.kmsg
      ensures Valid() && old(test.kmsg.entries) <= test.kmsg.entries
      ensures r.Success? ==> test.stdout == old(test.stdout) + StatusLine(test.testName, r.value)
      ensures r.Failure? ==> test.stdout == old(test.stdout)
      ensures r.Success? ==> (r.value == Skipped <==> NothingFits(c, s.planes))
      ensures old(test.logger.Pending()).Success? && NothingFits(c, s.planes) ==> r == Success(Skipped)
      ensures r.Success? && r.value != Skipped ==>
        (r.value == Succeeded <==> Verdict(s.modeSet, captured, failures, test.flips, stopRequested).None?)
      ensures r == Success(Failed) ==> (Verdict(s.modeSet, captured, failures, test.flips, stopRequested).Some?
        && EndsWith(test.logger.lines, FailLines(Verdict(s.modeSet, captured, failures, test.flips, stopRequested).value)))
      ensures r == Success(Succeeded) ==> |diffs| > 0 && forall i :: 0 <= i < |diffs| ==> diffs[i] == 0
    {
      var chosen := CrtcFor(c);
      if chosen.None? {
        r := test.Skip("No CRTC available");
        return;
      }
      crtc := chosen.value;
      var p := FindPlane(s.planes, crtc);
      if p.None? {
        r := test.Skip("no plane available for CRTC " + IntToString(crtc.id));
        return;
      }
      plane := p.value;
      if c.defaultMode.None? {
        r := test.Skip("no mode available");
        return;
      }
      r := ShowAndCapture(s, c, c.defaultMode.value);
    }

    /**
     * Once a CRTC, a plane and a mode are found: allocate the output and
     * capture framebuffers, set the mode, then settle and capture.
     */
    method ShowAndCapture(s: Loopback, c: Connector, m: Mode) returns (r: Result<Completion, PyError>)
      requires Valid() && Counted() && test.named
      modifies this`mode, this`fbs, this`vin
      modifies this`frameStart, this`timeStart, this`frameEnd, this`timeEnd, this`stopRequested, this`frontBuf
      modifies this`captured, this`failures, this`queued, this`streaming, this`diffs, this`captureRegistered
      modifies test.logger, test.logger.reader, test.loop, test`commits, test`flips, test`stdout, test.kmsg
      ensures Valid() && old(test.kmsg.entries) <= test.kmsg.entries
      ensures test.testName == old(test.testName)
      ensures r.Success? ==> r.value != Skipped && test.stdout == old(test.stdout) + StatusLine(test.testName, r.value)
      ensures r.Failure? ==> test.stdout == old(test.stdout)
      ensures r.Success? ==> (r.value == Succeeded <==> Verdict(s.modeSet, captured, failures, test.flips, stopRequested).None?)
      ensures r == Success(Failed) ==> (Verdict(s.modeSet, captured, failures, test.flips, stopRequested).Some?
        && EndsWith(test.logger.lines, FailLines(Verdict(s.modeSet, captured, failures, test.flips, stopRequested).value)))
      ensures r == Success(Succeeded) ==> |diffs| > 0 && forall i :: 0 <= i < |diffs| ==> diffs[i] == 0
    {
      var o := Prepare(s, c, m);
      if o.Raised? {
        return Failure(o.error);
      }
      if s.modeSet < 0 {
        r := RejectMode(s.modeSet);
        return;
      }
      r := Capture(s);
    }

    /** Log the setup and allocate the two output and the two capture framebuffers at the mode's size. */
    method Prepare(s: Loopback, c: Connector, m: Mode) returns (o: Outcome<PyError>)
      requires Valid()
      modifies this`mode, this`fbs, this`vin, test.logger, test.logger.reader
      ensures Valid() && mode == m
      ensures o.Completed? ==>
        fbs == [Framebuffer(s.fb0, m.hdisplay, m.vdisplay), Framebuffer(s.fb1, m.hdisplay, m.vdisplay)]
        && vin == [Framebuffer(s.vin0, m.hdisplay, m.vdisplay), Framebuffer(s.vin1, m.hdisplay, m.vdisplay)]
      ensures old(test.logger.Pending()).Success? ==>
        o.Completed? && test.logger.lines == old(test.logger.lines)
          + KLines(old(test.logger.Pending()).value) + [U(PageFlip.SetupNote(c, crtc, plane, m))]
      ensures old(test.logger.Pending()).Failure? ==>
        o == Raised(old(test.logger.Pending()).error) && test.logger.lines == old(test.logger.lines)
    {
      mode := m;
      o := test.logger.Log(PageFlip.SetupNote(c, crtc, plane, m));
      if o.Raised? {
        return;
      }
      fbs := [Framebuffer(s.fb0, m.hdisplay, m.vdisplay), Framebuffer(s.fb1, m.hdisplay, m.vdisplay)];
      vin := [Framebuffer(s.vin0, m.hdisplay, m.vdisplay), Framebuffer(s.vin1, m.hdisplay, m.vdisplay)];
    }

    /** A failed mode set: fail() with the return code. */
    method RejectMode(modeSet: int) returns (r: Result<Completion, PyError>)
      requires Valid() && modeSet < 0 && test.named
      modifies test.logger, test.logger.reader, test`stdout
      ensures Valid()
      ensures r.Failure? ==> test.stdout == old(test.stdout)
      ensures r.Success? ==> (r.value == Failed && test.stdout == old(test.stdout) + StatusLine(test.testName, Failed)
        && EndsWith(test.logger.lines, FailLines(Verdict(modeSet, captured, failures, test.flips, stopRequested).value)))
      ensures old(test.logger.Pending()).Success? <==> r.Success?
    {
      var reason := "atomic mode set failed with " + IntToString(modeSet);
      assert reason[0] != ComparisonReason[0];
      r := test.Fail(reason);
    }

    /**
     * Once the mode is set: reset the run state, let the output settle for
     * a second, start the capture, arm the five-second stop timer and run
     * for six seconds, then conclude.
     */
    method Capture(s: Loopback) returns (r: Result<Completion, PyError>)
      requires Valid() && Counted() && test.named && |fbs| == 2 && s.modeSet >= 0
      modifies this`frameStart, this`timeStart, this`frameEnd, this`timeEnd, this`stopRequested, this`frontBuf
      modifies this`captured, this`failures, this`queued, this`streaming, this`diffs, this`captureRegistered
      modifies test.logger, test.logger.reader, test.loop, test`commits, test`flips, test`stdout, test.kmsg
      ensures Valid() && old(test.kmsg.entries) <= test.kmsg.entries
      ensures r.Success? ==> r.value != Skipped && test.stdout == old(test.stdout) + StatusLine(test.testName, r.value)
      ensures r.Failure? ==> test.stdout == old(test.stdout)
      ensures r.Success? ==> (r.value == Succeeded <==> Verdict(s.modeSet, captured, failures, test.flips, stopRequested).None?)
      ensures r == Success(Failed) ==> (Verdict(s.modeSet, captured, failures, test.flips, stopRequested).Some?
        && EndsWith(test.logger.lines, FailLines(Verdict(s.modeSet, captured, failures, test.flips, stopRequested).value)))
      ensures r == Success(Succeeded) ==> |diffs| > 0 && forall i :: 0 <= i < |diffs| ==> diffs[i] == 0
    {
      ResetRunState();
      var o, ran := Run(1, s.settle);
      if o.Raised? {
        return Failure(o.error);
      }
      o := ConfigureVin(s.device);
      if o.Raised? {
        return Failure(o.error);
      }
      r := CaptureFrames(s);
    }

    /** With the capture running: arm the five-second stop timer, run for six seconds, then conclude. */
    method CaptureFrames(s: Loopback) returns (r: Result<Completion, PyError>)
      requires Flipping() && test.named && s.modeSet >= 0
      modifies this`frameStart, this`timeStart, this`frameEnd, this`timeEnd, this`stopRequested, this`frontBuf
      modifies this`captured, this`failures, this`queued, this`streaming, this`diffs
      modifies test.logger, test.logger.reader, test.loop, test`commits, test`flips, test`stdout, test.kmsg
      ensures Valid() && old(test.kmsg.entries) <= test.kmsg.entries
      ensures r.Success? ==> r.value != Skipped && test.stdout == old(test.stdout) + StatusLine(test.testName, r.value)
      ensures r.Failure? ==> test.stdout == old(test.stdout)
      ensures r.Success? ==> (r.value == Succeeded <==> Verdict(s.modeSet, captured, failures, test.flips, stopRequested).None?)
      ensures r == Success(Failed) ==> (Verdict(s.modeSet, captured, failures, test.flips, stopRequested).Some?
        && EndsWith(test.logger.lines, FailLines(Verdict(s.modeSet, captured, failures, test.flips, stopRequested).value)))
      ensures r == Success(Succeeded) ==> |diffs| > 0 && forall i :: 0 <= i < |diffs| ==> diffs[i] == 0
    {
      test.loop.AddTimer(s.capture.now, 5, Callback.StopPageFlip);
      var o, ran := Run(6, s.capture);
      if o.Raised? {
        return Failure(o.error);
      }
      r := Conclude();
    }

    /**
     * execute(): main() under the kernel log validator, whose reader is
     * opened before main() runs and drained after it. `late` is what the
     * kernel logs outside any event-loop pass (while no loop runs, or after
     * the last one): it reaches /dev/kmsg before the reader is drained.
     */
    method Execute(s: Loopback, late: seq<Entry>) returns (r: Result<Completion, PyError>)
      requires Valid() && Counted()
      modifies this, test, test.logger, test.logger.reader, test.loop, test.kmsg
      ensures Valid() && old(test.kmsg.entries) <= test.kmsg.entries
      ensures r.Success? ==> (r.value == Skipped <==> SkipCause(s.connectors, s.planes))
      ensures r.Success? ==> (Drain(test.kmsg.entries[|old(test.kmsg.entries)|..], ParseEntry).Success?
        && test.stdout == old(test.stdout) + StepText(StepName, r.value)
          + (if AnyFault(Drain(test.kmsg.entries[|old(test.kmsg.entries)|..], ParseEntry).value)
             then StatusLine(StepName, Failed) else ""))
      ensures r.Success? ==> (|test.kmsg.entries| >= |old(test.kmsg.entries)| + |late|
        && test.kmsg.entries[|test.kmsg.entries| - |late|..] == late)
    {
      var klog := new KernelLogReader(test.kmsg);
      r := RunMain(s);
      if r.Failure? {
        return;
      }
      test.kmsg.Append(late);
      var o := test.CheckKernelLog(klog);
      if o.Raised? {
        return Failure(o.error);
      }
    }
  }
}
