/**
 * The page-flip scenario: for each connector, set its default mode, then
 * flip between two framebuffers with a moving bar for ten seconds; a timer
 * requests the stop, the next flip acknowledges it and stops the loop, and
 * the step's verdict is taken from the flip counter and the handshake.
 */
module PageFlip {
  import opened Wrappers
  import opened Text
  import opened KmsgReader
  import opened Events
  import opened Kms
  import opened Harness

  const BarWidth := 20
  const BarSpeed := 8

  /**
   * What the card does for one connector: the ids of the two framebuffers
   * allocated for it, what the mode set returns, the clock reading when the
   * flipping starts, and the passes of the event loop while it runs.
   */
  datatype Trial = Trial(connector: Connector, fb0: int, fb1: int, modeSet: int, now: int, passes: seq<Wakeup>)

  /** The step name main passes to start() for a connector. */
  function StepName(c: Connector): string {
    "page flip on connector " + c.fullname
  }

  /** The step names of a run of trials, in order. */
  function StepNames(ts: seq<Trial>): (r: seq<string>)
    ensures |r| == |ts|
    ensures forall i :: 0 <= i < |ts| ==> r[i] == StepName(ts[i].connector)
  {
    seq(|ts|, i requires 0 <= i < |ts| => StepName(ts[i].connector))
  }

  /** The line main logs before flipping on a connector. */
  function SetupNote(c: Connector, crtc: Crtc, plane: Plane, mode: Mode): string {
    "Testing connector " + c.fullname + ", CRTC " + IntToString(crtc.id)
      + ", plane " + IntToString(plane.id) + ", mode " + mode.name
  }

  /** The frame-rate line, without its floating-point figures. */
  function RateNote(flips: int, frames: int): string {
    "Frame rate: (" + IntToString(flips) + "/" + IntToString(frames) + " frames)"
  }

  /** The text fail() logs for a reason. */
  function FailNote(reason: string): string {
    "Test failed. Reason: " + reason
  }

  function Last<T>(s: seq<T>): T
    requires |s| > 0
  {
    s[|s| - 1]
  }

  /** Why a step is skipped before anything is flipped, if it is. */
  predicate NoPlaneFor(planes: seq<Plane>, crtc: Crtc) {
    forall i :: 0 <= i < |planes| ==> !SupportsCrtc(planes[i], crtc)
  }

  predicate SkipCause(c: Connector, planes: seq<Plane>) {
    !c.connected
    || (CrtcFor(c).Some? && (NoPlaneFor(planes, CrtcFor(c).value) || c.defaultMode.None?))
  }

  /** Each of the first |cs| trials was skipped exactly when it had a reason to be. */
  predicate SkipsExplained(cs: seq<Completion>, ts: seq<Trial>, planes: seq<Plane>)
    requires |cs| <= |ts|
  {
    forall k :: 0 <= k < |cs| ==> (cs[k] == Skipped <==> SkipCause(ts[k].connector, planes))
  }

  lemma ExplainedSnoc(cs: seq<Completion>, ts: seq<Trial>, planes: seq<Plane>, c: Completion)
    requires |cs| < |ts| && SkipsExplained(cs, ts, planes)
    requires c == Skipped <==> SkipCause(ts[|cs|].connector, planes)
    ensures SkipsExplained(cs + [c], ts, planes)
  {
  }

  /**
   * The verdict main reaches once the mode is set: the failure reason, in
   * the order the checks are made, or None for success.
   */
  function Verdict(modeSet: int, flips: int, stopRequested: bool): (reason: Option<string>)
    ensures reason.None? <==> modeSet >= 0 && flips != 0 && !stopRequested
  {
    if modeSet < 0 then Some("atomic mode set failed with " + IntToString(modeSet))
    else if flips == 0 then Some("No page flip registered")
    else if stopRequested then Some("Last page flip not registered")
    else None
  }

  class PageFlipTest {
    const test: KmsTest
    var crtc: Crtc
    var plane: Plane
    var fbs: seq<Framebuffer>
    var frontBuf: int
    var barXpos: int
    var frameStart: int
    var frameEnd: int
    var timeStart: int
    var timeEnd: int
    var stopRequested: bool

    predicate Valid()
      reads this, test, test.logger, test.logger.reader, test.logger.reader.kmsg, test.loop
    {
      test.Valid()
    }

    /** The bar moves modulo the framebuffer width less the bar's. */
    function Span(): int
      requires |fbs| == 2
      reads this
    {
      fbs[0].width - BarWidth
    }

    /**
     * The state the flip handler relies on: two framebuffers of one size,
     * a front buffer index of 0 or 1, and the bar inside its span.
     */
    predicate Flipping()
      reads this, test, test.logger, test.logger.reader, test.logger.reader.kmsg, test.loop
    {
      Valid() && Buffers()
    }

    predicate Buffers()
      reads this
    {
      |fbs| == 2 && fbs[0].width == fbs[1].width
      && (frontBuf == 0 || frontBuf == 1) && InModRange(barXpos, Span())
    }

    constructor (kmsg: Kmsg)
      ensures Valid() && fresh(test) && fresh(test.logger) && fresh(test.logger.reader) && fresh(test.loop)
      ensures test.kmsg == kmsg && test.logger.reader.parse == ParseEntry
      ensures test.logger.reader.cursor == |kmsg.entries| && test.stdout == ""
    {
      test := new KmsTest(kmsg);
      fbs := [];
    }

    /**
     * handle_page_flip: record the first flip of a run; when a stop was
     * requested, record the last flip, stop the loop and queue nothing
     * more; otherwise show the front buffer, toggle it and move the bar.
     */
    method HandlePageFlip(frame: int, time: int) returns (o: Outcome<PyError>)
      requires Flipping()
      modifies this`frameStart, this`timeStart, this`frameEnd, this`timeEnd, this`stopRequested
      modifies this`frontBuf, this`barXpos, test.logger, test.logger.reader, test.loop, test`commits
      ensures Flipping() && test.loop.timers == old(test.loop.timers)
      // Logging: the notes are written after the pending kernel records, or the drain raises.
      ensures !(test.flips == 1 || old(stopRequested)) ==> unchanged(test.logger, test.logger.reader)
      ensures (test.flips == 1 || old(stopRequested)) && old(test.logger.Pending()).Success? ==>
        test.logger.lines == old(test.logger.lines) + KLines(old(test.logger.Pending()).value)
          + FlipLog(test.flips, old(stopRequested), frame)
      ensures (test.flips == 1 || old(stopRequested)) && old(test.logger.Pending()).Failure? ==>
        o == Raised(old(test.logger.Pending()).error) && test.logger.lines == old(test.logger.lines)
        && unchanged(this) && test.commits == old(test.commits) && test.loop.stopped == old(test.loop.stopped)
      // The first flip of a run is recorded.
      ensures o.Completed? ==>
        if test.flips == 1 then frameStart == frame && timeStart == time
        else frameStart == old(frameStart) && timeStart == old(timeStart)
      // The stop handshake: record the end, stop the loop, clear the request, flip nothing.
      ensures o.Completed? && old(stopRequested) ==>
        frameEnd == frame && timeEnd == time && test.loop.stopped && !stopRequested
        && frontBuf == old(frontBuf) && barXpos == old(barXpos) && test.commits == old(test.commits)
      // A normal flip: show the front buffer, toggle it, move the bar.
      ensures o.Completed? && !old(stopRequested) ==> (
        frameEnd == old(frameEnd) && timeEnd == old(timeEnd) && !stopRequested
        && test.loop.stopped == old(test.loop.stopped)
        && frontBuf == 1 - old(frontBuf) && Span() != 0
        && barXpos == PyMod(old(barXpos) + BarSpeed, Span()).value
        && test.commits == old(test.commits) + [FullScreen(plane, crtc, fbs[old(frontBuf)])])
      // A bar span of zero raises once the buffer has been toggled.
      ensures o.Raised? && o.error == ZeroDivisionError && old(test.logger.Pending()).Success? ==>
        !old(stopRequested) && Span() == 0 && frontBuf == 1 - old(frontBuf) && barXpos == old(barXpos)
        && test.commits == old(test.commits) && test.loop.stopped == old(test.loop.stopped)
      ensures o.Raised? && old(test.logger.Pending()).Success? ==> o.error == ZeroDivisionError
    {
      o := RecordFirst(frame, time);
      if o.Raised? {
        return;
      }
      o := FlipOrStop(frame, time);
    }

    /** What follows the first-flip check: the stop handshake, or the next buffer. */
    method FlipOrStop(frame: int, time: int) returns (o: Outcome<PyError>)
      requires Flipping()
      modifies this`frameEnd, this`timeEnd, this`stopRequested, this`frontBuf, this`barXpos
      modifies test.logger, test.logger.reader, test.loop, test`commits
      ensures Flipping() && test.loop.timers == old(test.loop.timers)
      ensures old(stopRequested) && old(test.logger.Pending()).Success? ==>
        o == Completed && frameEnd == frame && timeEnd == time && test.loop.stopped && !stopRequested
        && frontBuf == old(frontBuf) && barXpos == old(barXpos) && test.commits == old(test.commits)
        && test.logger.lines == old(test.logger.lines) + KLines(old(test.logger.Pending()).value) + [U(LastFlipNote(frame))]
        && test.logger.Pending() == Success([])
      ensures old(stopRequested) && old(test.logger.Pending()).Failure? ==>
        o == Raised(old(test.logger.Pending()).error) && test.logger.lines == old(test.logger.lines)
        && unchanged(this) && test.commits == old(test.commits) && test.loop.stopped == old(test.loop.stopped)
      ensures !old(stopRequested) ==>
        unchanged(test.logger, test.logger.reader) && test.loop.stopped == old(test.loop.stopped)
        && frameEnd == old(frameEnd) && timeEnd == old(timeEnd) && !stopRequested
        && frontBuf == 1 - old(frontBuf) && (o.Completed? <==> Span() != 0)
      ensures !old(stopRequested) && o.Raised? ==>
        o.error == ZeroDivisionError && barXpos == old(barXpos) && test.commits == old(test.commits)
      ensures !old(stopRequested) && o.Completed? ==>
        barXpos == PyMod(old(barXpos) + BarSpeed, Span()).value
        && test.commits == old(test.commits) + [FullScreen(plane, crtc, fbs[old(frontBuf)])]
    {
      if stopRequested {
        o := AcknowledgeStop(frame, time);
      } else {
        o := ShowNext();
      }
    }

    /** The first flip of a run (the counter is already 1): log it, then record its frame and time. */
    method RecordFirst(frame: int, time: int) returns (o: Outcome<PyError>)
      requires Flipping()
      modifies this`frameStart, this`timeStart, test.logger, test.logger.reader
      ensures Flipping()
      ensures test.flips != 1 ==> o == Completed && unchanged(this, test.logger, test.logger.reader)
      ensures test.flips == 1 && old(test.logger.Pending()).Success? ==>
        o == Completed && frameStart == frame && timeStart == time && test.logger.Pending() == Success([])
        && test.logger.lines == old(test.logger.lines) + KLines(old(test.logger.Pending()).value) + [U(FirstFlipNote(frame))]
      ensures test.flips == 1 && old(test.logger.Pending()).Failure? ==>
        o == Raised(old(test.logger.Pending()).error) && test.logger.lines == old(test.logger.lines)
        && unchanged(this)
    {
      o := Completed;
      if test.flips == 1 {
        o := test.logger.Log(FirstFlipNote(frame));
        if o.Completed? {
          frameStart, timeStart := frame, time;
        }
      }
    }

    /**
     * The flip after a stop request: log it, record its frame and time,
     * stop the loop and clear the request, without flipping again.
     */
    method AcknowledgeStop(frame: int, time: int) returns (o: Outcome<PyError>)
      requires Valid()
      modifies this`frameEnd, this`timeEnd, this`stopRequested, test.logger, test.logger.reader, test.loop
      ensures Valid() && test.loop.timers == old(test.loop.timers)
      ensures old(test.logger.Pending()).Success? ==>
        o == Completed && frameEnd == frame && timeEnd == time && test.loop.stopped && !stopRequested
        && test.logger.lines == old(test.logger.lines) + KLines(old(test.logger.Pending()).value) + [U(LastFlipNote(frame))]
        && test.logger.Pending() == Success([])
      ensures old(test.logger.Pending()).Failure? ==>
        o == Raised(old(test.logger.Pending()).error) && test.logger.lines == old(test.logger.lines)
        && frameEnd == old(frameEnd) && timeEnd == old(timeEnd) && stopRequested == old(stopRequested)
        && test.loop.stopped == old(test.loop.stopped)
    {
      o := test.logger.Log(LastFlipNote(frame));
      if o.Raised? {
        return;
      }
      frameEnd, timeEnd := frame, time;
      test.loop.Stop();
      stopRequested := false;
    }

    /**
     * The rest of a flip that is not the last: toggle the front buffer,
     * move the bar, and commit the buffer that was in front.
     */
    method ShowNext() returns (o: Outcome<PyError>)
      requires Buffers()
      modifies this`frontBuf, this`barXpos, test`commits
      ensures Buffers()
      ensures frontBuf == 1 - old(frontBuf)
      ensures o.Completed? <==> Span() != 0
      ensures o.Raised? ==> o.error == ZeroDivisionError && barXpos == old(barXpos) && test.commits == old(test.commits)
      ensures o.Completed? ==>
        barXpos == PyMod(old(barXpos) + BarSpeed, Span()).value && test.commits == old(test.commits) + [FullScreen(plane, crtc, fbs[old(frontBuf)])]
    {
      var fb := fbs[frontBuf];
      frontBuf := XorOne(frontBuf);
      o := MoveBar();
      if o.Raised? {
        return;
      }
      test.AtomicPlaneSet(plane, crtc, Screen(fb), Screen(fb), fb);
      o := Completed;
    }

    /**
     * The bar's old and new positions, one step either side of the current
     * one, by Python's modulo over the span: a zero span raises.
     */
    method MoveBar() returns (o: Outcome<PyError>)
      requires |fbs| == 2 && InModRange(barXpos, Span())
      modifies this`barXpos
      ensures InModRange(barXpos, Span())
      ensures o.Completed? <==> Span() != 0
      ensures o.Raised? ==> o.error == ZeroDivisionError && barXpos == old(barXpos)
      ensures o.Completed? ==> barXpos == PyMod(old(barXpos) + BarSpeed, Span()).value
    {
      var span := fbs[0].width - BarWidth;
      var oldXpos := PyMod(barXpos - BarSpeed, span);
      if oldXpos.Failure? {
        return Raised(oldXpos.error);
      }
      var newXpos := PyMod(barXpos + BarSpeed, span);
      PyModSpec(barXpos + BarSpeed, span);
      barXpos := newXpos.value;
      o := Completed;
    }

    /** stop_page_flip: only ask for the stop; the next flip carries it out. */
    method StopPageFlip()
      modifies this`stopRequested
      ensures stopRequested
    {
      stopRequested := true;
    }

    /** The callbacks of the timers fire_timers popped, in order; LoopStop has already run. */
    method FireCallbacks(fired: seq<Timer>)
      modifies this`stopRequested
      ensures stopRequested <==> old(stopRequested) || exists i :: 0 <= i < |fired| && fired[i].callback.StopPageFlip?
    {
      for i := 0 to |fired|
        invariant stopRequested <==> old(stopRequested) || exists j :: 0 <= j < i && fired[j].callback.StopPageFlip?
      {
        if fired[i].callback.StopPageFlip? {
          StopPageFlip();
        }
      }
    }

    /**
     * The ready sources of one pass, in the order select() returned them:
     * the kernel log source drains the log, and each page-flip event bumps
     * the base class's counter before the handler runs. This scenario
     * registers no capture source, so select() never reports one.
     */
    method Dispatch(ready: seq<Ready>) returns (o: Outcome<PyError>)
      requires Flipping()
      modifies this`frameStart, this`timeStart, this`frameEnd, this`timeEnd, this`stopRequested
      modifies this`frontBuf, this`barXpos, test.logger, test.logger.reader, test.loop, test`commits, test`flips
      ensures Flipping() && test.loop.timers == old(test.loop.timers)
      ensures o.Completed? ==> test.flips == old(test.flips) + FlipEvents(ready)
    {
      o := Completed;
      var i := 0;
      while i < |ready|
        invariant i <= |ready| && o == Completed
        invariant Flipping() && test.loop.timers == old(test.loop.timers)
        invariant test.flips == old(test.flips) + FlipEvents(ready[..i])
        decreases |ready| - i
      {
        assert ready[..i + 1][..i] == ready[..i];
        o := DispatchOne(ready[i]);
        if o.Raised? {
          return;
        }
        i := i + 1;
      }
      assert ready[..i] == ready;
    }

    /** The callback of one ready source. */
    method DispatchOne(r: Ready) returns (o: Outcome<PyError>)
      requires Flipping()
      modifies this`frameStart, this`timeStart, this`frameEnd, this`timeEnd, this`stopRequested
      modifies this`frontBuf, this`barXpos, test.logger, test.logger.reader, test.loop, test`commits, test`flips
      ensures Flipping() && test.loop.timers == old(test.loop.timers)
      ensures test.flips == old(test.flips) + (if r.FlipComplete? then 1 else 0)
    {
      o := Completed;
      match r {
        case LogReadable =>
          o := test.logger.Event();
        case FlipComplete(frame, time) =>
          test.CountFlip();
          o := HandlePageFlip(frame, time);
        case FrameCaptured(_) =>
      }
    }

    /**
     * run(duration) with this scenario's callbacks: reset the flip
     * counter, arm the loop, and run passes until the loop is stopped (or
     * the schedule ends); each pass sees the records the kernel logged,
     * dispatches the ready sources, then fires the due timers. All timers
     * are dropped at the end; an exception leaves them armed.
     */
    method Run(duration: int, now: int, passes: seq<Wakeup>) returns (o: Outcome<PyError>, ran: nat)
      requires Flipping()
      modifies this`frameStart, this`timeStart, this`frameEnd, this`timeEnd, this`stopRequested
      modifies this`frontBuf, this`barXpos, test.logger, test.logger.reader, test.loop, test`commits, test`flips
      modifies test.kmsg
      ensures Flipping() && ran <= |passes|
      ensures old(test.kmsg.entries) <= test.kmsg.entries
      ensures o.Completed? ==> test.loop.timers == [] && test.flips == Flips(passes[..ran])
      ensures o.Completed? && ran < |passes| ==> test.loop.stopped
    {
      var timeout := test.BeginRun(duration, now);
      ran := 0;
      o := Completed;
      while !test.loop.stopped && ran < |passes|
        invariant ran <= |passes| && o == Completed
        invariant Flipping()
        invariant old(test.kmsg.entries) <= test.kmsg.entries
        invariant test.flips == Flips(passes[..ran])
      {
        o := Pass(passes[ran]);
        if o.Raised? {
          return;
        }
        assert passes[..ran + 1][..ran] == passes[..ran];
        ran := ran + 1;
      }
      test.loop.Finish();
    }

    /**
     * One pass of run()'s loop: the kernel appends what it logged, the
     * ready sources are dispatched, then the due timers fire.
     */
    method Pass(w: Wakeup) returns (o: Outcome<PyError>)
      requires Flipping()
      modifies this`frameStart, this`timeStart, this`frameEnd, this`timeEnd, this`stopRequested
      modifies this`frontBuf, this`barXpos, test.logger, test.logger.reader, test.loop, test`commits, test`flips
      modifies test.kmsg
      ensures Flipping()
      ensures test.kmsg.entries == old(test.kmsg.entries) + w.logged
      ensures o.Completed? ==> test.flips == old(test.flips) + FlipEvents(w.ready)
      ensures o.Completed? ==> forall i :: 0 <= i < |test.loop.timers| ==> test.loop.timers[i].deadline > w.clock
    {
      test.kmsg.Append(w.logged);
      o := Dispatch(w.ready);
      if o.Raised? {
        return;
      }
      var fired := test.loop.FireTimers(w.clock);
      FireCallbacks(fired);
    }

    /** The run state main resets before flipping on a connector. */
    method ResetRunState()
      modifies this`barXpos, this`frontBuf, this`frameStart, this`frameEnd, this`timeStart, this`timeEnd
      modifies this`stopRequested
      ensures barXpos == 0 && frontBuf == 0 && frameStart == 0 && frameEnd == 0
      ensures timeStart == 0 && timeEnd == 0 && !stopRequested
    {
      barXpos, frontBuf := 0, 0;
      frameStart, frameEnd := 0, 0;
      timeStart, timeEnd := 0, 0;
      stopRequested := false;
    }

    /**
     * One iteration of main's loop over the connectors: start the step,
     * skip a disconnected connector, pick the CRTC (raising when there is
     * none at all), skip when no plane or no mode fits, then flip.
     */
    method TestConnector(t: Trial, planes: seq<Plane>) returns (r: Result<Completion, PyError>)
      requires Valid()
      modifies this, test, test.logger, test.logger.reader, test.loop, test.kmsg
      ensures Valid() && old(test.kmsg.entries) <= test.kmsg.entries
      ensures test.testName == StepName(t.connector) && test.named
      ensures r.Success? ==> test.stdout == old(test.stdout) + StepText(StepName(t.connector), r.value)
      ensures r.Failure? ==>
        test.stdout == old(test.stdout) || test.stdout == old(test.stdout) + StartLine(StepName(t.connector))
      ensures r.Success? ==> (r.value == Skipped <==> SkipCause(t.connector, planes))
      ensures r.Success? && r.value != Skipped ==>
        (r.value == Succeeded <==> Verdict(t.modeSet, test.flips, stopRequested).None?)
      ensures r == Success(Failed) ==> (Verdict(t.modeSet, test.flips, stopRequested).Some? && |test.logger.lines| > 0
        && Last(test.logger.lines) == U(FailNote(Verdict(t.modeSet, test.flips, stopRequested).value)))
      ensures r == Success(Succeeded) ==> timeEnd != timeStart
      ensures old(test.logger.Pending()).Success? && !t.connector.connected ==> r == Success(Skipped)
      ensures old(test.logger.Pending()).Success? && t.connector.connected && CrtcFor(t.connector).None? ==>
        r == Failure(IndexError)
    {
      var o := test.Start(StepName(t.connector));
      if o.Raised? {
        return Failure(o.error);
      }
      r := SelectAndFlip(t, planes);
      if r.Success? {
        StepTextAfter(old(test.stdout), StepName(t.connector), r.value);
      }
    }

    /** The iteration after start(): every way the step can end. */
    method SelectAndFlip(t: Trial, planes: seq<Plane>) returns (r: Result<Completion, PyError>)
      requires Valid() && test.named
      modifies this, test, test.logger, test.logger.reader, test.loop, test.kmsg
      ensures Valid() && old(test.kmsg.entries) <= test.kmsg.entries
      ensures test.testName == old(test.testName) && test.named
      ensures r.Success? ==> test.stdout == old(test.stdout) + StatusLine(test.testName, r.value)
      ensures r.Failure? ==> test.stdout == old(test.stdout)
      ensures r.Success? ==> (r.value == Skipped <==> SkipCause(t.connector, planes))
      ensures r.Success? && r.value != Skipped ==>
        (r.value == Succeeded <==> Verdict(t.modeSet, test.flips, stopRequested).None?)
      ensures r == Success(Failed) ==> (Verdict(t.modeSet, test.flips, stopRequested).Some? && |test.logger.lines| > 0
        && Last(test.logger.lines) == U(FailNote(Verdict(t.modeSet, test.flips, stopRequested).value)))
      ensures r == Success(Succeeded) ==> timeEnd != timeStart
      ensures old(test.logger.Pending()).Success? && !t.connector.connected ==> r == Success(Skipped)
      ensures old(test.logger.Pending()).Success? && t.connector.connected && CrtcFor(t.connector).None? ==>
        r == Failure(IndexError)
    {
      if !t.connector.connected {
        r := test.Skip("unconnected connector");
        return;
      }
      var c := CrtcOrRaise(t.connector);
      if c.Failure? {
        return Failure(c.error);
      }
      crtc := c.value;
      var found := FindPlane(planes, crtc);
      if found.None? {
        r := test.Skip("no plane available for CRTC " + IntToString(crtc.id));
        return;
      }
      plane := found.value;
      if t.connector.defaultMode.None? {
        r := test.Skip("no mode available");
        return;
      }
      r := FlipOn(t, t.connector.defaultMode.value);
    }

    /**
     * The rest of the iteration once a CRTC, a plane and a mode are found:
     * set the mode, flip for ten seconds, and conclude from the flip
     * counter and the stop handshake; a zero interval between the first
     * and the last flip makes the frame-rate division raise.
     */
    method FlipOn(t: Trial, mode: Mode) returns (r: Result<Completion, PyError>)
      requires Valid() && test.named
      modifies this, test, test.logger, test.logger.reader, test.loop, test.kmsg
      ensures Valid() && old(test.kmsg.entries) <= test.kmsg.entries
      ensures test.testName == old(test.testName) && test.named
      ensures r.Success? ==> r.value != Skipped && test.stdout == old(test.stdout) + StatusLine(test.testName, r.value)
      ensures r.Failure? ==> test.stdout == old(test.stdout)
      ensures r.Success? ==> (r.value == Succeeded <==> Verdict(t.modeSet, test.flips, stopRequested).None?)
      ensures r == Success(Failed) ==> (Verdict(t.modeSet, test.flips, stopRequested).Some? && |test.logger.lines| > 0
        && Last(test.logger.lines) == U(FailNote(Verdict(t.modeSet, test.flips, stopRequested).value)))
      ensures r == Success(Succeeded) ==> timeEnd != timeStart
    {
      var o := test.logger.Log(SetupNote(t.connector, crtc, plane, mode));
      if o.Raised? {
        return Failure(o.error);
      }
      fbs := [Framebuffer(t.fb0, mode.hdisplay, mode.vdisplay), Framebuffer(t.fb1, mode.hdisplay, mode.vdisplay)];
      if t.modeSet < 0 {
        r := test.Fail("atomic mode set failed with " + IntToString(t.modeSet));
        return;
      }
      r := FlipAndConclude(t);
    }

    /** After a successful mode set: flip for the run's duration, then judge the run. */
    method FlipAndConclude(t: Trial) returns (r: Result<Completion, PyError>)
      requires Valid() && test.named && |fbs| == 2 && fbs[0].width == fbs[1].width && t.modeSet >= 0
      modifies this`frameStart, this`timeStart, this`frameEnd, this`timeEnd, this`stopRequested
      modifies this`frontBuf, this`barXpos, test.logger, test.logger.reader, test.loop, test`commits, test`flips
      modifies test.kmsg, test`stdout
      ensures Valid() && old(test.kmsg.entries) <= test.kmsg.entries
      ensures r.Success? ==> r.value != Skipped && test.stdout == old(test.stdout) + StatusLine(test.testName, r.value)
      ensures r.Failure? ==> test.stdout == old(test.stdout)
      ensures r.Success? ==> (r.value == Succeeded <==> Verdict(t.modeSet, test.flips, stopRequested).None?)
      ensures r == Success(Failed) ==> (Verdict(t.modeSet, test.flips, stopRequested).Some? && |test.logger.lines| > 0
        && Last(test.logger.lines) == U(FailNote(Verdict(t.modeSet, test.flips, stopRequested).value)))
      ensures r == Success(Succeeded) ==> timeEnd != timeStart
    {
      ResetRunState();
      test.loop.AddTimer(t.now, 10, Callback.StopPageFlip);
      var o, ran := Run(11, t.now, t.passes);
      if o.Raised? {
        return Failure(o.error);
      }
      r := Conclude();
    }

    /** The verdict after the run, in the order main checks it. */
    method Conclude() returns (r: Result<Completion, PyError>)
      requires Valid() && test.named
      modifies test.logger, test.logger.reader, test`stdout
      ensures Valid()
      ensures r.Success? ==> r.value != Skipped && test.stdout == old(test.stdout) + StatusLine(test.testName, r.value)
      ensures r.Failure? ==> test.stdout == old(test.stdout)
      ensures r.Success? ==> (r.value == Succeeded <==> Verdict(0, test.flips, stopRequested).None?)
      ensures r == Success(Failed) ==> (Verdict(0, test.flips, stopRequested).Some? && |test.logger.lines| > 0
        && Last(test.logger.lines) == U(FailNote(Verdict(0, test.flips, stopRequested).value)))
      ensures r == Success(Succeeded) ==> timeEnd != timeStart
      ensures old(test.logger.Pending()).Success? && Verdict(0, test.flips, stopRequested).Some? ==> r == Success(Failed)
      ensures old(test.logger.Pending()).Success? && Verdict(0, test.flips, stopRequested).None? ==>
        if timeEnd == timeStart then r == Failure(ZeroDivisionError) else r == Success(Succeeded)
    {
      if test.flips == 0 {
        r := test.Fail("No page flip registered");
        return;
      }
      if stopRequested {
        r := test.Fail("Last page flip not registered");
        return;
      }
      var frames := frameEnd - frameStart + 1;
      var interval := timeEnd - timeStart;
      if interval == 0 {
        return Failure(ZeroDivisionError);
      }
      var o := test.logger.Log(RateNote(test.flips, frames));
      if o.Raised? {
        return Failure(o.error);
      }
      r := test.Succeed();
    }

    /** One iteration of main's loop, as main's loop needs it. */
    method Step(t: Trial, planes: seq<Plane>) returns (r: Result<Completion, PyError>)
      requires Valid()
      modifies this, test, test.logger, test.logger.reader, test.loop, test.kmsg
      ensures Valid() && old(test.kmsg.entries) <= test.kmsg.entries
      ensures test.testName == StepName(t.connector) && test.named
      ensures r.Success? ==> test.stdout == old(test.stdout) + StepText(StepName(t.connector), r.value)
      ensures r.Failure? ==> old(test.stdout) <= test.stdout
      ensures r.Success? ==> (r.value == Skipped <==> SkipCause(t.connector, planes))
    {
      r := TestConnector(t, planes);
    }

    /**
     * main(): one step per connector, in the card's order. An exception
     * raised by a step ends main with it; the steps before it keep their
     * console text.
     */
    method RunMain(trials: seq<Trial>, planes: seq<Plane>) returns (o: Outcome<PyError>, results: seq<Completion>)
      requires Valid()
      modifies this, test, test.logger, test.logger.reader, test.loop, test.kmsg
      ensures Valid() && old(test.kmsg.entries) <= test.kmsg.entries
      ensures |results| <= |trials|
      ensures o.Completed? ==> |results| == |trials|
      ensures o.Raised? ==> |results| < |trials|
      ensures o.Completed? ==> test.stdout == old(test.stdout) + Transcript(StepNames(trials), results)
      ensures o.Raised? ==> old(test.stdout) <= test.stdout
      ensures forall i :: 0 <= i < |results| ==> (results[i] == Skipped <==> SkipCause(trials[i].connector, planes))
      ensures o.Raised? ==> test.testName == StepName(trials[|results|].connector)
      ensures o.Completed? && |trials| > 0 ==> test.testName == StepName(trials[|trials| - 1].connector) && test.named
      ensures |trials| == 0 ==> test.testName == old(test.testName) && test.named == old(test.named)
    {
      results := [];
      ghost var names := StepNames(trials);
      var i := 0;
      while i < |trials|
        invariant 0 <= i <= |trials| && |results| == i
        invariant Valid() && old(test.kmsg.entries) <= test.kmsg.entries
        invariant test.stdout == old(test.stdout) + Transcript(names[..i], results)
        invariant SkipsExplained(results, trials, planes)
        invariant i > 0 ==> test.testName == StepName(trials[i - 1].connector) && test.named
        invariant i == 0 ==> test.testName == old(test.testName) && test.named == old(test.named)
        decreases |trials| - i
      {
        ghost var before := test.stdout;
        var r := Step(trials[i], planes);
        if r.Failure? {
          return Raised(r.error), results;
        }
        TranscriptSnoc(names, results, r.value);
        AppendAssoc(old(test.stdout), Transcript(names[..i], results), StepText(names[i], r.value));
        ExplainedSnoc(results, trials, planes, r.value);
        results := results + [r.value];
        i := i + 1;
      }
      assert names[..i] == names;
      o := Completed;
    }

    /**
     * execute(): main() under the kernel log validator, whose reader is
     * opened before main() runs and drained after it. `late` is what the
     * kernel logs outside any event-loop pass (while no loop runs, or after
     * the last one): it reaches /dev/kmsg before the reader is drained.
     */
    method Execute(trials: seq<Trial>, planes: seq<Plane>, late: seq<Entry>) returns (o: Outcome<PyError>, results: seq<Completion>)
      requires Valid()
      modifies this, test, test.logger, test.logger.reader, test.loop, test.kmsg
      ensures Valid() && old(test.kmsg.entries) <= test.kmsg.entries
      ensures |results| <= |trials|
      ensures o.Completed? ==> |results| == |trials|
      ensures o.Completed? ==> (Drain(test.kmsg.entries[|old(test.kmsg.entries)|..], ParseEntry).Success?
        && test.stdout == old(test.stdout) + Transcript(StepNames(trials), results)
          + (if AnyFault(Drain(test.kmsg.entries[|old(test.kmsg.entries)|..], ParseEntry).value)
             then StatusLine(test.testName, Failed) else ""))
      // fail() names the step, so a fault found before any step started raises instead
      ensures o.Completed? && AnyFault(Drain(test.kmsg.entries[|old(test.kmsg.entries)|..], ParseEntry).value) ==> test.named
      ensures |trials| == 0 && !old(test.named) && o.Completed? ==>
        !AnyFault(Drain(test.kmsg.entries[|old(test.kmsg.entries)|..], ParseEntry).value)
      ensures forall i :: 0 <= i < |results| ==> (results[i] == Skipped <==> SkipCause(trials[i].connector, planes))
      ensures o.Completed? ==> (|test.kmsg.entries| >= |old(test.kmsg.entries)| + |late|
        && test.kmsg.entries[|test.kmsg.entries| - |late|..] == late)
    {
      var klog := new KernelLogReader(test.kmsg);
      o, results := RunMain(trials, planes);
      if o.Raised? {
        return;
      }
      test.kmsg.Append(late);
      o := test.CheckKernelLog(klog);
    }
  }
}
