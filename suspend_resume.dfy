/**
 * The suspend-resume scenario: a page flipper keeps a moving bar on each
 * connector while the system goes through a test suspend cycle. The flips
 * must be seen before the suspend and again after it, and a final stop
 * request must be acknowledged by one last flip.
 */
module SuspendResume {
  import opened Wrappers
  import opened Text
  import opened KmsgReader
  import opened Events
  import opened Kms
  import opened Harness
  import PageFlip

  /**
   * What the card and the system do for one connector: the ids of the two
   * framebuffers, what the mode set returns, how the suspend request ends,
   * and the three event-loop runs (before the suspend, after it, and the
   * final one after the stop request).
   */
  datatype Cycle = Cycle(
    connector: Connector, fb0: int, fb1: int, modeSet: int,
    suspend: Outcome<PyError>, before: Phase, after: Phase, last: Phase)

  /** The name of the step that checks for CONFIG_PM_DEBUG. */
  const DependencyStep := "dependencies for suspend-resume"

  /** The step name main passes to start() for a connector. */
  function StepName(c: Connector): string {
    "suspend resume with connector " + c.fullname
  }

  /** The names of the connectors' steps, in order. */
  function ConnectorNames(cs: seq<Cycle>): (r: seq<string>)
    ensures |r| == |cs|
    ensures forall i :: 0 <= i < |cs| ==> r[i] == StepName(cs[i].connector)
  {
    seq(|cs|, i requires 0 <= i < |cs| => StepName(cs[i].connector))
  }

  /** The names of the steps of a run: the dependency check, then one per connector. */
  function StepNames(cs: seq<Cycle>): (r: seq<string>)
    ensures |r| == |cs| + 1 && r[0] == DependencyStep
    ensures r[1..] == ConnectorNames(cs)
  {
    [DependencyStep] + ConnectorNames(cs)
  }

  /**
   * The reason a connector's step fails once the flipper is set up, in the
   * order main checks: the mode set, the flips before the suspend, the
   * flips after it, then the stop handshake; None for success.
   * verify_completion's own "No page flip registered" check is never the
   * reason, since flips have been seen by then.
   */
  function CycleVerdict(modeSet: int, flipsBefore: int, flipsAfter: int, stopRequested: bool): (reason: Option<string>)
    ensures reason.None? <==> modeSet >= 0 && flipsBefore != 0 && flipsAfter != 0 && !stopRequested
    ensures reason != Some("No page flip registered")
  {
    if modeSet < 0 then Some("atomic mode set failed with " + IntToString(modeSet))
    else if flipsBefore == 0 then Some("Page flip not active before suspend")
    else if flipsAfter == 0 then Some("Page flip not active after suspend")
    else if stopRequested then Some("Last page flip not registered")
    else None
  }

  /** The reason verify_completion fails with, if it does. */
  function CompletionVerdict(flips: int, stopRequested: bool): (reason: Option<string>)
    ensures reason.None? <==> flips != 0 && !stopRequested
  {
    if flips == 0 then Some("No page flip registered")
    else if stopRequested then Some("Last page flip not registered")
    else None
  }

  /** The transcript of main: the dependency step's text, then the connectors'. */
  lemma JoinSteps(cycles: seq<Cycle>, d: Completion, steps: seq<Completion>)
    requires |steps| <= |cycles|
    ensures ([d] + steps)[1..] == steps
    ensures Transcript(StepNames(cycles)[..|steps| + 1], [d] + steps)
      == StepText(DependencyStep, d) + Transcript(ConnectorNames(cycles)[..|steps|], steps)
  {
    var all := ConnectorNames(cycles);
    TakeCons(DependencyStep, all, |steps|);
    TranscriptCons(DependencyStep, d, all[..|steps|], steps);
  }

  /** Each of the cycles was skipped exactly when it had a reason to be. */
  predicate SkipsExplained(cs: seq<Completion>, ts: seq<Cycle>, planes: seq<Plane>)
    requires |cs| <= |ts|
  {
    forall k :: 0 <= k < |cs| ==> (cs[k] == Skipped <==> PageFlip.SkipCause(ts[k].connector, planes))
  }

  lemma ExplainedSnoc(cs: seq<Completion>, ts: seq<Cycle>, planes: seq<Plane>, c: Completion)
    requires |cs| < |ts| && SkipsExplained(cs, ts, planes)
    requires c == Skipped <==> PageFlip.SkipCause(ts[|cs|].connector, planes)
    ensures SkipsExplained(cs + [c], ts, planes)
  {
  }

  /**
   * The flipper the scenario registers as the test's page-flip handler.
   * It keeps its own flip counter, which only its run() resets. `started`
   * records that run() has set the run state: before that, the handler
   * fails on the missing attributes and the base class swallows the
   * AttributeError.
   */
  class PageFlipper {
    const test: KmsTest
    var started: bool
    var crtc: Crtc
    var plane: Plane
    var fbs: seq<Framebuffer>
    var frontBuf: int
    var barXpos: int
    var frameStart: int
    var frameEnd: int
    var timeStart: int
    var timeEnd: int
    var flips: int
    var previousFlips: int
    var stopRequested: bool

    predicate Valid()
      reads this, test, test.logger, test.logger.reader, test.logger.reader.kmsg, test.loop
    {
      test.Valid()
    }

    /** The bar moves modulo the framebuffer width less the bar's. */
    function Span(): int
      requires |fbs| == 2
      reads this
    {
      fbs[0].width - PageFlip.BarWidth
    }

    /** Two framebuffers of one size, a front index of 0 or 1, and the bar inside its span. */
    predicate Buffers()
      reads this
    {
      |fbs| == 2 && fbs[0].width == fbs[1].width
      && (frontBuf == 0 || frontBuf == 1) && InModRange(barXpos, Span())
    }

    /** Once started, the flip state is well formed. */
    predicate Consistent()
      reads this
    {
      started ==> Buffers()
    }

    constructor (test: KmsTest)
      ensures this.test == test && !started && Consistent()
    {
      this.test := test;
      started := false;
      fbs := [];
    }

    /**
     * handle_page_flip: count the flip; log and record the first one; on
     * a stop request, log and record the last one and stop the loop;
     * otherwise show the front buffer, toggle it and move the bar.
     */
    method HandlePageFlip(frame: int, time: int) returns (o: Outcome<PyError>)
      requires Valid() && Consistent()
      modifies this`flips, this`frameStart, this`timeStart, this`frameEnd, this`timeEnd, this`stopRequested
      modifies this`frontBuf, this`barXpos, test.logger, test.logger.reader, test.loop, test`commits
      ensures Valid() && Consistent() && test.loop.timers == old(test.loop.timers)
      // Not started: the AttributeError is swallowed and nothing changes.
      ensures !started ==>
        o == Completed && unchanged(this, test.logger, test.logger.reader, test.loop) && test.commits == old(test.commits)
      ensures started ==> flips == old(flips) + 1
      ensures started && !(flips == 1 || old(stopRequested)) ==> unchanged(test.logger, test.logger.reader)
      ensures started && (flips == 1 || old(stopRequested)) && old(test.logger.Pending()).Success? ==>
        test.logger.lines == old(test.logger.lines) + KLines(old(test.logger.Pending()).value)
          + FlipLog(flips, old(stopRequested), frame)
      ensures started && (flips == 1 || old(stopRequested)) && old(test.logger.Pending()).Failure? ==>
        o == Raised(old(test.logger.Pending()).error) && test.logger.lines == old(test.logger.lines)
        && stopRequested == old(stopRequested) && test.commits == old(test.commits)
        && test.loop.stopped == old(test.loop.stopped)
      // The first flip since run() is recorded.
      ensures started && o.Completed? ==>
        if flips == 1 then frameStart == frame && timeStart == time
        else frameStart == old(frameStart) && timeStart == old(timeStart)
      // The stop handshake.
      ensures started && o.Completed? && old(stopRequested) ==>
        frameEnd == frame && timeEnd == time && test.loop.stopped && !stopRequested
        && frontBuf == old(frontBuf) && barXpos == old(barXpos) && test.commits == old(test.commits)
      // A normal flip.
      ensures started && o.Completed? && !old(stopRequested) ==> (
        frameEnd == old(frameEnd) && timeEnd == old(timeEnd) && !stopRequested
        && test.loop.stopped == old(test.loop.stopped)
        && frontBuf == 1 - old(frontBuf) && Span() != 0
        && barXpos == PyMod(old(barXpos) + PageFlip.BarSpeed, Span()).value
        && test.commits == old(test.commits) + [FullScreen(plane, crtc, fbs[old(frontBuf)])])
      ensures o.Raised? && old(test.logger.Pending()).Success? ==>
        o.error == ZeroDivisionError && !old(stopRequested) && Span() == 0
        && test.commits == old(test.commits) && test.loop.stopped == old(test.loop.stopped)
    {
      if !started {
        return Completed;
      }
      flips := flips + 1;
      o := Flip(frame, time);
    }

    /** handle_page_flip once the flip is counted. */
    method Flip(frame: int, time: int) returns (o: Outcome<PyError>)
      requires Valid() && Buffers()
      modifies this`frameStart, this`timeStart, this`frameEnd, this`timeEnd, this`stopRequested
      modifies this`frontBuf, this`barXpos, test.logger, test.logger.reader, test.loop, test`commits
      ensures Valid() && Buffers() && test.loop.timers == old(test.loop.timers)
      ensures !(flips == 1 || old(stopRequested)) ==> unchanged(test.logger, test.logger.reader)
      ensures (flips == 1 || old(stopRequested)) && old(test.logger.Pending()).Success? ==>
        test.logger.lines == old(test.logger.lines) + KLines(old(test.logger.Pending()).value)
          + FlipLog(flips, old(stopRequested), frame)
      ensures (flips == 1 || old(stopRequested)) && old(test.logger.Pending()).Failure? ==>
        o == Raised(old(test.logger.Pending()).error) && test.logger.lines == old(test.logger.lines)
        && stopRequested == old(stopRequested) && test.commits == old(test.commits)
        && test.loop.stopped == old(test.loop.stopped)
      ensures o.Completed? ==>
        if flips == 1 then frameStart == frame && timeStart == time
        else frameStart == old(frameStart) && timeStart == old(timeStart)
      ensures o.Completed? && old(stopRequested) ==>
        frameEnd == frame && timeEnd == time && test.loop.stopped && !stopRequested
        && frontBuf == old(frontBuf) && barXpos == old(barXpos) && test.commits == old(test.commits)
      ensures o.Completed? && !old(stopRequested) ==> (
        frameEnd == old(frameEnd) && timeEnd == old(timeEnd) && !stopRequested
        && test.loop.stopped == old(test.loop.stopped)
        && frontBuf == 1 - old(frontBuf) && Span() != 0
        && barXpos == PyMod(old(barXpos) + PageFlip.BarSpeed, Span()).value
        && test.commits == old(test.commits) + [FullScreen(plane, crtc, fbs[old(frontBuf)])])
      ensures o.Raised? && old(test.logger.Pending()).Success? ==>
        o.error == ZeroDivisionError && !old(stopRequested) && Span() == 0
        && test.commits == old(test.commits) && test.loop.stopped == old(test.loop.stopped)
    {
      o := RecordFirst(frame, time);
      if o.Raised? {
        return;
      }
      o := FlipOrStop(frame, time);
    }

    /** The first flip since run() (the counter is 1): log it, then record its frame and time. */
    method RecordFirst(frame: int, time: int) returns (o: Outcome<PyError>)
      requires Valid()
      modifies this`frameStart, this`timeStart, test.logger, test.logger.reader
      ensures Valid()
      ensures flips != 1 ==> o == Completed && unchanged(this, test.logger, test.logger.reader)
      ensures flips == 1 && old(test.logger.Pending()).Success? ==>
        o == Completed && frameStart == frame && timeStart == time && test.logger.Pending() == Success([])
        && test.logger.lines == old(test.logger.lines) + KLines(old(test.logger.Pending()).value) + [U(FirstFlipNote(frame))]
      ensures flips == 1 && old(test.logger.Pending()).Failure? ==>
        o == Raised(old(test.logger.Pending()).error) && test.logger.lines == old(test.logger.lines)
        && unchanged(this)
    {
      o := Completed;
      if flips == 1 {
        o := test.logger.Log(FirstFlipNote(frame));
        if o.Completed? {
          frameStart, timeStart := frame, time;
        }
      }
    }

    /** What follows the first-flip check: the stop handshake, or the next buffer. */
    method FlipOrStop(frame: int, time: int) returns (o: Outcome<PyError>)
      requires Valid() && Buffers()
      modifies this`frameEnd, this`timeEnd, this`stopRequested, this`frontBuf, this`barXpos
      modifies test.logger, test.logger.reader, test.loop, test`commits
      ensures Valid() && Buffers() && test.loop.timers == old(test.loop.timers)
      ensures old(stopRequested) && old(test.logger.Pending()).Success? ==>
        o == Completed && frameEnd == frame && timeEnd == time && test.loop.stopped && !stopRequested
        && frontBuf == old(frontBuf) && barXpos == old(barXpos) && test.commits == old(test.commits)
        && test.logger.lines == old(test.logger.lines) + KLines(old(test.logger.Pending()).value) + [U(LastFlipNote(frame))]
        && test.logger.Pending() == Success([])
      ensures old(stopRequested) && old(test.logger.Pending()).Failure? ==>
        o == Raised(old(test.logger.Pending()).error) && test.logger.lines == old(test.logger.lines)
        && unchanged(this) && test.commits == old(test.commits) && test.loop.stopped == old(test.loop.stopped)
      ensures !old(stopRequested) ==>
        unchanged(test.logger, test.logger.reader) && test.loop.stopped == old(test.loop.stopped)
        && frameEnd == old(frameEnd) && timeEnd == old(timeEnd) && !stopRequested
        && frontBuf == 1 - old(frontBuf) && (o.Completed? <==> Span() != 0)
      ensures !old(stopRequested) && o.Raised? ==>
        o.error == ZeroDivisionError && barXpos == old(barXpos) && test.commits == old(test.commits)
      ensures !old(stopRequested) && o.Completed? ==>
        barXpos == PyMod(old(barXpos) + PageFlip.BarSpeed, Span()).value
        && test.commits == old(test.commits) + [FullScreen(plane, crtc, fbs[old(frontBuf)])]
    {
      if stopRequested {
        o := AcknowledgeStop(frame, time);
      } else {
        o := ShowNext();
      }
    }

    /** The flip after a stop request: log and record it, stop the loop, clear the request. */
    method AcknowledgeStop(frame: int, time: int) returns (o: Outcome<PyError>)
      requires Valid()
      modifies this`frameEnd, this`timeEnd, this`stopRequested, test.logger, test.logger.reader, test.loop
      ensures Valid() && test.loop.timers == old(test.loop.timers)
      ensures old(test.logger.Pending()).Success? ==>
        o == Completed && frameEnd == frame && timeEnd == time && test.loop.stopped && !stopRequested
        && test.logger.lines == old(test.logger.lines) + KLines(old(test.logger.Pending()).value) + [U(LastFlipNote(frame))]
        && test.logger.Pending() == Success([])
      ensures old(test.logger.Pending()).Failure? ==>
        o == Raised(old(test.logger.Pending()).error) && test.logger.lines == old(test.logger.lines)
        && frameEnd == old(frameEnd) && timeEnd == old(timeEnd) && stopRequested == old(stopRequested)
        && test.loop.stopped == old(test.loop.stopped)
    {
      o := test.logger.Log(LastFlipNote(frame));
      if o.Raised? {
        return;
      }
      frameEnd, timeEnd := frame, time;
      test.loop.Stop();
      stopRequested := false;
    }

    /** A flip that is not the last: toggle the front buffer, move the bar, commit the old front buffer. */
    method ShowNext() returns (o: Outcome<PyError>)
      requires Buffers()
      modifies this`frontBuf, this`barXpos, test`commits
      ensures Buffers()
      ensures frontBuf == 1 - old(frontBuf)
      ensures o.Completed? <==> Span() != 0
      ensures o.Raised? ==> o.error == ZeroDivisionError && barXpos == old(barXpos) && test.commits == old(test.commits)
      ensures o.Completed? ==>
        barXpos == PyMod(old(barXpos) + PageFlip.BarSpeed, Span()).value
        && test.commits == old(test.commits) + [FullScreen(plane, crtc, fbs[old(frontBuf)])]
    {
      var fb := fbs[frontBuf];
      frontBuf := XorOne(frontBuf);
      o := MoveBar();
      if o.Raised? {
        return;
      }
      test.AtomicPlaneSet(plane, crtc, Screen(fb), Screen(fb), fb);
      o := Completed;
    }

    /** The bar's old and new positions by Python's modulo over the span: a zero span raises. */
    method MoveBar() returns (o: Outcome<PyError>)
      requires |fbs| == 2 && InModRange(barXpos, Span())
      modifies this`barXpos
      ensures InModRange(barXpos, Span())
      ensures o.Completed? <==> Span() != 0
      ensures o.Raised? ==> o.error == ZeroDivisionError && barXpos == old(barXpos)
      ensures o.Completed? ==> barXpos == PyMod(old(barXpos) + PageFlip.BarSpeed, Span()).value
    {
      var span := fbs[0].width - PageFlip.BarWidth;
      var oldXpos := PyMod(barXpos - PageFlip.BarSpeed, span);
      if oldXpos.Failure? {
        return Raised(oldXpos.error);
      }
      var newXpos := PyMod(barXpos + PageFlip.BarSpeed, span);
      PyModSpec(barXpos + PageFlip.BarSpeed, span);
      barXpos := newXpos.value;
      o := Completed;
    }

    /** stop_page_flip: only ask for the stop; the next flip carries it out. */
    method StopPageFlip()
      modifies this`stopRequested
      ensures stopRequested
    {
      stopRequested := true;
    }

    /**
     * run(connector): skip a disconnected connector, pick the CRTC
     * (raising when there is none), skip when no plane or mode fits, log
     * the setup, reset the run state, allocate the framebuffers and set
     * the mode. None stands for the `True` it returns once flipping has
     * begun; otherwise it returns what skip() or fail() returned.
     */
    method Run(c: Cycle, planes: seq<Plane>) returns (r: Result<Option<Completion>, PyError>)
      requires Valid() && Consistent()
      modifies this`crtc, this`plane, this`fbs, this`frontBuf, this`barXpos, this`frameStart, this`frameEnd
      modifies this`timeStart, this`timeEnd, this`flips, this`previousFlips, this`stopRequested, this`started
      modifies test.logger, test.logger.reader, test`stdout
      ensures Valid() && Consistent()
      ensures r.Success? && r.value.Some? ==>
        test.stdout == old(test.stdout) + StatusLine(test.testName, r.value.value)
        && (r.value.value == Skipped <==> PageFlip.SkipCause(c.connector, planes))
        && (r.value.value == Failed ==> (c.modeSet < 0 && |test.logger.lines| > 0
          && PageFlip.Last(test.logger.lines) == U(PageFlip.FailNote("atomic mode set failed with " + IntToString(c.modeSet)))))
        && r.value.value != Succeeded
      ensures r == Success(None) ==>
        test.stdout == old(test.stdout) && c.modeSet >= 0 && !PageFlip.SkipCause(c.connector, planes)
        && started && flips == 0 && previousFlips == 0 && !stopRequested
        && frontBuf == 0 && barXpos == 0 && frameStart == 0 && frameEnd == 0 && timeStart == 0 && timeEnd == 0
      ensures r.Failure? ==> test.stdout == old(test.stdout)
      ensures old(test.logger.Pending()).Success? && !c.connector.connected ==> r == Success(Some(Skipped))
      ensures old(test.logger.Pending()).Success? && c.connector.connected && CrtcFor(c.connector).None? ==>
        r == Failure(IndexError)
    {
      if !c.connector.connected {
        var s := test.Skip("unconnected connector");
        return Lift(s);
      }
      var found := CrtcOrRaise(c.connector);
      if found.Failure? {
        return Failure(found.error);
      }
      crtc := found.value;
      r := Choose(c, planes);
    }

    /** The part of run() once the CRTC is picked: find a plane and a mode, then begin. */
    method Choose(c: Cycle, planes: seq<Plane>) returns (r: Result<Option<Completion>, PyError>)
      requires Valid() && Consistent() && c.connector.connected && CrtcFor(c.connector) == Some(crtc)
      modifies this`plane, this`fbs, this`frontBuf, this`barXpos, this`frameStart, this`frameEnd
      modifies this`timeStart, this`timeEnd, this`flips, this`previousFlips, this`stopRequested, this`started
      modifies test.logger, test.logger.reader, test`stdout
      ensures Valid() && Consistent()
      ensures r.Success? && r.value.Some? ==>
        test.stdout == old(test.stdout) + StatusLine(test.testName, r.value.value)
        && (r.value.value == Skipped <==> PageFlip.SkipCause(c.connector, planes))
        && (r.value.value == Failed ==> (c.modeSet < 0 && |test.logger.lines| > 0
          && PageFlip.Last(test.logger.lines) == U(PageFlip.FailNote("atomic mode set failed with " + IntToString(c.modeSet)))))
        && r.value.value != Succeeded
      ensures r == Success(None) ==>
        test.stdout == old(test.stdout) && c.modeSet >= 0 && !PageFlip.SkipCause(c.connector, planes)
        && started && flips == 0 && previousFlips == 0 && !stopRequested
        && frontBuf == 0 && barXpos == 0 && frameStart == 0 && frameEnd == 0 && timeStart == 0 && timeEnd == 0
      ensures r.Failure? ==> test.stdout == old(test.stdout)
    {
      var p := FindPlane(planes, crtc);
      if p.None? {
        var s := test.Skip("no plane available for CRTC " + IntToString(crtc.id));
        return Lift(s);
      }
      plane := p.value;
      if c.connector.defaultMode.None? {
        var s := test.Skip("no mode available");
        return Lift(s);
      }
      var mode := c.connector.defaultMode.value;
      r := Begin(c, mode);
    }

    /** The part of run() once a mode is found: log, reset, allocate, set the mode. */
    method Begin(c: Cycle, mode: Mode) returns (r: Result<Option<Completion>, PyError>)
      requires Valid() && Consistent()
      modifies this`fbs, this`frontBuf, this`barXpos, this`frameStart, this`frameEnd
      modifies this`timeStart, this`timeEnd, this`flips, this`previousFlips, this`stopRequested, this`started
      modifies test.logger, test.logger.reader, test`stdout
      ensures Valid() && Consistent()
      ensures r.Success? ==> r.value.None? || r.value.value == Failed
      ensures r.Success? && r.value.Some? ==>
        test.stdout == old(test.stdout) + StatusLine(test.testName, Failed) && c.modeSet < 0 && |test.logger.lines| > 0
        && PageFlip.Last(test.logger.lines) == U(PageFlip.FailNote("atomic mode set failed with " + IntToString(c.modeSet)))
      ensures r == Success(None) ==>
        test.stdout == old(test.stdout) && c.modeSet >= 0
        && started && flips == 0 && previousFlips == 0 && !stopRequested
        && frontBuf == 0 && barXpos == 0 && frameStart == 0 && frameEnd == 0 && timeStart == 0 && timeEnd == 0
      ensures r.Failure? ==> test.stdout == old(test.stdout)
    {
      var o := test.logger.Log(PageFlip.SetupNote(c.connector, crtc, plane, mode));
      if o.Raised? {
        return Failure(o.error);
      }
      ResetRunState(c.fb0, c.fb1, mode);
      if c.modeSet < 0 {
        var f := test.Fail("atomic mode set failed with " + IntToString(c.modeSet));
        return Lift(f);
      }
      r := Success(None);
    }

    /** The run state run() sets before the mode set, and the two framebuffers at the mode's size. */
    method ResetRunState(fb0: int, fb1: int, mode: Mode)
      modifies this`fbs, this`frontBuf, this`barXpos, this`frameStart, this`frameEnd
      modifies this`timeStart, this`timeEnd, this`flips, this`previousFlips, this`stopRequested, this`started
      ensures started && Buffers() && flips == 0 && previousFlips == 0 && !stopRequested
      ensures frontBuf == 0 && barXpos == 0 && frameStart == 0 && frameEnd == 0 && timeStart == 0 && timeEnd == 0
      ensures fbs == [Framebuffer(fb0, mode.hdisplay, mode.vdisplay), Framebuffer(fb1, mode.hdisplay, mode.vdisplay)]
    {
      barXpos, frontBuf := 0, 0;
      frameStart, frameEnd := 0, 0;
      timeStart, timeEnd := 0, 0;
      flips, previousFlips := 0, 0;
      stopRequested := false;
      fbs := [Framebuffer(fb0, mode.hdisplay, mode.vdisplay), Framebuffer(fb1, mode.hdisplay, mode.vdisplay)];
      started := true;
    }

    /** is_running: whether the flip counter moved since the previous call. */
    method IsRunning() returns (running: bool)
      modifies this`previousFlips
      ensures running <==> flips != old(previousFlips)
      ensures previousFlips == flips
    {
      running := flips != previousFlips;
      previousFlips := flips;
    }

    /**
     * verify_completion: fail without flips or with an unacknowledged stop
     * request, otherwise log the frame rate (raising on a zero interval)
     * and succeed.
     */
    method VerifyCompletion() returns (r: Result<Completion, PyError>)
      requires Valid() && test.named
      modifies test.logger, test.logger.reader, test`stdout
      ensures Valid()
      ensures r.Success? ==> r.value != Skipped && test.stdout == old(test.stdout) + StatusLine(test.testName, r.value)
      ensures r.Failure? ==> test.stdout == old(test.stdout)
      ensures r.Success? ==> (r.value == Succeeded <==> CompletionVerdict(flips, stopRequested).None?)
      ensures r == Success(Failed) ==> (CompletionVerdict(flips, stopRequested).Some? && |test.logger.lines| > 0
        && PageFlip.Last(test.logger.lines) == U(PageFlip.FailNote(CompletionVerdict(flips, stopRequested).value)))
      ensures r == Success(Succeeded) ==> timeEnd != timeStart
      ensures old(test.logger.Pending()).Success? && CompletionVerdict(flips, stopRequested).Some? ==> r == Success(Failed)
      ensures old(test.logger.Pending()).Success? && CompletionVerdict(flips, stopRequested).None? ==>
        if timeEnd == timeStart then r == Failure(ZeroDivisionError) else r == Success(Succeeded)
    {
      if flips == 0 {
        r := test.Fail("No page flip registered");
        return;
      }
      if stopRequested {
        r := test.Fail("Last page flip not registered");
        return;
      }
      var frames := frameEnd - frameStart + 1;
      var interval := timeEnd - timeStart;
      if interval == 0 {
        return Failure(ZeroDivisionError);
      }
      var o := test.logger.Log(PageFlip.RateNote(flips, frames));
      if o.Raised? {
        return Failure(o.error);
      }
      r := test.Succeed();
    }
  }

  /** What skip() or fail() returned, as run(connector)'s result. */
  function Lift(r: Result<Completion, PyError>): (s: Result<Option<Completion>, PyError>)
    ensures s.Success? <==> r.Success?
    ensures r.Success? ==> s.value == Some(r.value)
    ensures r.Failure? ==> s.error == r.error
  {
    match r
    case Success(c) => Success(Some(c))
    case Failure(e) => Failure(e)
  }

  class SuspendResumeTest {
    const test: KmsTest
    const flipper: PageFlipper

    predicate Valid()
      reads this, test, test.logger, test.logger.reader, test.logger.reader.kmsg, test.loop, flipper
    {
      flipper.test == test && test.Valid() && flipper.Consistent()
    }

    /** The flipper is created and registered before anything else runs. */
    constructor (kmsg: Kmsg)
      ensures Valid() && fresh(test) && fresh(flipper) && fresh(test.logger) && fresh(test.logger.reader)
      ensures fresh(test.loop) && test.kmsg == kmsg && test.logger.reader.parse == ParseEntry
      ensures test.logger.reader.cursor == |kmsg.entries| && test.stdout == "" && !flipper.started
    {
      var t := new KmsTest(kmsg);
      test := t;
      flipper := new PageFlipper(t);
    }

    /**
     * run(duration) with this scenario's callbacks: reset the base class's
     * flip counter, arm the loop, and run passes until the loop is stopped
     * (or the schedule ends). Every flip event reaches the flipper, which
     * counts it once started. All timers are dropped at the end; an
     * exception leaves them armed.
     */
    method Run(duration: int, ph: Phase) returns (o: Outcome<PyError>, ran: nat)
      requires Valid()
      modifies flipper`flips, flipper`frameStart, flipper`timeStart, flipper`frameEnd, flipper`timeEnd
      modifies flipper`stopRequested, flipper`frontBuf, flipper`barXpos
      modifies test.logger, test.logger.reader, test.loop, test`commits, test`flips, test.kmsg
      ensures Valid() && ran <= |ph.passes|
      ensures old(test.kmsg.entries) <= test.kmsg.entries
      ensures o.Completed? ==> test.loop.timers == [] && test.flips == Flips(ph.passes[..ran])
      ensures o.Completed? ==>
        flipper.flips == old(flipper.flips) + (if flipper.started then Flips(ph.passes[..ran]) else 0)
      ensures o.Completed? && ran < |ph.passes| ==> test.loop.stopped
    {
      var timeout := test.BeginRun(duration, ph.now);
      ran := 0;
      o := Completed;
      while !test.loop.stopped && ran < |ph.passes|
        invariant ran <= |ph.passes| && o == Completed
        invariant Valid()
        invariant old(test.kmsg.entries) <= test.kmsg.entries
        invariant test.flips == Flips(ph.passes[..ran])
        invariant flipper.flips == old(flipper.flips) + (if flipper.started then Flips(ph.passes[..ran]) else 0)
        decreases |ph.passes| - ran
      {
        o := Pass(ph.passes[ran]);
        if o.Raised? {
          return;
        }
        assert ph.passes[..ran + 1][..ran] == ph.passes[..ran];
        ran := ran + 1;
      }
      test.loop.Finish();
    }

    /** One pass of run()'s loop: the kernel appends what it logged, the ready sources are dispatched, the due timers fire. */
    method Pass(w: Wakeup) returns (o: Outcome<PyError>)
      requires Valid()
      modifies flipper`flips, flipper`frameStart, flipper`timeStart, flipper`frameEnd, flipper`timeEnd
      modifies flipper`stopRequested, flipper`frontBuf, flipper`barXpos
      modifies test.logger, test.logger.reader, test.loop, test`commits, test`flips, test.kmsg
      ensures Valid()
      ensures test.kmsg.entries == old(test.kmsg.entries) + w.logged
      ensures o.Completed? ==> test.flips == old(test.flips) + FlipEvents(w.ready)
      ensures o.Completed? ==>
        flipper.flips == old(flipper.flips) + (if flipper.started then FlipEvents(w.ready) else 0)
    {
      test.kmsg.Append(w.logged);
      o := Dispatch(w.ready);
      if o.Raised? {
        return;
      }
      var fired := test.loop.FireTimers(w.clock);
      FireCallbacks(fired);
    }

    /** The ready sources of one pass, in the order select() returned them. */
    method Dispatch(ready: seq<Ready>) returns (o: Outcome<PyError>)
      requires Valid()
      modifies flipper`flips, flipper`frameStart, flipper`timeStart, flipper`frameEnd, flipper`timeEnd
      modifies flipper`stopRequested, flipper`frontBuf, flipper`barXpos
      modifies test.logger, test.logger.reader, test.loop, test`commits, test`flips
      ensures Valid() && test.loop.timers == old(test.loop.timers)
      ensures o.Completed? ==> test.flips == old(test.flips) + FlipEvents(ready)
      ensures o.Completed? ==>
        flipper.flips == old(flipper.flips) + (if flipper.started then FlipEvents(ready) else 0)
    {
      o := Completed;
      var i := 0;
      while i < |ready|
        invariant i <= |ready| && o == Completed
        invariant Valid() && test.loop.timers == old(test.loop.timers)
        invariant test.flips == old(test.flips) + FlipEvents(ready[..i])
        invariant flipper.flips == old(flipper.flips) + (if flipper.started then FlipEvents(ready[..i]) else 0)
        decreases |ready| - i
      {
        assert ready[..i + 1][..i] == ready[..i];
        o := DispatchOne(ready[i]);
        if o.Raised? {
          return;
        }
        i := i + 1;
      }
      assert ready[..i] == ready;
    }

    /**
     * The callback of one ready source: the kernel log source drains the
     * log; a page-flip event bumps the base class's counter, then reaches
     * the flipper. No capture source is registered.
     */
    method DispatchOne(r: Ready) returns (o: Outcome<PyError>)
      requires Valid()
      modifies flipper`flips, flipper`frameStart, flipper`timeStart, flipper`frameEnd, flipper`timeEnd
      modifies flipper`stopRequested, flipper`frontBuf, flipper`barXpos
      modifies test.logger, test.logger.reader, test.loop, test`commits, test`flips
      ensures Valid() && test.loop.timers == old(test.loop.timers)
      ensures test.flips == old(test.flips) + (if r.FlipComplete? then 1 else 0)
      ensures flipper.flips == old(flipper.flips) + (if r.FlipComplete? && flipper.started then 1 else 0)
    {
      o := Completed;
      match r {
        case LogReadable =>
          o := test.logger.Event();
        case FlipComplete(frame, time) =>
          test.CountFlip();
          o := flipper.HandlePageFlip(frame, time);
        case FrameCaptured(_) =>
      }
    }

    /**
     * The callbacks of the timers fire_timers popped, in order; LoopStop has
     * already run. This scenario arms only the run() deadline, and main
     * calls stop_page_flip directly (tests/kms-test-suspend-resume.py:185),
     * so the StopPageFlip branch is kept for the shared Timer type but no
     * run here reaches it.
     */
    method FireCallbacks(fired: seq<Timer>)
      modifies flipper`stopRequested
      ensures flipper.stopRequested <==>
        old(flipper.stopRequested) || exists i :: 0 <= i < |fired| && fired[i].callback.StopPageFlip?
    {
      for i := 0 to |fired|
        invariant flipper.stopRequested <==>
          old(flipper.stopRequested) || exists j :: 0 <= j < i && fired[j].callback.StopPageFlip?
      {
        if fired[i].callback.StopPageFlip? {
          flipper.StopPageFlip();
        }
      }
    }

    /**
     * run(duration) followed by is_running(): None when the flipper
     * counted flips during the run, otherwise the step fails with the
     * given reason.
     */
    method CheckRunning(duration: int, ph: Phase, reason: string) returns (r: Result<Option<Completion>, PyError>, ghost ran: nat)
      requires Valid() && flipper.started && flipper.previousFlips == flipper.flips
      modifies flipper`flips, flipper`frameStart, flipper`timeStart, flipper`frameEnd, flipper`timeEnd
      modifies flipper`stopRequested, flipper`frontBuf, flipper`barXpos, flipper`previousFlips
      modifies test.logger, test.logger.reader, test.loop, test`commits, test`flips, test.kmsg, test`stdout
      ensures Valid() && ran <= |ph.passes| && old(test.kmsg.entries) <= test.kmsg.entries
      ensures r.Success? ==> flipper.flips == old(flipper.flips) + Flips(ph.passes[..ran])
      ensures r.Success? ==> flipper.previousFlips == flipper.flips
      ensures r == Success(None) ==> Flips(ph.passes[..ran]) != 0 && test.stdout == old(test.stdout)
      ensures r.Success? && r.value.Some? ==>
        r.value.value == Failed && Flips(ph.passes[..ran]) == 0
        && test.stdout == old(test.stdout) + StatusLine(test.testName, Failed)
        && |test.logger.lines| > 0 && PageFlip.Last(test.logger.lines) == U(PageFlip.FailNote(reason))
      ensures r.Failure? ==> test.stdout == old(test.stdout)
    {
      var o;
      o, ran := Run(duration, ph);
      if o.Raised? {
        return Failure(o.error), ran;
      }
      var running := flipper.IsRunning();
      if !running {
        var f := test.Fail(reason);
        return Lift(f), ran;
      }
      r := Success(None);
    }

    /**
     * The cycle once the flipper runs: five seconds of flips, the suspend
     * request, five more seconds, then the stop request, one more second
     * and verify_completion. `ranBefore` and `ranAfter` are the passes the
     * two five-second runs took.
     */
    method Exercise(c: Cycle) returns (r: Result<Completion, PyError>, ghost ranBefore: nat, ghost ranAfter: nat)
      requires Valid() && test.named && flipper.started && flipper.flips == 0 && flipper.previousFlips == 0
      modifies flipper`flips, flipper`frameStart, flipper`timeStart, flipper`frameEnd, flipper`timeEnd
      modifies flipper`stopRequested, flipper`frontBuf, flipper`barXpos, flipper`previousFlips
      modifies test.logger, test.logger.reader, test.loop, test`commits, test`flips, test.kmsg, test`stdout
      ensures Valid() && old(test.kmsg.entries) <= test.kmsg.entries
      ensures ranBefore <= |c.before.passes| && ranAfter <= |c.after.passes|
      ensures r.Success? ==> r.value != Skipped && test.stdout == old(test.stdout) + StatusLine(test.testName, r.value)
      ensures r.Failure? ==> test.stdout == old(test.stdout)
      ensures r.Success? ==>
        (r.value == Succeeded <==> CycleVerdict(0, Flips(c.before.passes[..ranBefore]), Flips(c.after.passes[..ranAfter]), flipper.stopRequested).None?)
      ensures r == Success(Failed) ==>
        (CycleVerdict(0, Flips(c.before.passes[..ranBefore]), Flips(c.after.passes[..ranAfter]), flipper.stopRequested).Some?
        && |test.logger.lines| > 0
        && PageFlip.Last(test.logger.lines) == U(PageFlip.FailNote(
          CycleVerdict(0, Flips(c.before.passes[..ranBefore]), Flips(c.after.passes[..ranAfter]), flipper.stopRequested).value)))
      ensures r == Success(Succeeded) ==> flipper.timeEnd != flipper.timeStart
      // A failing suspend request ends the step with its exception, unless no flip came before it.
      ensures c.suspend.Raised? ==> r.Failure? || (r == Success(Failed) && Flips(c.before.passes[..ranBefore]) == 0)
    {
      var s;
      s, ranBefore := CheckRunning(5, c.before, "Page flip not active before suspend");
      ranAfter := 0;
      if s.Failure? {
        return Failure(s.error), ranBefore, ranAfter;
      }
      if s.value.Some? {
        return Success(Failed), ranBefore, ranAfter;
      }
      if c.suspend.Raised? {
        return Failure(c.suspend.error), ranBefore, ranAfter;
      }
      var _ := flipper.IsRunning();
      r, ranAfter := Resume(c);
    }

    /**
     * After the suspend: five seconds that must show flips, then the stop
     * request, one second for the last flip, and verify_completion.
     */
    method Resume(c: Cycle) returns (r: Result<Completion, PyError>, ghost ranAfter: nat)
      requires Valid() && test.named && flipper.started && flipper.flips > 0 && flipper.previousFlips == flipper.flips
      modifies flipper`flips, flipper`frameStart, flipper`timeStart, flipper`frameEnd, flipper`timeEnd
      modifies flipper`stopRequested, flipper`frontBuf, flipper`barXpos, flipper`previousFlips
      modifies test.logger, test.logger.reader, test.loop, test`commits, test`flips, test.kmsg, test`stdout
      ensures Valid() && old(test.kmsg.entries) <= test.kmsg.entries && ranAfter <= |c.after.passes|
      ensures r.Success? ==> r.value != Skipped && test.stdout == old(test.stdout) + StatusLine(test.testName, r.value)
      ensures r.Failure? ==> test.stdout == old(test.stdout)
      ensures r.Success? ==>
        (r.value == Succeeded <==> Flips(c.after.passes[..ranAfter]) != 0 && !flipper.stopRequested)
      ensures r == Success(Failed) ==> (|test.logger.lines| > 0
        && PageFlip.Last(test.logger.lines) == U(PageFlip.FailNote(
          if Flips(c.after.passes[..ranAfter]) == 0 then "Page flip not active after suspend"
          else "Last page flip not registered")))
      ensures r == Success(Succeeded) ==> flipper.timeEnd != flipper.timeStart
    {
      var s;
      s, ranAfter := CheckRunning(5, c.after, "Page flip not active after suspend");
      if s.Failure? {
        return Failure(s.error), ranAfter;
      }
      if s.value.Some? {
        return Success(Failed), ranAfter;
      }
      flipper.StopPageFlip();
      var o, _ := Run(1, c.last);
      if o.Raised? {
        return Failure(o.error), ranAfter;
      }
      r := flipper.VerifyCompletion();
    }

    /**
     * One connector's step after start(): the flipper's run(), then, when
     * it is flipping, the suspend cycle.
     */
    method Attempt(c: Cycle, planes: seq<Plane>) returns (r: Result<Completion, PyError>, ghost ranBefore: nat, ghost ranAfter: nat)
      requires Valid() && test.named
      modifies flipper, test.logger, test.logger.reader, test.loop, test`commits, test`flips, test.kmsg, test`stdout
      ensures Valid() && old(test.kmsg.entries) <= test.kmsg.entries
      ensures ranBefore <= |c.before.passes| && ranAfter <= |c.after.passes|
      ensures r.Success? ==> test.stdout == old(test.stdout) + StatusLine(test.testName, r.value)
      ensures r.Failure? ==> test.stdout == old(test.stdout)
      ensures r.Success? ==> (r.value == Skipped <==> PageFlip.SkipCause(c.connector, planes))
      ensures r.Success? && r.value != Skipped ==>
        (r.value == Succeeded <==> CycleVerdict(c.modeSet, Flips(c.before.passes[..ranBefore]),
          Flips(c.after.passes[..ranAfter]), flipper.stopRequested).None?)
      ensures r == Success(Failed) ==>
        (CycleVerdict(c.modeSet, Flips(c.before.passes[..ranBefore]), Flips(c.after.passes[..ranAfter]), flipper.stopRequested).Some?
        && |test.logger.lines| > 0
        && PageFlip.Last(test.logger.lines) == U(PageFlip.FailNote(CycleVerdict(c.modeSet, Flips(c.before.passes[..ranBefore]),
          Flips(c.after.passes[..ranAfter]), flipper.stopRequested).value)))
      ensures r == Success(Succeeded) ==> flipper.timeEnd != flipper.timeStart
      ensures old(test.logger.Pending()).Success? && !c.connector.connected ==> r == Success(Skipped)
      ensures old(test.logger.Pending()).Success? && c.connector.connected && CrtcFor(c.connector).None? ==>
        r == Failure(IndexError)
    {
      ranBefore, ranAfter := 0, 0;
      var s := flipper.Run(c, planes);
      if s.Failure? {
        return Failure(s.error), ranBefore, ranAfter;
      }
      if s.value.Some? {
        return Success(s.value.value), ranBefore, ranAfter;
      }
      r, ranBefore, ranAfter := Exercise(c);
    }

    /** One iteration of main's loop over the connectors. */
    method TestConnector(c: Cycle, planes: seq<Plane>) returns (r: Result<Completion, PyError>, ghost ranBefore: nat, ghost ranAfter: nat)
      requires Valid()
      modifies flipper, test.logger, test.logger.reader, test.loop, test`commits, test`flips, test.kmsg
      modifies test`stdout, test`testName, test`named
      ensures Valid() && old(test.kmsg.entries) <= test.kmsg.entries
      ensures test.testName == StepName(c.connector)
      ensures ranBefore <= |c.before.passes| && ranAfter <= |c.after.passes|
      ensures r.Success? ==> test.stdout == old(test.stdout) + StepText(StepName(c.connector), r.value)
      ensures r.Failure? ==> old(test.stdout) <= test.stdout
      ensures r.Success? ==> (r.value == Skipped <==> PageFlip.SkipCause(c.connector, planes))
      ensures r.Success? && r.value != Skipped ==>
        (r.value == Succeeded <==> CycleVerdict(c.modeSet, Flips(c.before.passes[..ranBefore]),
          Flips(c.after.passes[..ranAfter]), flipper.stopRequested).None?)
    {
      ranBefore, ranAfter := 0, 0;
      var o := test.Start(StepName(c.connector));
      if o.Raised? {
        return Failure(o.error), ranBefore, ranAfter;
      }
      r, ranBefore, ranAfter := Attempt(c, planes);
      if r.Success? {
        StepTextAfter(old(test.stdout), StepName(c.connector), r.value);
      }
    }

    /** One iteration of main's loop, as main's loop needs it. */
    method Step(c: Cycle, planes: seq<Plane>) returns (r: Result<Completion, PyError>)
      requires Valid()
      modifies flipper, test.logger, test.logger.reader, test.loop, test`commits, test`flips, test.kmsg
      modifies test`stdout, test`testName, test`named
      ensures Valid() && old(test.kmsg.entries) <= test.kmsg.entries
      ensures r.Success? ==> test.stdout == old(test.stdout) + StepText(StepName(c.connector), r.value)
      ensures r.Failure? ==> old(test.stdout) <= test.stdout
      ensures r.Success? ==> (r.value == Skipped <==> PageFlip.SkipCause(c.connector, planes))
    {
      ghost var ranBefore, ranAfter;
      r, ranBefore, ranAfter := TestConnector(c, planes);
    }

    /**
     * The dependency step: without the PM test interface the run is
     * skipped as a whole; otherwise the step succeeds.
     */
    method Dependencies(pmSupported: bool) returns (r: Result<Completion, PyError>)
      requires Valid()
      modifies test.logger, test.logger.reader, test`stdout, test`testName, test`named
      ensures Valid() && test.testName == DependencyStep
      ensures r.Success? ==> (r.value == (if pmSupported then Succeeded else Skipped)
        && test.stdout == old(test.stdout) + StepText(DependencyStep, r.value))
      ensures r.Failure? ==> old(test.stdout) <= test.stdout
      ensures old(test.logger.Pending()).Success? ==> r.Success?
    {
      var o := test.Start(DependencyStep);
      if o.Raised? {
        return Failure(o.error);
      }
      if !pmSupported {
        r := test.Skip("CONFIG_PM_DEBUG not available");
      } else {
        r := test.Succeed();
      }
      if r.Success? {
        StepTextAfter(old(test.stdout), DependencyStep, r.value);
      }
    }

    /**
     * main(): the dependency step, then one step per connector in the
     * card's order. `results` holds the completions, the dependency
     * step's first; an exception ends main with it.
     */
    method RunMain(pmSupported: bool, cycles: seq<Cycle>, planes: seq<Plane>) returns (o: Outcome<PyError>, results: seq<Completion>)
      requires Valid()
      modifies flipper, test.logger, test.logger.reader, test.loop, test`commits, test`flips, test.kmsg
      modifies test`stdout, test`testName, test`named
      ensures Valid() && old(test.kmsg.entries) <= test.kmsg.entries
      ensures |results| <= |cycles| + 1
      ensures o.Completed? ==> |results| == (if pmSupported then |cycles| + 1 else 1)
      ensures o.Completed? ==> test.stdout == old(test.stdout) + Transcript(StepNames(cycles)[..|results|], results)
      ensures o.Raised? ==> old(test.stdout) <= test.stdout
      ensures |results| > 0 ==> results[0] == (if pmSupported then Succeeded else Skipped)
      ensures |results| > 0 ==> SkipsExplained(results[1..], cycles, planes)
    {
      var d := Dependencies(pmSupported);
      if d.Failure? {
        return Raised(d.error), [];
      }
      ghost var afterDependencies := test.stdout;
      var steps: seq<Completion> := [];
      o := Completed;
      if pmSupported {
        o, steps := Connectors(cycles, planes);
      }
      results := [d.value] + steps;
      JoinSteps(cycles, d.value, steps);
      if o.Completed? {
        AppendAssoc(old(test.stdout), StepText(DependencyStep, d.value), Transcript(ConnectorNames(cycles)[..|steps|], steps));
      }
    }

    /** main()'s loop over the connectors. */
    method Connectors(cycles: seq<Cycle>, planes: seq<Plane>) returns (o: Outcome<PyError>, steps: seq<Completion>)
      requires Valid()
      modifies flipper, test.logger, test.logger.reader, test.loop, test`commits, test`flips, test.kmsg
      modifies test`stdout, test`testName, test`named
      ensures Valid() && old(test.kmsg.entries) <= test.kmsg.entries
      ensures |steps| <= |cycles|
      ensures o.Completed? ==> |steps| == |cycles|
      ensures o.Completed? ==> test.stdout == old(test.stdout) + Transcript(ConnectorNames(cycles)[..|steps|], steps)
      ensures o.Raised? ==> old(test.stdout) <= test.stdout
      ensures SkipsExplained(steps, cycles, planes)
    {
      ghost var names := ConnectorNames(cycles);
      steps := [];
      var i := 0;
      while i < |cycles|
        invariant 0 <= i <= |cycles| && |steps| == i
        invariant Valid() && old(test.kmsg.entries) <= test.kmsg.entries
        invariant test.stdout == old(test.stdout) + Transcript(names[..i], steps)
        invariant SkipsExplained(steps, cycles, planes)
        decreases |cycles| - i
      {
        ghost var before := test.stdout;
        var r := Step(cycles[i], planes);
        if r.Failure? {
          PrefixTrans(old(test.stdout), before, test.stdout);
          return Raised(r.error), steps;
        }
        TranscriptSnoc(names, steps, r.value);
        AppendAssoc(old(test.stdout), Transcript(names[..i], steps), StepText(names[i], r.value));
        ExplainedSnoc(steps, cycles, planes, r.value);
        steps := steps + [r.value];
        i := i + 1;
      }
      o := Completed;
    }

    /**
     * execute(): main() under the kernel log validator, whose reader is
     * opened before main() runs and drained after it. `late` is what the
     * kernel logs outside any event-loop pass (while no loop runs, or after
     * the last one): it reaches /dev/kmsg before the reader is drained.
     */
    method Execute(pmSupported: bool, cycles: seq<Cycle>, planes: seq<Plane>, late: seq<Entry>) returns (o: Outcome<PyError>, results: seq<Completion>)
      requires Valid()
      modifies flipper, test.logger, test.logger.reader, test.loop, test`commits, test`flips, test.kmsg
      modifies test`stdout, test`testName, test`named
      ensures Valid() && old(test.kmsg.entries) <= test.kmsg.entries
      ensures |results| <= |cycles| + 1
      ensures o.Completed? ==> (Drain(test.kmsg.entries[|old(test.kmsg.entries)|..], ParseEntry).Success?
        && test.stdout == old(test.stdout) + Transcript(StepNames(cycles)[..|results|], results)
          + (if AnyFault(Drain(test.kmsg.entries[|old(test.kmsg.entries)|..], ParseEntry).value)
             then StatusLine(test.testName, Failed) else ""))
      ensures |results| > 0 ==> results[0] == (if pmSupported then Succeeded else Skipped)
      ensures |results| > 0 ==> SkipsExplained(results[1..], cycles, planes)
      ensures o.Completed? ==> (|test.kmsg.entries| >= |old(test.kmsg.entries)| + |late|
        && test.kmsg.entries[|test.kmsg.entries| - |late|..] == late)
    {
      var klog := new KernelLogReader(test.kmsg);
      o, results := RunMain(pmSupported, cycles, planes);
      if o.Raised? {
        return;
      }
      test.kmsg.Append(late);
      o := test.CheckKernelLog(klog);
    }
  }
}
