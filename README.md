# kms-tests: the test harness and three display tests, in Dafny

This project models the Python harness that the kms-tests suite uses to
exercise a Linux DRM/KMS display driver. It also models three of the tests
built on that harness.

- **The harness** (`tests/kmstest.py`) has these parts:
  - a timer-driven event loop;
  - a parser for `/dev/kmsg` records;
  - a reader that drains the kernel log;
  - the validator that fails a test whose run left a kernel fault in the log;
  - the per-test log file;
  - the `KMSTest` base class. It counts page flips, builds atomic plane
    commits, runs the loop, and reports each step to the console as
    `Testing <name>: ` followed by SKIP, FAIL or SUCCESS.
- **The page-flip test** (`tests/kms-test-pageflip.py`) runs once per
  connector. It sets the connector's default mode and flips between two
  framebuffers for ten seconds, moving a colour bar. It fails when no flip
  arrives or when the last flip requested is never acknowledged.
- **The suspend/resume test** (`tests/kms-test-suspend-resume.py`) checks
  that the kernel's PM test interface is there. Then, on each connector, it
  starts a flipper, checks that flips arrive, asks for a device suspend,
  checks that flips still arrive, and stops the flipper.
- **The VIN loopback test** (`tests/kms-test-vin-loopback.py`) shows a
  constant image on HDMI-A-1 and captures it back through the VIN capture
  device. It counts the captured frames that differ from the image shown
  and stops after ten captures or five seconds.

The modules and what they hold:

| module | file | contents |
|---|---|---|
| `Wrappers` | wrappers.dfy | `Option`, `Result`, `Outcome` |
| `Text` | text.dfy | the Python string operations the harness relies on (`find`, `split`, `strip`, `int()`, `str()`, `in`) |
| `KernelLog` | kernel_log.dfy | `KernelLogMessage` and the fault signatures |
| `KmsgReader` | kmsg_reader.dfy | `/dev/kmsg` as an append-only buffer, and `KernelLogReader` |
| `Events` | events.dfy | `Timer` and `EventLoop` |
| `Kms` | kms.dfy | connectors, CRTCs, planes and modes as the tests see them through pykms |
| `Harness` | harness.dfy | `Logger`, the `KMSTest` base class and the console transcript |
| `PageFlip` | pageflip.dfy | `PageFlipTest` |
| `SuspendResume` | suspend_resume.dfy | `PageFlipper` and `SuspendResume` |
| `VinLoopback` | vin_loopback.dfy | `VINLoopbackTest` |

Python exceptions are values:
- a member that can raise returns a `Result` or an `Outcome`;
- its callers propagate a failure exactly where Python would unwind.

The model does not read the clock, select() or the hardware. They are
parameters:
- every run of the event loop receives the clock reading it starts from;
- it also receives a finite schedule of passes. Each pass says what the
  kernel appended to its log, which sources select() reported ready, and
  the clock reading at `fire_timers`;
- connectors, planes, modes, mode-set results and capture differences are
  part of each scenario's input datatype (`Trial`, `Cycle`, `Loopback`).

The tests are classes whose fields the methods update, as in the source.
Each test holds a `KmsTest` rather than inheriting from it. The page-flip
counter the base class bumps and the handler the subclass adds both act on
the same object.

Where the code and the documented behaviour differ, the model follows the
code:
- The CRTC search falls back to `crtcs[0]` even when the list is empty, so
  a connector without any CRTC raises IndexError rather than being skipped
  (`Kms.CrtcOrRaise`).
- In the VIN test, a frame comparison failure is reported before the flip
  checks. Its step fails with "Frame comparisons failed" even when no flip
  was seen.
- `get_connector` ignores its argument (`VinLoopback.GetConnector`).
- `run()` resets the flip counter, so the page-flip verdict only sees the
  flips of the last run.

## Model

| member | source | states |
|---|---|---|
| Text.Find | tests/kmstest.py:64 | `find(';')` returns an index of the character, or -1 |
| Text.FindSpec | tests/kmstest.py:64 | the index is the first occurrence; -1 exactly when the character is absent |
| Text.Split | tests/kmstest.py:68 | `split(sep)` returns a non-empty list of pieces |
| Text.SplitSpec | tests/kmstest.py:73 | no piece of a split holds the separator |
| Text.JoinSplit | tests/kmstest.py:73 | joining the pieces with the separator gives back the split string |
| Text.SplitJoin | tests/kmstest.py:80 | splitting a join of separator-free pieces gives back the pieces |
| Text.TrimLeft | tests/kmstest.py:80 | lstrip is never longer than its input; TrimLeftSpec gives the suffix it keeps |
| Text.TrimLeftSpec | tests/kmstest.py:80 | lstrip drops only whitespace, and what it keeps starts at a non-blank |
| Text.TrimRight | tests/kmstest.py:80 | rstrip is never longer than its input; TrimRightSpec gives the prefix it keeps |
| Text.TrimRightSpec | tests/kmstest.py:80 | rstrip drops only whitespace, and what it keeps ends at a non-blank |
| Text.Strip | tests/kmstest.py:80 | strip is never longer than its input; StripSlice gives the slice it keeps |
| Text.StripSlice | tests/kmstest.py:80 | strip keeps exactly the part between the leading and the trailing whitespace |
| Text.TrimLeftPadded | tests/kmstest.py:69-71 | leading blanks in front of a word are exactly what lstrip removes |
| Text.StripPadded | tests/kmstest.py:80 | a whitespace-free word survives strip unchanged behind any padding |
| Text.Contains | tests/kmstest.py:123 | `pat in text` holds exactly when the pattern occurs at some index |
| Text.ContainsInfix | tests/kmstest.py:123 | a text built around the pattern contains it |
| Text.ContainsNeedsFirstChar | tests/kmstest.py:123 | a text lacking the pattern's first character does not contain it |
| Text.IntToString | tests/kms-test-pageflip.py:68 | `%u`/`str()` of an int is non-empty, all decimal digits but for a leading '-' |
| Text.ParseIntOfIntToString | tests/kmstest.py:69-71 | `int(str(n)) == n` for every integer |
| KernelLog.HeaderBody | tests/kmstest.py:64-66 | with a ';', header + ";" + body is the record |
| KernelLog.NoSemicolonHeader | tests/kmstest.py:64-66 | without ';' (find gives -1) the header loses the last character and the body is the whole record |
| KernelLog.TagRunSpec | tests/kmstest.py:77-83 | the run is the longest prefix of lines that have an '=' |
| KernelLog.TagPairs | tests/kmstest.py:79-81 | one (key, value) pair per line of the run, in order |
| KernelLog.TagPairsSpec | tests/kmstest.py:80-81 | pair j is the text before and between the first two '=' of stripped line j |
| KernelLog.AssignSpec | tests/kmstest.py:81 | storing pairs in order: each key maps to the value of its last pair, and no other key is present |
| KernelLog.CollectTagsSpec | tests/kmstest.py:77-83 | each line before the first one without '=' contributes its key, no other key appears, and a key's last such line gives its value |
| KernelLog.ParseMessage | tests/kmstest.py:62-83 | the only exception the constructor raises is ValueError (too few header fields, or a field that is not an integer) |
| KernelLog.ParseMessageText | tests/kmstest.py:73-74 | the message kept is a newline-free prefix of the body |
| KernelLog.ParseRecord | tests/kmstest.py:62-83 | the loop-based constructor agrees with ParseMessage on every record |
| KernelLog.StoreTags | tests/kmstest.py:77-83 | the tag loop stores exactly CollectTags of the lines it is given |
| KernelLog.ShortHeaderRaises | tests/kmstest.py:68 | unpacking a header of fewer than three comma fields raises ValueError |
| KernelLog.FormatHeaderFields | tests/kmstest.py:64-70 | a header the kernel writes holds no ';', and its first three comma fields are its integers |
| KernelLog.FormatBodyLines | tests/kmstest.py:73 | a formatted body splits into the text line, one line per dictionary entry, then "" |
| KernelLog.DictTags | tests/kmstest.py:77-83 | the tags parsed from well-formed dictionary lines with distinct keys are exactly that dictionary |
| KernelLog.ParseFormat | tests/kmstest.py:62-83 | round trip: parsing a well-formed kmsg record recovers its facility, sequence, timestamp, text and dictionary |
| KernelLog.IsFault | tests/kmstest.py:113-124 | a text is a fault exactly when it contains "Kernel panic", "Oops" or "WARNING:" |
| KernelLog.ScanForFaults | tests/kmstest.py:121-124 | the loop's flag is set exactly when some message's first line is a fault |
| KernelLog.FaultOnlyInText | tests/kmstest.py:121-124 | a record's classification depends only on its text line, not its dictionary lines |
| KernelLog.WarningLineIsFault | tests/kms-test-log-validator.py:8 | the injected WARNING line is classified as a fault |
| KernelLog.PanicLineIsFault | tests/kms-test-log-validator.py:63 | the injected panic line is classified as a fault |
| KernelLog.LowerCaseIsNotFault | tests/kmstest.py:113 | matching is case-sensitive: lower-case spellings are not faults |
| KmsgReader.DrainSpec | tests/kmstest.py:96-109 | a drain succeeds with one message per entry, in order, or fails with the first entry's error |
| KmsgReader.DrainConcat | tests/kmstest.py:96-109 | draining in two batches yields what one drain of both yields: nothing lost, nothing repeated |
| KmsgReader.DrainStep | tests/kmstest.py:98-107 | one more entry after a clean prefix appends its message, or its error ends the read |
| KmsgReader.ReadEntries | tests/kmstest.py:96-109 | the read loop returns Drain of the unread entries and consumes them; an exception consumes up to the failing entry |
| KmsgReader.KernelLogReader.constructor | tests/kmstest.py:87-91 | opening seeks to the end: records already in the log are never returned |
| KmsgReader.KernelLogReader.Read | tests/kmstest.py:96-109 | read() returns the records appended since the last read, in order, and moves past them |
| Events.InsertSpec | tests/kmstest.py:23-25 | the result is sorted, holds the old timers plus the new one, and keeps equal deadlines in insertion order |
| Events.NextTimeoutSpec | tests/kmstest.py:37-42 | the wait bound is non-negative and never passes a timer; it is None exactly when no timer is armed or one is overdue |
| Events.EventLoop.constructor | tests/kmstest.py:19-21 | a new loop has no timers |
| Events.EventLoop.AddTimer | tests/kmstest.py:23-25 | the timer list becomes Insert of the old one and stays sorted |
| Events.EventLoop.Stop | tests/kmstest.py:58-59 | the stop flag is set and the timers are untouched |
| Events.EventLoop.FireTimers | tests/kmstest.py:27-35 | the fired timers are the due prefix, in order; every remaining timer is later than the clock; the loop stops exactly when a stop timer fired |
| Events.EventLoop.Arm | tests/kmstest.py:44-50 | a duration arms a stop timer; the timeout is NextTimeout of the armed list; an earlier stop is forgotten |
| Events.EventLoop.Step | tests/kmstest.py:51-54 | one pass dispatches, then fires the due timers; the loop keeps running only if neither called stop |
| Events.EventLoop.Drive | tests/kmstest.py:51-54 | the loop runs until stopped; every pass before the last had its clock before the stop timer's deadline |
| Events.EventLoop.Finish | tests/kmstest.py:56 | all remaining timers are dropped |
| Events.EventLoop.Run | tests/kmstest.py:44-56 | run(duration): the armed timers split into fired and dropped; the loop ends no later than the duration; the list ends empty |
| Events.PendingStopNotDue | tests/kmstest.py:27-35 | a stop timer that did not fire is still armed and not yet due |
| Events.ArmedHoldsStop | tests/kmstest.py:45-46 | arming keeps the list sorted and holds the stop timer |
| Kms.CrtcFor | tests/kms-test-pageflip.py:52-58 | the current CRTC if any, else the first possible one; None only when both are missing |
| Kms.CrtcOrRaise | tests/kms-test-pageflip.py:52-58 | without a current CRTC and an empty possible list, `crtcs[0]` raises IndexError |
| Kms.FindPlane | tests/kms-test-pageflip.py:63-69 | the for/else search returns the first plane that supports the CRTC, or None when none does |
| Harness.Mask64 | tests/kmstest.py:199 | the masked value lies in [0, 2^64) and is congruent to the input modulo 2^64 |
| Harness.Mask64Spec | tests/kmstest.py:199 | in-range values are unchanged, negative values wrap to 2^64 + v, and masking is idempotent |
| Harness.PyMod | tests/kms-test-pageflip.py:29-30 | Python's `%`: a zero divisor raises ZeroDivisionError |
| Harness.PyModSpec | tests/kms-test-pageflip.py:29-30 | the remainder lies on the divisor's side of zero and differs from the dividend by a multiple of it |
| Harness.XorOneSpec | tests/kms-test-pageflip.py:27 | `b ^ 1` twice is the identity and swaps buffer indices 0 and 1 |
| Harness.FormatProps | tests/kmstest.py:198-199 | the same keys, each value masked to 64 bits |
| Harness.FormatPropsSpec | tests/kmstest.py:198-199 | formatting leaves in-range values alone and is idempotent |
| Harness.PlaneRequest | tests/kmstest.py:239-252 | the plane request has exactly the ten properties, every value within 64 bits |
| Harness.PlaneRequestSpec | tests/kmstest.py:241-252 | the source is sent in 16.16 fixed point and the destination as given; negative offsets become two's complement |
| Harness.FixedPoint | tests/kmstest.py:244-247 | a masked 16.16 coordinate has zero fraction bits and is exact when in range |
| Harness.FullScreenProps | tests/kms-test-pageflip.py:35-37 | a flip commits the whole framebuffer at the origin, with the source size in 16.16 |
| Harness.WriteKernelLines | tests/kmstest.py:147-148 | event()'s loop writes one K line per record, in order |
| Harness.Logger.constructor | tests/kmstest.py:133-135 | a new log is empty, and its reader starts at the end of the kernel log |
| Harness.Logger.Event | tests/kmstest.py:145-149 | the records pending are appended as K lines; a failed read writes nothing |
| Harness.Logger.Log | tests/kmstest.py:159-166 | log() writes the pending K lines and then the U line; a failed read raises before the U line |
| Harness.TranscriptConcat | tests/kmstest.py:318-351 | the console text of two runs of steps is the first's followed by the second's |
| Harness.TranscriptLines | tests/kmstest.py:329-350 | the transcript is non-empty exactly when a step completed, and then it ends with a newline |
| Harness.FlipLog | tests/kms-test-pageflip.py:13-24 | a flip handler logs the first flip and, on a stop request, the last one |
| Harness.FlipsConcat | tests/kmstest.py:276-279 | flip counts add up over consecutive passes |
| Harness.FlipEventsConcat | tests/kmstest.py:277-279 | flip counts add up over consecutive ready sources |
| Harness.KmsTest.constructor | tests/kmstest.py:178-193 | the logger, its reader and the loop are fresh; the console is empty |
| Harness.KmsTest.Report | tests/kmstest.py:331-334 | the console is written only if logging did not raise |
| Harness.KmsTest.Start | tests/kmstest.py:318-323 | start() names the step (from then on the name is set), logs it, and prints "Testing <name>: " |
| Harness.KmsTest.Progress | tests/kmstest.py:325-327 | progress() rewrites the status line with the counter; before any start() it raises AttributeError and prints nothing |
| Harness.KmsTest.Fail | tests/kmstest.py:329-335 | fail() logs the reason, ends the line with FAIL and returns Failed; a log error propagates; before any start() the reason is still logged and flushed, then AttributeError is raised and nothing is printed |
| Harness.KmsTest.Skip | tests/kmstest.py:337-343 | skip() logs the reason, prints SKIP and returns Skipped, leaving no kernel record pending |
| Harness.KmsTest.Succeed | tests/kmstest.py:345-351 | success() logs completion, ends the line with SUCCESS and returns Succeeded, leaving no kernel record pending; before any start() it logs, then raises AttributeError |
| Harness.KmsTest.CountFlip | tests/kmstest.py:268-274 | each flip event bumps the counter by one before the handler runs |
| Harness.KmsTest.BeginRun | tests/kmstest.py:313-316 | run() zeroes the flip counter and arms the loop |
| Harness.KmsTest.AtomicPlaneSet | tests/kmstest.py:239-256 | the commit recorded carries FormatProps of the plane properties |
| Harness.KmsTest.CheckKernelLog | tests/kmstest.py:112-129 | after the body, the step fails with "Post Test Kernel Fault Found" exactly when a drained record's text is a fault; with no step started, that fail() raises AttributeError |
| PageFlip.StepNames | tests/kms-test-pageflip.py:43-44 | one step name per connector, in order |
| PageFlip.Verdict | tests/kms-test-pageflip.py:87-116 | the step succeeds exactly when the mode set succeeded, a flip was seen and the stop was acknowledged; checks run in the source's order |
| PageFlip.PageFlipTest.constructor | tests/kms-test-pageflip.py:6-10 | a fresh test with an empty console and the reader at the log's end |
| PageFlip.PageFlipTest.HandlePageFlip | tests/kms-test-pageflip.py:12-37 | logs the first flip; on a stop request, records the last flip and stops the loop without committing; otherwise commits the front buffer full screen, toggles it and moves the bar |
| PageFlip.PageFlipTest.FlipOrStop | tests/kms-test-pageflip.py:18-37 | a stop request is acknowledged and cleared; otherwise the next buffer is shown |
| PageFlip.PageFlipTest.RecordFirst | tests/kms-test-pageflip.py:13-16 | only the first flip of a run is logged and recorded |
| PageFlip.PageFlipTest.AcknowledgeStop | tests/kms-test-pageflip.py:18-24 | logs the last flip, records frame and time, stops the loop and clears the request |
| PageFlip.PageFlipTest.ShowNext | tests/kms-test-pageflip.py:26-37 | toggles the front buffer and commits the one that was in front |
| PageFlip.PageFlipTest.MoveBar | tests/kms-test-pageflip.py:29-31 | the bar moves by Python's modulo over the span and stays inside it; a zero span raises |
| PageFlip.PageFlipTest.StopPageFlip | tests/kms-test-pageflip.py:39-40 | only the stop request is set |
| PageFlip.PageFlipTest.FireCallbacks | tests/kms-test-pageflip.py:101 | a stop is requested exactly when a fired timer was stop_page_flip |
| PageFlip.PageFlipTest.Dispatch | tests/kmstest.py:276-282 | the counter grows by the number of flip events dispatched |
| PageFlip.PageFlipTest.DispatchOne | tests/kmstest.py:276-282 | a flip event bumps the counter and runs the handler; a log event drains the kernel log |
| PageFlip.PageFlipTest.Pass | tests/kmstest.py:51-54 | one pass appends the kernel's records, dispatches, then fires timers |
| PageFlip.PageFlipTest.Run | tests/kmstest.py:313-316 | the counter ends equal to the flips of the passes run, and the timers end dropped |
| PageFlip.PageFlipTest.ResetRunState | tests/kms-test-pageflip.py:93-99 | the bar, buffer index, frames, times and stop request are zeroed |
| PageFlip.PageFlipTest.TestConnector | tests/kms-test-pageflip.py:43-116 | one step: its console text is StepText, and it is skipped exactly when there is a cause to skip |
| PageFlip.PageFlipTest.SelectAndFlip | tests/kms-test-pageflip.py:46-116 | the skip checks in order (disconnected, no plane, no mode); a missing CRTC raises |
| PageFlip.PageFlipTest.FlipOn | tests/kms-test-pageflip.py:78-116 | after the mode set and the ten-second run, the step succeeds exactly when Verdict is None |
| PageFlip.PageFlipTest.FlipAndConclude | tests/kms-test-pageflip.py:93-116 | with the mode set done, the run state is reset, the stop timer armed and the loop run; the step succeeds exactly when Verdict is None, and a failure ends the log with the verdict's reason |
| PageFlip.PageFlipTest.Conclude | tests/kms-test-pageflip.py:104-116 | fails with the verdict's reason; a success implies a non-zero interval, since a zero one makes the division raise |
| PageFlip.PageFlipTest.RunMain | tests/kms-test-pageflip.py:42-116 | one step per connector in order; the console is the transcript of the steps; each step is skipped exactly when it has a cause |
| PageFlip.PageFlipTest.Execute | tests/kmstest.py:288-291 | main() under the validator, with the records logged after the last loop pass appended before the drain; when it completes, the drain succeeded and those records end the log; with no connector and no earlier start(), completing means no fault was found (a fault raises AttributeError) |
| SuspendResume.StepNames | tests/kms-test-suspend-resume.py:153-161 | the dependency step's name, then one per connector |
| SuspendResume.CycleVerdict | tests/kms-test-suspend-resume.py:163-187 | a cycle succeeds exactly when the mode set succeeded, flips were seen before and after the suspend, and the stop was acknowledged |
| SuspendResume.CompletionVerdict | tests/kms-test-suspend-resume.py:118-130 | verify_completion fails without flips or with an unacknowledged stop |
| SuspendResume.JoinSteps | tests/kms-test-suspend-resume.py:148-187 | main's console is the dependency step's text followed by the connectors' |
| SuspendResume.PageFlipper.constructor | tests/kms-test-suspend-resume.py:15-22 | the flipper shares the test's logger and loop and has not started |
| SuspendResume.PageFlipper.HandlePageFlip | tests/kms-test-suspend-resume.py:24-51 | counts the flip, then does what the page-flip handler does; before run() sets it up, the handler raises, which the base class swallows |
| SuspendResume.PageFlipper.Flip | tests/kms-test-suspend-resume.py:27-51 | handle_page_flip once the flip is counted |
| SuspendResume.PageFlipper.RecordFirst | tests/kms-test-suspend-resume.py:27-30 | only the first flip since run() is logged and recorded |
| SuspendResume.PageFlipper.FlipOrStop | tests/kms-test-suspend-resume.py:32-51 | a stop request is acknowledged; otherwise the next buffer is shown |
| SuspendResume.PageFlipper.AcknowledgeStop | tests/kms-test-suspend-resume.py:32-38 | logs and records the last flip, stops the loop and clears the request |
| SuspendResume.PageFlipper.ShowNext | tests/kms-test-suspend-resume.py:40-51 | toggles the front buffer and commits the old front buffer full screen |
| SuspendResume.PageFlipper.MoveBar | tests/kms-test-suspend-resume.py:43-45 | the bar moves by Python's modulo over the span; a zero span raises |
| SuspendResume.PageFlipper.StopPageFlip | tests/kms-test-suspend-resume.py:53-54 | only the stop request is set |
| SuspendResume.PageFlipper.Run | tests/kms-test-suspend-resume.py:56-111 | returns True (None here) exactly when flipping began; otherwise returns what skip() or fail() returned, and a skip happens exactly when there is a cause |
| SuspendResume.PageFlipper.Choose | tests/kms-test-suspend-resume.py:72-111 | skips when no plane or no mode fits, else begins |
| SuspendResume.PageFlipper.Begin | tests/kms-test-suspend-resume.py:86-111 | logs the setup, resets the run state, allocates the buffers; a failed mode set fails the step |
| SuspendResume.PageFlipper.ResetRunState | tests/kms-test-suspend-resume.py:89-103 | all run state zeroed and the two buffers at the mode's size |
| SuspendResume.PageFlipper.IsRunning | tests/kms-test-suspend-resume.py:113-116 | true exactly when the counter moved since the previous call, which is then remembered |
| SuspendResume.PageFlipper.VerifyCompletion | tests/kms-test-suspend-resume.py:118-130 | fails with CompletionVerdict's reason, else logs the rate and succeeds; a zero interval raises |
| SuspendResume.SuspendResumeTest.constructor | tests/kms-test-suspend-resume.py:148-150 | the flipper is created and registered first |
| SuspendResume.SuspendResumeTest.Run | tests/kmstest.py:313-316 | the flipper counts exactly the flips of the passes run |
| SuspendResume.SuspendResumeTest.Pass | tests/kmstest.py:51-54 | one pass appends records, dispatches, fires timers |
| SuspendResume.SuspendResumeTest.Dispatch | tests/kmstest.py:276-282 | the base counter grows by the flip events dispatched |
| SuspendResume.SuspendResumeTest.DispatchOne | tests/kmstest.py:268-282 | a flip event bumps the base counter, then reaches the flipper |
| SuspendResume.SuspendResumeTest.FireCallbacks | tests/kmstest.py:35 | the flipper's stop is requested exactly when a fired timer was its stop_page_flip (this scenario never arms one; main calls stop_page_flip directly) |
| SuspendResume.SuspendResumeTest.CheckRunning | tests/kms-test-suspend-resume.py:168-172 | is_running() after run(5) is true exactly when flips were counted in that run; otherwise the step fails with the given reason |
| SuspendResume.SuspendResumeTest.Exercise | tests/kms-test-suspend-resume.py:167-187 | the cycle fails with CycleVerdict's reason; a suspend that raised leaves the step raised or failed |
| SuspendResume.SuspendResumeTest.Resume | tests/kms-test-suspend-resume.py:177-187 | after the suspend: flips must be seen again, then the stop is verified |
| SuspendResume.SuspendResumeTest.Attempt | tests/kms-test-suspend-resume.py:163-187 | a step is skipped exactly when it has a cause; a disconnected connector is always skipped |
| SuspendResume.SuspendResumeTest.TestConnector | tests/kms-test-suspend-resume.py:160-187 | one connector's step: the console shows its StepText |
| SuspendResume.SuspendResumeTest.Dependencies | tests/kms-test-suspend-resume.py:152-158 | skipped without the PM test interface, else succeeds |
| SuspendResume.SuspendResumeTest.RunMain | tests/kms-test-suspend-resume.py:148-187 | without PM support only the dependency step runs; otherwise one step per connector, and the console is their transcript |
| SuspendResume.SuspendResumeTest.Connectors | tests/kms-test-suspend-resume.py:160-187 | the loop's console is the transcript of its steps, each skip explained |
| SuspendResume.SuspendResumeTest.Execute | tests/kmstest.py:288-291 | main() under the validator, with the records logged outside any loop pass (for instance without PM support) appended before the drain; when it completes, the drain succeeded and those records end the log |
| VinLoopback.HdmiConnector | tests/kms-test-vin-loopback.py:83-87 | the first connector named HDMI-A-1; None exactly when there is none |
| VinLoopback.GetConnector | tests/kms-test-vin-loopback.py:83-87 | the loop returns HdmiConnector whatever name it is given |
| VinLoopback.MismatchesZero | tests/kms-test-vin-loopback.py:69-73 | no failure is counted exactly when every capture matched |
| VinLoopback.Verdict | tests/kms-test-vin-loopback.py:151-196 | success exactly when the mode set succeeded, frames were captured, none differed, a flip was seen and the stop acknowledged; checks run in the source's order |
| VinLoopback.VinLoopbackTest.constructor | tests/kms-test-vin-loopback.py:9-11 | a fresh test; nothing captured or differing, no failures, nothing queued or streaming |
| VinLoopback.VinLoopbackTest.HandlePageFlip | tests/kms-test-vin-loopback.py:13-33 | logs the first flip; on a stop request, records the last flip and stops the loop; otherwise commits the front buffer and toggles it |
| VinLoopback.VinLoopbackTest.RecordFirst | tests/kms-test-vin-loopback.py:14-17 | only the first flip of a run is logged and recorded |
| VinLoopback.VinLoopbackTest.AcknowledgeStop | tests/kms-test-vin-loopback.py:19-25 | logs and records the last flip, stops the loop and clears the request |
| VinLoopback.VinLoopbackTest.ShowNext | tests/kms-test-vin-loopback.py:28-33 | toggles the front buffer and commits the old one full screen |
| VinLoopback.VinLoopbackTest.StopPageFlip | tests/kms-test-vin-loopback.py:35-37 | sets the stop request and stops streaming |
| VinLoopback.VinLoopbackTest.HandleFrameCapture | tests/kms-test-vin-loopback.py:60-80 | ignored after a stop request; otherwise logs the capture and counts it; the failures stay equal to the number of differing captures |
| VinLoopback.VinLoopbackTest.CountCapture | tests/kms-test-vin-loopback.py:69-80 | a differing capture logs its file and bumps the failures; the buffer is requeued; the stop is requested once ten frames are captured |
| VinLoopback.VinLoopbackTest.ReportCorrupt | tests/kms-test-vin-loopback.py:69-73 | logs the corrupt-frame file name and counts the failure |
| VinLoopback.VinLoopbackTest.FireCallbacks | tests/kms-test-vin-loopback.py:175 | a stop is requested exactly when a fired timer was stop_page_flip |
| VinLoopback.VinLoopbackTest.Dispatch | tests/kmstest.py:276-282 | the counter grows by the flip events dispatched |
| VinLoopback.VinLoopbackTest.DispatchOne | tests/kmstest.py:52-53 | a flip event bumps the counter by one and any other source leaves it alone; the timers are untouched |
| VinLoopback.VinLoopbackTest.Pass | tests/kmstest.py:51-54 | one pass appends records, dispatches, fires timers |
| VinLoopback.VinLoopbackTest.Run | tests/kmstest.py:313-316 | the counter ends equal to the flips of the passes run |
| VinLoopback.VinLoopbackTest.ConfigureVin | tests/kms-test-vin-loopback.py:39-57 | logs the device, zeroes the counters, queues both capture buffers, starts streaming and registers the source |
| VinLoopback.VinLoopbackTest.Conclude | tests/kms-test-vin-loopback.py:178-196 | fails with the verdict's reason and logs the save note after a comparison failure; a success means at least one capture and all captures matched |
| VinLoopback.VinLoopbackTest.ReportComparisons | tests/kms-test-vin-loopback.py:182-186 | fails the step, then logs the save note |
| VinLoopback.VinLoopbackTest.ResetRunState | tests/kms-test-vin-loopback.py:160-165 | the buffer index, frames, times and stop request are zeroed |
| VinLoopback.VinLoopbackTest.RunMain | tests/kms-test-vin-loopback.py:89-196 | the console shows the step's text; skipped exactly when there is a cause; a success means every capture matched |
| VinLoopback.VinLoopbackTest.Select | tests/kms-test-vin-loopback.py:94-102 | skips when HDMI-A-1 is missing or disconnected |
| VinLoopback.VinLoopbackTest.Choose | tests/kms-test-vin-loopback.py:104-132 | skips when there is no CRTC, plane or mode |
| VinLoopback.VinLoopbackTest.ShowAndCapture | tests/kms-test-vin-loopback.py:132-196 | the step succeeds exactly when Verdict is None |
| VinLoopback.VinLoopbackTest.Prepare | tests/kms-test-vin-loopback.py:132-149 | logs the setup and allocates both buffer pairs at the mode's size |
| VinLoopback.VinLoopbackTest.RejectMode | tests/kms-test-vin-loopback.py:152-155 | a failed mode set fails the step |
| VinLoopback.VinLoopbackTest.Capture | tests/kms-test-vin-loopback.py:160-196 | the run state is reset, then the output settles, the VIN is configured and frames are captured; the step succeeds exactly when Verdict on the mode-set result is None; success means every capture matched |
| VinLoopback.VinLoopbackTest.CaptureFrames | tests/kms-test-vin-loopback.py:173-196 | with the capture running, the stop timer is armed and the loop run; the step succeeds exactly when Verdict is None, a failure ends the log with the verdict's lines, and success means every capture matched |
| VinLoopback.VinLoopbackTest.Execute | tests/kmstest.py:288-291 | main() under the validator, with the records logged after the last loop pass appended before the drain; when it completes, the drain succeeded and those records end the log |

Some functions have no row of their own: their own contracts, where they
have one, only bound their results, and the lemma named beside each
carries the claim about them. `Events.Insert` is covered by `Events.InsertSpec`,
`Events.NextTimeout` by `Events.NextTimeoutSpec`, `Text.ParseInt` by
`Text.ParseIntOfIntToString`, `KernelLog.HeaderOf` by
`KernelLog.HeaderBody`, `KernelLog.TagRun` by `KernelLog.TagRunSpec`,
`KernelLog.CollectTags` by `KernelLog.CollectTagsSpec`, and
`Harness.XorOne` by `Harness.XorOneSpec`.

## Left out

- **The clock, select() and the hardware.** The model does not read the
  monotonic clock, block in select(), or talk to the DRM device, the V4L2
  device or `/dev/kmsg`. Clock readings, ready sources, records and device
  results are parameters.
- **Finite passes.** Each event-loop run is driven by a finite schedule of
  passes, so a run whose schedule ends before it is stopped simply ends
  there. A real loop that is never stopped would block forever.
- **Floating point.** The timestamp division by 1e6, `%f` formatting and the
  frame-rate quotient are not modelled. `RateNote` logs the counts without
  the figures, and the `[%6f]` stamps of log lines are dropped. Whether the
  rate division raises (a zero interval) is modelled.
- **UTF-8 decoding of kmsg records.** Byte decoding is not modelled:
  records reach the model as text. A `UnicodeDecodeError` from
  `msg.decode("utf-8")`, which the reader's `except OSError` does not catch
  and which would escape `read()`, is not represented.
- **Log files.** The log file is a sequence of lines: `flush`, `fsync`,
  `close` and `__del__` are not modelled.
- **pykms drawing.** `draw_color_bar`, `draw_test_pattern`, `save_raw_frame`
  and `compare_framebuffers` are not modelled. The difference of each
  capture is a parameter of the schedule.
- **The VIN device.** rcar_vin's device lookup, `set_port`, `set_format` and
  `set_queue_size` are not modelled. The device node is a parameter, and
  the V4L2 buffer queue is a count of queued buffers.
- **PMTest.** `PMTest.supported` and `PMTest.suspend` write sysfs files; they
  are the `pmSupported` flag and a suspend outcome per cycle.
- **KMSTest methods not in the core.** `atomic_crtc_disable`,
  `atomic_planes_disable`, `flush_events`, `__read_key` and the other
  scripts are not modelled. `atomic_crtc_mode_set` is modelled only
  through its return value.
- **KMSTest construction.** The RuntimeError for a class without `main` or
  without atomic support is not modelled, because the modelled tests
  always have both.
- **AttributeError swallowing.** `__handle_page_flip` swallows AttributeError
  from a handler. For the suspend test's flipper this is the flip that
  arrives before `run()` sets its attributes: it is counted and otherwise
  ignored. The only other AttributeError in the modelled code, reading
  `test_name` in fail(), success() or progress() before any start(), is
  modelled as `PyError.AttributeError`.
- **Timer callbacks.** Callbacks are a closed datatype (the loop's own stop
  and each test's stop_page_flip) rather than arbitrary callables.
- **The clock for run().** `add_timer` and `run` in the same statement
  sequence read the clock separately; the model gives them one reading.
- **Subclassing.** Each test holds a `KmsTest` rather than subclassing it;
  the behaviour is the same.
- **When kernel records arrive.** Records reach /dev/kmsg at the start of an
  event-loop pass or, through `Execute`'s `late` records, after main()
  returns. A record logged during a step outside any loop is placed at the
  next pass or at the end, so its K line may follow a log line that it
  preceded. Whether the validator finds a fault does not depend on this order.
- **Frames captured after stream_off.** The schedule may still report a
  capture after `stream_off`. The handler then does what the code does: it
  ignores the frame while the stop request is pending and counts it after
  the request is cleared.
- ParseInt: accepts an optional sign and ASCII digits only. It rejects
  `int("1_000")` and non-ASCII decimal digits, which Python's `int()`
  accepts. Headers written by the kernel contain neither.
- **The run() deadline.** That every pass but the last starts before
  `now + duration` is proved for `Events.EventLoop.Run` (through `Step`
  and `Drive`) only. Each scenario's `Run` repeats the arm, loop and
  finish sequence with its own dispatch and states the flip count and the
  dropped timers, not the deadline.
