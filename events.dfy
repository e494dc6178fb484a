/**
 * The harness's cooperative event loop: a list of timers kept in deadline
 * order, a stop flag, and a loop of "run the ready callbacks, then fire the
 * due timers". The monotonic clock is an explicit parameter.
 */
module Events {
  import opened Wrappers

  /** The timer callbacks of the modelled code: EventLoop.stop and a scenario's stop_page_flip. */
  datatype Callback = LoopStop | StopPageFlip

  /** A timer: the clock reading it is due at, and what it calls. */
  datatype Timer = Timer(deadline: int, callback: Callback)

  predicate Sorted(ts: seq<Timer>) {
    forall i, j :: 0 <= i < j < |ts| ==> ts[i].deadline <= ts[j].deadline
  }

  /**
   * Appending a timer and sorting the list by deadline with Python's stable
   * sort: the new timer lands after every timer due no later than it.
   */
  function Insert(ts: seq<Timer>, t: Timer): (r: seq<Timer>)
    ensures |r| == |ts| + 1
    decreases |ts|
  {
    if |ts| == 0 || t.deadline < ts[0].deadline then [t] + ts
    else [ts[0]] + Insert(ts[1..], t)
  }

  /** How many leading timers Insert steps over: those due no later than `d`. */
  function InsertPos(ts: seq<Timer>, d: int): (k: nat)
    ensures k <= |ts|
    ensures forall i :: 0 <= i < k ==> ts[i].deadline <= d
    ensures k < |ts| ==> ts[k].deadline > d
    decreases |ts|
  {
    if |ts| == 0 || d < ts[0].deadline then 0
    else
      var k := 1 + InsertPos(ts[1..], d);
      assert forall i :: 1 <= i < |ts| ==> ts[i] == ts[1..][i - 1];
      k
  }

  /** Insert splices the new timer in at InsertPos. */
  lemma {:induction false} InsertAt(ts: seq<Timer>, t: Timer)
    ensures Insert(ts, t) == ts[..InsertPos(ts, t.deadline)] + [t] + ts[InsertPos(ts, t.deadline)..]
    decreases |ts|
  {
    if |ts| > 0 && t.deadline >= ts[0].deadline {
      InsertAt(ts[1..], t);
      var k := InsertPos(ts[1..], t.deadline);
      assert ts[..k + 1] == [ts[0]] + ts[1..][..k];
      assert ts[k + 1..] == ts[1..][k..];
    }
  }

  /** Splicing a timer between the timers due no later and those due later keeps the list sorted. */
  lemma SpliceSorted(ts: seq<Timer>, k: nat, t: Timer)
    requires Sorted(ts) && k <= |ts|
    requires forall i :: 0 <= i < k ==> ts[i].deadline <= t.deadline
    requires forall i :: k <= i < |ts| ==> ts[i].deadline > t.deadline
    ensures Sorted(ts[..k] + [t] + ts[k..])
  {
    var r := ts[..k] + [t] + ts[k..];
    forall i, j | 0 <= i < j < |r| ensures r[i].deadline <= r[j].deadline {
      if j < k {
        assert r[i] == ts[i] && r[j] == ts[j];
      } else if j == k {
        assert r[i] == ts[i];
      } else if i < k {
        assert r[i] == ts[i] && r[j] == ts[j - 1];
      } else if i == k {
        assert r[j] == ts[j - 1];
      } else {
        assert r[i] == ts[i - 1] && r[j] == ts[j - 1];
      }
    }
  }

  /**
   * Insert is the stable sort of the appended list: the old timers keep
   * their order, the new one goes after all timers with an equal or
   * earlier deadline and before all later ones, and the list stays sorted.
   */
  lemma InsertSpec(ts: seq<Timer>, t: Timer)
    requires Sorted(ts)
    ensures Sorted(Insert(ts, t))
    ensures multiset(Insert(ts, t)) == multiset(ts) + multiset{t}
    ensures exists k :: (0 <= k <= |ts| && Insert(ts, t) == ts[..k] + [t] + ts[k..]
      && (forall i :: 0 <= i < k ==> ts[i].deadline <= t.deadline)
      && (forall i :: k <= i < |ts| ==> ts[i].deadline > t.deadline))
  {
    var k := InsertPos(ts, t.deadline);
    InsertAt(ts, t);
    assert forall i :: k <= i < |ts| ==> ts[k].deadline <= ts[i].deadline;
    SpliceSorted(ts, k, t);
    assert ts == ts[..k] + ts[k..];
  }

  /**
   * next_timeout: how long select() may block. None (block until an event)
   * when no timer is armed or the earliest one is already overdue.
   */
  function NextTimeout(ts: seq<Timer>, clk: int): Option<int> {
    if |ts| == 0 || ts[0].deadline < clk then None else Some(ts[0].deadline - clk)
  }

  /**
   * The wait bound is never negative and never sleeps past a timer; an
   * overdue timer gives no bound at all, while one due exactly now gives 0.
   */
  lemma NextTimeoutSpec(ts: seq<Timer>, clk: int)
    requires Sorted(ts)
    ensures NextTimeout(ts, clk).Some? ==> (NextTimeout(ts, clk).value >= 0
      && (forall i :: 0 <= i < |ts| ==> clk + NextTimeout(ts, clk).value <= ts[i].deadline)
      && (exists i :: 0 <= i < |ts| && clk + NextTimeout(ts, clk).value == ts[i].deadline))
    ensures NextTimeout(ts, clk).None? <==>
      |ts| == 0 || exists i :: 0 <= i < |ts| && ts[i].deadline < clk
  {
    if |ts| > 0 && ts[0].deadline >= clk {
      assert forall i :: 0 <= i < |ts| ==> ts[0].deadline <= ts[i].deadline;
    }
  }

  /** What one tick of select() reports: here, whether a ready callback called stop(). */
  datatype Tick = Tick(clock: int, readyStops: bool)

  class EventLoop {
    var timers: seq<Timer>
    var stopped: bool

    predicate Valid()
      reads this
    {
      Sorted(timers)
    }

    constructor ()
      ensures timers == [] && !stopped
      ensures Valid()
    {
      timers := [];
      stopped := false;
    }

    /** add_timer: arm a timer `timeout` after the clock reading `now`. */
    method AddTimer(now: int, timeout: int, callback: Callback)
      requires Valid()
      modifies this
      ensures Valid()
      ensures timers == Insert(old(timers), Timer(now + timeout, callback))
      ensures stopped == old(stopped)
    {
      InsertSpec(timers, Timer(now + timeout, callback));
      timers := Insert(timers, Timer(now + timeout, callback));
    }

    /** stop: ask the loop to end at its next check. */
    method Stop()
      modifies this
      ensures stopped && timers == old(timers)
    {
      stopped := true;
    }

    /**
     * fire_timers: read the clock once, then pop and run front timers while
     * they are due. LoopStop is run here; the timers fired are returned in
     * order so that the caller runs the callbacks that act on its own state.
     */
    method FireTimers(clk: int) returns (fired: seq<Timer>)
      requires Valid()
      modifies this
      ensures Valid()
      ensures old(timers) == fired + timers
      ensures forall i :: 0 <= i < |fired| ==> fired[i].deadline <= clk
      ensures forall i :: 0 <= i < |timers| ==> timers[i].deadline > clk
      ensures stopped <==> old(stopped) || exists i :: 0 <= i < |fired| && fired[i].callback == LoopStop
    {
      fired := [];
      while |timers| > 0
        invariant old(timers) == fired + timers
        invariant Sorted(timers)
        invariant forall i :: 0 <= i < |fired| ==> fired[i].deadline <= clk
        invariant stopped <==> old(stopped) || exists i :: 0 <= i < |fired| && fired[i].callback == LoopStop
        decreases |timers|
      {
        var timer := timers[0];
        if timer.deadline > clk {
          assert forall i :: 0 <= i < |timers| ==> timers[0].deadline <= timers[i].deadline;
          break;
        }
        timers := timers[1..];
        ghost var before := fired;
        fired := fired + [timer];
        assert forall i :: 0 <= i < |before| ==> fired[i] == before[i];
        assert fired[|before|] == timer;
        if timer.callback == LoopStop {
          stopped := true;
        }
      }
    }

    /**
     * The part of run() before its loop: arm a LoopStop timer when a
     * duration is given, compute the select() timeout once, and forget any
     * earlier stop().
     */
    method Arm(duration: int, now: int) returns (timeout: Option<int>)
      requires Valid()
      modifies this
      ensures Valid() && !stopped
      ensures timers == Armed(old(timers), duration, now)
      ensures timeout == NextTimeout(timers, now)
    {
      if duration != 0 {
        AddTimer(now, duration, LoopStop);
      }
      timeout := NextTimeout(timers, now);
      stopped := false;
    }

    /** The part of run() after its loop: every timer still armed is dropped. */
    method Finish()
      modifies this
      ensures timers == [] && stopped == old(stopped)
      ensures Valid()
    {
      timers := [];
    }

    /**
     * One pass of run()'s loop body: the ready callbacks run first (here:
     * whether one of them called stop()), then the due timers fire.
     */
    method Step(t: Tick) returns (fired: seq<Timer>)
      requires Valid()
      modifies this
      ensures Valid()
      ensures old(timers) == fired + timers
      ensures forall i :: 0 <= i < |timers| ==> timers[i].deadline > t.clock
      ensures t.readyStops ==> stopped
      ensures !stopped ==> !old(stopped) && !t.readyStops
      ensures !stopped ==> forall i :: 0 <= i < |fired| ==> fired[i].callback != LoopStop
    {
      if t.readyStops {
        Stop();
      }
      fired := FireTimers(t.clock);
    }

    /**
     * run()'s loop: tick until stopped or until the schedule runs out. A
     * LoopStop timer that is armed at the start (due at `stopAt`) bounds
     * the clock of every tick but the last.
     */
    method Drive(ticks: seq<Tick>, ghost stopAt: Option<int>) returns (ran: nat, ghost fired: seq<Timer>)
      requires Valid() && !stopped
      requires stopAt.Some? ==> Timer(stopAt.value, LoopStop) in timers
      modifies this
      ensures Valid()
      ensures old(timers) == fired + timers
      ensures ran <= |ticks| && (|ticks| > 0 ==> ran > 0)
      ensures ran < |ticks| ==> stopped
      ensures forall i :: 0 <= i < ran - 1 ==> !ticks[i].readyStops
      ensures stopAt.Some? ==> forall i :: 0 <= i < ran - 1 ==> ticks[i].clock < stopAt.value
      ensures ran > 0 ==> forall i :: 0 <= i < |timers| ==> timers[i].deadline > ticks[ran - 1].clock
    {
      ghost var start := timers;
      assert start == [] + timers;
      fired := [];
      ran := 0;
      while !stopped && ran < |ticks|
        invariant Valid() && ran <= |ticks|
        invariant start == fired + timers
        invariant ran == 0 ==> !stopped
        invariant ran > 0 ==> forall i :: 0 <= i < |timers| ==> timers[i].deadline > ticks[ran - 1].clock
        invariant forall i :: 0 <= i < ran - 1 ==> !ticks[i].readyStops
        invariant stopAt.Some? ==> forall i :: 0 <= i < ran - 1 ==> ticks[i].clock < stopAt.value
        invariant ran > 0 && !stopped ==> !ticks[ran - 1].readyStops
        invariant ran > 0 && !stopped && stopAt.Some? ==> ticks[ran - 1].clock < stopAt.value
        invariant stopAt.Some? && !stopped ==> Timer(stopAt.value, LoopStop) in timers
        decreases |ticks| - ran
      {
        ghost var before := timers;
        var f := Step(ticks[ran]);
        if stopAt.Some? && !stopped {
          PendingStopNotDue(before, f, timers, Timer(stopAt.value, LoopStop), ticks[ran].clock);
        }
        SeqAssoc(fired, f, timers);
        fired := fired + f;
        ran := ran + 1;
      }
    }

    /**
     * run(duration): arm, tick until stopped, drop the remaining timers.
     * `fired` and `left` are the armed timers that fired and those dropped
     * at the end.
     */
    method Run(duration: int, now: int, ticks: seq<Tick>)
      returns (timeout: Option<int>, ran: nat, ghost fired: seq<Timer>, ghost left: seq<Timer>)
      requires Valid()
      modifies this
      ensures Valid() && timers == []
      ensures timeout == NextTimeout(Armed(old(timers), duration, now), now)
      ensures Armed(old(timers), duration, now) == fired + left
      ensures ran <= |ticks| && (|ticks| > 0 ==> ran > 0)
      ensures ran < |ticks| ==> stopped
      ensures forall i :: 0 <= i < ran - 1 ==> !ticks[i].readyStops
      ensures duration != 0 ==> forall i :: 0 <= i < ran - 1 ==> ticks[i].clock < now + duration
      ensures ran > 0 ==> forall i :: 0 <= i < |left| ==> left[i].deadline > ticks[ran - 1].clock
    {
      ArmedHoldsStop(timers, duration, now);
      timeout := Arm(duration, now);
      ran, fired := Drive(ticks, if duration != 0 then Some(now + duration) else None);
      left := timers;
      Finish();
    }
  }

  /** A LoopStop timer that was armed but did not stop the loop is still armed, and not yet due. */
  lemma PendingStopNotDue(before: seq<Timer>, fired: seq<Timer>, after: seq<Timer>, stop: Timer, clk: int)
    requires stop.callback == LoopStop && stop in before && before == fired + after
    requires forall i :: 0 <= i < |fired| ==> fired[i].callback != LoopStop
    requires forall i :: 0 <= i < |after| ==> after[i].deadline > clk
    ensures stop in after && stop.deadline > clk
  {
    assert stop in fired + after;
  }

  lemma SeqAssoc(a: seq<Timer>, b: seq<Timer>, c: seq<Timer>)
    ensures a + b + c == a + (b + c)
  {
  }

  /** The timer list once run() has armed its LoopStop timer. */
  function Armed(ts: seq<Timer>, duration: int, now: int): seq<Timer> {
    if duration != 0 then Insert(ts, Timer(now + duration, LoopStop)) else ts
  }

  /** Arming keeps the list sorted and really holds the LoopStop timer. */
  lemma ArmedHoldsStop(ts: seq<Timer>, duration: int, now: int)
    requires Sorted(ts)
    ensures Sorted(Armed(ts, duration, now))
    ensures duration != 0 ==> Timer(now + duration, LoopStop) in Armed(ts, duration, now)
  {
    if duration != 0 {
      InsertSpec(ts, Timer(now + duration, LoopStop));
      assert Timer(now + duration, LoopStop) in multiset(Armed(ts, duration, now));
    }
  }
}
