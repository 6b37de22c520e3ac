/**
 * The per-task stopwatch: stopped or running, a seconds counter that only ever
 * grows by one per tick, and the totals it reports back to its task through
 * `onTimeUpdate` ("flushes"). Ticks, clock readings and teardown are explicit
 * events.
 */
module TaskTimer {
  import opened Options

  /** Everything observable about a mounted timer. */
  datatype TimerView = TimerView(
    isRunning: bool,
    currentTime: nat,
    ticking: bool,             // a one-second tick source is scheduled
    startTime: Option<int>,    // the instant recorded by the last start
    flushes: seq<nat>)         // the totals passed to `onTimeUpdate`, oldest first

  datatype Event = Start(now: int) | Tick | Pause | Toggle(now: int) | Teardown

  /** A freshly mounted timer: stopped, showing the task's time, nothing reported. */
  function Mounted(initialTime: nat): (v: TimerView)
    ensures !v.isRunning && !v.ticking && v.currentTime == initialTime && v.flushes == []
  {
    TimerView(false, initialTime, false, None, [])
  }

  /** The report made whenever the counter differs from the mounted value. */
  function FlushIfChanged(initialTime: nat, value: nat): seq<nat>
  {
    if value != initialTime then [value] else []
  }

  /** One event, with the tick source kept alive while running. */
  function Step(initialTime: nat, v: TimerView, e: Event): TimerView
    decreases if e.Toggle? then 1 else 0
  {
    match e
    case Start(now) => v.(isRunning := true, startTime := Some(now), ticking := true)
    case Tick =>
      if !v.ticking then v
      else v.(currentTime := v.currentTime + 1,
              flushes := v.flushes + FlushIfChanged(initialTime, v.currentTime + 1))
    case Pause => v.(isRunning := false, ticking := false, flushes := v.flushes + [v.currentTime])
    case Toggle(now) => if v.isRunning then Step(initialTime, v, Pause) else Step(initialTime, v, Start(now))
    case Teardown => v.(ticking := false, flushes := v.flushes + FlushIfChanged(initialTime, v.currentTime))
  }

  /**
   * The same event as written: the clean-up of the effect keyed on the counter
   * runs on every change of the counter, so a tick also cancels the tick source
   * (and reports the previous value if it differed from the mounted one).
   */
  function StepAsWritten(initialTime: nat, v: TimerView, e: Event): TimerView
  {
    match e
    case Tick =>
      if !v.ticking then v
      else v.(currentTime := v.currentTime + 1, ticking := false,
              flushes := v.flushes + FlushIfChanged(initialTime, v.currentTime)
                                   + FlushIfChanged(initialTime, v.currentTime + 1))
    case Toggle(now) => if v.isRunning then Step(initialTime, v, Pause) else Step(initialTime, v, Start(now))
    case _ => Step(initialTime, v, e)
  }

  function Run(initialTime: nat, v: TimerView, events: seq<Event>): TimerView
    decreases |events|
  {
    if events == [] then v else Run(initialTime, Step(initialTime, v, events[0]), events[1..])
  }

  function RunAsWritten(initialTime: nat, v: TimerView, events: seq<Event>): TimerView
    decreases |events|
  {
    if events == [] then v else RunAsWritten(initialTime, StepAsWritten(initialTime, v, events[0]), events[1..])
  }

  /** `n` tick events. */
  function Ticks(n: nat): (es: seq<Event>)
    ensures |es| == n && forall i :: 0 <= i < n ==> es[i] == Tick
  {
    if n == 0 then [] else [Tick] + Ticks(n - 1)
  }

  /** The states a timer can be in: never below the mounted value, ticking only while running, reports within range. */
  ghost predicate Sane(initialTime: nat, v: TimerView)
  {
    initialTime <= v.currentTime && (v.ticking ==> v.isRunning)
    && forall i :: 0 <= i < |v.flushes| ==> initialTime <= v.flushes[i] <= v.currentTime
  }

  /**
   * Every event keeps the timer sane; the counter only moves by a tick, by
   * exactly one; a start records the instant and runs; a pause stops and
   * reports the current total.
   */
  lemma StepSpec(initialTime: nat, v: TimerView, e: Event)
    requires Sane(initialTime, v)
    ensures Sane(initialTime, Step(initialTime, v, e))
    ensures Step(initialTime, v, e).currentTime == v.currentTime + (if e == Tick && v.ticking then 1 else 0)
    ensures e.Start? ==> Step(initialTime, v, e).isRunning && Step(initialTime, v, e).startTime == Some(e.now)
    ensures e == Pause ==> !Step(initialTime, v, e).isRunning && !Step(initialTime, v, e).ticking
                           && Step(initialTime, v, e).flushes == v.flushes + [v.currentTime]
  {
  }

  /** Over any run the counter never decreases and the timer stays sane. */
  lemma {:induction false} RunMonotone(initialTime: nat, v: TimerView, events: seq<Event>)
    requires Sane(initialTime, v)
    ensures Sane(initialTime, Run(initialTime, v, events))
    ensures v.currentTime <= Run(initialTime, v, events).currentTime
    decreases |events|
  {
    if events != [] {
      StepSpec(initialTime, v, events[0]);
      RunMonotone(initialTime, Step(initialTime, v, events[0]), events[1..]);
    }
  }

  /** While the tick source runs, `n` ticks add exactly `n` seconds, each reported as a total. */
  lemma {:induction false} TicksAdd(initialTime: nat, v: TimerView, n: nat)
    requires v.ticking && initialTime <= v.currentTime
    ensures Run(initialTime, v, Ticks(n)).currentTime == v.currentTime + n
    ensures Run(initialTime, v, Ticks(n)).ticking
    ensures n > 0 ==> var fs := Run(initialTime, v, Ticks(n)).flushes; |fs| > 0 && fs[|fs| - 1] == v.currentTime + n
    decreases n
  {
    if n > 0 {
      var w := Step(initialTime, v, Tick);
      assert Ticks(n)[1..] == Ticks(n - 1);
      TicksAdd(initialTime, w, n - 1);
    }
  }

  /** Started from mount, `n` ticks show the mounted value plus `n`. */
  lemma StartThenTicks(initialTime: nat, now: int, n: nat)
    ensures Run(initialTime, Mounted(initialTime), [Start(now)] + Ticks(n)).currentTime == initialTime + n
  {
    var w := Step(initialTime, Mounted(initialTime), Start(now));
    assert ([Start(now)] + Ticks(n))[1..] == Ticks(n);
    TicksAdd(initialTime, w, n);
  }

  /** As written, the second tick after a start is lost: the counter sticks one above the mounted value while still shown as running. */
  lemma AsWrittenStallsAfterOneTick(initialTime: nat, now: int)
    ensures RunAsWritten(initialTime, Mounted(initialTime), [Start(now), Tick, Tick]).currentTime == initialTime + 1
    ensures RunAsWritten(initialTime, Mounted(initialTime), [Start(now), Tick, Tick]).isRunning
    ensures Run(initialTime, Mounted(initialTime), [Start(now), Tick, Tick]).currentTime == initialTime + 2
  {
    StartThenTicks(initialTime, now, 2);
    assert [Start(now), Tick, Tick] == [Start(now)] + Ticks(2);
    var v0 := Mounted(initialTime);
    var v1 := StepAsWritten(initialTime, v0, Start(now));
    var v2 := StepAsWritten(initialTime, v1, Tick);
    assert !v2.ticking && v2.isRunning && v2.currentTime == initialTime + 1;
    var v3 := StepAsWritten(initialTime, v2, Tick);
    assert v3 == v2;
    assert RunAsWritten(initialTime, v2, [Tick]) == RunAsWritten(initialTime, v3, []);
    assert [Start(now), Tick, Tick][1..] == [Tick, Tick];
    assert [Tick, Tick][1..] == [Tick];
  }

  /** What a report does to the task: it replaces `timeSpent` with the reported total. */
  function ApplyFlushes(timeSpent: nat, flushes: seq<nat>): (r: nat)
    ensures flushes == [] ==> r == timeSpent
    decreases |flushes|
  {
    if flushes == [] then timeSpent else ApplyFlushes(flushes[0], flushes[1..])
  }

  /** Reports are totals, not deltas: the task ends up with the last one reported. */
  lemma {:induction false} ApplyFlushesLast(timeSpent: nat, flushes: seq<nat>)
    requires flushes != []
    ensures ApplyFlushes(timeSpent, flushes) == flushes[|flushes| - 1]
    decreases |flushes|
  {
    if |flushes| > 1 {
      ApplyFlushesLast(flushes[0], flushes[1..]);
    }
  }

  /** So repeating the last report changes nothing. */
  lemma ApplyFlushesRepeat(timeSpent: nat, flushes: seq<nat>)
    requires flushes != []
    ensures ApplyFlushes(timeSpent, flushes + [flushes[|flushes| - 1]]) == ApplyFlushes(timeSpent, flushes)
  {
    ApplyFlushesLast(timeSpent, flushes);
    ApplyFlushesLast(timeSpent, flushes + [flushes[|flushes| - 1]]);
  }

  /** The mounted timer component. */
  class Timer {
    const initialTime: nat
    var isRunning: bool
    var currentTime: nat
    var ticking: bool
    var startTime: Option<int>
    var flushes: seq<nat>

    function View(): TimerView
      reads this
    {
      TimerView(isRunning, currentTime, ticking, startTime, flushes)
    }

    ghost predicate Valid()
      reads this
    {
      Sane(initialTime, View())
    }

    constructor (initialTime: nat)
      ensures this.initialTime == initialTime && View() == Mounted(initialTime) && Valid()
    {
      this.initialTime := initialTime;
      isRunning := false;
      currentTime := initialTime;
      ticking := false;
      startTime := None;
      flushes := [];
    }

    /** `startTimer`: running, the instant recorded, a tick source scheduled. */
    method StartTimer(now: int)
      requires Valid()
      modifies this
      ensures Valid() && View() == Step(initialTime, old(View()), Start(now))
    {
      isRunning := true;
      startTime := Some(now);
      ticking := true;
    }

    /** One tick of the scheduled source: add a second and report the new total. */
    method OnTick()
      requires Valid()
      modifies this
      ensures Valid() && View() == Step(initialTime, old(View()), Tick)
    {
      if ticking {
        currentTime := currentTime + 1;
        if currentTime != initialTime {
          flushes := flushes + [currentTime];
        }
      }
    }

    /** `pauseTimer`: stop, cancel the source, report the current total. */
    method PauseTimer()
      requires Valid()
      modifies this
      ensures Valid() && View() == Step(initialTime, old(View()), Pause)
    {
      isRunning := false;
      ticking := false;
      flushes := flushes + [currentTime];
    }

    /** `toggleTimer`. */
    method ToggleTimer(now: int)
      requires Valid()
      modifies this
      ensures Valid() && View() == Step(initialTime, old(View()), Toggle(now))
    {
      if isRunning {
        PauseTimer();
      } else {
        StartTimer(now);
      }
    }

    /** Unmount: cancel the source and report only if the counter moved. */
    method Unmount()
      requires Valid()
      modifies this
      ensures Valid() && View() == Step(initialTime, old(View()), Teardown)
    {
      ticking := false;
      if currentTime != initialTime {
        flushes := flushes + [currentTime];
      }
    }
  }
}
