/**
 * The periodic task: a pass and a timer for the next one, the next pass starting when both are
 * done. Times are milliseconds; `starts`, `ends` and `fires` record every pass and timer.
 */
module Periodic {
  import opened Common

  /** A call of `stop`: whether from inside the pass's own first run, and whether it has resolved. */
  datatype StopCall = StopCall(inside: bool, awaited: Option<int>, resolved: bool)

  datatype Task = Task(
    interval: nat,
    clock: int,
    stopped: bool,
    timer: Option<int>,   // when the armed timer is due
    inProgress: bool,
    due: bool,
    finished: bool,
    stops: seq<StopCall>,
    starts: seq<int>,
    ends: seq<int>,
    fires: seq<int>)

  function StoppedBy(t: Task, inside: bool): Task {
    t.(stopped := true, timer := None,
       stops := t.stops + [StopCall(inside, if t.inProgress then Some(|t.starts| - 1) else None, !t.inProgress)])
  }

  /** One pass: the timer first, then the pass, whose first run may itself call `stop`. */
  function Started(t: Task, stopsItself: bool): Task {
    var armed := t.(due := false, finished := false, timer := Some(t.clock + t.interval),
                    starts := t.starts + [t.clock]);
    (if stopsItself then StoppedBy(armed, true) else armed).(inProgress := true)
  }

  /** The first pass starts before anyone holds its `stop`. */
  function NewTask(interval: nat, now: int): Task {
    Started(Task(interval, now, false, None, false, false, false, [], [], [], []), false)
  }

  function Fired(t: Task, stopsItself: bool): Task {
    var fired := t.(timer := None, due := true, fires := t.fires + [t.clock]);
    if fired.finished then Started(fired, stopsItself) else fired
  }

  /** The pass is over: its `finally` runs, then whoever awaited it resumes. */
  function PassOver(t: Task, stopsItself: bool): Task {
    var over := t.(inProgress := false, finished := true, ends := t.ends + [t.clock]);
    if over.due && !over.stopped then Started(over, stopsItself) else over
  }

  datatype Event =
    | TimerFires(nextStops: bool)
    | PassEnds(followerStops: bool)
    | Stop
    | StopResolves(call: nat)

  predicate Possible(t: Task, now: int, e: Event) {
    && t.clock <= now
    && match e
       case TimerFires(_) => t.timer.Some? && t.timer.value <= now
       case PassEnds(_) => t.inProgress
       case Stop => true
       case StopResolves(call) =>
         call < |t.stops| && !t.stops[call].resolved && t.stops[call].awaited.Some?
           && t.stops[call].awaited.value < |t.ends|
  }

  function Step(t: Task, now: int, e: Event): Task
    requires Possible(t, now, e)
  {
    var c := t.(clock := now);
    match e
    case TimerFires(stopsItself) => Fired(c, stopsItself)
    case PassEnds(stopsItself) => PassOver(c, stopsItself)
    case Stop => StoppedBy(c, false)
    case StopResolves(call) => c.(stops := c.stops[call := c.stops[call].(resolved := true)])
  }

  function Max(a: int, b: int): int {
    if a < b then b else a
  }

  /** Where the current pass stands. */
  predicate PassOk(t: Task) {
    && |t.starts| >= 1
    && (t.inProgress <==> !t.finished)
    && |t.ends| == |t.starts| - (if t.finished then 0 else 1)
    && |t.fires| == |t.starts| - (if t.due then 0 else 1)
    && (t.timer.Some? ==> !t.due && t.timer.value == t.starts[|t.starts| - 1] + t.interval)
    && (t.finished && t.due ==> t.stopped)
    && (!t.stopped ==> t.timer.Some? || t.due)
    && (t.stopped ==> t.timer.None?)
  }

  /** Each pass after the first starts the moment both its forerunner and its timer are done. */
  predicate ScheduleOk(t: Task) {
    && (forall k :: 0 <= k < |t.starts| - 1 && k < |t.ends| && k < |t.fires| ==>
        t.starts[k + 1] == Max(t.fires[k], t.ends[k]))
    && (forall k :: 0 <= k < |t.fires| && k < |t.starts| ==> t.fires[k] >= t.starts[k] + t.interval)
    && (forall k :: 0 <= k < |t.ends| && k < |t.starts| ==> t.ends[k] >= t.starts[k])
    && (forall k :: 0 <= k < |t.starts| ==> t.starts[k] <= t.clock)
    && (forall k :: 0 <= k < |t.ends| ==> t.ends[k] <= t.clock)
    && (forall k :: 0 <= k < |t.fires| ==> t.fires[k] <= t.clock)
  }

  /** What a `stop` awaits is the pass running when it was called, unless that pass called it. */
  predicate StopsOk(t: Task) {
    && (t.stops != [] ==> t.stopped)
    && forall i :: 0 <= i < |t.stops| ==>
         && (t.stops[i].awaited.Some? ==> 0 <= t.stops[i].awaited.value < |t.starts|)
         && (t.stops[i].resolved && t.stops[i].awaited.Some? ==> t.stops[i].awaited.value < |t.ends|)
         && (!t.stops[i].inside ==>
               if t.stops[i].awaited.Some? then t.stops[i].awaited.value == |t.starts| - 1 else |t.ends| == |t.starts|)
  }

  predicate Inv(t: Task) {
    PassOk(t) && ScheduleOk(t) && StopsOk(t)
  }

  lemma StartedKeepsInv(t: Task, stopsItself: bool)
    requires ScheduleOk(t) && StopsOk(t) && !t.stopped && !t.inProgress && t.timer.None?
    requires |t.ends| == |t.fires| == |t.starts|
    requires t.starts != [] ==> t.clock == Max(t.fires[|t.starts| - 1], t.ends[|t.starts| - 1])
    ensures Inv(Started(t, stopsItself))
  {
  }

  lemma ClockKeepsInv(t: Task, now: int)
    requires Inv(t) && t.clock <= now
    ensures Inv(t.(clock := now))
  {
  }

  lemma FiredKeepsInv(t: Task, stopsItself: bool)
    requires Inv(t) && t.timer.Some? && t.timer.value <= t.clock
    ensures Inv(Fired(t, stopsItself))
  {
    var fired := t.(timer := None, due := true, fires := t.fires + [t.clock]);
    assert ScheduleOk(fired);
    if fired.finished { StartedKeepsInv(fired, stopsItself); }
  }

  lemma PassOverKeepsInv(t: Task, stopsItself: bool)
    requires Inv(t) && t.inProgress
    ensures Inv(PassOver(t, stopsItself))
  {
    var over := t.(inProgress := false, finished := true, ends := t.ends + [t.clock]);
    assert ScheduleOk(over);
    if over.due && !over.stopped { StartedKeepsInv(over, stopsItself); }
  }

  lemma StepKeepsInv(t: Task, now: int, e: Event)
    requires Inv(t) && Possible(t, now, e)
    ensures Inv(Step(t, now, e))
  {
    ClockKeepsInv(t, now);
    match e
    case TimerFires(stopsItself) => FiredKeepsInv(t.(clock := now), stopsItself);
    case PassEnds(stopsItself) => PassOverKeepsInv(t.(clock := now), stopsItself);
    case _ =>
  }

  // ----- Runs -----

  datatype Timed = Timed(now: int, event: Event)

  function RunOf(interval: nat, start: int, es: seq<Timed>): Task
    requires IsRun(interval, start, es)
    decreases |es|, 1
  {
    if es == [] then NewTask(interval, start)
    else Step(RunOf(interval, start, es[..|es| - 1]), es[|es| - 1].now, es[|es| - 1].event)
  }

  predicate IsRun(interval: nat, start: int, es: seq<Timed>)
    decreases |es|, 0
  {
    es != [] ==>
      && IsRun(interval, start, es[..|es| - 1])
      && Possible(RunOf(interval, start, es[..|es| - 1]), es[|es| - 1].now, es[|es| - 1].event)
  }

  lemma {:induction false} RunKeepsInv(interval: nat, start: int, es: seq<Timed>)
    requires IsRun(interval, start, es)
    ensures Inv(RunOf(interval, start, es)) && RunOf(interval, start, es).interval == interval
  {
    if es != [] {
      RunKeepsInv(interval, start, es[..|es| - 1]);
      StepKeepsInv(RunOf(interval, start, es[..|es| - 1]), es[|es| - 1].now, es[|es| - 1].event);
    }
  }

  /** Where pass `k`'s successor starts. */
  predicate Succeeds(t: Task, k: nat) {
    && k + 1 < |t.starts| && k < |t.ends| && k < |t.fires|
    && t.starts[k + 1] == Max(t.fires[k], t.ends[k])
    && t.starts[k + 1] >= t.starts[k] + t.interval
    && t.starts[k + 1] >= t.ends[k]
    && (t.fires[k] == t.starts[k] + t.interval ==> t.starts[k + 1] == Max(t.starts[k] + t.interval, t.ends[k]))
  }

  lemma InvSchedules(t: Task, k: nat)
    requires Inv(t) && k + 1 < |t.starts|
    ensures Succeeds(t, k)
  {
  }

  /**
   * However passes and timers are timed, passes never overlap, and each next one starts at the later
   * of its forerunner's end and its timer - so an interval after the start when the timer is punctual
   * and the pass short, and the moment the pass ends when it overran: one successor, no burst.
   */
  lemma Schedule(interval: nat, start: int, es: seq<Timed>, k: nat)
    requires IsRun(interval, start, es) && k + 1 < |RunOf(interval, start, es).starts|
    ensures Succeeds(RunOf(interval, start, es), k)
  {
    RunKeepsInv(interval, start, es);
    InvSchedules(RunOf(interval, start, es), k);
  }

  /**
   * Until it is stopped there is always a pass running or a timer armed, so a next pass to come: the
   * timer of the last pass is armed until it fires, and due an interval after that pass started.
   */
  lemma NeverStuck(interval: nat, start: int, es: seq<Timed>)
    requires IsRun(interval, start, es) && !RunOf(interval, start, es).stopped
    ensures RunOf(interval, start, es).inProgress || RunOf(interval, start, es).timer.Some?
    ensures var t := RunOf(interval, start, es);
            && t.starts != []
            && t.timer == if |t.fires| == |t.starts| then None else Some(t.starts[|t.starts| - 1] + interval)
  {
    RunKeepsInv(interval, start, es);
  }

  /** A timer that fires starts the next pass at once when the last one is over, and otherwise starts nothing yet. */
  lemma TimerOutcome(interval: nat, start: int, es: seq<Timed>, now: int, stopsItself: bool)
    requires IsRun(interval, start, es) && Possible(RunOf(interval, start, es), now, TimerFires(stopsItself))
    ensures var t := RunOf(interval, start, es);
            var e, starts := Step(t, now, TimerFires(stopsItself)), |t.ends| == |t.starts|;
            && e.fires == t.fires + [now] && e.ends == t.ends && e.inProgress
            && e.starts == t.starts + (if starts then [now] else [])
            && e.timer == (if starts && !stopsItself then Some(now + interval) else None)
            && (e.stopped <==> starts && stopsItself)
            && |e.stops| == |t.stops| + if starts && stopsItself then 1 else 0
  {
    RunKeepsInv(interval, start, es);
  }

  /** A pass that ends starts the next at once when its timer has fired, unless a stop came first. */
  lemma PassOutcome(interval: nat, start: int, es: seq<Timed>, now: int, stopsItself: bool)
    requires IsRun(interval, start, es) && Possible(RunOf(interval, start, es), now, PassEnds(stopsItself))
    ensures var t := RunOf(interval, start, es);
            var e, starts := Step(t, now, PassEnds(stopsItself)), |t.fires| == |t.starts| && !t.stopped;
            && e.ends == t.ends + [now] && e.fires == t.fires
            && e.starts == t.starts + (if starts then [now] else [])
            && (e.inProgress <==> starts)
            && e.timer == (if !starts then t.timer else if stopsItself then None else Some(now + interval))
            && (e.stopped <==> t.stopped || (starts && stopsItself))
            && |e.stops| == |t.stops| + if starts && stopsItself then 1 else 0
  {
    RunKeepsInv(interval, start, es);
  }

  /** A stop clears the timer, starts and ends nothing, and is resolved at once when no pass runs. */
  lemma StopOutcome(interval: nat, start: int, es: seq<Timed>, now: int)
    requires IsRun(interval, start, es) && Possible(RunOf(interval, start, es), now, Stop)
    ensures var t := RunOf(interval, start, es);
            var e, running := Step(t, now, Stop), |t.ends| < |t.starts|;
            && e.stopped && e.timer.None? && e.starts == t.starts && e.ends == t.ends && e.fires == t.fires
            && e.stops == t.stops + [StopCall(false, if running then Some(|t.starts| - 1) else None, !running)]
            && (e.inProgress <==> running)
  {
    RunKeepsInv(interval, start, es);
  }

  lemma StoppedStays(t: Task, now: int, e: Event)
    requires Inv(t) && Possible(t, now, e) && t.stopped
    ensures Step(t, now, e).stopped && Step(t, now, e).starts == t.starts
  {
  }

  /** After a stop no pass starts, ever. */
  lemma {:induction false} NoPassAfterStop(interval: nat, start: int, es: seq<Timed>, more: seq<Timed>)
    requires IsRun(interval, start, es) && IsRun(interval, start, es + more) && RunOf(interval, start, es).stopped
    ensures RunOf(interval, start, es + more).stopped
    ensures RunOf(interval, start, es + more).starts == RunOf(interval, start, es).starts
  {
    if more == [] {
      assert es + more == es;
    } else {
      var before := es + more[..|more| - 1];
      assert (es + more)[..|es + more| - 1] == before;
      NoPassAfterStop(interval, start, es, more[..|more| - 1]);
      RunKeepsInv(interval, start, before);
      StoppedStays(RunOf(interval, start, before), more[|more| - 1].now, more[|more| - 1].event);
    }
  }

  /** A `stop` called from outside the pass resolves only once every pass started has ended. */
  lemma StopWaits(interval: nat, start: int, es: seq<Timed>, call: nat)
    requires IsRun(interval, start, es) && call < |RunOf(interval, start, es).stops|
    requires RunOf(interval, start, es).stops[call].resolved
    requires !RunOf(interval, start, es).stops[call].inside
    ensures |RunOf(interval, start, es).ends| == |RunOf(interval, start, es).starts|
  {
    RunKeepsInv(interval, start, es);
  }

  /**
   * One called from the pass's own first run has no pass to await: it resolves at once, with the pass
   * still running. So a stop waits for the running pass exactly when it is not the pass's own.
   */
  lemma OwnStopDoesNotWait(t: Task)
    requires !t.inProgress
    ensures var s := Started(t, true);
            s.inProgress && s.stops[|t.stops|].inside && s.stops[|t.stops|].resolved && |s.stops| == |t.stops| + 1
  {
  }

  lemma OutsideStopWaits(t: Task)
    requires PassOk(t)
    ensures var s := StoppedBy(t, false).stops[|t.stops|];
            (s.resolved <==> !t.inProgress) && (t.inProgress ==> s.awaited == Some(|t.starts| - 1))
  {
  }

  /** The loop's variables, changed by its timer's and its pass's callbacks. */
  class PeriodicTask {
    const interval: nat
    var clock: int
    var stopped: bool
    var timer: Option<int>
    var inProgress: bool
    var due: bool
    var finished: bool
    ghost var stops: seq<StopCall>
    ghost var starts: seq<int>
    ghost var ends: seq<int>
    ghost var fires: seq<int>

    ghost function Model(): Task
      reads this
    {
      Task(interval, clock, stopped, timer, inProgress, due, finished, stops, starts, ends, fires)
    }

    ghost predicate Valid()
      reads this
    {
      Inv(Model())
    }

    constructor (interval: nat, now: int)
      ensures Valid() && Model() == NewTask(interval, now)
    {
      this.interval, clock := interval, now;
      stopped, timer, inProgress, due, finished := false, None, false, false, false;
      stops, starts, ends, fires := [], [], [], [];
      new;
      StartPass(false);
    }

    method StartPass(stopsItself: bool)
      modifies this
      ensures Model() == Started(old(Model()), stopsItself)
    {
      due, finished := false, false;
      timer := Some(clock + interval);
      starts := starts + [clock];
      if stopsItself {
        DoStop(true);
      }
      inProgress := true;
    }

    method DoStop(inside: bool)
      modifies this`stopped, this`timer, this`stops
      ensures Model() == StoppedBy(old(Model()), inside)
    {
      stopped := true;
      stops := stops + [StopCall(inside, if inProgress then Some(|starts| - 1) else None, !inProgress)];
      if timer.Some? {
        timer := None;
      }
    }

    method TimerFires(now: int, stopsItself: bool)
      requires Valid() && Possible(Model(), now, Event.TimerFires(stopsItself))
      modifies this
      ensures Valid() && Model() == Step(old(Model()), now, Event.TimerFires(stopsItself))
    {
      StepKeepsInv(Model(), now, Event.TimerFires(stopsItself));
      clock := now;
      timer := None;
      due := true;
      fires := fires + [now];
      if finished {
        StartPass(stopsItself);
      }
    }

    method PassEnds(now: int, stopsItself: bool)
      requires Valid() && Possible(Model(), now, Event.PassEnds(stopsItself))
      modifies this
      ensures Valid() && Model() == Step(old(Model()), now, Event.PassEnds(stopsItself))
    {
      StepKeepsInv(Model(), now, Event.PassEnds(stopsItself));
      clock := now;
      inProgress := false;
      finished := true;
      ends := ends + [now];
      if due && !stopped {
        StartPass(stopsItself);
      }
    }

    method Stop(now: int)
      requires Valid() && clock <= now
      modifies this
      ensures Valid() && Model() == Step(old(Model()), now, Event.Stop)
    {
      StepKeepsInv(Model(), now, Event.Stop);
      clock := now;
      DoStop(false);
    }
  }
}
