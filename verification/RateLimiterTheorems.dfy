/** The sliding-window bound, retry hints and wake-ups, over whole runs of one key. */
module RateLimiterTheorems {
  import opened Common
  import opened RateLimiterModel

  // ----- Runs -----

  function RunOf(limits: Limits, es: seq<Event>): Bucket {
    if es == [] then NEW_BUCKET else Step(RunOf(limits, es[..|es| - 1]), limits, es[|es| - 1])
  }

  predicate IsRun(limits: Limits, es: seq<Event>) {
    es != [] ==> IsRun(limits, es[..|es| - 1]) && Possible(RunOf(limits, es[..|es| - 1]), es[|es| - 1])
  }

  function TimeOf(e: Event): Option<int> {
    match e
    case Check(now) => Some(now)
    case TryReserve(_, now) => Some(now)
    case Record(now) => Some(now)
    case Settle(_, _, now) => Some(now)
    case Cleanup(now) => Some(now)
    case Arrive(_, _, now, _, _) => Some(now)
    case Resume(_, _, now, _, _) => Some(now)
    case _ => None
  }

  /** The clock never goes back: event `i` happens at `times[i]`. */
  predicate Timed(es: seq<Event>, times: seq<int>) {
    && |times| == |es|
    && (forall i :: 0 <= i < |es| ==> TimeOf(es[i]).None? || TimeOf(es[i]) == Some(times[i]))
    && (forall i, j :: 0 <= i < j < |times| ==> times[i] <= times[j])
  }

  function Clock(times: seq<int>): int {
    if times == [] then 0 else times[|times| - 1]
  }

  lemma {:induction false} RunKeepsOk(limits: Limits, es: seq<Event>)
    requires IsRun(limits, es)
    ensures Ok(RunOf(limits, es), limits)
  {
    if es != [] {
      RunKeepsOk(limits, es[..|es| - 1]);
      StepKeepsOk(RunOf(limits, es[..|es| - 1]), limits, es[|es| - 1]);
    }
  }

  lemma NoNewOrphans(b: Bucket, limits: Limits, e: Event)
    requires !e.Evict?
    ensures Step(b, limits, e).orphans <= b.orphans
  {
  }

  /** Only an eviction parts a reservation from its entry: a reset keeps the entry while any is in flight. */
  lemma {:induction false} OnlyEvictionOrphans(limits: Limits, es: seq<Event>)
    requires IsRun(limits, es) && forall i :: 0 <= i < |es| ==> !es[i].Evict?
    ensures RunOf(limits, es).orphans == {}
  {
    if es != [] {
      OnlyEvictionOrphans(limits, es[..|es| - 1]);
      NoNewOrphans(RunOf(limits, es[..|es| - 1]), limits, es[|es| - 1]);
    }
  }

  // ----- Windows over sorted attempts -----

  predicate Sorted(ts: seq<int>) {
    forall i, j :: 0 <= i < j < |ts| ==> ts[i] <= ts[j]
  }

  /** In order, and none in the future. */
  predicate Past(ts: seq<int>, clock: int) {
    Sorted(ts) && forall t :: t in ts ==> t <= clock
  }

  lemma {:induction false} WhereShorter<T>(s: seq<T>, p: T -> bool)
    ensures |Where(s, p)| <= |s|
  {
    if s != [] { WhereShorter(s[..|s| - 1], p); }
  }

  /** Pruning early forgets nothing a later look would count. */
  lemma ActiveAgain(ts: seq<int>, window: nat, now: int, later: int)
    requires now <= later
    ensures Active(Active(ts, window, now), window, later) == Active(ts, window, later)
  {
    WhereWhere(ts, Live(window, now), Live(window, later));
    WhereAgree(ts, Both(Live(window, now), Live(window, later)), Live(window, later));
  }

  lemma ActiveShrinks(ts: seq<int>, window: nat, now: int, later: int)
    requires now <= later
    ensures |Active(ts, window, later)| <= |Active(ts, window, now)|
  {
    ActiveAgain(ts, window, now, later);
    WhereShorter(Active(ts, window, now), Live(window, later));
  }

  /** Of sorted attempts exactly the ones from the first live one on are live. */
  lemma SortedActive(ts: seq<int>, window: nat, now: int, k: nat)
    requires Sorted(ts) && k < |ts|
    ensures if Live(window, now)(ts[k]) then |Active(ts, window, now)| >= |ts| - k
            else |Active(ts, window, now)| <= |ts| - k - 1
  {
    var p := Live(window, now);
    if p(ts[k]) {
      WhereSplit(ts, p, k);
      assert Where(ts[k..], p) == ts[k..] by { WhereAll(ts[k..], p); }
    } else {
      WhereSplit(ts, p, k + 1);
      assert Where(ts[..k + 1], p) == [] by {
        assert forall i :: 0 <= i <= k ==> ts[i] <= ts[k];
        WhereNone(ts[..k + 1], p);
      }
      WhereShorter(ts[k + 1..], p);
    }
  }

  lemma {:induction false} ActiveSorted(ts: seq<int>, window: nat, now: int)
    requires Sorted(ts)
    ensures Sorted(Active(ts, window, now))
    ensures forall t :: t in Active(ts, window, now) ==> t in ts && t > now - window
  {
    WhereIn(ts, Live(window, now));
    if ts != [] {
      var n := |ts| - 1;
      ActiveSorted(ts[..n], window, now);
      assert forall t :: t in ts[..n] ==> t <= ts[n];
      var rest := Active(ts[..n], window, now);
      assert forall i :: 0 <= i < |rest| ==> rest[i] in rest;
    }
  }

  /** No more than `max` attempts stand closer together than a window. */
  predicate Spread(h: seq<int>, limits: Limits) {
    forall i, j :: 0 <= i <= j < |h| && h[j] - h[i] < limits.window ==> j - i + 1 <= limits.max
  }

  function Within(from: int, window: nat): int -> bool {
    (t: int) => from <= t < from + window
  }

  lemma {:induction false} SpreadBounds(h: seq<int>, limits: Limits, from: int)
    requires Sorted(h) && Spread(h, limits)
    ensures |Where(h, Within(from, limits.window))| <= limits.max
  {
    var p := Within(from, limits.window);
    if h != [] {
      var last := |h| - 1;
      if p(h[last]) {
        WithinIsSuffix(h, limits, from);
      } else {
        SpreadBounds(h[..last], limits, from);
      }
    }
  }

  /** Where the last attempt is in the window, those in it start at the first not before it. */
  lemma WithinIsSuffix(h: seq<int>, limits: Limits, from: int)
    requires Sorted(h) && Spread(h, limits) && h != [] && from <= h[|h| - 1] < from + limits.window
    ensures |Where(h, Within(from, limits.window))| <= limits.max
  {
    var p, first := Within(from, limits.window), FirstFrom(h, from);
    assert h[|h| - 1] - h[first] < limits.window;
    WhereSplit(h, p, first);
    assert Where(h[..first], p) == [] by { WhereNone(h[..first], p); }
    WhereShorter(h[first..], p);
  }

  function FirstFrom(h: seq<int>, from: int): (i: nat)
    requires h != [] && h[|h| - 1] >= from
    ensures i < |h| && h[i] >= from && forall k :: 0 <= k < i ==> h[k] < from
  {
    if h[0] >= from then 0 else 1 + FirstFrom(h[1..], from)
  }

  // ----- The bound -----

  /** Events of callers that reserve before they work; nothing evicted, nothing recorded bare. */
  predicate Reserving(e: Event) {
    !e.Record? && !e.Evict?
  }

  ghost predicate Bounded(b: Bucket, limits: Limits, clock: int) {
    && Ok(b, limits) && b.orphans == {}
    && Past(b.history, clock) && Past(b.timestamps, clock)
    && Active(b.timestamps, limits.window, clock) == Active(b.history, limits.window, clock)
    && |Active(b.history, limits.window, clock)| + b.inFlight <= limits.max
    && Spread(b.history, limits)
  }

  lemma TimePasses(b: Bucket, limits: Limits, clock: int, now: int)
    requires Bounded(b, limits, clock) && clock <= now
    ensures Bounded(b, limits, now)
  {
    ActiveAgain(b.timestamps, limits.window, clock, now);
    ActiveAgain(b.history, limits.window, clock, now);
    ActiveShrinks(b.history, limits.window, clock, now);
  }

  lemma SweptKeepsBound(b: Bucket, limits: Limits, now: int)
    requires Bounded(b, limits, now)
    ensures Bounded(Swept(b, limits, now), limits, now)
  {
    ActiveAgain(b.timestamps, limits.window, now, now);
    ActiveSorted(b.timestamps, limits.window, now);
  }

  lemma FreeHasRoom(b: Bucket, limits: Limits, now: int)
    requires Bounded(b, limits, now) && LoadOf(b, limits, now).Free?
    ensures |Active(b.history, limits.window, now)| + b.inFlight < limits.max
  {
  }

  lemma OneMorePast(ts: seq<int>, now: int)
    requires Past(ts, now)
    ensures Past(ts + [now], now)
  {
    assert forall i :: 0 <= i < |ts| ==> ts[i] in ts;
  }

  lemma OneMoreActive(ts: seq<int>, window: nat, now: int)
    ensures Active(ts + [now], window, now) == Active(ts, window, now) + if window > 0 then [now] else []
  {
    WhereConcat(ts, [now], Live(window, now));
    assert [now][..0] == [];
  }

  lemma OneMoreSpread(h: seq<int>, limits: Limits, now: int)
    requires Past(h, now) && Spread(h, limits) && |Active(h, limits.window, now)| < limits.max
    ensures Spread(h + [now], limits)
  {
    forall i | 0 <= i < |h| && now - h[i] < limits.window
      ensures |h| - i + 1 <= limits.max
    {
      SortedActive(h, limits.window, now, i);
    }
  }

  lemma AttemptKeepsBound(b: Bucket, limits: Limits, id: ReservationId, now: int)
    requires Bounded(b, limits, now) && id in b.holders
    ensures Bounded(Settled(b, limits, id, true, now), limits, now)
  {
    var t, kept := Settled(b, limits, id, true, now), Active(b.timestamps, limits.window, now);
    assert Ok(t, limits) && b.inFlight >= 1 by { SettledKeepsOk(b, limits, id, true, now); }
    assert Past(kept, now) && Active(kept, limits.window, now) == kept by {
      SweptKeepsBound(b, limits, now);
      ActiveAgain(b.timestamps, limits.window, now, now);
      ActiveSorted(b.timestamps, limits.window, now);
    }
    OneMorePast(b.history, now);
    OneMorePast(kept, now);
    OneMoreActive(b.history, limits.window, now);
    OneMoreActive(kept, limits.window, now);
    OneMoreSpread(b.history, limits, now);
    assert t.history == b.history + [now] && t.timestamps == kept + [now] && t.inFlight == b.inFlight - 1;
  }

  lemma SettledKeepsBound(b: Bucket, limits: Limits, id: ReservationId, record: bool, now: int)
    requires Bounded(b, limits, now)
    ensures Bounded(Settled(b, limits, id, record, now), limits, now)
  {
    if id in b.holders && record {
      AttemptKeepsBound(b, limits, id, now);
    } else {
      SettledKeepsOk(b, limits, id, record, now);
    }
  }

  lemma TurnKeepsBound(s: Bucket, load: Load, limits: Limits, call: CallId, parked: bool, id: ReservationId, now: int,
                       expired: bool, aborted: bool)
    requires Bounded(s, limits, now) && id !in s.holders && (parked <==> call in s.parked)
    requires load.Free? ==> |Active(s.history, limits.window, now)| + s.inFlight < limits.max
    ensures Bounded(Turn(s, load, limits, call, parked, id, now, expired, aborted).0, limits, now)
  {
    TurnKeepsOk(s, load, limits, call, parked, id, now, expired, aborted);
  }

  lemma DecidedKeepsBound(b: Bucket, limits: Limits, call: CallId, parked: bool, id: ReservationId, now: int,
                          expired: bool, aborted: bool)
    requires Bounded(b, limits, now) && id !in b.holders && (parked <==> call in b.parked)
    ensures Bounded(Decided(b, limits, call, parked, id, now, expired, aborted).0, limits, now)
  {
    SweptKeepsBound(b, limits, now);
    if LoadOf(b, limits, now).Free? { FreeHasRoom(b, limits, now); }
    TurnKeepsBound(Loaded(b, limits, now), LoadOf(b, limits, now), limits, call, parked, id, now, expired, aborted);
  }

  lemma TriedKeepsBound(b: Bucket, limits: Limits, id: ReservationId, now: int)
    requires Bounded(b, limits, now) && id !in b.holders
    ensures Bounded(TriedReserve(b, limits, id, now), limits, now)
  {
    SweptKeepsBound(b, limits, now);
    if LoadOf(b, limits, now).Free? {
      FreeHasRoom(b, limits, now);
      AdmittedKeepsOk(Loaded(b, limits, now), limits, id);
    }
  }

  lemma ForgivenKeepsBound(b: Bucket, limits: Limits, now: int)
    requires Bounded(b, limits, now)
    ensures Bounded(Forgiven(b), limits, now)
  {
    AwokenCount(b.parked);
    assert Active([], limits.window, now) == [];
  }

  lemma GaveUpKeepsBound(b: Bucket, limits: Limits, call: CallId, now: int)
    requires Bounded(b, limits, now) && IsAsleep(b, call)
    ensures Bounded(GaveUp(b, call), limits, now)
  {
    assert GaveUp(b, call).parked.Keys == b.parked.Keys;
  }

  lemma ReservingKeepsBound(b: Bucket, limits: Limits, e: Event, now: int)
    requires Bounded(b, limits, now) && Possible(b, e) && Reserving(e)
    requires TimeOf(e).None? || TimeOf(e) == Some(now)
    ensures Bounded(Step(b, limits, e), limits, now)
  {
    match e
    case Check(_) => SweptKeepsBound(b, limits, now);
    case Cleanup(_) => SweptKeepsBound(b, limits, now);
    case TryReserve(id, _) => TriedKeepsBound(b, limits, id, now);
    case Settle(id, record, _) => SettledKeepsBound(b, limits, id, record, now);
    case Reset => ForgivenKeepsBound(b, limits, now);
    case GiveUp(call) => GaveUpKeepsBound(b, limits, call, now);
    case Arrive(call, id, _, expired, aborted) => DecidedKeepsBound(b, limits, call, false, id, now, expired, aborted);
    case Resume(call, id, _, expired, aborted) =>
      if b.parked[call].Leaving? {
        LeftKeepsOk(b, limits, call);
      } else {
        DecidedKeepsBound(b, limits, call, true, id, now, expired, aborted);
      }
  }

  lemma {:induction false} RunBounded(limits: Limits, es: seq<Event>, times: seq<int>)
    requires IsRun(limits, es) && Timed(es, times)
    requires forall i :: 0 <= i < |es| ==> Reserving(es[i])
    ensures Bounded(RunOf(limits, es), limits, Clock(times))
  {
    if es != [] {
      var n := |es| - 1;
      RunBounded(limits, es[..n], times[..n]);
      if n > 0 {
        TimePasses(RunOf(limits, es[..n]), limits, times[n - 1], times[n]);
      } else {
        assert Bounded(NEW_BUCKET, limits, times[n]);
      }
      ReservingKeepsBound(RunOf(limits, es[..n]), limits, es[n], times[n]);
    }
  }

  /**
   * However reservations, settles, waits, resets and cleanups interleave, no window of the
   * configured length holds more than `max` recorded attempts, and the attempts still live plus
   * those in flight never exceed `max`. The record starts over at a reset, which forgives what came
   * before it: the bound counts the attempts recorded since the key's last one.
   */
  lemma WindowBound(limits: Limits, es: seq<Event>, times: seq<int>, from: int, now: int)
    requires IsRun(limits, es) && Timed(es, times) && Clock(times) <= now
    requires forall i :: 0 <= i < |es| ==> Reserving(es[i])
    ensures |Where(RunOf(limits, es).history, Within(from, limits.window))| <= limits.max
    ensures |Active(RunOf(limits, es).history, limits.window, now)| + |RunOf(limits, es).holders| <= limits.max
  {
    RunBounded(limits, es, times);
    TimePasses(RunOf(limits, es), limits, Clock(times), now);
    SpreadBounds(RunOf(limits, es).history, limits, from);
  }

  /** A bare record can pass the cap: that is what reserving is for. */
  lemma BareRecordsPassTheCap(limits: Limits)
    requires limits.max == 1 && limits.window > 0
    ensures var b := RunOf(limits, [Event.Record(0), Event.Record(0)]);
            IsRun(limits, [Event.Record(0), Event.Record(0)]) && |Active(b.history, limits.window, 0)| == 2
  {
    var once, twice := [Event.Record(0)], [Event.Record(0), Event.Record(0)];
    assert twice[..1] == once && once[..0] == [];
    assert RunOf(limits, once).history == [0];
    assert RunOf(limits, twice).history == [0] + [0];
    WhereAll([0, 0], Live(limits.window, 0));
  }

  // ----- Retry hints -----

  /**
   * Waiting out a refusal's hint with nothing else happening is enough exactly when the attempts
   * over the cap all expire by then; one second less never is.
   */
  lemma RetryHint(b: Bucket, limits: Limits, now: int)
    requires limits.max > 0 && Sorted(b.timestamps) && LoadOf(b, limits, now).Recorded?
    ensures var active, retryAfter := Active(b.timestamps, limits.window, now), LoadOf(b, limits, now).retryAfter;
            var over := |active| + b.inFlight - limits.max;
            && retryAfter >= 1
            && LoadOf(b, limits, now + 1000 * (retryAfter - 1)).Recorded?
            && (LoadOf(b, limits, now + 1000 * retryAfter).Free? <==>
                  over < |active| && active[over] + limits.window <= now + 1000 * retryAfter)
            && (over == 0 ==> LoadOf(b, limits, now + 1000 * retryAfter).Free?)
  {
    var w := limits.window;
    var active, retryAfter := Active(b.timestamps, w, now), LoadOf(b, limits, now).retryAfter;
    ActiveSorted(b.timestamps, w, now);
    assert active[0] in active;
    var sooner, later := now + 1000 * (retryAfter - 1), now + 1000 * retryAfter;
    ActiveAgain(b.timestamps, w, now, sooner);
    SortedActive(active, w, sooner, 0);
    ActiveAgain(b.timestamps, w, now, later);
    SortedActive(active, w, later, 0);
    var over := |active| + b.inFlight - limits.max;
    if over < |active| {
      SortedActive(active, w, later, over);
    }
  }

  /**
   * After bare records the hint can be too short: past a cap of one, the first attempt's expiry
   * leaves the second in the window.
   */
  lemma BareRecordsOutlastTheHint()
    ensures var limits, es := Limits(1, 2000), [Event.Record(0), Event.Record(1500)];
            && IsRun(limits, es) && Timed(es, [0, 1500])
            && LoadOf(RunOf(limits, es), limits, 1500) == Recorded(1)
            && LoadOf(RunOf(limits, es), limits, 1500 + 1000) == Recorded(1)
  {
    var limits, es := Limits(1, 2000), [Event.Record(0), Event.Record(1500)];
    RecordedTwice(limits);
    var ts := RunOf(limits, es).timestamps;
    assert Active(ts, 2000, 1500) == ts by { ActiveOfTwo(0, 1500, 2000, 1500); }
    assert Active(ts, 2000, 2500) == [1500] by { ActiveOfTwo(0, 1500, 2000, 2500); }
  }

  lemma ActiveOneMore(ts: seq<int>, t: int, window: nat, now: int)
    ensures Active(ts + [t], window, now) == Active(ts, window, now) + if t > now - window then [t] else []
  {
    assert (ts + [t])[..|ts|] == ts;
  }

  lemma ActiveOfTwo(t: int, u: int, window: nat, now: int)
    ensures Active([t, u], window, now) ==
            (if t > now - window then [t] else []) + (if u > now - window then [u] else [])
  {
    ActiveOneMore([], t, window, now);
    ActiveOneMore([t], u, window, now);
    assert [] + [t] == [t] && [t] + [u] == [t, u];
  }

  lemma OneMore(limits: Limits, es: seq<Event>, e: Event)
    ensures RunOf(limits, es + [e]) == Step(RunOf(limits, es), limits, e)
    ensures IsRun(limits, es + [e]) <==> IsRun(limits, es) && Possible(RunOf(limits, es), e)
  {
    assert (es + [e])[..|es + [e]| - 1] == es;
  }

  lemma RecordedTwice(limits: Limits)
    requires limits.window > 1500
    ensures var es := [Event.Record(0), Event.Record(1500)];
            && IsRun(limits, es) && RunOf(limits, es).tracked && RunOf(limits, es).timestamps == [0, 1500]
  {
    var once := [Event.Record(0)];
    OneMore(limits, [], Event.Record(0));
    assert [] + once == once;
    OneMore(limits, once, Event.Record(1500));
    assert once + [Event.Record(1500)] == [Event.Record(0), Event.Record(1500)];
    assert RunOf(limits, once).timestamps == [0];
    ActiveOneMore([], 0, limits.window, 1500);
    assert [] + [0] == [0];
  }

  /** Waiting the hint's seconds frees the key, and a second less does not. */
  predicate HintExact(b: Bucket, limits: Limits, now: int, retryAfter: int) {
    && LoadOf(b, limits, now + 1000 * retryAfter).Free?
    && LoadOf(b, limits, now + 1000 * (retryAfter - 1)).Recorded?
  }

  lemma BoundedRetryHint(b: Bucket, limits: Limits, now: int)
    requires limits.max > 0 && Bounded(b, limits, now) && LoadOf(b, limits, now).Recorded?
    ensures HintExact(b, limits, now, LoadOf(b, limits, now).retryAfter)
  {
    RetryHint(b, limits, now);
    assert b.tracked && |Active(b.timestamps, limits.window, now)| + b.inFlight == limits.max;
  }

  /** So for callers that reserve, the hint is exact. */
  lemma ReservingRetryHint(limits: Limits, es: seq<Event>, times: seq<int>, now: int, retryAfter: int)
    requires IsRun(limits, es) && Timed(es, times) && Clock(times) <= now && limits.max > 0
    requires forall i :: 0 <= i < |es| ==> Reserving(es[i])
    requires LoadOf(RunOf(limits, es), limits, now) == Recorded(retryAfter)
    ensures HintExact(RunOf(limits, es), limits, now, retryAfter)
  {
    var b := RunOf(limits, es);
    assert Bounded(b, limits, now) by {
      RunBounded(limits, es, times);
      TimePasses(b, limits, Clock(times), now);
    }
    BoundedRetryHint(b, limits, now);
  }

  // ----- Wake-ups -----

  /** The key read as capped in flight when the call fell asleep; this says it may no longer be. */
  predicate ExpiredSince(h: seq<int>, window: nat, since: int, now: int) {
    exists i :: 0 <= i < |h| && since - window < h[i] <= now - window
  }

  ghost predicate Alert(b: Bucket, limits: Limits, clock: int) {
    && (forall t :: t in b.timestamps ==> t in b.history)
    && forall c :: IsAsleep(b, c) ==>
         && b.parked[c].since <= clock
         && (ExpiredSince(b.history, limits.window, b.parked[c].since, clock) || LoadOf(b, limits, clock) == InFlight)
  }

  lemma ExpiredLater(h: seq<int>, window: nat, since: int, clock: int, now: int)
    requires ExpiredSince(h, window, since, clock) && clock <= now
    ensures ExpiredSince(h, window, since, now)
  {
    var i :| 0 <= i < |h| && since - window < h[i] <= clock - window;
    assert since - window < h[i] <= now - window;
  }

  lemma StillAlert(b: Bucket, limits: Limits, clock: int, now: int)
    requires Alert(b, limits, clock) && clock <= now
    ensures Alert(b, limits, now)
  {
    var w := limits.window;
    forall c | IsAsleep(b, c)
      ensures ExpiredSince(b.history, w, b.parked[c].since, now) || LoadOf(b, limits, now) == InFlight
    {
      var since := b.parked[c].since;
      if ExpiredSince(b.history, w, since, clock) {
        ExpiredLater(b.history, w, since, clock, now);
      } else if !ExpiredSince(b.history, w, since, now) {
        forall i | 0 <= i < |b.timestamps|
          ensures Live(w, clock)(b.timestamps[i]) == Live(w, now)(b.timestamps[i])
        {
          var t := b.timestamps[i];
          assert t in b.timestamps;
          var j :| 0 <= j < |b.history| && b.history[j] == t;
          assert !(since - w < b.history[j] <= now - w);
        }
        WhereAgree(b.timestamps, Live(w, clock), Live(w, now));
      }
    }
  }

  /** Reading the load again at the same moment changes no answer. */
  lemma LoadTwice(b: Bucket, limits: Limits, now: int)
    ensures LoadOf(Swept(b, limits, now), limits, now) == LoadOf(b, limits, now)
    ensures LoadOf(Loaded(b, limits, now), limits, now) == LoadOf(b, limits, now)
    ensures forall t :: t in Swept(b, limits, now).timestamps ==> t in b.timestamps
  {
    ActiveAgain(b.timestamps, limits.window, now, now);
    WhereIn(b.timestamps, Live(limits.window, now));
  }

  lemma TurnKeepsAlert(s: Bucket, limits: Limits, call: CallId, parked: bool, id: ReservationId, now: int,
                       expired: bool, aborted: bool)
    requires Alert(s, limits, now)
    ensures Alert(Turn(s, LoadOf(s, limits, now), limits, call, parked, id, now, expired, aborted).0, limits, now)
  {
    var load := LoadOf(s, limits, now);
    var (d, reply) := Turn(s, load, limits, call, parked, id, now, expired, aborted);
    assert load.InFlight? ==> LoadOf(d, limits, now) == load;
    assert forall c :: IsAsleep(d, c) && !IsAsleep(s, c) ==> c == call && load.InFlight?;
    assert forall c :: IsAsleep(d, c) && IsAsleep(s, c) ==> d.parked[c] == s.parked[c] || d.parked[c] == Asleep(now);
  }

  lemma NobodyAsleep(b: Bucket, limits: Limits, clock: int)
    requires forall t :: t in b.timestamps ==> t in b.history
    requires forall c :: !IsAsleep(b, c)
    ensures Alert(b, limits, clock)
  {
  }

  lemma WakersKeepAlert(b: Bucket, limits: Limits, e: Event, now: int)
    requires Ok(b, limits) && Alert(b, limits, now) && (e.Record? || e.Settle? || e.Reset?)
    requires TimeOf(e).None? || TimeOf(e) == Some(now)
    ensures Alert(Step(b, limits, e), limits, now)
  {
    WhereIn(b.timestamps, Live(limits.window, now));
    if !(e.Settle? && e.id !in b.holders && e.id !in b.orphans) {
      NobodyAsleep(Step(b, limits, e), limits, now);
    }
  }

  lemma SweptKeepsAlert(b: Bucket, limits: Limits, now: int)
    requires Alert(b, limits, now)
    ensures Alert(Swept(b, limits, now), limits, now) && Alert(Loaded(b, limits, now), limits, now)
  {
    LoadTwice(b, limits, now);
  }

  lemma DecidedKeepsAlert(b: Bucket, limits: Limits, call: CallId, parked: bool, id: ReservationId, now: int,
                          expired: bool, aborted: bool)
    requires Alert(b, limits, now)
    ensures Alert(Decided(b, limits, call, parked, id, now, expired, aborted).0, limits, now)
  {
    SweptKeepsAlert(b, limits, now);
    LoadTwice(b, limits, now);
    TurnKeepsAlert(Loaded(b, limits, now), limits, call, parked, id, now, expired, aborted);
  }

  lemma TriedKeepsAlert(b: Bucket, limits: Limits, id: ReservationId, now: int)
    requires Alert(b, limits, now)
    ensures Alert(TriedReserve(b, limits, id, now), limits, now)
  {
    SweptKeepsAlert(b, limits, now);
    LoadTwice(b, limits, now);
  }

  /** A change to who sleeps alone, waking nobody up into sleep. */
  lemma FewerAsleepKeepAlert(b: Bucket, t: Bucket, limits: Limits, now: int)
    requires Alert(b, limits, now) && t == b.(count := t.count, parked := t.parked)
    requires forall c :: IsAsleep(t, c) ==> IsAsleep(b, c) && t.parked[c] == b.parked[c]
    ensures Alert(t, limits, now)
  {
    assert LoadOf(t, limits, now) == LoadOf(b, limits, now);
  }

  lemma StepKeepsAlert(b: Bucket, limits: Limits, e: Event, now: int)
    requires Ok(b, limits) && Alert(b, limits, now) && !e.Evict?
    requires TimeOf(e).None? || TimeOf(e) == Some(now)
    ensures Alert(Step(b, limits, e), limits, now)
  {
    match e
    case Check(_) => SweptKeepsAlert(b, limits, now);
    case Cleanup(_) => SweptKeepsAlert(b, limits, now);
    case TryReserve(id, _) => TriedKeepsAlert(b, limits, id, now);
    case Arrive(call, id, _, expired, aborted) => DecidedKeepsAlert(b, limits, call, false, id, now, expired, aborted);
    case Resume(call, id, _, expired, aborted) =>
      if call in b.parked && b.parked[call].Leaving? {
        FewerAsleepKeepAlert(b, Left(b, call), limits, now);
      } else {
        DecidedKeepsAlert(b, limits, call, true, id, now, expired, aborted);
      }
    case Record(_) => WakersKeepAlert(b, limits, e, now);
    case Settle(_, _, _) => WakersKeepAlert(b, limits, e, now);
    case Reset => WakersKeepAlert(b, limits, e, now);
    case GiveUp(call) => FewerAsleepKeepAlert(b, GaveUp(b, call), limits, now);
  }

  lemma {:induction false} RunAlert(limits: Limits, es: seq<Event>, times: seq<int>)
    requires IsRun(limits, es) && Timed(es, times)
    requires forall i :: 0 <= i < |es| ==> !es[i].Evict?
    ensures Alert(RunOf(limits, es), limits, Clock(times))
  {
    if es != [] {
      var n := |es| - 1;
      RunAlert(limits, es[..n], times[..n]);
      RunKeepsOk(limits, es[..n]);
      if n > 0 {
        StillAlert(RunOf(limits, es[..n]), limits, times[n - 1], times[n]);
      }
      StepKeepsAlert(RunOf(limits, es[..n]), limits, es[n], times[n]);
    }
  }

  /**
   * No wake-up is lost: while a call sleeps, either its key is still at its in-flight cap - and
   * then some unsettled reservation holds it, whose settle wakes the call - or a recorded attempt
   * has expired since the call fell asleep. With the clock held only the first can be.
   */
  lemma NoWakeupLost(limits: Limits, es: seq<Event>, times: seq<int>, call: CallId, now: int)
    requires IsRun(limits, es) && Timed(es, times) && Clock(times) <= now
    requires forall i :: 0 <= i < |es| ==> !es[i].Evict?
    requires IsAsleep(RunOf(limits, es), call)
    ensures var b := RunOf(limits, es);
            var since := b.parked[call].since;
            && since <= now
            && (ExpiredSince(b.history, limits.window, since, now)
                || (LoadOf(b, limits, now) == InFlight && b.holders != {}))
            && (since == now ==> LoadOf(b, limits, now) == InFlight)
  {
    RunAlert(limits, es, times);
    RunKeepsOk(limits, es);
    StillAlert(RunOf(limits, es), limits, Clock(times), now);
  }

  /**
   * A settle of any unsettled reservation of the key, its entry evicted or not, an attempt recorded
   * bare and a reset each leave nobody asleep.
   */
  lemma SettlesWakeAll(b: Bucket, limits: Limits, id: ReservationId, record: bool, now: int, call: CallId)
    requires id in b.holders || id in b.orphans
    ensures !IsAsleep(Settled(b, limits, id, record, now), call)
    ensures !IsAsleep(BareRecorded(b, limits, now), call)
    ensures !IsAsleep(Forgiven(b), call)
  {
  }

  // ----- Wake-ups across evictions -----

  /** While a call sleeps, some reservation of its key is unsettled, its entry evicted or not. */
  ghost predicate Awaited(b: Bucket) {
    forall c :: IsAsleep(b, c) ==> HasUnsettled(b)
  }

  predicate HasUnsettled(b: Bucket) {
    b.holders != {} || b.orphans != {}
  }

  lemma StillAwaited(b: Bucket, t: Bucket)
    requires Awaited(b) && (HasUnsettled(b) ==> HasUnsettled(t))
    requires forall c :: IsAsleep(t, c) ==> IsAsleep(b, c)
    ensures Awaited(t)
  {
  }

  lemma TurnKeepsAwaited(s: Bucket, limits: Limits, call: CallId, parked: bool, id: ReservationId, now: int,
                         expired: bool, aborted: bool)
    requires EntryOk(s) && Awaited(s) && limits.max > 0
    ensures Awaited(Turn(s, LoadOf(s, limits, now), limits, call, parked, id, now, expired, aborted).0)
  {
    var load := LoadOf(s, limits, now);
    var d := Turn(s, load, limits, call, parked, id, now, expired, aborted).0;
    if load.InFlight? {
      WhereShorter(s.timestamps, Live(limits.window, now));
      assert s.inFlight > 0 && d.holders == s.holders;
    } else {
      assert id in d.holders || d.holders == s.holders;
      StillAwaited(s, d);
    }
  }

  lemma DecidedKeepsAwaited(b: Bucket, limits: Limits, call: CallId, parked: bool, id: ReservationId, now: int,
                            expired: bool, aborted: bool)
    requires Ok(b, limits) && Awaited(b)
    ensures Awaited(Decided(b, limits, call, parked, id, now, expired, aborted).0)
  {
    var s := Loaded(b, limits, now);
    StillAwaited(b, s);
    if limits.max > 0 {
      SweptKeepsOk(b, limits, now);
      LoadTwice(b, limits, now);
      TurnKeepsAwaited(s, limits, call, parked, id, now, expired, aborted);
    } else {
      StillAwaited(s, Decided(b, limits, call, parked, id, now, expired, aborted).0);
    }
  }

  lemma SettledKeepsAwaited(b: Bucket, limits: Limits, id: ReservationId, record: bool, now: int)
    requires Awaited(b)
    ensures Awaited(Settled(b, limits, id, record, now))
  {
    if id in b.holders || id in b.orphans {
      forall c ensures !IsAsleep(Settled(b, limits, id, record, now), c) {
        SettlesWakeAll(b, limits, id, record, now, c);
      }
    }
  }

  lemma TriedKeepsAwaited(b: Bucket, limits: Limits, id: ReservationId, now: int)
    requires Awaited(b)
    ensures Awaited(TriedReserve(b, limits, id, now))
  {
    var t := TriedReserve(b, limits, id, now);
    assert id in t.holders || t.holders == b.holders;
    StillAwaited(b, t);
  }

  lemma EvictedKeepsAwaited(b: Bucket)
    requires Awaited(b)
    ensures Awaited(Evicted(b))
  {
    assert forall id :: id in b.holders || id in b.orphans ==> id in Evicted(b).orphans;
    StillAwaited(b, Evicted(b));
  }

  lemma StepKeepsAwaited(b: Bucket, limits: Limits, e: Event)
    requires Ok(b, limits) && Awaited(b)
    ensures Awaited(Step(b, limits, e))
  {
    match e
    case Check(now) => StillAwaited(b, Loaded(b, limits, now));
    case Cleanup(now) => StillAwaited(b, Swept(b, limits, now));
    case TryReserve(id, now) => TriedKeepsAwaited(b, limits, id, now);
    case Record(_) =>
    case Settle(id, record, now) => SettledKeepsAwaited(b, limits, id, record, now);
    case Reset =>
    case Evict => EvictedKeepsAwaited(b);
    case Arrive(call, id, now, expired, aborted) =>
      DecidedKeepsAwaited(b, limits, call, false, id, now, expired, aborted);
    case Resume(call, id, now, expired, aborted) =>
      if call in b.parked && b.parked[call].Leaving? {
        StillAwaited(b, Left(b, call));
      } else {
        DecidedKeepsAwaited(b, limits, call, true, id, now, expired, aborted);
      }
    case GiveUp(call) => StillAwaited(b, GaveUp(b, call));
  }

  lemma {:induction false} RunAwaited(limits: Limits, es: seq<Event>)
    requires IsRun(limits, es)
    ensures Awaited(RunOf(limits, es))
  {
    if es != [] {
      RunAwaited(limits, es[..|es| - 1]);
      RunKeepsOk(limits, es[..|es| - 1]);
      StepKeepsAwaited(RunOf(limits, es[..|es| - 1]), limits, es[|es| - 1]);
    }
  }

  /**
   * In every run, evictions included, a sleeping call has an unsettled reservation of its key to wait
   * for, and settling any of those, whether it is recorded or not, wakes the call.
   */
  lemma SleepersAreAwaited(limits: Limits, es: seq<Event>, call: CallId)
    requires IsRun(limits, es) && IsAsleep(RunOf(limits, es), call)
    ensures var b := RunOf(limits, es);
            && HasUnsettled(b)
            && forall id, record, now :: id in b.holders || id in b.orphans ==>
                 Possible(b, Event.Settle(id, record, now))
                 && !IsAsleep(Step(b, limits, Event.Settle(id, record, now)), call)
  {
    RunAwaited(limits, es);
    var b := RunOf(limits, es);
    forall id, record, now | id in b.holders || id in b.orphans
      ensures !IsAsleep(Step(b, limits, Event.Settle(id, record, now)), call)
    {
      SettlesWakeAll(b, limits, id, record, now, call);
    }
  }

  /** What ends a sleep: a settle of the key, an attempt recorded bare, a reset, or the call's own timer or signal. */
  predicate EndsSleep(b: Bucket, e: Event, call: CallId) {
    match e
    case Settle(id, _, _) => id in b.holders || id in b.orphans
    case Record(_) => true
    case Reset => true
    case GiveUp(c) => c == call
    case _ => false
  }

  /** Nothing else does: not an expired attempt, not a cleanup, and not an eviction. */
  lemma SleepEnds(limits: Limits, b: Bucket, e: Event, call: CallId)
    requires Ok(b, limits) && Possible(b, e) && IsAsleep(b, call)
    ensures IsAsleep(Step(b, limits, e), call) <==> !EndsSleep(b, e, call)
  {
    if e.Settle? && EndsSleep(b, e, call) {
      SettlesWakeAll(b, limits, e.id, e.record, e.now, call);
    }
  }

  /**
   * What an eviction costs a sleeper: its key now reads free, and it sleeps on - not for good, since
   * the reservations that held the entry wake it when they settle.
   */
  lemma EvictionLeavesASleeper(limits: Limits, es: seq<Event>, call: CallId, now: int)
    requires limits.max > 0 && IsRun(limits, es) && IsAsleep(RunOf(limits, es), call)
    ensures var b := RunOf(limits, es + [Evict]);
            && IsRun(limits, es + [Evict]) && IsAsleep(b, call)
            && LoadOf(b, limits, now) == Free(0) && b.orphans != {}
            && forall id, record, later :: id in b.orphans ==>
                 !IsAsleep(Step(b, limits, Event.Settle(id, record, later)), call)
  {
    var run := es + [Evict];
    assert run[..|run| - 1] == es;
    SleepersAreAwaited(limits, run, call);
  }
}
