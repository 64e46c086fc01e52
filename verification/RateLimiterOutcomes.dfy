/** What each of the limiter's operations answers, and what it leaves, in terms of the window and the counts. */
module RateLimiterOutcomes {
  import opened Common
  import opened RateLimiterModel
  import opened RateLimiterTheorems

  // ----- The load -----

  /**
   * A key is free exactly while its live attempts and those in flight are under the cap, refused with
   * the wait for the oldest while the live ones alone reach it, and in flight in between.
   */
  lemma LoadMeaning(b: Bucket, limits: Limits, now: int)
    requires EntryOk(b) && limits.max > 0
    ensures var live, load := Active(b.timestamps, limits.window, now), LoadOf(b, limits, now);
            && (load.Free? <==> |live| + b.inFlight < limits.max)
            && (load.Free? ==> load.used == |live| + b.inFlight)
            && (load.Recorded? <==> |live| >= limits.max)
            && (load.Recorded? ==> load.retryAfter == CeilSeconds(live[0] + limits.window - now))
  {
  }

  /** A cap of zero refuses everything, for the window rounded up to whole seconds, and at least one. */
  lemma ZeroCapRefuses(b: Bucket, limits: Limits, now: int)
    requires limits.max == 0
    ensures var load := LoadOf(b, limits, now);
            && load.Recorded? && load.retryAfter >= 1 && load.retryAfter * 1000 >= limits.window
            && (load.retryAfter > 1 ==> (load.retryAfter - 1) * 1000 < limits.window)
  {
  }

  /** For callers that reserve, that is the attempts recorded and the reservations unsettled. */
  lemma FreeMeansRoom(limits: Limits, es: seq<Event>, times: seq<int>, now: int)
    requires IsRun(limits, es) && Timed(es, times) && Clock(times) <= now && limits.max > 0
    requires forall i :: 0 <= i < |es| ==> Reserving(es[i])
    ensures var b := RunOf(limits, es);
            LoadOf(b, limits, now).Free? <==> |Active(b.history, limits.window, now)| + |b.holders| < limits.max
  {
    RunBounded(limits, es, times);
    TimePasses(RunOf(limits, es), limits, Clock(times), now);
    LoadMeaning(RunOf(limits, es), limits, now);
  }

  // ----- Deciding -----

  /** What a call that decides gives up of its place among the waiters. */
  ghost predicate Departs(b: Bucket, t: Bucket, call: CallId) {
    && call !in t.parked && (forall c :: c != call ==> (c in t.parked <==> c in b.parked))
    && t.count == b.count - (if call in b.parked then 1 else 0)
  }

  /**
   * What deciding comes to: a free key is reserved and a recorded one refused with its own wait, the
   * call leaving either way; at the in-flight cap a new call too many is refused, one out of time
   * leaves refused, and any other is parked and counted once.
   */
  ghost predicate Decision(limits: Limits, b: Bucket, t: Bucket, reply: Reply, call: CallId, id: ReservationId,
                           now: int, expired: bool, aborted: bool)
  {
    && t.history == b.history && t.orphans == b.orphans
    && (forall c :: c != call && c in b.parked && c in t.parked ==> t.parked[c] == b.parked[c])
    && (LoadOf(b, limits, now).Free? ==> t.holders == b.holders + {id})
    && (!LoadOf(b, limits, now).Free? ==> t.holders == b.holders)
    && match LoadOf(b, limits, now)
       case Free(_) => reply == Reserved && Departs(b, t, call)
       case Recorded(retryAfter) => reply == Refused(retryAfter) && Departs(b, t, call)
       case InFlight =>
         if expired || (call !in b.parked && b.count >= limits.max)
         then reply == Refused(1) && Departs(b, t, call)
         else && reply == Waits && call in t.parked && t.parked[call] == (if aborted then Leaving else Asleep(now))
              && (forall c :: c != call ==> (c in t.parked <==> c in b.parked))
              && t.count == b.count + (if call in b.parked then 0 else 1)
  }

  lemma DecidedIsADecision(b: Bucket, limits: Limits, call: CallId, parked: bool, id: ReservationId, now: int,
                           expired: bool, aborted: bool)
    requires Ok(b, limits) && (parked <==> call in b.parked)
    ensures var (t, reply) := Decided(b, limits, call, parked, id, now, expired, aborted);
            Decision(limits, b, t, reply, call, id, now, expired, aborted)
  {
    SweptKeepsOk(b, limits, now);
    if parked { KeyCounts(b.parked, call, Leaving); }
  }

  /** A new call. */
  lemma ArrivalDecides(b: Bucket, limits: Limits, call: CallId, id: ReservationId, now: int, expired: bool,
                       aborted: bool)
    requires Ok(b, limits) && call !in b.parked
    ensures var t, reply := Step(b, limits, Arrive(call, id, now, expired, aborted)),
                            Decided(b, limits, call, false, id, now, expired, aborted).1;
            Decision(limits, b, t, reply, call, id, now, expired, aborted)
  {
    DecidedIsADecision(b, limits, call, false, id, now, expired, aborted);
  }

  /** A woken call decides again, as a new one would but for its place; one that timed out only leaves. */
  lemma ResumedDecides(b: Bucket, limits: Limits, call: CallId, id: ReservationId, now: int, expired: bool,
                       aborted: bool)
    requires Ok(b, limits) && call in b.parked && !b.parked[call].Asleep?
    ensures var t, reply := Step(b, limits, Resume(call, id, now, expired, aborted)),
                            Resumed(b, limits, call, id, now, expired, aborted).1;
            && (b.parked[call].Woken? ==> Decision(limits, b, t, reply, call, id, now, expired, aborted))
            && (b.parked[call].Leaving? ==>
                  reply == Refused(1) && Departs(b, t, call) && t.holders == b.holders && t.history == b.history)
  {
    if b.parked[call].Woken? {
      DecidedIsADecision(b, limits, call, true, id, now, expired, aborted);
    } else {
      KeyCounts(b.parked, call, Leaving);
    }
  }

  /** So a freed slot is reserved: a call woken while its key is free takes it. */
  lemma WokenTakesTheSlot(limits: Limits, es: seq<Event>, call: CallId, id: ReservationId, now: int, expired: bool,
                       aborted: bool)
    requires IsRun(limits, es) && IsRun(limits, es + [Resume(call, id, now, expired, aborted)])
    requires call in RunOf(limits, es).parked && RunOf(limits, es).parked[call].Woken?
    ensures var b, t := RunOf(limits, es), RunOf(limits, es + [Resume(call, id, now, expired, aborted)]);
            id in t.holders && call !in t.parked <==> LoadOf(b, limits, now).Free?
  {
    OneMore(limits, es, Resume(call, id, now, expired, aborted));
    RunKeepsOk(limits, es);
    ResumedDecides(RunOf(limits, es), limits, call, id, now, expired, aborted);
  }

  // ----- Settling and recording -----

  /** The attempts still live at `now`, with one more recorded then or not. */
  ghost predicate Records(b: Bucket, t: Bucket, limits: Limits, record: bool, now: int) {
    && t.history == b.history + (if record then [now] else [])
    && Active(t.timestamps, limits.window, now) ==
       Active(b.timestamps, limits.window, now) + if record && limits.window > 0 then [now] else []
  }

  lemma AttemptRecorded(ts: seq<int>, window: nat, now: int)
    ensures Active(Active(ts, window, now) + [now], window, now) ==
            Active(ts, window, now) + if window > 0 then [now] else []
  {
    ActiveAgain(ts, window, now, now);
    OneMoreActive(Active(ts, window, now), window, now);
  }

  /** What the entry's lists must be for that. */
  predicate Lists(b: Bucket, t: Bucket, limits: Limits, record: bool, now: int) {
    if record
    then t.history == b.history + [now] && t.timestamps == Active(b.timestamps, limits.window, now) + [now]
    else t.history == b.history && t.timestamps == b.timestamps
  }

  lemma ListsRecord(b: Bucket, t: Bucket, limits: Limits, record: bool, now: int)
    requires Lists(b, t, limits, record, now)
    ensures Records(b, t, limits, record, now)
  {
    AttemptRecorded(b.timestamps, limits.window, now);
    assert b.history + [] == b.history;
    assert Active(b.timestamps, limits.window, now) + [] == Active(b.timestamps, limits.window, now);
  }

  lemma HolderSettles(b: Bucket, limits: Limits, id: ReservationId, record: bool, now: int)
    requires EntryOk(b) && id in b.holders
    ensures var t := Settled(b, limits, id, record, now);
            && Records(b, t, limits, record, now) && t.holders == b.holders - {id} && t.orphans == b.orphans
            && t.inFlight == b.inFlight - 1 && t.count == b.count && t.parked.Keys == b.parked.Keys
  {
    var t := Settled(b, limits, id, record, now);
    ListsRecord(b, t, limits, record, now);
    assert |b.holders| > 0;
  }

  lemma OrphanSettles(b: Bucket, limits: Limits, id: ReservationId, record: bool, now: int)
    requires EntryOk(b) && id in b.orphans
    ensures var t := Settled(b, limits, id, record, now);
            && Records(b, t, limits, record, now) && t.holders == b.holders && t.orphans == b.orphans - {id}
            && t.inFlight == b.inFlight && t.count == b.count && t.parked.Keys == b.parked.Keys
  {
    ListsRecord(b, Settled(b, limits, id, record, now), limits, record, now);
  }

  /**
   * A settle gives back the one slot it holds - none if its entry was evicted - and records the
   * attempt exactly when asked to; a second settle does nothing.
   */
  lemma SettleOutcome(b: Bucket, limits: Limits, id: ReservationId, record: bool, now: int)
    requires EntryOk(b)
    ensures var t := Step(b, limits, Event.Settle(id, record, now));
            && (id in b.holders || id in b.orphans ==> Records(b, t, limits, record, now))
            && (id !in b.holders && id !in b.orphans ==> t == b)
            && t.holders == b.holders - {id} && t.orphans == b.orphans - {id}
            && t.inFlight == b.inFlight - (if id in b.holders then 1 else 0)
            && t.count == b.count && t.parked.Keys == b.parked.Keys
  {
    if id in b.holders {
      HolderSettles(b, limits, id, record, now);
    } else if id in b.orphans {
      OrphanSettles(b, limits, id, record, now);
    }
  }

  lemma RecordOutcome(b: Bucket, limits: Limits, now: int)
    ensures var t := Step(b, limits, Event.Record(now));
            && Records(b, t, limits, true, now) && t.tracked
            && t.holders == b.holders && t.orphans == b.orphans && t.inFlight == b.inFlight && t.count == b.count
  {
    ListsRecord(b, BareRecorded(b, limits, now), limits, true, now);
  }

  /** A reset forgives what was recorded and keeps what is in flight, and the waiters. */
  lemma ResetOutcome(b: Bucket, limits: Limits)
    requires EntryOk(b)
    ensures var t := Step(b, limits, Reset);
            && t.timestamps == [] && t.history == [] && t.holders == b.holders && t.orphans == b.orphans
            && t.inFlight == b.inFlight && t.count == b.count && t.parked.Keys == b.parked.Keys
  {
  }

  /** Checking and cleaning up change no answer, at that moment or later. */
  lemma PruningChangesNothing(b: Bucket, limits: Limits, now: int, later: int)
    requires EntryOk(b) && now <= later
    ensures var t := Step(b, limits, Cleanup(now));
            && LoadOf(t, limits, later) == LoadOf(b, limits, later) && EntryOk(t)
            && t.(tracked := b.tracked, timestamps := b.timestamps) == b
            && (forall x :: x in t.timestamps ==> x > now - limits.window)
    ensures LoadOf(Step(b, limits, Check(now)), limits, later) == LoadOf(b, limits, later)
  {
    ActiveAgain(b.timestamps, limits.window, now, later);
    WhereIn(b.timestamps, Live(limits.window, now));
  }

  /** An attempt reserved at once takes a slot exactly when the key is free, and waits for nothing. */
  lemma TryOutcome(b: Bucket, limits: Limits, id: ReservationId, now: int)
    requires EntryOk(b) && id !in b.holders
    ensures var t := Step(b, limits, Event.TryReserve(id, now));
            && t.holders == (if LoadOf(b, limits, now).Free? then b.holders + {id} else b.holders)
            && t.inFlight == b.inFlight + (if LoadOf(b, limits, now).Free? then 1 else 0)
            && t.history == b.history && t.parked == b.parked && t.count == b.count
  {
    LoadKeepsRest(b, limits, now);
    assert Step(b, limits, Event.TryReserve(id, now)) == TriedReserve(b, limits, id, now);
  }

  /** Reading the load drops what has expired, and at most that. */
  lemma LoadKeepsRest(b: Bucket, limits: Limits, now: int)
    ensures var s := Loaded(b, limits, now);
            && s.holders == b.holders && s.inFlight == b.inFlight && s.history == b.history
            && s.parked == b.parked && s.count == b.count
  {
  }
}
