/**
 * One key of the sliding-window rate limiter as a state machine.
 *
 * A bucket is everything the limiter knows about a key: its entry, the reservations holding that
 * entry, those left behind by an eviction, and the calls parked on it. Times are milliseconds.
 */
module RateLimiterModel {
  import opened Common

  type ReservationId = nat
  type CallId = nat

  datatype Limits = Limits(max: nat, window: nat)

  datatype Load = Free(used: nat) | Recorded(retryAfter: int) | InFlight

  /** A parked call waits on its waker, or has been resolved - woken or not - and not resumed yet. */
  datatype Wait = Asleep(since: int) | Woken | Leaving

  datatype Bucket = Bucket(
    tracked: bool,
    timestamps: seq<int>,
    inFlight: nat,
    holders: set<ReservationId>, // unsettled, holding the tracked entry
    orphans: set<ReservationId>, // unsettled, holding an entry that was evicted
    count: nat,
    parked: map<CallId, Wait>,
    history: seq<int>)           // every attempt recorded since the last reset

  const NEW_BUCKET := Bucket(false, [], 0, {}, {}, 0, map[], [])

  const IN_FLIGHT_RETRY_AFTER_SECONDS := 1

  // ----- The window -----

  function CeilSeconds(ms: int): int {
    (ms + 999) / 1000
  }

  function Live(window: nat, now: int): int -> bool {
    (t: int) => t > now - window
  }

  function Active(ts: seq<int>, window: nat, now: int): seq<int> {
    Where(ts, Live(window, now))
  }

  predicate Idle(b: Bucket) {
    b.timestamps == [] && b.inFlight == 0
  }

  function Swept(b: Bucket, limits: Limits, now: int): Bucket {
    if !b.tracked then b
    else
      var pruned := b.(timestamps := Active(b.timestamps, limits.window, now));
      if Idle(pruned) then pruned.(tracked := false) else pruned
  }

  /** What reading a key's load leaves behind: a cap of zero does not read it at all. */
  function Loaded(b: Bucket, limits: Limits, now: int): Bucket {
    if limits.max == 0 then b else Swept(b, limits, now)
  }

  function LoadOf(b: Bucket, limits: Limits, now: int): Load {
    if limits.max == 0 then
      Recorded(if CeilSeconds(limits.window) < 1 then 1 else CeilSeconds(limits.window))
    else
      var s := Swept(b, limits, now);
      if !s.tracked then Free(0)
      else if |s.timestamps| >= limits.max then Recorded(CeilSeconds(s.timestamps[0] + limits.window - now))
      else if |s.timestamps| + s.inFlight < limits.max then Free(|s.timestamps| + s.inFlight)
      else InFlight
  }

  // ----- Attempts -----

  function Awoken(parked: map<CallId, Wait>): map<CallId, Wait> {
    map c | c in parked :: if parked[c].Asleep? then Woken else parked[c]
  }

  /** Every waker runs, and takes itself off the key. */
  function Woke(b: Bucket): Bucket {
    b.(parked := Awoken(b.parked))
  }

  function WithAttempt(b: Bucket, limits: Limits, now: int): Bucket {
    b.(tracked := true, timestamps := Active(b.timestamps, limits.window, now) + [now], history := b.history + [now])
  }

  function BareRecorded(b: Bucket, limits: Limits, now: int): Bucket {
    Woke(WithAttempt(b, limits, now))
  }

  function AdmittedTo(b: Bucket, id: ReservationId): Bucket {
    b.(tracked := true, inFlight := b.inFlight + 1, holders := b.holders + {id})
  }

  /** What settling a holder leaves on its entry. */
  function GivenBack(b: Bucket, limits: Limits, id: ReservationId, record: bool, now: int): Bucket {
    var given := b.(inFlight := if b.inFlight >= 1 then b.inFlight - 1 else 0, holders := b.holders - {id});
    if record then WithAttempt(given, limits, now)
    else if Idle(given) then given.(tracked := false)
    else given
  }

  function Dropped(b: Bucket, id: ReservationId): Bucket {
    b.(orphans := b.orphans - {id})
  }

  function Settled(b: Bucket, limits: Limits, id: ReservationId, record: bool, now: int): Bucket {
    if id in b.holders then Woke(GivenBack(b, limits, id, record, now))
    else if id in b.orphans then if record then BareRecorded(Dropped(b, id), limits, now) else Woke(Dropped(b, id))
    else b
  }

  function Cleared(b: Bucket): Bucket {
    b.(tracked := b.tracked && b.inFlight > 0, timestamps := [], history := [])
  }

  function Forgiven(b: Bucket): Bucket {
    Woke(Cleared(b))
  }

  /** The entry leaves the map; the reservations holding it keep holding it. */
  function Evicted(b: Bucket): Bucket {
    b.(tracked := false, timestamps := [], inFlight := 0, holders := {}, orphans := b.orphans + b.holders)
  }

  // ----- Parked calls -----

  datatype Reply = Reserved | Refused(retryAfter: int) | Waits

  function Left(b: Bucket, call: CallId): Bucket {
    b.(count := if b.count >= 1 then b.count - 1 else 0, parked := b.parked - {call})
  }

  function LeftIf(b: Bucket, call: CallId, parked: bool): Bucket {
    if parked then Left(b, call) else b
  }

  /** A call at its cap in flight: refused when too many wait already, parked otherwise. */
  function Parked(s: Bucket, limits: Limits, call: CallId, parked: bool, now: int, expired: bool,
                  aborted: bool): (Bucket, Reply) {
    if !parked && s.count >= limits.max then (s, Refused(IN_FLIGHT_RETRY_AFTER_SECONDS))
    else
      var p := if parked then s else s.(count := s.count + 1);
      if expired then (Left(p, call), Refused(IN_FLIGHT_RETRY_AFTER_SECONDS))
      else (p.(parked := p.parked[call := if aborted then Leaving else Asleep(now)]), Waits)
  }

  function Turn(s: Bucket, load: Load, limits: Limits, call: CallId, parked: bool, id: ReservationId, now: int,
                expired: bool, aborted: bool): (Bucket, Reply)
  {
    match load
    case Free(_) => (AdmittedTo(LeftIf(s, call, parked), id), Reserved)
    case Recorded(retryAfter) => (LeftIf(s, call, parked), Refused(retryAfter))
    case InFlight => Parked(s, limits, call, parked, now, expired, aborted)
  }

  /** One turn of the retry loop; `expired` and `aborted` are read after the load. */
  function Decided(b: Bucket, limits: Limits, call: CallId, parked: bool, id: ReservationId, now: int,
                   expired: bool, aborted: bool): (Bucket, Reply)
  {
    Turn(Loaded(b, limits, now), LoadOf(b, limits, now), limits, call, parked, id, now, expired, aborted)
  }

  predicate IsAsleep(b: Bucket, call: CallId) {
    call in b.parked && b.parked[call].Asleep?
  }

  function GaveUp(b: Bucket, call: CallId): Bucket {
    if IsAsleep(b, call) then b.(parked := b.parked[call := Leaving]) else b
  }

  // ----- Events -----

  datatype Event =
    | Check(now: int)
    | TryReserve(id: ReservationId, now: int)
    | Record(now: int)
    | Settle(id: ReservationId, record: bool, now: int)
    | Reset
    | Cleanup(now: int)
    | Evict
    | Arrive(call: CallId, id: ReservationId, now: int, expired: bool, aborted: bool)
    | Resume(call: CallId, id: ReservationId, now: int, expired: bool, aborted: bool)
    | GiveUp(call: CallId) // its timer fires, or its signal aborts

  function TriedReserve(b: Bucket, limits: Limits, id: ReservationId, now: int): Bucket {
    var s := Loaded(b, limits, now);
    if LoadOf(b, limits, now).Free? then AdmittedTo(s, id) else s
  }

  function Resumed(b: Bucket, limits: Limits, call: CallId, id: ReservationId, now: int, expired: bool,
                   aborted: bool): (Bucket, Reply) {
    if call in b.parked && b.parked[call].Leaving? then (Left(b, call), Refused(IN_FLIGHT_RETRY_AFTER_SECONDS))
    else Decided(b, limits, call, true, id, now, expired, aborted)
  }

  /** New calls and reservations are new; only a resolved wait resumes. */
  predicate Possible(b: Bucket, e: Event) {
    match e
    case TryReserve(id, _) => id !in b.holders && id !in b.orphans
    case Arrive(call, id, _, _, _) => id !in b.holders && id !in b.orphans && call !in b.parked
    case Resume(call, id, _, _, _) =>
      id !in b.holders && id !in b.orphans && call in b.parked && !b.parked[call].Asleep?
    case GiveUp(call) => IsAsleep(b, call)
    case _ => true
  }

  function Step(b: Bucket, limits: Limits, e: Event): Bucket {
    match e
    case Check(now) => Loaded(b, limits, now)
    case TryReserve(id, now) => TriedReserve(b, limits, id, now)
    case Record(now) => BareRecorded(b, limits, now)
    case Settle(id, record, now) => Settled(b, limits, id, record, now)
    case Reset => Forgiven(b)
    case Cleanup(now) => Swept(b, limits, now)
    case Evict => Evicted(b)
    case Arrive(call, id, now, expired, aborted) => Decided(b, limits, call, false, id, now, expired, aborted).0
    case Resume(call, id, now, expired, aborted) => Resumed(b, limits, call, id, now, expired, aborted).0
    case GiveUp(call) => GaveUp(b, call)
  }

  // ----- What every event keeps -----

  /**
   * The in-flight count is exactly the unsettled reservations holding the tracked entry, and no
   * idle entry is tracked.
   */
  predicate EntryOk(b: Bucket) {
    && b.inFlight == |b.holders| && b.holders !! b.orphans
    && (b.tracked <==> !Idle(b))
  }

  /** The waiter count is exactly the parked calls, at most `max` of them. */
  predicate WaitersOk(b: Bucket, limits: Limits) {
    b.count == |b.parked.Keys| <= limits.max
  }

  predicate Ok(b: Bucket, limits: Limits) {
    EntryOk(b) && WaitersOk(b, limits)
  }

  lemma AwokenCount(parked: map<CallId, Wait>)
    ensures |Awoken(parked).Keys| == |parked.Keys|
  {
    assert Awoken(parked).Keys == parked.Keys;
  }

  lemma GivenBackKeepsOk(b: Bucket, limits: Limits, id: ReservationId, record: bool, now: int)
    requires Ok(b, limits) && id in b.holders
    ensures Ok(GivenBack(b, limits, id, record, now), limits)
    ensures b.inFlight >= 1 // the clamp at zero never bites
  {
    assert |b.holders - {id}| == |b.holders| - 1;
  }

  lemma SettledKeepsOk(b: Bucket, limits: Limits, id: ReservationId, record: bool, now: int)
    requires Ok(b, limits)
    ensures Ok(Settled(b, limits, id, record, now), limits)
    ensures id in b.holders ==> b.inFlight >= 1
    ensures id !in Settled(b, limits, id, record, now).holders
    ensures id !in Settled(b, limits, id, record, now).orphans
    ensures Settled(b, limits, id, record, now).parked ==
            if id in b.holders || id in b.orphans then Awoken(b.parked) else b.parked
  {
    AwokenCount(b.parked);
    if id in b.holders {
      GivenBackKeepsOk(b, limits, id, record, now);
    }
  }

  lemma AdmittedKeepsOk(b: Bucket, limits: Limits, id: ReservationId)
    requires Ok(b, limits) && id !in b.holders && id !in b.orphans
    ensures Ok(AdmittedTo(b, id), limits)
  {
  }

  lemma KeyAdded<K, V>(m: map<K, V>, k: K, v: V)
    ensures |m[k := v].Keys| == |m.Keys| + if k in m then 0 else 1
    ensures m[k := v] - {k} == m - {k}
  {
    assert m[k := v].Keys == m.Keys + {k};
  }

  lemma KeyRemoved<K, V>(m: map<K, V>, k: K)
    ensures |(m - {k}).Keys| == |m.Keys| - if k in m then 1 else 0
    ensures k !in m ==> m - {k} == m
  {
    if k in m {
      assert (m - {k}).Keys == m.Keys - {k};
    } else {
      assert m - {k} == m;
    }
  }

  lemma KeyCounts<K, V>(m: map<K, V>, k: K, v: V)
    ensures |m[k := v].Keys| == |m.Keys| + if k in m then 0 else 1
    ensures |(m - {k}).Keys| == |m.Keys| - if k in m then 1 else 0
    ensures k !in m ==> m - {k} == m
    ensures m[k := v] - {k} == m - {k}
  {
    KeyAdded(m, k, v);
    KeyRemoved(m, k);
  }

  lemma LeftKeepsOk(b: Bucket, limits: Limits, call: CallId)
    requires Ok(b, limits) && call in b.parked
    ensures Ok(Left(b, call), limits)
  {
    KeyCounts(b.parked, call, Leaving);
  }

  lemma ParkedKeepsOk(s: Bucket, limits: Limits, call: CallId, parked: bool, now: int, expired: bool, aborted: bool)
    requires Ok(s, limits) && (parked <==> call in s.parked)
    ensures var (d, reply) := Parked(s, limits, call, parked, now, expired, aborted);
            && Ok(d, limits) && (reply.Waits? <==> call in d.parked) && !reply.Reserved?
            && d.parked - {call} == s.parked - {call} && d.holders == s.holders && d.orphans == s.orphans
  {
    KeyCounts(s.parked, call, if aborted then Leaving else Asleep(now));
  }

  /** Every path through the retry loop leaves the count as many as still wait. */
  lemma TurnKeepsOk(s: Bucket, load: Load, limits: Limits, call: CallId, parked: bool, id: ReservationId, now: int,
                    expired: bool, aborted: bool)
    requires Ok(s, limits) && id !in s.holders && id !in s.orphans && (parked <==> call in s.parked)
    ensures var (d, reply) := Turn(s, load, limits, call, parked, id, now, expired, aborted);
            && Ok(d, limits)
            && (reply.Waits? <==> call in d.parked)
            && (reply.Reserved? <==> id in d.holders)
            && d.parked - {call} == s.parked - {call}
  {
    match load
    case InFlight => ParkedKeepsOk(s, limits, call, parked, now, expired, aborted);
    case _ =>
      if parked {
        LeftKeepsOk(s, limits, call);
      }
      assert s.parked - {call} == LeftIf(s, call, parked).parked;
      if load.Free? {
        AdmittedKeepsOk(LeftIf(s, call, parked), limits, id);
      }
  }

  lemma SweptKeepsOk(b: Bucket, limits: Limits, now: int)
    requires Ok(b, limits)
    ensures Ok(Swept(b, limits, now), limits)
    ensures Swept(b, limits, now).holders == b.holders && Swept(b, limits, now).orphans == b.orphans
    ensures Swept(b, limits, now).parked == b.parked
  {
  }

  lemma DecidedKeepsOk(b: Bucket, limits: Limits, call: CallId, parked: bool, id: ReservationId, now: int,
                       expired: bool, aborted: bool)
    requires Ok(b, limits) && id !in b.holders && id !in b.orphans && (parked <==> call in b.parked)
    ensures Ok(Decided(b, limits, call, parked, id, now, expired, aborted).0, limits)
  {
    SweptKeepsOk(b, limits, now);
    TurnKeepsOk(Loaded(b, limits, now), LoadOf(b, limits, now), limits, call, parked, id, now, expired, aborted);
  }

  lemma ResumedKeepsOk(b: Bucket, limits: Limits, call: CallId, id: ReservationId, now: int, expired: bool,
                       aborted: bool)
    requires Ok(b, limits) && id !in b.holders && id !in b.orphans && call in b.parked
    ensures Ok(Resumed(b, limits, call, id, now, expired, aborted).0, limits)
  {
    if b.parked[call].Leaving? {
      LeftKeepsOk(b, limits, call);
    } else {
      DecidedKeepsOk(b, limits, call, true, id, now, expired, aborted);
    }
  }

  lemma TriedKeepsOk(b: Bucket, limits: Limits, id: ReservationId, now: int)
    requires Ok(b, limits) && id !in b.holders && id !in b.orphans
    ensures Ok(TriedReserve(b, limits, id, now), limits)
  {
    SweptKeepsOk(b, limits, now);
    AdmittedKeepsOk(Loaded(b, limits, now), limits, id);
  }

  lemma StepKeepsOk(b: Bucket, limits: Limits, e: Event)
    requires Ok(b, limits) && Possible(b, e)
    ensures Ok(Step(b, limits, e), limits)
  {
    match e
    case Settle(id, record, now) => SettledKeepsOk(b, limits, id, record, now);
    case Arrive(call, id, now, expired, aborted) => DecidedKeepsOk(b, limits, call, false, id, now, expired, aborted);
    case Resume(call, id, now, expired, aborted) => ResumedKeepsOk(b, limits, call, id, now, expired, aborted);
    case TryReserve(id, now) => TriedKeepsOk(b, limits, id, now);
    case GiveUp(call) => KeyCounts(b.parked, call, Leaving);
    case Record(now) => AwokenCount(b.parked);
    case Reset => AwokenCount(b.parked);
    case Check(now) => SweptKeepsOk(b, limits, now);
    case Cleanup(now) => SweptKeepsOk(b, limits, now);
    case Evict =>
  }
}
