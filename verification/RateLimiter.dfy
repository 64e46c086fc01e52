/**
 * The rate limiter object: entries and reservations are heap objects, and a reservation gives its
 * slot back only to the very entry it took it from. Each method is shown to step the key's bucket.
 */
module RateLimiters {
  import opened Common
  import opened RateLimiterModel
  import opened RateLimiterOutcomes

  type Key = nat // a rate limit key; only its equality matters

  class RateLimitEntry {
    var timestamps: seq<int>
    var inFlight: nat

    constructor ()
      ensures timestamps == [] && inFlight == 0
    {
      timestamps, inFlight := [], 0;
    }
  }

  class RateLimitReservation {
    const id: ReservationId
    const key: Key
    const entry: RateLimitEntry
    var settled: bool

    constructor (id: ReservationId, key: Key, entry: RateLimitEntry)
      ensures this.id == id && this.key == key && this.entry == entry && !settled
    {
      this.id, this.key, this.entry, settled := id, key, entry, false;
    }
  }

  /** A key's slot in the waiters map: how many calls are parked, and the wakers registered. */
  datatype KeyWaiters = KeyWaiters(count: nat, wakers: set<CallId>)

  datatype Answer = Answer(allowed: bool, remaining: int, retryAfter: int)

  ghost function Asleeps(b: Bucket): set<CallId> {
    set c | c in b.parked && b.parked[c].Asleep?
  }

  ghost function Room(buckets: map<Key, Bucket>, victim: Option<Key>): map<Key, Bucket> {
    if victim.Some? && victim.value in buckets then buckets[victim.value := Evicted(buckets[victim.value])] else buckets
  }

  lemma RoomCommutes(buckets: map<Key, Bucket>, victim: Option<Key>, key: Key, first: Bucket, next: Bucket)
    requires victim != Some(key)
    ensures Room(buckets[key := first], victim)[key := next] == Room(buckets, victim)[key := next]
  {
  }

  class RateLimiter {
    const limits: Limits
    const maxKeys: Option<nat>
    var attempts: map<Key, RateLimitEntry>
    var waiters: map<Key, KeyWaiters>
    var nextReservation: ReservationId
    ghost var buckets: map<Key, Bucket>
    ghost var reservations: map<ReservationId, RateLimitReservation>

    ghost function Model(k: Key): Bucket
      reads this
    {
      if k in buckets then buckets[k] else NEW_BUCKET
    }

    /** `k`'s entry and waiter slot are what its bucket says. */
    ghost predicate KeyMatches(k: Key)
      reads this, attempts.Values
    {
      var b := Model(k);
      && (k in attempts <==> b.tracked)
      && (k in attempts ==> attempts[k].timestamps == b.timestamps && attempts[k].inFlight == b.inFlight)
      && (k in waiters <==> b.count > 0)
      && (k in waiters ==> waiters[k] == KeyWaiters(b.count, Asleeps(b)))
    }

    function EntryOf(k: Key): set<RateLimitEntry>
      reads this
    {
      if k in attempts then {attempts[k]} else {}
    }

    predicate Holds(r: RateLimitReservation)
      reads this
    {
      r.key in attempts && attempts[r.key] == r.entry
    }

    /** An unsettled reservation holds its key's entry by identity, or one that was evicted. */
    ghost predicate ReservationMatches(id: ReservationId)
      requires id in reservations
      reads this, reservations[id]
    {
      var r := reservations[id];
      && r.id == id && id < nextReservation
      && (id in Model(r.key).holders <==> !r.settled && Holds(r))
      && (id in Model(r.key).orphans <==> !r.settled && !Holds(r))
    }

    ghost predicate Known(k: Key, id: ReservationId)
      reads this
    {
      id in Model(k).holders || id in Model(k).orphans ==> id in reservations && reservations[id].key == k
    }

    ghost predicate EntriesDiffer()
      reads this
    {
      forall k, l :: k in attempts && l in attempts && k != l ==> attempts[k] != attempts[l]
    }

    ghost predicate Matches()
      reads this, attempts.Values, reservations.Values
    {
      && EntriesDiffer()
      && (forall k :: KeyMatches(k))
      && (forall id {:trigger ReservationMatches(id)} :: id in reservations ==> ReservationMatches(id))
      && (forall k, id :: Known(k, id))
    }

    ghost predicate KeyOk(k: Key)
      reads this
    {
      Ok(Model(k), limits)
    }

    ghost predicate Valid()
      reads this, attempts.Values, reservations.Values
    {
      maxKeys != Some(0) && Matches() && forall k :: KeyOk(k)
    }

    constructor (limits: Limits, maxKeys: Option<nat>)
      requires maxKeys != Some(0)
      ensures Valid() && this.limits == limits && forall k :: Model(k) == NEW_BUCKET
    {
      this.limits, this.maxKeys := limits, maxKeys;
      attempts, waiters, nextReservation, buckets, reservations := map[], map[], 0, map[], map[];
    }

    /** Everything the limiter keeps for the other keys is as it was. */
    twostate predicate OthersStill(key: Key)
      reads this, attempts.Values, reservations.Values
    {
      && (forall k :: k != key ==> Model(k) == old(Model(k)))
      && (forall k :: k != key ==> (k in attempts <==> k in old(attempts)) && (k in waiters <==> k in old(waiters)))
      && (forall k :: k != key && k in attempts ==>
            attempts[k] == old(attempts[k]) && attempts[k].timestamps == old(attempts[k].timestamps)
              && attempts[k].inFlight == old(attempts[k].inFlight))
      && (forall k :: k != key && k in waiters ==> waiters[k] == old(waiters[k]))
    }

    twostate predicate ReservationsStill(key: Key)
      reads this, reservations.Values
    {
      && nextReservation >= old(nextReservation)
      && (forall id :: id in old(reservations) ==> id in reservations && reservations[id] == old(reservations[id]))
      && (forall id :: id in old(reservations) && reservations[id].key != key ==>
            reservations[id].settled == old(reservations[id].settled))
    }

    twostate lemma OneKeyKeepsValid(key: Key)
      requires old(Valid()) && OthersStill(key) && ReservationsStill(key)
      requires Ok(Model(key), limits) && KeyMatches(key)
      requires key in attempts ==> forall k :: k != key && k in attempts ==> attempts[k] != attempts[key]
      requires forall id :: id in reservations && (id !in old(reservations) || reservations[id].key == key) ==>
                 ReservationMatches(id)
      requires forall id :: Known(key, id)
      ensures Valid()
    {
      forall k ensures KeyMatches(k) && KeyOk(k) {
        assert old(KeyMatches(k)) && old(KeyOk(k));
      }
      forall id | id in reservations ensures ReservationMatches(id) {
        if id in old(reservations) { assert old(ReservationMatches(id)); }
      }
      forall k, id ensures Known(k, id) {
        assert old(Known(k, id));
      }
    }

    /** The same holders of the same entry. */
    twostate lemma HoldersStill(key: Key)
      requires old(Valid()) && reservations == old(reservations) && nextReservation == old(nextReservation)
      requires forall id :: id in reservations ==> reservations[id].settled == old(reservations[id].settled)
      requires Model(key).holders == old(Model(key)).holders && Model(key).orphans == old(Model(key)).orphans
      requires if key in attempts && key in old(attempts) then attempts[key] == old(attempts)[key]
               else Model(key).holders == {} && (key in attempts ==> fresh(attempts[key]))
      ensures forall id :: id in reservations && reservations[id].key == key ==> ReservationMatches(id)
      ensures forall id :: Known(key, id)
    {
      forall id | id in reservations && reservations[id].key == key ensures ReservationMatches(id) {
        assert old(ReservationMatches(id));
      }
      forall id ensures Known(key, id) {
        assert old(Known(key, id));
      }
    }

    /** Only a capped limiter evicts, and never the key at hand. */
    ghost predicate MayEvict(attempts: map<Key, RateLimitEntry>, key: Key, victim: Option<Key>) {
      victim.Some? ==> maxKeys.Some? && victim.value != key && victim.value in attempts
    }

    twostate lemma SameModel(key: Key)
      requires old(Valid()) && buckets == old(buckets)[key := old(Model(key))]
      requires attempts == old(attempts) && waiters == old(waiters) && reservations == old(reservations)
               && nextReservation == old(nextReservation)
      requires forall k :: k in attempts ==> unchanged(attempts[k])
      requires forall id :: id in reservations ==> unchanged(reservations[id])
      ensures Valid()
    {
      assert old(KeyMatches(key)) && old(KeyOk(key));
      HoldersStill(key);
      OneKeyKeepsValid(key);
    }

    // ----- Single moves, each one key's -----

    method Prune(key: Key, now: int)
      requires key in attempts
      modifies this`attempts, attempts[key]
      ensures old(attempts[key]).timestamps == Active(old(attempts[key].timestamps), limits.window, now)
      ensures old(attempts[key]).inFlight == old(attempts[key].inFlight)
      ensures attempts == if old(attempts[key]).timestamps == [] && old(attempts[key]).inFlight == 0
                          then old(attempts) - {key} else old(attempts)
    {
      var entry := attempts[key];
      entry.timestamps := Active(entry.timestamps, limits.window, now);
      if entry.timestamps == [] && entry.inFlight == 0 {
        attempts := attempts - {key};
      }
    }

    /** Drops `key`'s expired attempts, and its entry when nothing is left of it. */
    method Sweep(key: Key, now: int)
      requires Valid()
      modifies this`attempts, this`buckets, EntryOf(key)
      ensures Valid() && buckets == old(buckets)[key := Swept(old(Model(key)), limits, now)]
      ensures attempts == old(attempts) || attempts == old(attempts) - {key}
    {
      ghost var b := Model(key);
      ghost var swept := Swept(b, limits, now);
      assert KeyMatches(key) && KeyOk(key) && EntriesDiffer();
      assert Ok(swept, limits) by { StepKeepsOk(b, limits, Event.Cleanup(now)); }
      if key in attempts {
        Prune(key, now);
      }
      buckets := buckets[key := swept];
      assert Asleeps(swept) == Asleeps(b);
      assert KeyMatches(key);
      HoldersStill(key);
      OneKeyKeepsValid(key);
    }

    twostate lemma EvictionOrphans(v: Key)
      requires old(Valid()) && reservations == old(reservations) && nextReservation == old(nextReservation)
      requires forall id :: id in reservations ==> reservations[id].settled == old(reservations[id].settled)
      requires v in old(attempts) && v !in attempts && Model(v) == Evicted(old(Model(v)))
      ensures forall id :: id in reservations && reservations[id].key == v ==> ReservationMatches(id)
      ensures forall id :: Known(v, id)
    {
      forall id | id in reservations && reservations[id].key == v ensures ReservationMatches(id) {
        assert old(ReservationMatches(id));
      }
      forall id ensures Known(v, id) {
        assert old(Known(v, id));
      }
    }

    twostate lemma EvictionKeepsValid(v: Key)
      requires old(Valid()) && v in old(attempts)
      requires attempts == old(attempts) - {v} && buckets == old(buckets)[v := Evicted(old(Model(v)))]
      requires waiters == old(waiters) && reservations == old(reservations) && nextReservation == old(nextReservation)
      requires forall k :: k in attempts ==>
                 && attempts[k].timestamps == old(attempts[k].timestamps)
                 && attempts[k].inFlight == old(attempts[k].inFlight)
      requires forall id :: id in reservations ==> reservations[id].settled == old(reservations[id].settled)
      ensures Valid()
    {
      assert old(KeyMatches(v)) && old(KeyOk(v));
      assert Asleeps(Evicted(old(Model(v)))) == Asleeps(old(Model(v)));
      EvictionOrphans(v);
      OneKeyKeepsValid(v);
    }

    /** The least recently used entry goes when a new key would pass the cap; which one is left open. */
    method MakeRoom(key: Key) returns (ghost victim: Option<Key>)
      requires Valid()
      modifies this`attempts, this`buckets
      ensures Valid() && buckets == Room(old(buckets), victim)
      ensures victim.Some? ==> victim.value in old(attempts) && victim.value in old(buckets)
      ensures victim.Some? ==> maxKeys.Some? && key !in old(attempts) && |old(attempts)| >= maxKeys.value
      ensures if victim.Some? then attempts == old(attempts) - {victim.value} else attempts == old(attempts)
    {
      if key in attempts || maxKeys.None? || |attempts| < maxKeys.value {
        return None;
      }
      var v :| v in attempts;
      assert KeyMatches(v);
      attempts := attempts - {v};
      buckets := buckets[v := Evicted(Model(v))];
      EvictionKeepsValid(v);
      victim := Some(v);
    }

    /** One more recorded attempt, into a new entry when the key has none. */
    method PushAttempt(key: Key, now: int)
      requires Valid()
      modifies this`attempts, this`buckets, EntryOf(key)
      ensures Valid() && buckets == old(buckets)[key := WithAttempt(old(Model(key)), limits, now)]
      ensures key in attempts && fresh(EntryOf(key) - old(EntryOf(key)))
    {
      ghost var b := Model(key);
      ghost var recorded := WithAttempt(b, limits, now);
      assert KeyMatches(key) && KeyOk(key);
      assert Ok(recorded, limits);
      buckets := buckets[key := recorded];
      if key in attempts {
        var entry := attempts[key];
        entry.timestamps := Active(entry.timestamps, limits.window, now) + [now];
      } else {
        var entry := new RateLimitEntry();
        entry.timestamps := [now];
        attempts := attempts[key := entry];
      }
      assert Asleeps(recorded) == Asleeps(b);
      assert KeyMatches(key);
      HoldersStill(key);
      OneKeyKeepsValid(key);
    }

    twostate lemma HoldingKeepsHolders(key: Key, new r: RateLimitReservation)
      requires old(Valid()) && fresh(r) && r.id == old(nextReservation) == nextReservation - 1 && r.key == key
               && !r.settled
      requires reservations == old(reservations)[r.id := r] && Model(key) == AdmittedTo(old(Model(key)), r.id)
      requires forall id :: id in old(reservations) ==> reservations[id].settled == old(reservations[id].settled)
      requires Holds(r) && if key in old(attempts) then r.entry == old(attempts)[key] else fresh(r.entry)
      ensures forall id :: id in reservations && reservations[id].key == key ==> ReservationMatches(id)
      ensures forall id :: Known(key, id)
      ensures r.id !in old(Model(key)).holders && r.id !in old(Model(key)).orphans && r.id !in old(reservations)
    {
      assert old(KeyMatches(key)) && old(KeyOk(key));
      assert old(Known(key, nextReservation));
      assert old(nextReservation in reservations ==> ReservationMatches(nextReservation));
      forall id | id in reservations && reservations[id].key == key ensures ReservationMatches(id) {
        if id != r.id { assert old(ReservationMatches(id)); }
      }
      forall id ensures Known(key, id) {
        assert old(Known(key, id));
      }
    }

    twostate lemma HoldingKeepsValid(key: Key, new r: RateLimitReservation)
      requires old(Valid()) && fresh(r) && r.id == old(nextReservation) == nextReservation - 1 && r.key == key
               && !r.settled
      requires reservations == old(reservations)[r.id := r] && waiters == old(waiters)
      requires buckets == old(buckets)[key := AdmittedTo(old(Model(key)), r.id)]
      requires attempts == old(attempts)[key := r.entry]
      requires if key in old(attempts) then r.entry == old(attempts)[key] else fresh(r.entry)
      requires r.entry.inFlight == 1 + if key in old(attempts) then old(attempts[key].inFlight) else 0
      requires r.entry.timestamps == if key in old(attempts) then old(attempts[key].timestamps) else []
      requires forall k :: k in old(attempts) && k != key ==> unchanged(old(attempts)[k])
      requires forall id :: id in old(reservations) ==> reservations[id].settled == old(reservations[id].settled)
      ensures Valid()
    {
      HoldingKeepsHolders(key, r);
      assert old(KeyMatches(key)) && old(KeyOk(key));
      AdmittedKeepsOk(old(Model(key)), limits, r.id);
      assert Asleeps(AdmittedTo(old(Model(key)), r.id)) == Asleeps(old(Model(key)));
      OneKeyKeepsValid(key);
    }

    method TakeSlot(key: Key) returns (r: RateLimitReservation)
      modifies this`attempts, this`buckets, this`reservations, this`nextReservation, EntryOf(key)
      ensures fresh(r) && r.id == old(nextReservation) == nextReservation - 1 && r.key == key && !r.settled
      ensures reservations == old(reservations)[r.id := r] && attempts == old(attempts)[key := r.entry]
      ensures buckets == old(buckets)[key := AdmittedTo(old(Model(key)), r.id)]
      ensures if key in old(attempts) then r.entry == old(attempts)[key] else fresh(r.entry)
      ensures r.entry.inFlight == 1 + if key in old(attempts) then old(attempts[key].inFlight) else 0
      ensures r.entry.timestamps == if key in old(attempts) then old(attempts[key].timestamps) else []
    {
      var entry: RateLimitEntry;
      if key in attempts {
        entry := attempts[key];
      } else {
        entry := new RateLimitEntry();
      }
      attempts := attempts[key := entry];
      entry.inFlight := entry.inFlight + 1;
      r := new RateLimitReservation(nextReservation, key, entry);
      nextReservation := nextReservation + 1;
      buckets := buckets[key := AdmittedTo(Model(key), r.id)];
      reservations := reservations[r.id := r];
    }

    /** One more attempt in flight, and the reservation that holds the entry for it. */
    method Hold(key: Key) returns (r: RateLimitReservation)
      requires Valid()
      modifies this`attempts, this`buckets, this`reservations, this`nextReservation, EntryOf(key)
      ensures Valid() && fresh(r) && r.id == old(nextReservation) && r.key == key && !r.settled
      ensures reservations == old(reservations)[r.id := r]
      ensures buckets == old(buckets)[key := AdmittedTo(old(Model(key)), r.id)]
    {
      assert EntriesDiffer() && (nextReservation in reservations ==> ReservationMatches(nextReservation));
      r := TakeSlot(key);
      HoldingKeepsValid(key, r);
    }

    method ClearTimestamps(key: Key)
      modifies this`attempts, EntryOf(key)
      ensures attempts ==
              if key in old(attempts) && old(attempts[key].inFlight) > 0 then old(attempts) else old(attempts) - {key}
      ensures key in attempts ==>
                attempts[key].timestamps == [] && attempts[key].inFlight == old(attempts[key].inFlight)
    {
      if key in attempts && attempts[key].inFlight > 0 {
        attempts[key].timestamps := [];
      } else {
        attempts := attempts - {key};
      }
    }

    twostate lemma ForgivingKeepsValid(key: Key)
      requires old(Valid()) && buckets == old(buckets)[key := Cleared(old(Model(key)))]
      requires waiters == old(waiters) && reservations == old(reservations) && nextReservation == old(nextReservation)
      requires attempts ==
               if key in old(attempts) && old(attempts[key].inFlight) > 0 then old(attempts) else old(attempts) - {key}
      requires key in attempts ==>
                 attempts[key].timestamps == [] && attempts[key].inFlight == old(attempts[key].inFlight)
      requires forall k :: k in attempts && k != key ==> unchanged(attempts[k])
      requires forall id :: id in reservations ==> unchanged(reservations[id])
      ensures Valid()
    {
      assert old(KeyMatches(key)) && old(KeyOk(key));
      assert Asleeps(Model(key)) == Asleeps(old(Model(key)));
      HoldersStill(key);
      OneKeyKeepsValid(key);
    }

    /** What was recorded is forgiven; attempts still in flight keep their entry. */
    method Forgive(key: Key)
      requires Valid()
      modifies this`attempts, this`buckets, EntryOf(key)
      ensures Valid() && buckets == old(buckets)[key := Cleared(old(Model(key)))]
    {
      assert EntriesDiffer();
      ClearTimestamps(key);
      buckets := buckets[key := Cleared(Model(key))];
      ForgivingKeepsValid(key);
    }

    /** Every waker of the key runs. */
    method Wake(key: Key)
      requires Valid()
      modifies this`waiters, this`buckets
      ensures Valid() && buckets == old(buckets)[key := Woke(old(Model(key)))]
    {
      ghost var b := Model(key);
      assert KeyMatches(key) && KeyOk(key);
      assert Ok(Woke(b), limits) by { AwokenCount(b.parked); }
      buckets := buckets[key := Woke(b)];
      if key in waiters {
        waiters := waiters[key := waiters[key].(wakers := {})];
      }
      assert Asleeps(Woke(b)) == {};
      assert KeyMatches(key);
      HoldersStill(key);
      OneKeyKeepsValid(key);
    }

    /** An entry's count is the unsettled reservations that hold that very entry. */
    lemma InFlightIsHeld(k: Key)
      requires Valid() && k in attempts
      ensures attempts[k].inFlight ==
              |set id | id in reservations && !reservations[id].settled && reservations[id].key == k
                && Holds(reservations[id])|
    {
      assert KeyMatches(k) && KeyOk(k);
      forall id ensures id in Model(k).holders <==>
                id in reservations && !reservations[id].settled && reservations[id].key == k && Holds(reservations[id])
      {
        assert Known(k, id);
        assert id in reservations ==> ReservationMatches(id);
      }
      assert Model(k).holders ==
             set id | id in reservations && !reservations[id].settled && reservations[id].key == k
               && Holds(reservations[id]);
    }

    // ----- Giving slots back -----

    twostate lemma SettlingKeepsHolders(r: RateLimitReservation)
      requires old(Valid()) && reservations == old(reservations) && nextReservation == old(nextReservation)
      requires r.id in reservations && reservations[r.id] == r && r.settled
      requires forall id :: id in reservations && reservations[id] != r ==>
                 reservations[id].settled == old(reservations[id].settled)
      requires Model(r.key).holders == old(Model(r.key)).holders - {r.id}
      requires Model(r.key).orphans == old(Model(r.key)).orphans - {r.id}
      requires if r.key in attempts then r.key in old(attempts) && attempts[r.key] == old(attempts)[r.key]
               else Model(r.key).holders == {}
      ensures forall id :: id in reservations && reservations[id].key == r.key ==> ReservationMatches(id)
      ensures forall id :: Known(r.key, id)
    {
      forall id | id in reservations && reservations[id].key == r.key ensures ReservationMatches(id) {
        assert old(ReservationMatches(id));
      }
      forall id ensures Known(r.key, id) {
        assert old(Known(r.key, id));
      }
    }

    method Release(r: RateLimitReservation, record: bool, now: int)
      requires Holds(r)
      modifies this`attempts, this`buckets, r`settled, r.entry
      ensures r.settled
      ensures buckets == old(buckets)[r.key := GivenBack(old(Model(r.key)), limits, r.id, record, now)]
      ensures r.entry.inFlight == if old(r.entry.inFlight) >= 1 then old(r.entry.inFlight) - 1 else 0
      ensures r.entry.timestamps ==
              if record then Active(old(r.entry.timestamps), limits.window, now) + [now] else old(r.entry.timestamps)
      ensures attempts ==
              if r.entry.timestamps == [] && r.entry.inFlight == 0 then old(attempts) - {r.key} else old(attempts)
    {
      r.settled := true;
      buckets := buckets[r.key := GivenBack(Model(r.key), limits, r.id, record, now)];
      var entry := r.entry;
      entry.inFlight := if entry.inFlight >= 1 then entry.inFlight - 1 else 0;
      if record {
        entry.timestamps := Active(entry.timestamps, limits.window, now) + [now];
      } else if entry.timestamps == [] && entry.inFlight == 0 {
        attempts := attempts - {r.key};
      }
    }

    /** A reservation that still holds its key's entry gives its slot back to it. */
    method GiveBack(r: RateLimitReservation, record: bool, now: int)
      requires Valid() && r.id in reservations && reservations[r.id] == r && !r.settled && Holds(r)
      modifies this`attempts, this`buckets, r`settled, r.entry
      ensures Valid() && r.settled
      ensures buckets == old(buckets)[r.key := GivenBack(old(Model(r.key)), limits, r.id, record, now)]
    {
      ghost var b := Model(r.key);
      ghost var given := GivenBack(b, limits, r.id, record, now);
      assert KeyMatches(r.key) && ReservationMatches(r.id) && KeyOk(r.key) && EntriesDiffer();
      assert Ok(given, limits) by { GivenBackKeepsOk(b, limits, r.id, record, now); }
      Release(r, record, now);
      assert Asleeps(given) == Asleeps(b);
      assert KeyMatches(r.key);
      SettlingKeepsHolders(r);
      OneKeyKeepsValid(r.key);
    }

    /** One whose entry was evicted has no count to give back. */
    method DropOrphan(r: RateLimitReservation)
      requires Valid() && r.id in reservations && reservations[r.id] == r && !r.settled && !Holds(r)
      modifies this`buckets, r`settled
      ensures Valid() && r.settled && buckets == old(buckets)[r.key := Dropped(old(Model(r.key)), r.id)]
    {
      ghost var b := Model(r.key);
      assert KeyMatches(r.key) && ReservationMatches(r.id) && KeyOk(r.key);
      r.settled := true;
      buckets := buckets[r.key := Dropped(b, r.id)];
      assert Asleeps(Dropped(b, r.id)) == Asleeps(b);
      assert KeyMatches(r.key);
      SettlingKeepsHolders(r);
      OneKeyKeepsValid(r.key);
    }

    // ----- Parking -----

    /** A change to `key`'s waiters alone. */
    twostate lemma WaitersKeepValid(key: Key)
      requires old(Valid()) && attempts == old(attempts) && reservations == old(reservations)
               && nextReservation == old(nextReservation)
      requires forall k :: k in attempts ==> unchanged(attempts[k])
      requires forall id :: id in reservations ==> unchanged(reservations[id])
      requires buckets == old(buckets)[key := Model(key)] && Ok(Model(key), limits)
      requires Model(key) == old(Model(key)).(count := Model(key).count, parked := Model(key).parked)
      requires forall k :: k != key ==>
                 (k in waiters <==> k in old(waiters)) && (k in waiters ==> waiters[k] == old(waiters)[k])
      requires key in waiters <==> Model(key).count > 0
      requires key in waiters ==> waiters[key] == KeyWaiters(Model(key).count, Asleeps(Model(key)))
      ensures Valid()
    {
      assert old(KeyMatches(key));
      HoldersStill(key);
      OneKeyKeepsValid(key);
    }

    /** The last one out removes the key's slot. */
    method LeaveSlot(key: Key)
      requires key in waiters && waiters[key].count > 0
      modifies this`waiters
      ensures var left := KeyWaiters(old(waiters[key].count) - 1, old(waiters[key].wakers));
              waiters == if left.count == 0 then old(waiters) - {key} else old(waiters)[key := left]
    {
      waiters := waiters[key := KeyWaiters(waiters[key].count - 1, waiters[key].wakers)];
      if waiters[key].count <= 0 {
        waiters := waiters - {key};
      }
    }

    /** A call whose wait is over leaves the key's waiters. */
    method Leave(key: Key, call: CallId)
      requires Valid() && call in Model(key).parked && !Model(key).parked[call].Asleep?
      modifies this`waiters, this`buckets
      ensures Valid() && buckets == old(buckets)[key := Left(old(Model(key)), call)]
    {
      ghost var b := Model(key);
      assert KeyMatches(key) && KeyOk(key);
      LeftKeepsOk(b, limits, call);
      assert b.count > 0 by { KeyCounts(b.parked, call, Leaving); }
      LeaveSlot(key);
      buckets := buckets[key := Left(b, call)];
      assert Asleeps(Left(b, call)) == Asleeps(b);
      WaitersKeepValid(key);
    }

    /** Its timer fires or its signal aborts while it sleeps: its waker is taken off the key. */
    method GiveUp(key: Key, call: CallId)
      requires Valid() && IsAsleep(Model(key), call)
      modifies this`waiters, this`buckets
      ensures Valid() && buckets == old(buckets)[key := GaveUp(old(Model(key)), call)]
    {
      ghost var b := Model(key);
      assert KeyMatches(key) && KeyOk(key);
      KeyCounts(b.parked, call, Leaving);
      waiters := waiters[key := waiters[key].(wakers := waiters[key].wakers - {call})];
      buckets := buckets[key := GaveUp(b, call)];
      assert Asleeps(GaveUp(b, call)) == Asleeps(b) - {call};
      WaitersKeepValid(key);
    }

    /** What parking makes of `key`'s slot: counted in, counted out again when time is already up. */
    method ParkSlot(key: Key, call: CallId, parked: bool, expired: bool, aborted: bool) returns (waits: bool)
      requires parked ==> key in waiters && waiters[key].count > 0
      modifies this`waiters
      ensures forall k :: k != key ==>
                (k in waiters <==> k in old(waiters)) && (k in waiters ==> waiters[k] == old(waiters)[k])
      ensures var slot := if key in old(waiters) then old(waiters)[key] else KeyWaiters(0, {});
              var full := !parked && key in old(waiters) && slot.count >= limits.max;
              var count: int := if full then slot.count
                else slot.count + (if parked then 0 else 1) - (if expired then 1 else 0);
              && (waits <==> !full && !expired)
              && (key in waiters <==> count > 0 || (full && count == 0))
              && (key in waiters ==>
                    waiters[key] == KeyWaiters(count, if waits && !aborted then slot.wakers + {call} else slot.wakers))
    {
      if !parked {
        if key in waiters && waiters[key].count >= limits.max {
          return false;
        }
        if key !in waiters {
          waiters := waiters[key := KeyWaiters(0, {})];
        }
        waiters := waiters[key := waiters[key].(count := waiters[key].count + 1)];
      }
      if expired {
        LeaveSlot(key);
      } else if !aborted {
        waiters := waiters[key := waiters[key].(wakers := waiters[key].wakers + {call})];
      }
      waits := !expired;
    }

    lemma AsleepsParked(b: Bucket, limits: Limits, call: CallId, parked: bool, now: int, expired: bool, aborted: bool)
      requires parked <==> call in b.parked
      requires parked ==> b.parked[call].Woken?
      ensures var (d, reply) := Parked(b, limits, call, parked, now, expired, aborted);
              Asleeps(d) == if reply.Waits? && !aborted then Asleeps(b) + {call} else Asleeps(b)
    {
    }

    /** `key`'s slot in the waiters map is what `b` says. */
    ghost predicate SlotMatches(key: Key, b: Bucket)
      reads this
    {
      (key in waiters <==> b.count > 0) && (key in waiters ==> waiters[key] == KeyWaiters(b.count, Asleeps(b)))
    }

    method DoPark(key: Key, call: CallId, parked: bool, now: int, expired: bool, aborted: bool, ghost b: Bucket)
      returns (waits: bool)
      requires SlotMatches(key, b) && limits.max > 0 && (parked <==> call in b.parked)
      requires b.count == |b.parked.Keys| && (parked ==> b.parked[call].Woken? && b.count > 0)
      modifies this`waiters
      ensures forall k :: k != key ==>
                (k in waiters <==> k in old(waiters)) && (k in waiters ==> waiters[k] == old(waiters)[k])
      ensures var (d, reply) := Parked(b, limits, call, parked, now, expired, aborted);
              SlotMatches(key, d) && (waits <==> reply.Waits?)
    {
      assert b.count == 0 ==> b.parked.Keys == {};
      waits := ParkSlot(key, call, parked, expired, aborted);
      AsleepsParked(b, limits, call, parked, now, expired, aborted);
    }

    /** The key is at its cap in flight: too many wait already, or the call parks until a wake. */
    method Park(key: Key, call: CallId, parked: bool, now: int, expired: bool, aborted: bool) returns (waits: bool)
      requires Valid() && limits.max > 0 && (parked <==> call in Model(key).parked)
      requires parked ==> Model(key).parked[call].Woken?
      modifies this`waiters, this`buckets
      ensures Valid()
      ensures buckets == old(buckets)[key := Parked(old(Model(key)), limits, call, parked, now, expired, aborted).0]
      ensures waits <==> Parked(old(Model(key)), limits, call, parked, now, expired, aborted).1.Waits?
    {
      ghost var b := Model(key);
      ghost var d := Parked(b, limits, call, parked, now, expired, aborted).0;
      assert KeyMatches(key) && KeyOk(key);
      assert Ok(d, limits) by { ParkedKeepsOk(b, limits, call, parked, now, expired, aborted); }
      assert parked ==> b.count > 0 by { KeyCounts(b.parked, call, Leaving); }
      assert d == b.(count := d.count, parked := d.parked);
      waits := DoPark(key, call, parked, now, expired, aborted, b);
      buckets := buckets[key := d];
      WaitersKeepValid(key);
    }

    // ----- The limiter's operations -----

    method Load(key: Key, now: int) returns (load: Load)
      requires Valid()
      modifies this`attempts, this`buckets, EntryOf(key)
      ensures Valid() && buckets == old(buckets)[key := Loaded(old(Model(key)), limits, now)]
      ensures load == LoadOf(old(Model(key)), limits, now)
      ensures attempts == old(attempts) || attempts == old(attempts) - {key}
    {
      if limits.max == 0 {
        load := Recorded(if CeilSeconds(limits.window) < 1 then 1 else CeilSeconds(limits.window));
        buckets := buckets[key := Model(key)];
        SameModel(key);
        return;
      }
      Sweep(key, now);
      assert KeyMatches(key);
      if key !in attempts {
        return Free(0);
      }
      var entry := attempts[key];
      if |entry.timestamps| >= limits.max {
        return Recorded(CeilSeconds(entry.timestamps[0] + limits.window - now));
      }
      var used := |entry.timestamps| + entry.inFlight;
      load := if used < limits.max then Free(used) else InFlight;
    }

    method Check(key: Key, now: int) returns (answer: Answer)
      requires Valid()
      modifies this`attempts, this`buckets, EntryOf(key)
      ensures Valid() && buckets == old(buckets)[key := Step(old(Model(key)), limits, Event.Check(now))]
      ensures attempts == old(attempts) || attempts == old(attempts) - {key}
      ensures answer.allowed <==> LoadOf(old(Model(key)), limits, now).Free?
      ensures answer.allowed ==> answer.retryAfter == 0 && 0 < answer.remaining <= limits.max
      ensures match LoadOf(old(Model(key)), limits, now)
              case Free(used) => answer == Answer(true, limits.max - used, 0)
              case Recorded(retryAfter) => answer == Answer(false, 0, retryAfter)
              case InFlight => answer == Answer(false, 0, IN_FLIGHT_RETRY_AFTER_SECONDS)
    {
      var load := Load(key, now);
      match load
      case Free(used) => answer := Answer(true, limits.max - used, 0);
      case Recorded(retryAfter) => answer := Answer(false, 0, retryAfter);
      case InFlight => answer := Answer(false, 0, IN_FLIGHT_RETRY_AFTER_SECONDS);
    }

    method AddAttempt(key: Key, now: int) returns (ghost victim: Option<Key>)
      requires Valid()
      modifies this`attempts, this`buckets, EntryOf(key)
      ensures Valid() && MayEvict(old(attempts), key, victim) && key in attempts
      ensures buckets == Room(old(buckets), victim)[key := WithAttempt(old(Model(key)), limits, now)]
    {
      victim := MakeRoom(key);
      PushAttempt(key, now);
    }

    /** An attempt recorded outright; the answer says whether the key is still within its cap. */
    method Record(key: Key, now: int) returns (answer: Answer, ghost victim: Option<Key>)
      requires Valid()
      modifies this`attempts, this`buckets, this`waiters, EntryOf(key)
      ensures Valid() && MayEvict(old(attempts), key, victim)
      ensures buckets == Room(old(buckets), victim)[key := Step(old(Model(key)), limits, Event.Record(now))]
      ensures var b := Model(key);
              answer == if |b.timestamps| + b.inFlight <= limits.max
                        then Answer(true, limits.max - |b.timestamps| - b.inFlight, 0)
                        else Answer(false, 0, CeilSeconds(b.timestamps[0] + limits.window - now))
    {
      victim := AddAttempt(key, now);
      assert KeyMatches(key);
      var entry := attempts[key];
      var count := |entry.timestamps| + entry.inFlight;
      if count <= limits.max {
        answer := Answer(true, limits.max - count, 0);
      } else {
        answer := Answer(false, 0, CeilSeconds(entry.timestamps[0] + limits.window - now));
      }
      Wake(key);
    }

    /** An attempt in flight for a key found free. */
    method Admit(key: Key) returns (r: RateLimitReservation, ghost victim: Option<Key>)
      requires Valid()
      modifies this`attempts, this`buckets, this`reservations, this`nextReservation, EntryOf(key)
      ensures Valid() && MayEvict(old(attempts), key, victim)
      ensures fresh(r) && r.id == old(nextReservation) && r.key == key && !r.settled
      ensures reservations == old(reservations)[r.id := r]
      ensures buckets == Room(old(buckets), victim)[key := AdmittedTo(old(Model(key)), r.id)]
    {
      victim := MakeRoom(key);
      r := Hold(key);
    }

    /** The reservation, or the seconds to wait. */
    method TryReserve(key: Key, now: int)
      returns (r: RateLimitReservation?, retryAfter: int, ghost victim: Option<Key>)
      requires Valid()
      modifies this`attempts, this`buckets, this`reservations, this`nextReservation, EntryOf(key)
      ensures Valid()
      ensures buckets == Room(old(buckets), victim)[key :=
                Step(old(Model(key)), limits, Event.TryReserve(old(nextReservation), now))]
      ensures r != null <==> LoadOf(old(Model(key)), limits, now).Free?
      ensures r != null ==> fresh(r) && reservations == old(reservations)[r.id := r] && r.id == old(nextReservation)
      ensures r == null ==> victim.None? && reservations == old(reservations)
      ensures r == null ==>
                var load := LoadOf(old(Model(key)), limits, now);
                retryAfter == if load.Recorded? then load.retryAfter else IN_FLIGHT_RETRY_AFTER_SECONDS
      ensures MayEvict(old(attempts), key, victim)
    {
      r, victim := null, None;
      var checked := Check(key, now);
      retryAfter := checked.retryAfter;
      if checked.allowed {
        r, victim := Admit(key);
      }
    }

    method Reset(key: Key)
      requires Valid()
      modifies this`attempts, this`buckets, this`waiters, EntryOf(key)
      ensures Valid() && buckets == old(buckets)[key := Step(old(Model(key)), limits, Event.Reset)]
    {
      Forgive(key);
      Wake(key);
    }

    /** Settling is idempotent: the first call wins, and later ones do nothing. */
    method Settle(r: RateLimitReservation, record: bool, now: int) returns (ghost victim: Option<Key>)
      requires Valid() && r.id in reservations && reservations[r.id] == r
      modifies this`attempts, this`buckets, this`waiters, r`settled, EntryOf(r.key)
      ensures Valid() && r.settled
      ensures buckets == if old(r.settled) then old(buckets)
                         else Room(old(buckets), victim)[r.key :=
                                Step(old(Model(r.key)), limits, Event.Settle(r.id, record, now))]
      ensures MayEvict(old(attempts), r.key, victim)
    {
      victim := None;
      if r.settled {
        return;
      }
      assert ReservationMatches(r.id) && KeyOk(r.key);
      if r.key in attempts && attempts[r.key] == r.entry {
        GiveBack(r, record, now);
        Wake(r.key);
      } else {
        DropOrphan(r);
        if record {
          var _, v := Record(r.key, now);
          victim := v;
        } else {
          Wake(r.key);
        }
      }
    }

    /** What a loaded call does: takes its slot, is refused, or waits. */
    method TakeTurn(key: Key, load: Load, call: CallId, parked: bool, now: int, expired: bool, aborted: bool)
      returns (reply: Reply, r: RateLimitReservation?, ghost victim: Option<Key>)
      requires Valid() && limits.max > 0 && (parked <==> call in Model(key).parked)
      requires parked ==> Model(key).parked[call].Woken?
      modifies this`attempts, this`buckets, this`waiters, this`reservations, this`nextReservation, EntryOf(key)
      ensures Valid() && MayEvict(old(attempts), key, victim)
      ensures buckets == Room(old(buckets), victim)[key :=
                Turn(old(Model(key)), load, limits, call, parked, old(nextReservation), now, expired, aborted).0]
      ensures reply == Turn(old(Model(key)), load, limits, call, parked, old(nextReservation), now, expired, aborted).1
      ensures reply.Reserved? <==> r != null
      ensures r != null ==> fresh(r) && reservations == old(reservations)[r.id := r] && r.id == old(nextReservation)
    {
      r, victim := null, None;
      if load.InFlight? {
        var waits := Park(key, call, parked, now, expired, aborted);
        reply := if waits then Waits else Refused(IN_FLIGHT_RETRY_AFTER_SECONDS);
        return;
      }
      if parked {
        Leave(key, call);
      } else {
        buckets := buckets[key := Model(key)];
        SameModel(key);
      }
      if load.Recorded? {
        reply := Refused(load.retryAfter);
        return;
      }
      r, victim := Admit(key);
      reply := Reserved;
      RoomCommutes(old(buckets), victim, key, LeftIf(old(Model(key)), call, parked), Model(key));
    }

    /** One turn of a reservation's retry loop. */
    method Decide(key: Key, call: CallId, parked: bool, now: int, expired: bool, aborted: bool)
      returns (reply: Reply, r: RateLimitReservation?, ghost victim: Option<Key>)
      requires Valid() && (parked <==> call in Model(key).parked)
      requires parked ==> limits.max > 0 && Model(key).parked[call].Woken?
      modifies this`attempts, this`buckets, this`waiters, this`reservations, this`nextReservation, EntryOf(key)
      ensures Valid() && MayEvict(old(attempts), key, victim)
      ensures buckets == Room(old(buckets), victim)[key :=
                Decided(old(Model(key)), limits, call, parked, old(nextReservation), now, expired, aborted).0]
      ensures reply == Decided(old(Model(key)), limits, call, parked, old(nextReservation), now, expired, aborted).1
      ensures reply.Reserved? <==> r != null
      ensures r != null ==> fresh(r) && reservations == old(reservations)[r.id := r] && r.id == old(nextReservation)
    {
      var load := Load(key, now);
      if limits.max == 0 {
        return Refused(load.retryAfter), null, None;
      }
      reply, r, victim := TakeTurn(key, load, call, parked, now, expired, aborted);
      RoomCommutes(old(buckets), victim, key, Loaded(old(Model(key)), limits, now), Model(key));
    }

    /** `reserve` up to its answer or its first wait; the call is new. */
    method Reserve(key: Key, call: CallId, now: int, expired: bool, aborted: bool)
      returns (reply: Reply, r: RateLimitReservation?, ghost victim: Option<Key>)
      requires Valid() && call !in Model(key).parked
      modifies this`attempts, this`buckets, this`waiters, this`reservations, this`nextReservation, EntryOf(key)
      ensures Valid() && MayEvict(old(attempts), key, victim)
      ensures buckets == Room(old(buckets), victim)[key :=
                Step(old(Model(key)), limits, Event.Arrive(call, old(nextReservation), now, expired, aborted))]
      ensures Decision(limits, old(Model(key)), Model(key), reply, call, old(nextReservation), now, expired, aborted)
      ensures reply == Decided(old(Model(key)), limits, call, false, old(nextReservation), now, expired, aborted).1
      ensures reply.Reserved? <==> r != null
      ensures r != null ==> fresh(r) && reservations == old(reservations)[r.id := r] && r.id == old(nextReservation)
    {
      assert KeyOk(key);
      ArrivalDecides(Model(key), limits, call, nextReservation, now, expired, aborted);
      reply, r, victim := Decide(key, call, false, now, expired, aborted);
    }

    /** `reserve` from a resolved wait up to its answer or its next wait. */
    method Resume(key: Key, call: CallId, woke: bool, now: int, expired: bool, aborted: bool)
      returns (reply: Reply, r: RateLimitReservation?, ghost victim: Option<Key>)
      requires Valid() && call in Model(key).parked
      requires Model(key).parked[call] == if woke then Woken else Leaving
      modifies this`attempts, this`buckets, this`waiters, this`reservations, this`nextReservation, EntryOf(key)
      ensures Valid() && MayEvict(old(attempts), key, victim)
      ensures buckets == Room(old(buckets), victim)[key :=
                Step(old(Model(key)), limits, Event.Resume(call, old(nextReservation), now, expired, aborted))]
      ensures woke ==>
                Decision(limits, old(Model(key)), Model(key), reply, call, old(nextReservation), now, expired, aborted)
      ensures !woke ==> reply == Refused(1) && Departs(old(Model(key)), Model(key), call)
      ensures reply == Resumed(old(Model(key)), limits, call, old(nextReservation), now, expired, aborted).1
      ensures reply.Reserved? <==> r != null
      ensures r != null ==> fresh(r) && reservations == old(reservations)[r.id := r] && r.id == old(nextReservation)
    {
      assert KeyOk(key);
      ResumedDecides(Model(key), limits, call, nextReservation, now, expired, aborted);
      if woke {
        reply, r, victim := Decide(key, call, true, now, expired, aborted);
      } else {
        Leave(key, call);
        return Refused(IN_FLIGHT_RETRY_AFTER_SECONDS), null, None;
      }
    }

    /** Prunes every key tracked at the start; each is visited once. */
    method Cleanup(now: int)
      requires Valid()
      modifies this`attempts, this`buckets, attempts.Values
      ensures Valid()
      ensures forall k :: Model(k) == Swept(old(Model(k)), limits, now)
    {
      var left := attempts.Keys;
      ghost var were := attempts;
      forall k | k !in attempts ensures Swept(Model(k), limits, now) == Model(k) {
        assert KeyMatches(k);
      }
      while left != {}
        invariant Valid() && forall k :: k in attempts ==> k in were && attempts[k] == were[k]
        invariant forall k :: Model(k) == if k in left then old(Model(k)) else Swept(old(Model(k)), limits, now)
        decreases |left|
      {
        var k :| k in left;
        assert EntryOf(k) <= were.Values;
        Sweep(k, now);
        left := left - {k};
      }
    }
  }
}
