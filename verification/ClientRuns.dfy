/** The client over single events: conservation, the wire, the queue and the lifecycle are kept. */
module ClientRuns {
  import opened Common
  import opened ClientModel

  // ----- Lists of entries -----

  lemma IdsConcat(a: seq<Entry>, b: seq<Entry>)
    ensures IdsOf(a + b) == IdsOf(a) + IdsOf(b)
  {
  }

  lemma SettledConcat(a: seq<Settlement>, b: seq<Settlement>)
    ensures SettledIds(a + b) == SettledIds(a) + SettledIds(b)
  {
  }

  lemma AllSettledIds(es: seq<Entry>, outcome: Outcome)
    ensures SettledIds(AllSettled(es, outcome)) == IdsOf(es)
  {
  }

  lemma HasIsCounted(es: seq<Entry>, id: Id)
    ensures Has(es, id) <==> id in IdsOf(es)
    ensures Has(es, id) <==> multiset(IdsOf(es))[id] >= 1
  {
    if Has(es, id) {
      var i :| 0 <= i < |es| && es[i].id == id;
      assert IdsOf(es)[i] == id;
    }
  }

  lemma OneMoreId(init: seq<Entry>, last: Entry)
    ensures multiset(IdsOf(init + [last])) == multiset(IdsOf(init)) + multiset{last.id}
    ensures Remove(init + [last], last.id) == Remove(init, last.id)
    ensures forall id :: id != last.id ==> Remove(init + [last], id) == Remove(init, id) + [last]
  {
    IdsConcat(init, [last]);
    assert IdsOf([last]) == [last.id];
    assert (init + [last])[..|init|] == init;
    assert Remove(init, last.id) + [] == Remove(init, last.id);
  }

  lemma {:induction false} RemoveSplits(es: seq<Entry>, id: Id)
    requires multiset(IdsOf(es))[id] <= 1
    ensures multiset(IdsOf(es)) == multiset(IdsOf(Remove(es, id))) + if Has(es, id) then multiset{id} else multiset{}
    ensures Has(es, id) || Remove(es, id) == es
  {
    HasIsCounted(es, id);
    if es != [] {
      var init, last := es[..|es| - 1], es[|es| - 1];
      assert es == init + [last];
      OneMoreId(init, last);
      HasIsCounted(init, id);
      RemoveSplits(init, id);
      if last.id != id {
        OneMoreId(Remove(init, id), last);
      }
    }
  }

  lemma {:induction false} RemoveKeepsOrder(es: seq<Entry>, id: Id)
    requires InCallOrder(es)
    ensures InCallOrder(Remove(es, id)) && |Remove(es, id)| <= |es|
    ensures forall e :: e in Remove(es, id) <==> e in es && e.id != id
  {
    WhereIn(es, OtherThan(id));
    if es != [] {
      var init := es[..|es| - 1];
      RemoveKeepsOrder(init, id);
      var rest := Remove(init, id);
      assert forall i :: 0 <= i < |rest| ==> rest[i] in rest;
    }
  }

  // ----- Settling -----

  /** Where an unsettled id is. */
  lemma OneOfThree(c: Client, rest: seq<Entry>, id: Id)
    requires Conserved(c, rest)
    ensures multiset(IdsOf(c.pending))[id] + multiset(IdsOf(c.queue))[id] + multiset(IdsOf(rest))[id]
            + multiset(SettledIds(c.settled))[id] <= 1
  {
    DistinctOnce(c.made, id);
  }

  lemma SettledOne(c: Client, id: Id, outcome: Outcome)
    ensures multiset(SettledIds(SettledAs(c, id, outcome).settled)) == multiset(SettledIds(c.settled)) + multiset{id}
  {
    SettledConcat(c.settled, [Settlement(id, outcome)]);
    assert SettledIds([Settlement(id, outcome)]) == [id];
  }

  lemma PendingRejectedKeeps(c: Client, rest: seq<Entry>, code: Code)
    requires Conserved(c, rest) && WireOk(c, rest)
    ensures Conserved(PendingRejected(c, code), rest) && WireOk(PendingRejected(c, code), rest)
  {
    SettledConcat(c.settled, AllSettled(c.pending, Rejected(code)));
    AllSettledIds(c.pending, Rejected(code));
    assert IdsOf([]) == [];
  }

  lemma AllRejectedKeeps(c: Client, code: Code)
    requires Conserved(c, []) && WireOk(c, [])
    ensures Conserved(AllRejected(c, code), []) && WireOk(AllRejected(c, code), [])
  {
    var first := c.settled + AllSettled(c.pending, Rejected(code));
    SettledConcat(c.settled, AllSettled(c.pending, Rejected(code)));
    SettledConcat(first, AllSettled(c.queue, Rejected(code)));
    AllSettledIds(c.pending, Rejected(code));
    AllSettledIds(c.queue, Rejected(code));
    assert IdsOf([]) == [];
  }

  // ----- Writing a request -----

  /** A request counted nowhere yet is settled on the spot. */
  lemma SettledHere(c: Client, t: Client, rest: seq<Entry>, e: Entry, outcome: Outcome)
    requires Conserved(c, rest + [e]) && WireOk(c, rest + [e]) && t == SettledAs(c, e.id, outcome)
    ensures Conserved(t, rest) && WireOk(t, rest)
  {
    SettledOne(c, e.id, outcome);
    IdsConcat(rest, [e]);
    assert IdsOf([e]) == [e.id];
  }

  lemma WrittenMore(wire: seq<Wire>, j: nat, id: Id, w: Wire)
    requires j <= |wire|
    ensures Written(wire + [w], j, id) <==> Written(wire, j, id)
  {
    assert forall i :: 0 <= i < j ==> (wire + [w])[i] == wire[i];
  }

  lemma WrittenConserved(c: Client, rest: seq<Entry>, e: Entry)
    requires Conserved(c, rest + [e])
    ensures Conserved(c.(pending := c.pending + [e], wire := c.wire + [RequestFrame(e.id)]), rest)
    ensures e.id in c.made && !Has(c.queue, e.id) && !Has(rest, e.id)
  {
    IdsConcat(rest, [e]);
    IdsConcat(c.pending, [e]);
    assert IdsOf([e]) == [e.id];
    OneOfThree(c, rest + [e], e.id);
    HasIsCounted(c.queue, e.id);
    HasIsCounted(rest, e.id);
    assert e.id in multiset(c.made);
  }

  lemma RequestWritten(c: Client, rest: seq<Entry>, e: Entry)
    requires Conserved(c, rest + [e]) && WireOk(c, rest + [e])
    ensures var t := c.(pending := c.pending + [e], wire := c.wire + [RequestFrame(e.id)]);
            Conserved(t, rest) && WireOk(t, rest)
  {
    var t := c.(pending := c.pending + [e], wire := c.wire + [RequestFrame(e.id)]);
    WrittenConserved(c, rest, e);
    assert e in rest + [e];
    forall f | f in t.queue || f in rest
      ensures RequestFrame(f.id) !in t.wire
    {
      assert f in rest ==> f in rest + [e];
    }
    forall j | 0 <= j < |t.wire| && t.wire[j].CancelFrame?
      ensures Written(t.wire, j, t.wire[j].of)
    {
      WrittenMore(c.wire, j, t.wire[j].of, RequestFrame(e.id));
      assert t.wire[j] == c.wire[j];
    }
  }

  // ----- Requests, aborts and responses -----

  lemma NumberedKeeps(c: Client, explicit: Option<Id>, e: Entry)
    requires Conserved(c, []) && WireOk(c, []) && e.id == TakeId(c, explicit)
    requires e.id !in c.made && (explicit.Some? ==> explicit.value.Explicit?)
    ensures Conserved(Numbered(c, explicit), [e]) && WireOk(Numbered(c, explicit), [e])
  {
    var t := Numbered(c, explicit);
    assert multiset(t.made) == multiset(c.made) + multiset{e.id};
    assert IdsOf([e]) == [e.id] && IdsOf([]) == [];
    assert Distinct(t.made) by { assert forall i :: 0 <= i < |c.made| ==> c.made[i] in c.made; }
    assert RequestFrame(e.id) !in c.wire;
    forall f | f in t.queue
      ensures RequestFrame(f.id) !in t.wire
    {
    }
  }

  lemma EnqueuedKeeps(c: Client, e: Entry)
    requires Conserved(c, [e]) && WireOk(c, [e])
    ensures Conserved(c.(queue := c.queue + [e]), []) && WireOk(c.(queue := c.queue + [e]), [])
  {
    IdsConcat(c.queue, [e]);
    assert IdsOf([]) == [];
  }

  lemma RequestKeepsQueue(c: Client, config: Config, explicit: Option<Id>, hasSignal: bool, durable: bool, sends: bool)
    requires QueueOk(c, config)
    ensures QueueOk(Requested(c, config, explicit, hasSignal, durable, sends), config)
  {
  }

  lemma RequestKeepsData(c: Client, config: Config, explicit: Option<Id>, hasSignal: bool, durable: bool, sends: bool)
    requires Conserved(c, []) && WireOk(c, []) && QueueOk(c, config)
    requires TakeId(c, explicit) !in c.made && (explicit.Some? ==> explicit.value.Explicit?)
    ensures var t := Requested(c, config, explicit, hasSignal, durable, sends);
            Conserved(t, []) && WireOk(t, []) && QueueOk(t, config)
  {
    RequestKeepsQueue(c, config, explicit, hasSignal, durable, sends);
    if !c.revoked {
      var e := Entry(TakeId(c, explicit), |c.made|, hasSignal);
      NumberedKeeps(c, explicit, e);
      TakenKeeps(Numbered(c, explicit), e);
    }
  }

  /** A numbered request: sent, queued, or settled at once. */
  lemma TakenKeeps(n: Client, e: Entry)
    requires Conserved(n, [e]) && WireOk(n, [e])
    ensures var sent := n.(pending := n.pending + [e], wire := n.wire + [RequestFrame(e.id)]);
            Conserved(sent, []) && WireOk(sent, [])
    ensures var queued := n.(queue := n.queue + [e]); Conserved(queued, []) && WireOk(queued, [])
    ensures forall outcome :: Conserved(SettledAs(n, e.id, outcome), []) && WireOk(SettledAs(n, e.id, outcome), [])
  {
    assert [] + [e] == [e];
    RequestWritten(n, [], e);
    EnqueuedKeeps(n, e);
    forall outcome
      ensures Conserved(SettledAs(n, e.id, outcome), []) && WireOk(SettledAs(n, e.id, outcome), [])
    {
      SettledHere(n, SettledAs(n, e.id, outcome), [], e, outcome);
    }
  }

  /** Taking an unsettled id out of where it is and settling it. */
  lemma TakenOutKeeps(c: Client, t: Client, id: Id, outcome: Outcome)
    requires Conserved(c, []) && WireOk(c, []) && (Has(c.pending, id) || Has(c.queue, id))
    requires t == SettledAs(c.(pending := Remove(c.pending, id), queue := Remove(c.queue, id)), id, outcome)
    ensures Conserved(t, []) && WireOk(t, [])
    ensures !(Has(c.pending, id) && Has(c.queue, id))
  {
    OneOfThree(c, [], id);
    HasIsCounted(c.pending, id);
    HasIsCounted(c.queue, id);
    RemoveSplits(c.pending, id);
    RemoveSplits(c.queue, id);
    SettledOne(c, id, outcome);
    WhereIn(c.pending, OtherThan(id));
    WhereIn(c.queue, OtherThan(id));
  }

  lemma CancelWritten(c: Client, id: Id)
    requires WireOk(c, []) && RequestFrame(id) in c.wire
    ensures WireOk(c.(wire := c.wire + [CancelFrame(id)]), [])
  {
    var t := c.(wire := c.wire + [CancelFrame(id)]);
    forall j | 0 <= j < |t.wire| && t.wire[j].CancelFrame?
      ensures Written(t.wire, j, t.wire[j].of)
    {
      WrittenMore(c.wire, j, t.wire[j].of, CancelFrame(id));
      assert j < |c.wire| ==> t.wire[j] == c.wire[j];
      if j == |c.wire| {
        var i :| 0 <= i < |c.wire| && c.wire[i] == RequestFrame(id);
        assert Written(c.wire, |c.wire|, id);
      }
    }
  }

  lemma AbortKeepsData(c: Client, config: Config, id: Id, sends: bool)
    requires Conserved(c, []) && WireOk(c, []) && QueueOk(c, config) && (Has(c.pending, id) || Has(c.queue, id))
    ensures Conserved(Aborted(c, id, sends), []) && WireOk(Aborted(c, id, sends), [])
            && QueueOk(Aborted(c, id, sends), config)
  {
    var dropped := SettledAs(c.(pending := Remove(c.pending, id), queue := Remove(c.queue, id)), id,
                             Rejected(RequestCancelled));
    TakenOutKeeps(c, dropped, id, Rejected(RequestCancelled));
    RemoveKeepsOrder(c.queue, id);
    if Has(c.pending, id) {
      var i :| 0 <= i < |c.pending| && c.pending[i].id == id;
      assert c.pending[i] in c.pending;
      CancelWritten(dropped, id);
    }
  }

  lemma ResponseKeepsData(c: Client, config: Config, id: Id, outcome: Outcome)
    requires Conserved(c, []) && WireOk(c, []) && QueueOk(c, config)
    ensures Conserved(Answered(c, id, outcome), []) && WireOk(Answered(c, id, outcome), [])
            && QueueOk(Answered(c, id, outcome), config)
  {
    if Has(c.pending, id) {
      OneOfThree(c, [], id);
      HasIsCounted(c.pending, id);
      HasIsCounted(c.queue, id);
      RemoveSplits(c.queue, id);
      var taken := c.(pending := Remove(c.pending, id), queue := Remove(c.queue, id));
      TakenOutKeeps(c, SettledAs(taken, id, outcome), id, outcome);
    }
  }

  // ----- The flush -----

  lemma RestPermutes(c: Client, a: seq<Entry>, b: seq<Entry>)
    requires Conserved(c, a) && WireOk(c, a) && multiset(a) == multiset(b) && multiset(IdsOf(a)) == multiset(IdsOf(b))
    ensures Conserved(c, b) && WireOk(c, b)
  {
    forall e | e in b
      ensures e in a
    {
      assert e in multiset(b);
    }
  }

  lemma {:induction false} FlushedKeeps(c: Client, es: seq<Entry>, rest: seq<Entry>, aborted: set<Id>,
                                        sends: Id -> bool)
    requires Conserved(c, rest + es) && WireOk(c, rest + es)
    ensures Conserved(FlushedAll(c, es, aborted, sends), rest) && WireOk(FlushedAll(c, es, aborted, sends), rest)
  {
    if es == [] {
      assert rest + es == rest;
    } else {
      var init, e := es[..|es| - 1], es[|es| - 1];
      assert es == init + [e];
      IdsConcat(rest, es);
      IdsConcat(init, [e]);
      IdsConcat(rest, [e]);
      IdsConcat(rest + [e], init);
      RestPermutes(c, rest + es, rest + [e] + init);
      FlushedKeeps(c, init, rest + [e], aborted, sends);
      var before := FlushedAll(c, init, aborted, sends);
      if e.hasSignal && e.id in aborted {
        SettledHere(before, SettledAs(before, e.id, Rejected(RequestCancelled)), rest, e, Rejected(RequestCancelled));
      } else if sends(e.id) {
        RequestWritten(before, rest, e);
      } else {
        SettledHere(before, SettledAs(before, e.id, Rejected(InternalError)), rest, e, Rejected(InternalError));
      }
    }
  }

  /** A flush writes and settles, and touches nothing else. */
  lemma {:induction false} FlushedControls(c: Client, es: seq<Entry>, aborted: set<Id>, sends: Id -> bool)
    ensures var t := FlushedAll(c, es, aborted, sends);
            t == c.(pending := t.pending, settled := t.settled, wire := t.wire)
  {
    if es != [] { FlushedControls(c, es[..|es| - 1], aborted, sends); }
  }

  lemma OpenKeepsInv(c: Client, config: Config, aborted: set<Id>, sends: Id -> bool)
    requires Inv(c, config) && c.ws == Some(NotYetOpen)
    ensures Inv(Opened(c, aborted, sends), config)
  {
    var open := TimerCancelled(CountersReset(c.(status := Connected, ws := Some(IsOpen)))).(queue := []);
    assert [] + c.queue == c.queue && IdsOf([]) == [];
    assert Conserved(open, [] + c.queue) && WireOk(open, [] + c.queue);
    FlushedKeeps(open, c.queue, [], aborted, sends);
    FlushedControls(open, c.queue, aborted, sends);
    assert LifeOk(FlushedAll(open, c.queue, aborted, sends));
  }

  // ----- The lifecycle -----

  ghost predicate DataOk(c: Client, config: Config) {
    Conserved(c, []) && WireOk(c, []) && QueueOk(c, config)
  }

  lemma AllRejectedKeepsData(c: Client, config: Config, code: Code)
    requires DataOk(c, config)
    ensures DataOk(AllRejected(c, code), config) && DataOk(PendingRejected(c, code), config)
  {
    AllRejectedKeeps(c, code);
    PendingRejectedKeeps(c, [], code);
  }

  /** Changing only how the connection stands keeps the requests' bookkeeping. */
  lemma ControlsKeepData(c: Client, t: Client, config: Config)
    requires DataOk(c, config)
    requires t.pending == c.pending && t.queue == c.queue && t.made == c.made && t.settled == c.settled
             && t.wire == c.wire && t.nextId == c.nextId
    ensures DataOk(t, config)
  {
  }

  lemma TornDownKeeps(c: Client, config: Config, code: CloseCode)
    requires DataOk(c, config)
    ensures DataOk(TornDown(c, code), config) && TornDown(c, code).ws.None? && TornDown(c, code).queue == c.queue
  {
    if c.ws.Some? && c.ws.value.IsClosing? {
      ControlsKeepData(c, c.(ws := None), config);
    } else if c.ws.Some? {
      AllRejectedKeepsData(c, config, ServiceUnavailable);
      ControlsKeepData(PendingRejected(c, ServiceUnavailable), TornDown(c, code), config);
    }
  }

  lemma ScheduledKeepsInv(c: Client, config: Config)
    requires DataOk(c, config) && c.ws.None? && !c.revoked && !c.superseded && c.policy.auto
    ensures Inv(Scheduled(c), config)
  {
    ControlsKeepData(c, Scheduled(c), config);
  }

  lemma ConnectKeepsInv(c: Client, config: Config, constructs: bool)
    requires DataOk(c, config) && (c.revoked ==> LifeOk(c) && TimerOk(c))
    ensures Inv(ConnectCalled(c, constructs), config)
  {
    if !c.revoked {
      var quiet := TimerCancelled(c.(superseded := false));
      ControlsKeepData(c, quiet, config);
      TornDownKeeps(quiet, config, DEFAULT_CLOSE_CODE);
      var torn := TornDown(quiet, DEFAULT_CLOSE_CODE);
      assert !torn.revoked && !torn.superseded && torn.timer.None?;
      if constructs {
        ControlsKeepData(torn, torn.(status := Connecting, ws := Some(NotYetOpen)), config);
      } else if c.policy.auto {
        ScheduledKeepsInv(torn, config);
      } else {
        ControlsKeepData(torn, torn.(status := Closed), config);
      }
    }
  }

  lemma DisconnectKeepsInv(c: Client, config: Config, code: CloseCode)
    requires Inv(c, config)
    ensures Inv(Disconnected(c, code), config)
  {
    ControlsKeepData(c, TimerCancelled(c), config);
    TornDownKeeps(TimerCancelled(c), config, code);
    var closed := CountersReset(TornDown(TimerCancelled(c), code).(status := Closed));
    ControlsKeepData(TornDown(TimerCancelled(c), code), closed, config);
    AllRejectedKeepsData(closed, config, ServiceUnavailable);
  }

  lemma StayClosedKeepsInv(c: Client, config: Config, code: Code)
    requires DataOk(c, config) && c.ws.None?
    ensures Inv(StayClosed(c, code), config)
  {
    var closed := CountersReset(TimerCancelled(c.(status := Closed)));
    ControlsKeepData(c, closed, config);
    AllRejectedKeepsData(closed, config, code);
  }

  /** Neither revoked nor superseded: reconnecting, or closed with everything rejected. */
  lemma LostKeepsInv(c: Client, config: Config)
    requires DataOk(c, config) && c.ws.None? && !c.revoked && !c.superseded && c.timer.None?
    ensures var rejected := PendingRejected(c, ServiceUnavailable);
            Inv(if c.policy.auto then Scheduled(rejected)
                else AllRejected(rejected.(status := Closed), ServiceUnavailable), config)
  {
    var rejected := PendingRejected(c, ServiceUnavailable);
    AllRejectedKeepsData(c, config, ServiceUnavailable);
    if c.policy.auto {
      ScheduledKeepsInv(rejected, config);
    } else {
      ControlsKeepData(rejected, rejected.(status := Closed), config);
      AllRejectedKeepsData(rejected.(status := Closed), config, ServiceUnavailable);
    }
  }

  lemma CloseKeepsInv(c: Client, config: Config, code: CloseCode)
    requires Inv(c, config) && c.ws.Some?
    ensures Inv(SocketClosed(c, code), config)
  {
    var gone := c.(ws := None, lastCloseCode := Some(code));
    ControlsKeepData(c, gone, config);
    if code == CLOSE_SESSION_REVOKED {
      StayClosedKeepsInv(gone.(revoked := true), config, Unauthenticated);
    } else if code == CLOSE_CONNECTION_LIMIT {
      StayClosedKeepsInv(gone.(superseded := true), config, ServiceUnavailable);
    } else if code == CLOSE_PERMISSION_REVOKED {
      StayClosedKeepsInv(gone, config, Forbidden);
    } else {
      LostKeepsInv(gone, config);
    }
  }

  /** A new policy never makes a scheduled attempt fire later, nor later than it prescribes itself. */
  lemma PolicyKeepsInv(c: Client, config: Config, p: Policy)
    requires Inv(c, config)
    ensures Inv(PolicySet(c, p), config)
    ensures var t := PolicySet(c, p);
            && (t.timer.Some? ==> c.timer.Some? && t.timer.value <= c.timer.value)
            && (t.timer.Some? ==>
                  t.timer.value <= c.clock || t.timer.value <= c.scheduledAt + AtLeastZero(TargetDelay(p, c.reconnectCount)))
            && (c.timer.Some? && t.timer.None? <==> c.timer.Some? && !p.auto)
  {
    ControlsKeepData(c, PolicySet(c, p), config);
  }

  lemma ClockKeepsInv(c: Client, config: Config, now: int)
    requires Inv(c, config)
    ensures Inv(At(c, now), config)
  {
    ControlsKeepData(c, At(c, now), config);
  }

  /** Requests leave the connection as it stands. */
  ghost predicate SameConnection(c: Client, t: Client) {
    && t.status == c.status && t.ws == c.ws && t.timer == c.timer && t.scheduledAt == c.scheduledAt
    && t.reconnectDelay == c.reconnectDelay && t.clock == c.clock && t.revoked == c.revoked
    && t.superseded == c.superseded
  }

  lemma SameConnectionKeepsLife(c: Client, t: Client)
    requires LifeOk(c) && TimerOk(c) && SameConnection(c, t) && (c.revoked ==> t.pending == [] && t.queue == [])
    ensures LifeOk(t) && TimerOk(t)
  {
  }

  lemma RequestKeepsInv(c: Client, config: Config, explicit: Option<Id>, hasSignal: bool, durable: bool, sends: bool)
    requires Inv(c, config) && TakeId(c, explicit) !in c.made && (explicit.Some? ==> explicit.value.Explicit?)
    ensures Inv(Requested(c, config, explicit, hasSignal, durable, sends), config)
  {
    RequestKeepsData(c, config, explicit, hasSignal, durable, sends);
    SameConnectionKeepsLife(c, Requested(c, config, explicit, hasSignal, durable, sends));
  }

  lemma AbortKeepsInv(c: Client, config: Config, id: Id, sends: bool)
    requires Inv(c, config) && (Has(c.pending, id) || Has(c.queue, id))
    ensures Inv(Aborted(c, id, sends), config)
  {
    AbortKeepsData(c, config, id, sends);
    SameConnectionKeepsLife(c, Aborted(c, id, sends));
  }

  lemma ResponseKeepsInv(c: Client, config: Config, id: Id, outcome: Outcome)
    requires Inv(c, config)
    ensures Inv(Answered(c, id, outcome), config)
  {
    ResponseKeepsData(c, config, id, outcome);
    SameConnectionKeepsLife(c, Answered(c, id, outcome));
  }

  lemma RequestsKeepInv(c: Client, config: Config, now: int, e: Event)
    requires Inv(c, config) && Possible(c, e) && (e.Request? || e.Abort? || e.Response?)
    ensures Inv(Step(c, config, now, e), config)
  {
    ClockKeepsInv(c, config, now);
    var t := At(c, now);
    match e
    case Request(explicit, hasSignal, durable, sends) =>
      RequestKeepsInv(t, config, explicit, hasSignal, durable, sends);
    case Abort(id, sends) => AbortKeepsInv(t, config, id, sends);
    case Response(to, outcome) => ResponseKeepsInv(t, config, to, outcome);
  }

  lemma ConnectionKeepsInv(c: Client, config: Config, now: int, e: Event)
    requires Inv(c, config) && Possible(c, e) && !e.Request? && !e.Abort? && !e.Response?
    ensures Inv(Step(c, config, now, e), config)
  {
    ClockKeepsInv(c, config, now);
    var t := At(c, now);
    match e
    case Connect(constructs) => ConnectKeepsInv(t, config, constructs);
    case Disconnect(code) => DisconnectKeepsInv(t, config, code);
    case WsOpens(aborted, sendOk) => OpenKeepsInv(t, config, aborted, sendOk);
    case WsCloses(code) => CloseKeepsInv(t, config, code);
    case WsBeginsClosing => ControlsKeepData(t, t.(ws := Some(IsClosing)), config);
    case TimerFires(constructs) =>
      ControlsKeepData(t, TimerCancelled(t), config);
      ConnectKeepsInv(TimerCancelled(t), config, constructs);
    case CancelReconnect => ControlsKeepData(t, ReconnectCancelled(t), config);
    case SetReconnect(policy) => PolicyKeepsInv(t, config, policy);
  }

  lemma StepKeepsInv(c: Client, config: Config, now: int, e: Event)
    requires Inv(c, config) && Possible(c, e)
    ensures Inv(Step(c, config, now, e), config)
  {
    if e.Request? || e.Abort? || e.Response? {
      RequestsKeepInv(c, config, now, e);
    } else {
      ConnectionKeepsInv(c, config, now, e);
    }
  }
}
