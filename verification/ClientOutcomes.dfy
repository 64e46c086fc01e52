/** What each call and event does to the client's requests: which settle, and as what. */
module ClientOutcomes {
  import opened Common
  import opened ClientModel
  import opened ClientRuns
  import opened ClientTheorems

  // ----- Responses -----

  /**
   * A response settles the request of its id, as what it says, if that is in flight; nothing else
   * changes but the clock, and a response to anything else changes nothing at all.
   */
  lemma ResponseOutcome(c: Client, config: Config, now: int, id: Id, outcome: Outcome)
    requires Inv(c, config) && Possible(c, Response(id, outcome))
    ensures var t := Step(c, config, now, Response(id, outcome));
            && t.(pending := c.pending, settled := c.settled, clock := c.clock) == c
            && t.settled == c.settled + (if Has(c.pending, id) then [Settlement(id, outcome)] else [])
            && (forall e :: e in t.pending <==> e in c.pending && e.id != id)
  {
    WhereIn(c.pending, OtherThan(id));
    if Has(c.pending, id) {
      assert c.settled + [] == c.settled;
    } else {
      assert forall e :: e in c.pending ==> e.id != id;
    }
  }

  /** Whether a settlement came from a response to a request then in flight. */
  predicate CameFromAResponse(config: Config, policy: Policy, es: seq<Timed>, x: Settlement)
    requires IsRun(config, policy, es)
  {
    es != [] &&
    (CameFromAResponse(config, policy, es[..|es| - 1], x)
     || (es[|es| - 1].event == Response(x.id, x.outcome) && Has(RunOf(config, policy, es[..|es| - 1]).pending, x.id)))
  }

  /** What only the server says: a result, or an error under the wire's own code. */
  predicate FromTheWire(outcome: Outcome) {
    outcome.Resolved? || (outcome.Rejected? && outcome.code.WireCode?)
  }

  /** The settlements one event adds. */
  ghost predicate Adds(c: Client, t: Client, more: seq<Settlement>) {
    t.settled == c.settled + more
  }

  /** No settlement is from the wire that was not there. */
  ghost predicate AddsLocal(c: Client, t: Client) {
    forall x :: x in t.settled && FromTheWire(x.outcome) ==> x in c.settled
  }

  lemma {:induction false} FlushAddsLocal(c: Client, es: seq<Entry>, aborted: set<Id>, sends: Id -> bool)
    ensures AddsLocal(c, FlushedAll(c, es, aborted, sends))
  {
    if es != [] {
      FlushAddsLocal(c, es[..|es| - 1], aborted, sends);
    }
  }

  lemma RejectionsAreLocal(c: Client, code: Code)
    requires !code.WireCode?
    ensures AddsLocal(c, PendingRejected(c, code)) && AddsLocal(c, AllRejected(c, code))
  {
    assert forall x :: x in AllSettled(c.pending, Rejected(code)) ==> x.outcome == Rejected(code);
    assert forall x :: x in AllSettled(c.queue, Rejected(code)) ==> x.outcome == Rejected(code);
  }

  lemma CloseAddsLocal(c: Client, code: CloseCode)
    ensures AddsLocal(c, SocketClosed(c, code))
  {
    var gone := c.(ws := None, lastCloseCode := Some(code));
    if code == CLOSE_SESSION_REVOKED {
      StayAddsLocal(gone.(revoked := true), Unauthenticated);
    } else if code == CLOSE_CONNECTION_LIMIT {
      StayAddsLocal(gone.(superseded := true), ServiceUnavailable);
    } else if code == CLOSE_PERMISSION_REVOKED {
      StayAddsLocal(gone, Forbidden);
    } else {
      RejectionsAreLocal(gone, ServiceUnavailable);
      RejectionsAreLocal(PendingRejected(gone, ServiceUnavailable).(status := Closed), ServiceUnavailable);
    }
  }

  lemma StayAddsLocal(c: Client, code: Code)
    requires !code.WireCode?
    ensures AddsLocal(c, StayClosed(c, code))
  {
    RejectionsAreLocal(CountersReset(TimerCancelled(c.(status := Closed))), code);
  }

  lemma TornAddsLocal(c: Client, code: CloseCode)
    ensures AddsLocal(c, TornDown(c, code))
  {
    RejectionsAreLocal(c, ServiceUnavailable);
  }

  lemma DisconnectAddsLocal(c: Client, code: CloseCode)
    ensures AddsLocal(c, Disconnected(c, code))
  {
    var torn := TornDown(TimerCancelled(c), code);
    TornAddsLocal(TimerCancelled(c), code);
    RejectionsAreLocal(CountersReset(torn.(status := Closed)), ServiceUnavailable);
  }

  lemma ConnectAddsLocal(c: Client, constructs: bool)
    ensures AddsLocal(c, ConnectCalled(c, constructs))
  {
    TornAddsLocal(TimerCancelled(c.(superseded := false)), DEFAULT_CLOSE_CODE);
  }

  lemma OpenAddsLocal(c: Client, aborted: set<Id>, sends: Id -> bool)
    ensures AddsLocal(c, Opened(c, aborted, sends))
  {
    var open := TimerCancelled(CountersReset(c.(status := Connected, ws := Some(IsOpen))));
    FlushAddsLocal(open.(queue := []), open.queue, aborted, sends);
  }

  lemma OthersAddLocal(c: Client, config: Config, now: int, e: Event)
    requires Possible(c, e) && !e.Response?
    ensures AddsLocal(c, Step(c, config, now, e))
  {
    var t := ClientModel.At(c, now);
    match e
    case Connect(constructs) => ConnectAddsLocal(t, constructs);
    case TimerFires(constructs) => ConnectAddsLocal(TimerCancelled(t), constructs);
    case WsOpens(aborted, sendOk) => OpenAddsLocal(t, aborted, sendOk);
    case WsCloses(code) => CloseAddsLocal(t, code);
    case Disconnect(code) => DisconnectAddsLocal(t, code);
    case _ =>
  }

  /** In every run, whatever resolves, or rejects with the wire's code, is a response to a request in flight. */
  lemma {:induction false} OutcomesComeFromResponses(config: Config, policy: Policy, es: seq<Timed>, x: Settlement)
    requires IsRun(config, policy, es) && x in RunOf(config, policy, es).settled && FromTheWire(x.outcome)
    ensures CameFromAResponse(config, policy, es, x)
  {
    if es != [] {
      var before, last := es[..|es| - 1], es[|es| - 1];
      var c := RunOf(config, policy, before);
      if x in c.settled {
        OutcomesComeFromResponses(config, policy, before, x);
      } else if last.event.Response? {
        RunKeepsInv(config, policy, before);
        ResponseOutcome(c, config, last.now, last.event.to, last.event.outcome);
      } else {
        assert false by { OthersAddLocal(c, config, last.now, last.event); }
      }
    }
  }

  // ----- Requests -----

  /**
   * A request goes out on a connected socket that takes its frame; otherwise a durable one waits in
   * the queue, or overflows it when that is full, and any other is rejected at once.
   */
  lemma RequestOutcome(c: Client, config: Config, now: int, explicit: Option<Id>, hasSignal: bool, durable: bool,
                       sends: bool)
    requires Inv(c, config) && Possible(c, Request(explicit, hasSignal, durable, sends)) && !c.revoked
    ensures var t := Step(c, config, now, Request(explicit, hasSignal, durable, sends));
            var e := Entry(if explicit.Some? then explicit.value else Auto(c.nextId + 1), |c.made|, hasSignal);
            var connected := c.status.Connected?;
            && t.made == c.made + [e.id]
            && if connected && sends
               then t.pending == c.pending + [e] && t.wire == c.wire + [RequestFrame(e.id)]
                    && t.queue == c.queue && t.settled == c.settled
               else t.pending == c.pending && t.wire == c.wire
                    && if durable && config.queueOn && |c.queue| < config.queueMax
                       then t.queue == c.queue + [e] && t.settled == c.settled
                       else t.queue == c.queue
                            && Adds(c, t, [Settlement(e.id, Rejected(
                                 if durable && config.queueOn then QueueOverflow
                                 else if connected then InternalError
                                 else ServiceUnavailable))])
  {
  }

  /** A client revoked for good takes no request. */
  lemma RevokedTakesNothing(c: Client, config: Config, now: int, explicit: Option<Id>, hasSignal: bool, durable: bool,
                            sends: bool)
    requires Inv(c, config) && c.revoked
    ensures Step(c, config, now, Request(explicit, hasSignal, durable, sends)).(clock := c.clock) == c
  {
  }

  // ----- Closes -----

  /** Why a close rejects what it rejects. */
  function WhyClosed(code: CloseCode): Code {
    if code == 4001 then Unauthenticated else if code == 4006 then Forbidden else ServiceUnavailable
  }

  /** Revoked, superseded, or short of a permission. */
  predicate IsTerminal(code: CloseCode) {
    code == 4001 || code == 4004 || code == 4006
  }

  /** A terminal close rejects all that is in flight or waiting, for its own reason, and leaves the client closed. */
  lemma TerminalCloseOutcome(c: Client, config: Config, now: int, code: CloseCode)
    requires Inv(c, config) && Possible(c, WsCloses(code)) && IsTerminal(code)
    ensures var t := Step(c, config, now, WsCloses(code));
            && t.status.Closed? && t.ws.None? && t.timer.None? && t.pending == [] && t.queue == []
            && (t.revoked <==> code == 4001) && (t.superseded <==> code == 4004)
            && t.lastCloseCode == Some(code) && t.wire == c.wire
            && Adds(c, t, AllSettled(c.pending, Rejected(WhyClosed(code)))
                          + AllSettled(c.queue, Rejected(WhyClosed(code))))
  {
    assert !c.revoked && !c.superseded;
    var gone := ClientModel.At(c, now).(ws := None, lastCloseCode := Some(code));
    StaysClosedOutcome(gone.(revoked := true), Unauthenticated);
    StaysClosedOutcome(gone.(superseded := true), ServiceUnavailable);
    StaysClosedOutcome(gone, Forbidden);
  }

  /**
   * Any other close rejects what is in flight as unavailable. Reconnecting, the client keeps its queue
   * and schedules the backoff's next attempt; otherwise it rejects the queue too and stays closed.
   */
  lemma LossOutcome(c: Client, config: Config, now: int, code: CloseCode)
    requires Inv(c, config) && Possible(c, WsCloses(code)) && !IsTerminal(code)
    ensures var t := Step(c, config, now, WsCloses(code));
            && t.ws.None? && t.pending == [] && !t.revoked && !t.superseded
            && t.lastCloseCode == Some(code) && t.wire == c.wire
            && if c.policy.auto
               then && t.status.Reconnecting? && t.queue == c.queue && t.reconnectCount == c.reconnectCount + 1
                    && t.timer == Some(t.clock + AtLeastZero(TargetDelay(c.policy, c.reconnectCount + 1)))
                    && Adds(c, t, AllSettled(c.pending, Rejected(ServiceUnavailable)))
               else && t.status.Closed? && t.timer.None? && t.queue == []
                    && Adds(c, t, AllSettled(c.pending, Rejected(ServiceUnavailable))
                                  + AllSettled(c.queue, Rejected(ServiceUnavailable)))
  {
    assert AllSettled([], Rejected(ServiceUnavailable)) == [];
  }

  lemma StaysClosedOutcome(c: Client, code: Code)
    ensures var t := StayClosed(c, code);
            && t.(status := c.status, timer := c.timer, reconnectCount := c.reconnectCount,
                  reconnectDelay := c.reconnectDelay, pending := c.pending, queue := c.queue, settled := c.settled) == c
            && t.status.Closed? && t.timer.None? && t.pending == [] && t.queue == []
            && Adds(c, t, AllSettled(c.pending, Rejected(code)) + AllSettled(c.queue, Rejected(code)))
  {
  }

  /** Disconnecting settles everything as unavailable and drops any scheduled attempt. */
  lemma DisconnectOutcome(c: Client, config: Config, now: int, code: CloseCode)
    requires Inv(c, config)
    ensures var t := Step(c, config, now, Disconnect(code));
            && t.status.Closed? && t.ws.None? && t.timer.None? && t.pending == [] && t.queue == []
            && t.reconnectCount == 0 && t.revoked == c.revoked && t.superseded == c.superseded
            && Adds(c, t, AllSettled(c.pending, Rejected(ServiceUnavailable))
                          + AllSettled(c.queue, Rejected(ServiceUnavailable)))
  {
    assert AllSettled([], Rejected(ServiceUnavailable)) == [];
  }

  // ----- Connecting -----

  /**
   * Connecting opens a new socket in place of any other, whether called or due, keeps the queue and
   * forgets a supersession; where the socket cannot be made it is scheduled again, or given up.
   */
  lemma ConnectOutcome(c: Client, config: Config, now: int, e: Event)
    requires Inv(c, config) && Possible(c, e) && (e.Connect? || e.TimerFires?) && !c.revoked
    ensures var t := Step(c, config, now, e);
            && !t.superseded && t.queue == c.queue && t.wire == c.wire && t.made == c.made
            && if (if e.Connect? then e.constructs else e.constructsThen)
               then t.status.Connecting? && t.ws == Some(NotYetOpen) && t.timer.None?
               else t.ws.None? && if c.policy.auto then t.status.Reconnecting? else t.status.Closed?
  {
  }

  /** A queued entry whose frame a flush writes. */
  function GoesOut(aborted: set<Id>, sends: Id -> bool): Entry -> bool {
    (e: Entry) => !(e.hasSignal && e.id in aborted) && sends(e.id)
  }

  /** What a flush settles: the aborted as cancelled, the ones the socket does not take as failed. */
  function FlushSettles(es: seq<Entry>, aborted: set<Id>, sends: Id -> bool): seq<Settlement> {
    if es == [] then []
    else
      var e := es[|es| - 1];
      FlushSettles(es[..|es| - 1], aborted, sends)
      + if GoesOut(aborted, sends)(e) then []
        else [Settlement(e.id, Rejected(if e.hasSignal && e.id in aborted then RequestCancelled else InternalError))]
  }

  lemma {:induction false} FlushOutcome(c: Client, es: seq<Entry>, aborted: set<Id>, sends: Id -> bool)
    ensures var t := FlushedAll(c, es, aborted, sends);
            && t.pending == c.pending + Where(es, GoesOut(aborted, sends))
            && Adds(c, t, FlushSettles(es, aborted, sends)) && t.queue == c.queue && t.status == c.status
  {
    if es == [] {
      assert c.pending + [] == c.pending && c.settled + [] == c.settled;
    } else {
      var init, e := es[..|es| - 1], es[|es| - 1];
      FlushOutcome(c, init, aborted, sends);
      assert c.settled + FlushSettles(init, aborted, sends) + [] == c.settled + FlushSettles(init, aborted, sends);
      assert c.pending + Where(init, GoesOut(aborted, sends)) + [] == c.pending + Where(init, GoesOut(aborted, sends));
    }
  }

  /** An open socket makes the client connected, with no attempt scheduled and the backoff started over. */
  lemma OpenOutcome(c: Client, config: Config, now: int, aborted: set<Id>, sends: Id -> bool)
    requires Inv(c, config) && Possible(c, WsOpens(aborted, sends))
    ensures var t := Step(c, config, now, WsOpens(aborted, sends));
            && t.status.Connected? && t.ws == Some(IsOpen) && t.timer.None? && t.reconnectCount == 0 && t.queue == []
            && t.wire == c.wire + Frames(c.queue, aborted, sends)
            && t.pending == c.pending + Where(c.queue, GoesOut(aborted, sends))
            && Adds(c, t, FlushSettles(c.queue, aborted, sends))
  {
    var t := ClientModel.At(c, now);
    var open := TimerCancelled(CountersReset(t.(status := Connected, ws := Some(IsOpen)))).(queue := []);
    FlushedControls(open, t.queue, aborted, sends);
    FlushOutcome(open, t.queue, aborted, sends);
    FlushWrites(open, t.queue, aborted, sends);
  }

  /** Cancelling drops the scheduled attempt, and nothing waiting for it. */
  lemma CancelOutcome(c: Client, config: Config, now: int)
    requires Inv(c, config)
    ensures var t := Step(c, config, now, CancelReconnect);
            && t.timer.None? && t.queue == c.queue && t.pending == c.pending && t.settled == c.settled
            && t.status == (if c.timer.Some? then Closed else c.status)
  {
  }

  /** A policy that still reconnects brings a scheduled attempt forward to its own delay, if that is sooner. */
  lemma PolicyOutcome(c: Client, config: Config, now: int, p: Policy)
    requires Inv(c, config) && c.timer.Some? && c.clock <= now < c.timer.value && p.auto
    ensures var t := Step(c, config, now, SetReconnect(p));
            var due := c.scheduledAt + TargetDelay(p, c.reconnectCount);
            && t.policy == p && t.status.Reconnecting?
            && t.timer == Some(if due < now then now else if due < c.timer.value then due else c.timer.value)
  {
  }

  /** One that no longer reconnects drops the attempt and starts the backoff over, and what waits goes on waiting. */
  lemma PolicyOffOutcome(c: Client, config: Config, now: int, p: Policy)
    requires Inv(c, config) && c.timer.Some? && !p.auto
    ensures var t := Step(c, config, now, SetReconnect(p));
            && t.policy == p && t.status.Closed? && t.timer.None? && t.reconnectCount == 0 && t.reconnectDelay == 0
            && t.queue == c.queue && t.pending == c.pending && t.settled == c.settled && t.wire == c.wire
  {
  }

  // ----- The backoff -----

  /** The first attempt waits the policy's delay, and the second the factor times it, under the bound. */
  lemma FirstDelays(p: Policy)
    ensures p.delay <= p.delayMax ==> TargetDelay(p, 1) == Round(p.delay)
    ensures p.delay * p.factor <= p.delayMax ==> TargetDelay(p, 2) == Round(p.delay * p.factor)
  {
    assert Power(p.factor, 0) == 1.0;
    assert Power(p.factor, 1) == p.factor;
  }

  /** None waits more than the policy's bound. */
  lemma DelayBound(p: Policy, n: nat)
    ensures TargetDelay(p, n) <= Round(p.delayMax)
  {
  }
}
