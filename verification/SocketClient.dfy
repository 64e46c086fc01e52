/** The client object: each call, adapter event and timer is a method that steps the model. */
module SocketClients {
  import opened Common
  import opened ClientModel
  import opened ClientRuns

  class FrontendWebsocketClient {
    const config: Config
    var status: Status
    var ws: Option<Ready>
    var policy: Policy
    var reconnectCount: nat
    var reconnectDelay: int
    var reconnectTimeout: Option<int>
    var reconnectScheduledAt: int
    var clock: int
    var revoked: bool
    var superseded: bool
    var lastCloseCode: Option<CloseCode>
    var nextRequestId: nat
    var pending: seq<Entry>
    var queue: seq<Entry>
    var made: seq<Id> // every id taken so far: an entry remembers its place among them
    ghost var settled: seq<Settlement>
    ghost var wire: seq<Wire>

    ghost function Model(): Client
      reads this
    {
      Client(status, ws, policy, reconnectCount, reconnectDelay, reconnectTimeout, reconnectScheduledAt, clock,
             revoked, superseded, lastCloseCode, nextRequestId, pending, queue, made, settled, wire)
    }

    ghost predicate Valid()
      reads this
    {
      Inv(Model(), config)
    }

    constructor (config: Config, policy: Policy, now: int)
      ensures Valid() && Model() == NewClient(policy, now) && this.config == config
    {
      this.config, this.policy := config, policy;
      status, ws, reconnectCount, reconnectDelay, reconnectTimeout := Initial, None, 0, 0, None;
      reconnectScheduledAt, clock, revoked, superseded, lastCloseCode := 0, now, false, false, None;
      nextRequestId, pending, queue := 0, [], [];
      made, settled, wire := [], [], [];
      new;
      assert IdsOf([]) == [];
    }

    // ----- Parts -----

    method Settle(id: Id, outcome: Outcome)
      modifies this`settled
      ensures Model() == SettledAs(old(Model()), id, outcome)
    {
      settled := settled + [Settlement(id, outcome)];
    }

    /** The frame is written, or the socket is not connected or throws. */
    method Send(frame: Wire, sends: bool) returns (sent: bool)
      modifies this`wire
      ensures sent <==> IsConnected(old(Model())) && sends
      ensures wire == if sent then old(wire) + [frame] else old(wire)
    {
      sent := status.Connected? && ws.Some? && sends;
      if sent {
        wire := wire + [frame];
      }
    }

    method RejectPending(code: Code)
      modifies this`pending, this`settled
      ensures Model() == PendingRejected(old(Model()), code)
    {
      var rejected := pending;
      pending := [];
      ghost var before := settled;
      for i := 0 to |rejected|
        invariant pending == [] && settled == before + AllSettled(rejected[..i], Rejected(code))
      {
        Settle(rejected[i].id, Rejected(code));
        assert rejected[..i + 1] == rejected[..i] + [rejected[i]];
        assert settled == before + AllSettled(rejected[..i + 1], Rejected(code));
      }
      assert rejected[..|rejected|] == rejected;
    }

    method RejectAll(code: Code)
      modifies this`pending, this`queue, this`settled
      ensures Model() == AllRejected(old(Model()), code)
    {
      RejectPending(code);
      var rejected := queue;
      queue := [];
      ghost var before := settled;
      for i := 0 to |rejected|
        invariant pending == [] && queue == [] && settled == before + AllSettled(rejected[..i], Rejected(code))
      {
        Settle(rejected[i].id, Rejected(code));
        assert rejected[..i + 1] == rejected[..i] + [rejected[i]];
        assert settled == before + AllSettled(rejected[..i + 1], Rejected(code));
      }
      assert rejected[..|rejected|] == rejected;
    }

    method Enqueue(e: Entry)
      modifies this`queue, this`settled
      ensures Model() == Enqueued(old(Model()), config, e)
    {
      if |queue| >= config.queueMax {
        Settle(e.id, Rejected(QueueOverflow));
        return;
      }
      queue := queue + [e];
    }

    method CancelTimer()
      modifies this`reconnectTimeout
      ensures Model() == TimerCancelled(old(Model()))
    {
      reconnectTimeout := None;
    }

    method ResetCounters()
      modifies this`reconnectCount, this`reconnectDelay
      ensures Model() == CountersReset(old(Model()))
    {
      reconnectCount, reconnectDelay := 0, 0;
    }

    method ScheduleReconnect()
      modifies this
      ensures Model() == Scheduled(old(Model()))
    {
      if !policy.auto || revoked {
        return;
      }
      CancelTimer();
      reconnectCount := reconnectCount + 1;
      reconnectDelay := TargetDelay(policy, reconnectCount);
      status := Reconnecting;
      reconnectScheduledAt := clock;
      reconnectTimeout := Some(clock + AtLeastZero(reconnectDelay));
    }

    method Teardown(code: CloseCode)
      modifies this
      ensures Model() == TornDown(old(Model()), code)
    {
      if ws.None? {
        return;
      }
      if !ws.value.IsClosing? {
        lastCloseCode := Some(code);
        RejectPending(ServiceUnavailable);
      }
      ws := None;
    }

    method FlushOne(q: Entry, aborted: bool, sends: bool)
      requires status.Connected? && ws.Some?
      modifies this`pending, this`settled, this`wire
      ensures Model() == FlushedOne(old(Model()), q, aborted, sends)
    {
      if aborted {
        Settle(q.id, Rejected(RequestCancelled));
        return;
      }
      var sent := Send(RequestFrame(q.id), sends);
      if sent {
        pending := pending + [q];
      } else {
        Settle(q.id, Rejected(InternalError));
      }
    }

    method FlushQueue(aborted: set<Id>, sendOk: Id -> bool)
      requires status.Connected? && ws.Some?
      modifies this`queue, this`pending, this`settled, this`wire
      ensures Model() == Flushed(old(Model()), aborted, sendOk)
    {
      var queued := queue;
      queue := [];
      ghost var before := Model();
      for i := 0 to |queued|
        invariant Model() == FlushedAll(before, queued[..i], aborted, sendOk)
      {
        var q := queued[i];
        assert queued[..i + 1][..i] == queued[..i];
        FlushOne(q, q.hasSignal && q.id in aborted, sendOk(q.id));
      }
      assert queued[..|queued|] == queued;
    }

    // ----- Calls and events, as steps -----

    /** Takes the call's id, minting one when the caller gave none. */
    method TakeNumber(explicit: Option<Id>) returns (id: Id)
      modifies this`nextRequestId, this`made
      ensures Model() == Numbered(old(Model()), explicit) && id == TakeId(old(Model()), explicit)
    {
      id := if explicit.Some? then explicit.value else Auto(nextRequestId + 1);
      if explicit.None? {
        nextRequestId := nextRequestId + 1;
      }
      made := made + [id];
    }

    method DoRequest(explicit: Option<Id>, hasSignal: bool, durable: bool, sends: bool)
      modifies this
      ensures Model() == Requested(old(Model()), config, explicit, hasSignal, durable, sends)
    {
      if revoked {
        return;
      }
      var order := |made|;
      var id := TakeNumber(explicit);
      var e := Entry(id, order, hasSignal);
      var shouldQueue := durable && config.queueOn;
      if status.Connected? && ws.Some? {
        var sent := Send(RequestFrame(id), sends);
        if sent {
          pending := pending + [e];
          return;
        }
      }
      if shouldQueue {
        Enqueue(e);
        return;
      }
      Settle(id, Rejected(if status.Connected? && ws.Some? then InternalError else ServiceUnavailable));
    }

    method DoAbort(id: Id, sends: bool)
      modifies this
      ensures Model() == Aborted(old(Model()), id, sends)
    {
      var wasInFlight := Has(pending, id);
      pending := Remove(pending, id);
      queue := Remove(queue, id);
      Settle(id, Rejected(RequestCancelled));
      if wasInFlight {
        var _ := Send(CancelFrame(id), sends);
      }
    }

    method DoConnect(constructs: bool)
      modifies this
      ensures Model() == ConnectCalled(old(Model()), constructs)
    {
      if revoked {
        return;
      }
      superseded := false;
      CancelTimer();
      Teardown(DEFAULT_CLOSE_CODE);
      if constructs {
        status := Connecting;
        ws := Some(NotYetOpen);
      } else if policy.auto {
        ScheduleReconnect();
      } else {
        status := Closed;
      }
    }

    method DoDisconnect(code: CloseCode)
      modifies this
      ensures Model() == Disconnected(old(Model()), code)
    {
      CancelTimer();
      Teardown(code);
      status := Closed;
      ResetCounters();
      RejectAll(ServiceUnavailable);
    }

    method DoOpen(aborted: set<Id>, sendOk: Id -> bool)
      modifies this
      ensures Model() == Opened(old(Model()), aborted, sendOk)
    {
      ws := Some(IsOpen);
      status := Connected;
      ResetCounters();
      CancelTimer();
      FlushQueue(aborted, sendOk);
    }

    method StaysClosed(code: Code)
      modifies this
      ensures Model() == StayClosed(old(Model()), code)
    {
      status := Closed;
      CancelTimer();
      ResetCounters();
      RejectAll(code);
    }

    method ReconnectOrStayClosed()
      modifies this
      ensures var rejected := PendingRejected(old(Model()), ServiceUnavailable);
              Model() == if policy.auto
                         then Scheduled(rejected)
                         else AllRejected(rejected.(status := Closed), ServiceUnavailable)
      ensures policy == old(policy)
    {
      RejectPending(ServiceUnavailable);
      if policy.auto {
        ScheduleReconnect();
      } else {
        status := Closed;
        RejectAll(ServiceUnavailable);
      }
    }

    method DoClose(code: CloseCode)
      modifies this
      ensures Model() == SocketClosed(old(Model()), code)
    {
      ws := None;
      lastCloseCode := Some(code);
      SettleClose(code);
    }

    /** What the close code calls for: the three terminal ones, and any other. */
    method SettleClose(code: CloseCode)
      modifies this
      ensures Model() == CloseSettled(old(Model()), code)
    {
      if code == CLOSE_SESSION_REVOKED {
        revoked := true;
        StaysClosed(Unauthenticated);
      } else if code == CLOSE_CONNECTION_LIMIT {
        superseded := true;
        StaysClosed(ServiceUnavailable);
      } else if code == CLOSE_PERMISSION_REVOKED {
        StaysClosed(Forbidden);
      } else {
        ReconnectOrStayClosed();
      }
    }

    method DoSetReconnect(p: Policy)
      modifies this
      ensures Model() == PolicySet(old(Model()), p)
    {
      policy := p;
      if reconnectTimeout.None? {
        return;
      }
      if !p.auto {
        CancelTimer();
        status := Closed;
        ResetCounters();
        return;
      }
      var elapsed := AtLeastZero(clock - reconnectScheduledAt);
      var remaining := AtLeastZero(reconnectDelay - elapsed);
      var target := TargetDelay(p, reconnectCount);
      var left := AtLeastZero(target - elapsed);
      if left >= remaining {
        return;
      }
      reconnectDelay := target;
      reconnectTimeout := Some(clock + left);
    }

    // ----- The same, with what they keep -----

    /** Date.now() read at the start of a run. */
    method Tick(now: int)
      requires Valid()
      modifies this`clock
      ensures Valid() && Model() == At(old(Model()), now)
    {
      ClockKeepsInv(Model(), config, now);
      clock := if now > clock then now else clock;
    }

    method Request(explicit: Option<Id>, hasSignal: bool, durable: bool, sends: bool)
      requires Valid() && Possible(Model(), Event.Request(explicit, hasSignal, durable, sends))
      modifies this
      ensures Valid() && Model() == Requested(old(Model()), config, explicit, hasSignal, durable, sends)
    {
      RequestKeepsInv(Model(), config, explicit, hasSignal, durable, sends);
      DoRequest(explicit, hasSignal, durable, sends);
    }

    method OnAbort(id: Id, sends: bool)
      requires Valid() && (Has(pending, id) || Has(queue, id))
      modifies this
      ensures Valid() && Model() == Aborted(old(Model()), id, sends)
    {
      AbortKeepsInv(Model(), config, id, sends);
      DoAbort(id, sends);
    }

    method HandleMessage(id: Id, outcome: Outcome) returns (consumed: bool)
      requires Valid() && ws.Some?
      modifies this
      ensures Valid() && Model() == Answered(old(Model()), id, outcome)
      ensures consumed <==> Has(old(pending), id)
    {
      ResponseKeepsInv(Model(), config, id, outcome);
      consumed := Has(pending, id);
      if consumed {
        pending := Remove(pending, id);
        Settle(id, outcome);
      }
    }

    method Connect(constructs: bool)
      requires Valid()
      modifies this
      ensures Valid() && Model() == ConnectCalled(old(Model()), constructs)
    {
      ConnectKeepsInv(Model(), config, constructs);
      DoConnect(constructs);
    }

    method ReconnectTimerFires(constructs: bool)
      requires Valid() && reconnectTimeout.Some?
      modifies this
      ensures Valid() && Model() == ConnectCalled(TimerCancelled(old(Model())), constructs)
    {
      StepKeepsInv(Model(), config, clock, Event.TimerFires(constructs));
      CancelTimer();
      DoConnect(constructs);
    }

    method Disconnect(code: CloseCode)
      requires Valid()
      modifies this
      ensures Valid() && Model() == Disconnected(old(Model()), code)
    {
      DisconnectKeepsInv(Model(), config, code);
      DoDisconnect(code);
    }

    method HandleOpen(aborted: set<Id>, sendOk: Id -> bool)
      requires Valid() && ws == Some(NotYetOpen)
      modifies this
      ensures Valid() && Model() == Opened(old(Model()), aborted, sendOk)
    {
      OpenKeepsInv(Model(), config, aborted, sendOk);
      DoOpen(aborted, sendOk);
    }

    method HandleClose(code: CloseCode)
      requires Valid() && ws.Some?
      modifies this
      ensures Valid() && Model() == SocketClosed(old(Model()), code)
    {
      CloseKeepsInv(Model(), config, code);
      DoClose(code);
    }

    /** The socket begins closing, from either end; its close event is still to come. */
    method SocketBeginsClosing()
      requires Valid() && ws.Some?
      modifies this`ws
      ensures Valid() && Model() == old(Model()).(ws := Some(IsClosing))
    {
      ControlsKeepData(Model(), Model().(ws := Some(IsClosing)), config);
      ws := Some(IsClosing);
    }

    method CancelReconnect()
      requires Valid()
      modifies this
      ensures Valid() && Model() == ReconnectCancelled(old(Model()))
    {
      StepKeepsInv(Model(), config, clock, Event.CancelReconnect);
      if reconnectTimeout.None? {
        return;
      }
      CancelTimer();
      status := Closed;
      ResetCounters();
    }

    method SetReconnect(p: Policy)
      requires Valid()
      modifies this
      ensures Valid() && Model() == PolicySet(old(Model()), p)
    {
      PolicyKeepsInv(Model(), config, p);
      DoSetReconnect(p);
    }
  }
}
