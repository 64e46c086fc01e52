/**
 * The browser client as a state machine: request correlation, the durable queue, aborts, and the
 * connection lifecycle with its reconnect timer.
 *
 * `wire` is what was written to sockets, `made` the requests in call order, and `settled` what
 * became of them. A request refused before it takes an id - revoked client, aborted signal -
 * settles in the call and is no part of the state.
 */
module ClientModel {
  import opened Common

  datatype Id = Auto(n: nat) | Explicit(key: nat) // an explicit id is the caller's; only its equality matters

  datatype Status = Initial | Connecting | Connected | Reconnecting | Closed

  datatype Ready = NotYetOpen | IsOpen | IsClosing

  type CloseCode = int
  const DEFAULT_CLOSE_CODE: CloseCode := 1000
  const CLOSE_SESSION_REVOKED: CloseCode := 4001
  const CLOSE_CONNECTION_LIMIT: CloseCode := 4004
  const CLOSE_PERMISSION_REVOKED: CloseCode := 4006

  datatype Code =
    | Unauthenticated
    | RequestCancelled
    | QueueOverflow
    | ServiceUnavailable
    | Forbidden
    | InternalError
    | WireCode(code: int)

  datatype Outcome = Resolved | Rejected(code: Code)

  /** An unsettled request; `order` is its place among all calls. */
  datatype Entry = Entry(id: Id, order: nat, hasSignal: bool)

  datatype Settlement = Settlement(id: Id, outcome: Outcome)

  datatype Wire = RequestFrame(id: Id) | CancelFrame(of: Id)

  /** The reconnect policy: each `set_reconnect` replaces all of it. */
  datatype Policy = Policy(auto: bool, delay: real, delayMax: real, factor: real)

  datatype Config = Config(queueOn: bool, queueMax: nat)

  datatype Client = Client(
    status: Status,
    ws: Option<Ready>,
    policy: Policy,
    reconnectCount: nat,
    reconnectDelay: int,
    timer: Option<int>,   // when the armed reconnect timer is due
    scheduledAt: int,
    clock: int,
    revoked: bool,
    superseded: bool,
    lastCloseCode: Option<CloseCode>,
    nextId: nat,
    pending: seq<Entry>,  // in insertion order
    queue: seq<Entry>,
    made: seq<Id>,
    settled: seq<Settlement>,
    wire: seq<Wire>)

  function NewClient(policy: Policy, now: int): Client {
    Client(Initial, None, policy, 0, 0, None, 0, now, false, false, None, 0, [], [], [], [], [])
  }

  // ----- The backoff -----

  function Power(factor: real, n: nat): real {
    if n == 0 then 1.0 else Power(factor, n - 1) * factor
  }

  /** Rounds half up. */
  function Round(x: real): int {
    (x + 0.5).Floor
  }

  function TargetDelay(p: Policy, count: nat): int {
    var grown := p.delay * Power(p.factor, if count == 0 then 0 else count - 1);
    Round(if p.delayMax < grown then p.delayMax else grown)
  }

  function AtLeastZero(n: int): int {
    if n < 0 then 0 else n
  }

  // ----- Settling -----

  function IdsOf(es: seq<Entry>): (ids: seq<Id>)
    ensures |ids| == |es| && forall i :: 0 <= i < |es| ==> ids[i] == es[i].id
  {
    seq(|es|, i requires 0 <= i < |es| => es[i].id)
  }

  function SettledIds(ss: seq<Settlement>): (ids: seq<Id>)
    ensures |ids| == |ss| && forall i :: 0 <= i < |ss| ==> ids[i] == ss[i].id
  {
    seq(|ss|, i requires 0 <= i < |ss| => ss[i].id)
  }

  function AllSettled(es: seq<Entry>, outcome: Outcome): (ss: seq<Settlement>)
    ensures |ss| == |es| && forall i :: 0 <= i < |es| ==> ss[i] == Settlement(es[i].id, outcome)
  {
    seq(|es|, i requires 0 <= i < |es| => Settlement(es[i].id, outcome))
  }

  predicate Has(es: seq<Entry>, id: Id) {
    exists i :: 0 <= i < |es| && es[i].id == id
  }

  function OtherThan(id: Id): Entry -> bool {
    (e: Entry) => e.id != id
  }

  function Remove(es: seq<Entry>, id: Id): seq<Entry> {
    Where(es, OtherThan(id))
  }

  function SettledAs(c: Client, id: Id, outcome: Outcome): Client {
    c.(settled := c.settled + [Settlement(id, outcome)])
  }

  function PendingRejected(c: Client, code: Code): Client {
    c.(pending := [], settled := c.settled + AllSettled(c.pending, Rejected(code)))
  }

  function AllRejected(c: Client, code: Code): Client {
    c.(pending := [], queue := [],
       settled := c.settled + AllSettled(c.pending, Rejected(code)) + AllSettled(c.queue, Rejected(code)))
  }

  // ----- Requests -----

  predicate IsConnected(c: Client) {
    c.status.Connected? && c.ws.Some?
  }

  /** The id a call takes; an explicit one is the caller's. */
  function TakeId(c: Client, explicit: Option<Id>): Id {
    if explicit.Some? then explicit.value else Auto(c.nextId + 1)
  }

  function Enqueued(c: Client, config: Config, e: Entry): Client {
    if |c.queue| >= config.queueMax then SettledAs(c, e.id, Rejected(QueueOverflow)) else c.(queue := c.queue + [e])
  }

  function Numbered(c: Client, explicit: Option<Id>): Client {
    c.(nextId := if explicit.Some? then c.nextId else c.nextId + 1, made := c.made + [TakeId(c, explicit)])
  }

  /** `sends` is whether writing the frame succeeds. */
  function Requested(c: Client, config: Config, explicit: Option<Id>, hasSignal: bool, durable: bool,
                     sends: bool): Client {
    if c.revoked then c
    else
      var e := Entry(TakeId(c, explicit), |c.made|, hasSignal);
      var n := Numbered(c, explicit);
      if IsConnected(c) && sends then n.(pending := n.pending + [e], wire := n.wire + [RequestFrame(e.id)])
      else if durable && config.queueOn then Enqueued(n, config, e)
      else SettledAs(n, e.id, Rejected(if IsConnected(c) then InternalError else ServiceUnavailable))
  }

  /** The caller's signal fires: `cancel` is written only for a frame in flight. */
  function Aborted(c: Client, id: Id, sends: bool): Client {
    var inFlight := Has(c.pending, id);
    var dropped := SettledAs(c.(pending := Remove(c.pending, id), queue := Remove(c.queue, id)), id,
                             Rejected(RequestCancelled));
    if inFlight && IsConnected(c) && sends then dropped.(wire := dropped.wire + [CancelFrame(id)]) else dropped
  }

  /** A response frame; an id nobody waits for is not the client's. */
  function Answered(c: Client, id: Id, outcome: Outcome): Client {
    if Has(c.pending, id) then SettledAs(c.(pending := Remove(c.pending, id)), id, outcome) else c
  }

  /** One queued request at a flush. */
  function FlushedOne(c: Client, e: Entry, aborted: bool, sends: bool): Client {
    if aborted then SettledAs(c, e.id, Rejected(RequestCancelled))
    else if sends then c.(pending := c.pending + [e], wire := c.wire + [RequestFrame(e.id)])
    else SettledAs(c, e.id, Rejected(InternalError))
  }

  function FlushedAll(c: Client, es: seq<Entry>, aborted: set<Id>, sends: Id -> bool): Client {
    if es == [] then c
    else
      var before := FlushedAll(c, es[..|es| - 1], aborted, sends);
      var e := es[|es| - 1];
      FlushedOne(before, e, e.hasSignal && e.id in aborted, sends(e.id))
  }

  function Flushed(c: Client, aborted: set<Id>, sends: Id -> bool): Client {
    FlushedAll(c.(queue := []), c.queue, aborted, sends)
  }

  // ----- Lifecycle -----

  function TimerCancelled(c: Client): Client {
    c.(timer := None)
  }

  function CountersReset(c: Client): Client {
    c.(reconnectCount := 0, reconnectDelay := 0)
  }

  function Scheduled(c: Client): Client {
    if !c.policy.auto || c.revoked then c
    else
      var delay := TargetDelay(c.policy, c.reconnectCount + 1);
      c.(reconnectCount := c.reconnectCount + 1, reconnectDelay := delay, status := Reconnecting,
         scheduledAt := c.clock, timer := Some(c.clock + AtLeastZero(delay)))
  }

  function TornDown(c: Client, code: CloseCode): Client {
    if c.ws.None? then c
    else if c.ws.value.IsClosing? then c.(ws := None)
    else PendingRejected(c, ServiceUnavailable).(ws := None, lastCloseCode := Some(code))
  }

  function ConnectCalled(c: Client, constructs: bool): Client {
    if c.revoked then c
    else
      var idle := TornDown(TimerCancelled(c.(superseded := false)), DEFAULT_CLOSE_CODE);
      if constructs then idle.(status := Connecting, ws := Some(NotYetOpen))
      else if c.policy.auto then Scheduled(idle)
      else idle.(status := Closed)
  }

  function Disconnected(c: Client, code: CloseCode): Client {
    AllRejected(CountersReset(TornDown(TimerCancelled(c), code).(status := Closed)), ServiceUnavailable)
  }

  function Opened(c: Client, aborted: set<Id>, sends: Id -> bool): Client {
    Flushed(TimerCancelled(CountersReset(c.(status := Connected, ws := Some(IsOpen)))), aborted, sends)
  }

  function StayClosed(c: Client, code: Code): Client {
    AllRejected(CountersReset(TimerCancelled(c.(status := Closed))), code)
  }

  function SocketClosed(c: Client, code: CloseCode): Client {
    CloseSettled(c.(ws := None, lastCloseCode := Some(code)), code)
  }

  function CloseSettled(gone: Client, code: CloseCode): Client {
    if code == CLOSE_SESSION_REVOKED then StayClosed(gone.(revoked := true), Unauthenticated)
    else if code == CLOSE_CONNECTION_LIMIT then StayClosed(gone.(superseded := true), ServiceUnavailable)
    else if code == CLOSE_PERMISSION_REVOKED then StayClosed(gone, Forbidden)
    else
      var rejected := PendingRejected(gone, ServiceUnavailable);
      if gone.policy.auto then Scheduled(rejected) else AllRejected(rejected.(status := Closed), ServiceUnavailable)
  }

  function ReconnectCancelled(c: Client): Client {
    if c.timer.None? then c else CountersReset(TimerCancelled(c.(status := Closed)))
  }

  function Elapsed(c: Client): int {
    AtLeastZero(c.clock - c.scheduledAt)
  }

  function PolicySet(c: Client, p: Policy): Client {
    var next := c.(policy := p);
    if c.timer.None? then next
    else if !p.auto then CountersReset(TimerCancelled(next.(status := Closed)))
    else
      var remaining := AtLeastZero(c.reconnectDelay - Elapsed(c));
      var target := TargetDelay(p, c.reconnectCount);
      var left := AtLeastZero(target - Elapsed(c));
      if left >= remaining then next else next.(reconnectDelay := target, timer := Some(c.clock + left))
  }

  function At(c: Client, now: int): Client {
    c.(clock := if now > c.clock then now else c.clock)
  }

  // ----- Events -----

  datatype Event =
    | Request(explicit: Option<Id>, hasSignal: bool, durable: bool, sends: bool)
    | Abort(id: Id, cancelSends: bool)
    | Response(to: Id, outcome: Outcome)
    | Connect(constructs: bool)
    | Disconnect(code: CloseCode)
    | WsOpens(aborted: set<Id>, sendOk: Id -> bool)
    | WsCloses(closeCode: CloseCode)
    | WsBeginsClosing
    | TimerFires(constructsThen: bool)
    | CancelReconnect
    | SetReconnect(policy: Policy)

  /** Ids are the caller's to keep distinct; adapter events come from the current socket. */
  predicate Possible(c: Client, e: Event) {
    match e
    case Request(explicit, _, _, _) => TakeId(c, explicit) !in c.made && (explicit.Some? ==> explicit.value.Explicit?)
    case Abort(id, _) => Has(c.pending, id) || Has(c.queue, id)
    case WsOpens(_, _) => c.ws == Some(NotYetOpen)
    case WsCloses(_) => c.ws.Some?
    case WsBeginsClosing => c.ws.Some?
    case TimerFires(_) => c.timer.Some?
    case Response(_, _) => c.ws.Some?
    case _ => true
  }

  function Step(c: Client, config: Config, now: int, e: Event): Client {
    var t := At(c, now);
    match e
    case Request(explicit, hasSignal, durable, sends) => Requested(t, config, explicit, hasSignal, durable, sends)
    case Abort(id, sends) => Aborted(t, id, sends)
    case Response(to, outcome) => Answered(t, to, outcome)
    case Connect(constructs) => ConnectCalled(t, constructs)
    case Disconnect(code) => Disconnected(t, code)
    case WsOpens(aborted, sendOk) => Opened(t, aborted, sendOk)
    case WsCloses(code) => SocketClosed(t, code)
    case WsBeginsClosing => if t.ws == Some(NotYetOpen) || t.ws == Some(IsOpen) then t.(ws := Some(IsClosing)) else t
    case TimerFires(constructs) => ConnectCalled(TimerCancelled(t), constructs)
    case CancelReconnect => ReconnectCancelled(t)
    case SetReconnect(policy) => PolicySet(t, policy)
  }

  // ----- What every event keeps -----

  /** Each request made is in flight, queued or settled - in exactly one of them, once. */
  ghost predicate Conserved(c: Client, rest: seq<Entry>) {
    && multiset(c.made) ==
      multiset(IdsOf(c.pending)) + multiset(IdsOf(c.queue)) + multiset(IdsOf(rest)) + multiset(SettledIds(c.settled))
    && Distinct(c.made)
    && (forall n: nat :: Auto(n) in c.made ==> 1 <= n <= c.nextId)
  }

  ghost predicate InCallOrder(es: seq<Entry>) {
    forall i, j :: 0 <= i < j < |es| ==> es[i].order < es[j].order
  }

  ghost predicate QueueOk(c: Client, config: Config) {
    && |c.queue| <= config.queueMax && InCallOrder(c.queue)
    && forall e :: e in c.queue ==> e.order < |c.made|
  }

  /** In flight means written, queued means never written, and `cancel` is only for what was written. */
  ghost predicate WireOk(c: Client, rest: seq<Entry>) {
    && (forall e :: e in c.pending ==> RequestFrame(e.id) in c.wire)
    && (forall e :: e in c.queue || e in rest ==> RequestFrame(e.id) !in c.wire)
    && (forall id :: RequestFrame(id) in c.wire ==> id in c.made)
    && (forall i, j :: 0 <= i < j < |c.wire| && c.wire[i].RequestFrame? ==> c.wire[i] != c.wire[j])
    && (forall j :: 0 <= j < |c.wire| && c.wire[j].CancelFrame? ==> Written(c.wire, j, c.wire[j].of))
  }

  ghost predicate Written(wire: seq<Wire>, before: nat, id: Id)
    requires before <= |wire|
  {
    exists i :: 0 <= i < before && wire[i] == RequestFrame(id)
  }

  /** `reconnecting` is exactly an armed timer, and the socket is there exactly while (being) connected. */
  ghost predicate LifeOk(c: Client) {
    && (c.status.Reconnecting? <==> c.timer.Some?)
    && (c.ws.Some? <==> c.status.Connecting? || c.status.Connected?)
    && (c.status.Connecting? ==> c.ws != Some(IsOpen)) && (c.status.Connected? ==> c.ws != Some(NotYetOpen))
    && (c.revoked ==> c.status.Closed? && c.pending == [] && c.queue == [])
    && (c.superseded ==> c.status.Closed?)
  }

  /** The armed timer is due when its delay is up, or is already due. */
  ghost predicate TimerOk(c: Client) {
    c.timer.Some? ==>
      c.scheduledAt <= c.clock
        && (c.timer.value == c.scheduledAt + c.reconnectDelay
            || c.scheduledAt + c.reconnectDelay < c.timer.value <= c.clock)
  }

  ghost predicate Inv(c: Client, config: Config) {
    Conserved(c, []) && QueueOk(c, config) && WireOk(c, []) && LifeOk(c) && TimerOk(c)
  }
}
