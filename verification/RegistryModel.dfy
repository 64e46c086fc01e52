/**
 * The connection registry as a state machine on values: what each operation makes of the
 * registry, and what all of them keep.
 *
 * A connection is one entry of an insertion-ordered map. Everything the registry does to the
 * objects around it - aborting a controller, closing a socket, handing a frame to a writer - is
 * recorded in `calls` in the order it is done.
 */
module RegistryModel {
  import opened Common
  import opened PeerRequests

  type SessionHash = nat
  type TokenId = nat
  type AccountId = nat
  type Role = nat
  type ControllerId = nat
  type CloseCode = nat

  /** A per-account cap: none, or at least one. */
  type Cap = m: Option<nat> | m != Some(0) witness None

  const CLOSE_GOING_AWAY: CloseCode := 1001
  const CLOSE_SESSION_REVOKED: CloseCode := 4001
  const CLOSE_CONNECTION_LIMIT: CloseCode := 4004
  const CLOSE_OUTBOUND_OVERFLOW: CloseCode := 4005
  const CLOSE_PERMISSION_REVOKED: CloseCode := 4006

  datatype Identity = Identity(
    session: Option<SessionHash>,
    account: AccountId,
    token: Option<TokenId>,
    requiredRoles: seq<Role>)

  datatype CloseTarget =
    | SessionTarget(session: SessionHash)
    | TokenTarget(token: TokenId)
    | AccountTarget(account: AccountId)
    | RoleTarget(roleAccount: AccountId, role: Role)

  predicate Matches(identity: Identity, target: CloseTarget) {
    match target
    case SessionTarget(session) => identity.session == Some(session)
    case TokenTarget(token) => identity.token == Some(token)
    case AccountTarget(account) => identity.account == account
    case RoleTarget(account, role) => identity.account == account && role in identity.requiredRoles
  }

  function CodeFor(target: CloseTarget): CloseCode {
    if target.RoleTarget? then CLOSE_PERMISSION_REVOKED else CLOSE_SESSION_REVOKED
  }

  datatype Backlog = Flush | Discard

  /** What a writer answers to one frame. */
  datatype Push = Accepted | Refused | Overflow

  datatype Call =
    | Abort(controller: ControllerId)
    | CloseSocket(conn: ConnId, code: CloseCode, backlog: Backlog)
    | CloseBornClosed(born: ConnId)
    | Offer(to: ConnId)
    | Dispose(conn: ConnId)

  datatype Conn = Conn(id: ConnId, identity: Identity, admitted: bool, controller: Option<ControllerId>)

  datatype Registry = Registry(
    max: Cap,
    maxPeers: nat,
    connections: seq<Conn>,
    closingWriters: set<ConnId>,
    closeCodes: map<ConnId, CloseCode>,
    closing: bool,
    nextId: nat,
    peers: Peers,
    calls: seq<Call>)

  function Empty(max: Cap, maxPeers: nat): Registry {
    Registry(max, maxPeers, [], {}, map[], false, 0, NO_PEERS, [])
  }

  // ----- Reading the map -----

  predicate Has(cs: seq<Conn>, id: ConnId) {
    exists i :: 0 <= i < |cs| && cs[i].id == id
  }

  function Find(cs: seq<Conn>, id: ConnId): (c: Option<Conn>)
    ensures c.Some? <==> Has(cs, id)
    ensures c.Some? ==> c.value in cs && c.value.id == id
  {
    if cs == [] then None
    else if cs[0].id == id then Some(cs[0])
    else
      var rest := Find(cs[1..], id);
      assert rest.None? ==> forall i :: 0 < i < |cs| ==> cs[i] == cs[1..][i - 1];
      rest
  }

  predicate IsAdmitted(r: Registry, id: ConnId) {
    Find(r.connections, id).Some? && Find(r.connections, id).value.admitted
  }

  predicate DistinctIds(cs: seq<Conn>) {
    forall i, j :: 0 <= i < j < |cs| ==> cs[i].id != cs[j].id
  }

  function Drop(cs: seq<Conn>, id: ConnId): (r: seq<Conn>)
  {
    Where(cs, NotId(id))
  }

  function Everyone(): Conn -> bool {
    (c: Conn) => true
  }

  function NotId(id: ConnId): Conn -> bool {
    (c: Conn) => c.id != id
  }

  function NotIn(cs: seq<Conn>): Conn -> bool {
    (c: Conn) => c !in cs
  }

  function AdmittedOf(account: AccountId): Conn -> bool {
    (c: Conn) => c.admitted && c.identity.account == account
  }

  function NamedBy(target: CloseTarget): Conn -> bool {
    (c: Conn) => Matches(c.identity, target)
  }

  function SetAdmitted(cs: seq<Conn>, id: ConnId): (r: seq<Conn>)
    ensures |r| == |cs|
    ensures forall i :: 0 <= i < |cs| ==> r[i] == if cs[i].id == id then cs[i].(admitted := true) else cs[i]
  {
    seq(|cs|, i requires 0 <= i < |cs| => if cs[i].id == id then cs[i].(admitted := true) else cs[i])
  }

  // ----- Operations -----

  function AbortCall(controller: Option<ControllerId>): seq<Call> {
    if controller.Some? then [Abort(controller.value)] else []
  }

  function Cleaned(r: Registry, id: ConnId): Registry {
    r.(connections := Drop(r.connections, id), peers := Drained(r.peers, id))
  }

  /** One connection ended by the registry. */
  function Ended(r: Registry, c: Conn, code: CloseCode, backlog: Backlog): Registry {
    Cleaned(r, c.id).(
      closeCodes := if c.admitted then r.closeCodes else r.closeCodes[c.id := code],
      closingWriters := r.closingWriters + {c.id},
      calls := r.calls + AbortCall(c.controller) + [CloseSocket(c.id, code, backlog)])
  }

  function EndStep(code: CloseCode, backlog: Backlog): (Registry, Conn) -> Registry {
    (r: Registry, c: Conn) => Ended(r, c, code, backlog)
  }

  function EndedAll(r: Registry, cs: seq<Conn>, code: CloseCode, backlog: Backlog): Registry {
    Fold(EndStep(code, backlog), r, cs)
  }

  function ClosedWhere(r: Registry, p: Conn -> bool, code: CloseCode): Registry {
    EndedAll(r, Where(r.connections, p), code, Flush)
  }

  function ClosedTarget(r: Registry, target: CloseTarget): Registry {
    ClosedWhere(r, NamedBy(target), CodeFor(target))
  }

  function ClosedAll(r: Registry): Registry {
    ClosedWhere(r.(closing := true), Everyone(), CLOSE_GOING_AWAY)
  }

  function ClosedOne(r: Registry, id: ConnId, code: CloseCode): Registry {
    match Find(r.connections, id)
    case None => r
    case Some(c) => Ended(r, c, code, Flush)
  }

  function BornClosed(r: Registry, controller: Option<ControllerId>): Registry {
    r.(nextId := r.nextId + 1, calls := r.calls + AbortCall(controller) + [CloseBornClosed(r.nextId)])
  }

  function Inserted(r: Registry, identity: Identity, controller: Option<ControllerId>, admitted: bool): Registry {
    r.(nextId := r.nextId + 1, connections := r.connections + [Conn(r.nextId, identity, admitted, controller)])
  }

  function RegisteredPending(r: Registry, identity: Identity, controller: Option<ControllerId>): Registry {
    if r.closing then BornClosed(r, controller) else Inserted(r, identity, controller, false)
  }

  function Excess(r: Registry, account: AccountId): nat {
    var owned := |Where(r.connections, AdmittedOf(account))|;
    if r.max.Some? && owned + 1 > r.max.value then owned + 1 - r.max.value else 0
  }

  /** The account's earliest-registered admitted connections, as many as must go. */
  function Victims(r: Registry, account: AccountId): (v: seq<Conn>)
  {
    Where(r.connections, AdmittedOf(account))[..Excess(r, account)]
  }

  function RoomMade(r: Registry, account: AccountId): Registry
  {
    EndedAll(r, Victims(r, account), CLOSE_CONNECTION_LIMIT, Flush)
  }

  function AddedConnection(r: Registry, identity: Identity, controller: Option<ControllerId>): Registry
  {
    if r.closing then BornClosed(r, controller)
    else Inserted(RoomMade(r, identity.account), identity, controller, true)
  }

  function Admitted(r: Registry, id: ConnId): Registry
  {
    match Find(r.connections, id)
    case None => r
    case Some(c) =>
      if c.admitted then r
      else
        var room := RoomMade(r, c.identity.account);
        room.(connections := SetAdmitted(room.connections, id))
  }

  function DisposeCalls(r: Registry, id: ConnId): seq<Call> {
    (if Find(r.connections, id).Some? then [Dispose(id)] else []) + if id in r.closingWriters then [Dispose(id)] else []
  }

  function Removed(r: Registry, id: ConnId): Registry {
    Cleaned(r, id).(
      closeCodes := r.closeCodes - {id},
      closingWriters := r.closingWriters - {id},
      calls := r.calls + DisposeCalls(r, id))
  }

  function CodeTaken(r: Registry, id: ConnId): Registry {
    r.(closeCodes := r.closeCodes - {id})
  }

  function CloseSettled(r: Registry, id: ConnId): Registry {
    r.(closingWriters := r.closingWriters - {id})
  }

  function Stalled(r: Registry, id: ConnId): Registry {
    match Find(r.connections, id)
    case None => r
    case Some(c) => Cleaned(r, id).(calls := r.calls + AbortCall(c.controller))
  }

  function Delivered(r: Registry, c: Conn, push: Push): Registry {
    var offered := r.(calls := r.calls + [Offer(c.id)]);
    if push.Overflow? then Ended(offered, c, CLOSE_OUTBOUND_OVERFLOW, Discard) else offered
  }

  function OfferStep(push: ConnId -> Push): (Registry, Conn) -> Registry {
    (r: Registry, c: Conn) => Delivered(r, c, push(c.id))
  }

  function DeliveredAll(r: Registry, cs: seq<Conn>, push: ConnId -> Push): Registry {
    Fold(OfferStep(push), r, cs)
  }

  function Audience(to: Identity -> bool): Conn -> bool {
    (c: Conn) => c.admitted && to(c.identity)
  }

  function Broadcasted(r: Registry, to: Identity -> bool, push: ConnId -> Push): Registry {
    DeliveredAll(r, Where(r.connections, Audience(to)), push)
  }

  function SentTo(r: Registry, id: ConnId, push: Push): Registry {
    match Find(r.connections, id)
    case None => r
    case Some(c) => if c.admitted then Delivered(r, c, push) else r
  }

  datatype RequestResult = Answered(outcome: Outcome) | Awaiting(id: RequestId)

  function RequestSent(r: Registry, c: Conn, id: RequestId, encodes: bool, push: Push): Registry {
    var sent := if encodes then Delivered(r, c, push) else r;
    if encodes && push.Accepted? then sent
    else sent.(peers := Settled(sent.peers, c.id, id, ConnectionGone))
  }

  /** A peer request; `encodes` is whether its parameters are JSON. */
  function Requested(r: Registry, conn: ConnId, encodes: bool, push: Push): (Registry, RequestResult) {
    match Find(r.connections, conn)
    case None => (r, Answered(ConnectionGone))
    case Some(c) =>
      if !c.admitted then (r, Answered(ConnectionGone))
      else
        var (peers, id) := Registered(r.peers, r.maxPeers, conn);
        if id.None? then (r, Answered(TooManyInFlight))
        else
          (RequestSent(r.(peers := peers), c, id.value, encodes, push), Awaiting(id.value))
  }

  function ReplyRouted(r: Registry, conn: ConnId, reply: Reply): Registry {
    r.(peers := Resolved(r.peers, conn, reply))
  }

  /** A request's deadline passed; only an armed timer can fire. */
  function TimedOut(r: Registry, id: RequestId): Registry {
    if id in r.peers.promises && r.peers.promises[id].timerArmed
    then r.(peers := Settled(r.peers, r.peers.promises[id].conn, id, Timeout))
    else r
  }

  // ----- What every operation keeps -----

  ghost predicate WellFormed(r: Registry) {
    && DistinctIds(r.connections)
    && (forall c :: c in r.connections ==> c.id < r.nextId)
    && (forall id :: id in r.closeCodes ==> id < r.nextId && !Has(r.connections, id))
    && (forall id :: id in r.closingWriters ==> id < r.nextId && !Has(r.connections, id))
  }

  /** Every pending peer request belongs to a connection that is admitted right now. */
  ghost predicate PeersOwned(r: Registry) {
    && Ok(r.peers, r.maxPeers)
    && forall c :: c in r.peers.pending ==> IsAdmitted(r, c)
  }

  ghost predicate WithinCap(r: Registry) {
    r.max.Some? ==> forall account :: |Where(r.connections, AdmittedOf(account))| <= r.max.value
  }

  ghost predicate ShutMeansEmpty(r: Registry) {
    r.closing ==> r.connections == []
  }

  /** A socket gets at most one close from the registry, and a registered one has had none. */
  ghost predicate ClosedOnce(r: Registry) {
    && (forall i :: 0 <= i < |r.calls| && r.calls[i].CloseSocket? ==>
          r.calls[i].conn < r.nextId && !Has(r.connections, r.calls[i].conn))
    && (forall i, j :: 0 <= i < j < |r.calls| && r.calls[i].CloseSocket? && r.calls[j].CloseSocket? ==>
          r.calls[i].conn != r.calls[j].conn)
  }

  ghost predicate Inv(r: Registry) {
    WellFormed(r) && PeersOwned(r) && WithinCap(r) && ShutMeansEmpty(r) && ClosedOnce(r)
  }
}
