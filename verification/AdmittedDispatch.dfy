/**
 * The registry, its sockets and the database as one system: what each socket dispatches, and on
 * whose credential.
 *
 * A socket's session hears of its connection from the registry: whatever operation takes the
 * connection out aborts the socket's controller, and what a session ends itself it takes out.
 */
module AdmittedDispatch {
  import opened Common
  import opened PeerRequests
  import opened RegistryModel
  import opened RegistryProofs
  import opened RegistryRuns
  import opened Admission
  import opened AdmissionTheorems
  import Sessions = SessionModel
  import SessionRuns

  datatype Gateway = Gateway(sys: State, sessions: map<SocketId, Sessions.Session>)

  datatype GatewayEvent =
    | World(change: SystemEvent)                 // a commit, new rows, a tombstone
    | Upgrades(socket: SocketId, identity: Identity, actor: Option<ActorId>)
    | OpensSocket(opening: SocketId)
    | ReadsOn(reading: SocketId)                 // one more check of the re-read passes
    | ReadsLive(admitting: SocketId)             // the re-read is over and found everything alive
    | ReadsDead(refused: SocketId)
    | ReadThrows(failing: SocketId)
    | Operates(operation: SystemEvent)           // any other operation on the registry, closes included
    | Runs(running: SocketId, event: Sessions.Event, ending: Event)

  // ----- The registry's word to the sessions -----

  predicate Held(r: Registry, k: SocketId) {
    exists i :: 0 <= i < |r.connections| && r.connections[i].controller == Some(k)
  }

  /** A session whose connection is gone has been aborted, or forgotten by a bare removal. */
  function Heard(s: Sessions.Session, held: bool, forgets: bool): Sessions.Session {
    if !s.registered || held then s
    else if forgets then s.(registered := false)
    else Sessions.EndedNow(s)
  }

  function Synced(sessions: map<SocketId, Sessions.Session>, r: Registry, forgets: bool)
    : map<SocketId, Sessions.Session>
  {
    map k | k in sessions :: Heard(sessions[k], Held(r, k), forgets)
  }

  predicate IsWorld(e: SystemEvent) {
    e.Commit? || e.AddRows? || e.DeleteActor?
  }

  /** What a socket's own runs are, the opening's awaits aside. */
  predicate IsOwn(e: Sessions.Event) {
    e.Ticks? || e.HookReturns? || e.Message? || e.HandlerReturns? || e.Completes? || e.TimerFires? || e.Closes?
  }

  /** How a run of `k`'s own takes its connection out: closed, overflowed, or removed once the peer is gone. */
  predicate Ends(r: Registry, k: SocketId, ending: Event) {
    && (ending.CloseOne? || ending.Remove? || (ending.Send? && ending.push.Overflow?))
    && exists i :: 0 <= i < |r.connections| && IsTheEnded(r.connections[i], k, ending)
  }

  predicate IsTheEnded(c: Conn, k: SocketId, ending: Event)
    requires ending.CloseOne? || ending.Remove? || ending.Send?
  {
    c.controller == Some(k) && c.id == IdOf(ending) && (ending.Send? ==> c.admitted)
  }

  function IdOf(ending: Event): ConnId
    requires ending.CloseOne? || ending.Remove? || ending.Send?
  {
    match ending
    case CloseOne(id, _) => id
    case Remove(id) => id
    case Send(id, _) => id
  }

  predicate GatewayEnabled(g: Gateway, limits: Sessions.Limits, e: GatewayEvent) {
    match e
    case World(change) => IsWorld(change) && Enabled(g.sys, change)
    case Upgrades(k, identity, actor) => Enabled(g.sys, Upgrade(k, identity, actor))
    case OpensSocket(k) => Enabled(g.sys, OnOpen(k)) && k in g.sessions && g.sessions[k].stage.NotOpened?
    case ReadsOn(k) => Enabled(g.sys, Reread(k)) && Check(g.sys.db, g.sys.sockets[k], g.sys.sockets[k].stage.passed)
    case ReadsLive(k) => Enabled(g.sys, FinishAdmission(k)) && k in g.sessions && g.sessions[k].stage.Rereading?
    case ReadsDead(k) =>
      && Enabled(g.sys, Reread(k)) && !Check(g.sys.db, g.sys.sockets[k], g.sys.sockets[k].stage.passed)
      && k in g.sessions && g.sessions[k].stage.Rereading?
    case ReadThrows(k) => Enabled(g.sys, RereadFails(k)) && k in g.sessions && g.sessions[k].stage.Rereading?
    case Operates(operation) => (operation.RunClose? || operation.InRegistry?) && Enabled(g.sys, operation)
    case Runs(k, event, ending) =>
      && k in g.sessions && IsOwn(event) && Sessions.Possible(g.sessions[k], event)
      && (Drops(g, limits, k, event) ==> Ends(g.sys.reg, k, ending))
  }

  /** Whether a run of the socket's own ends a connection still held. */
  predicate Drops(g: Gateway, limits: Sessions.Limits, k: SocketId, event: Sessions.Event)
    requires k in g.sessions && Sessions.Possible(g.sessions[k], event)
  {
    g.sessions[k].registered && !Sessions.Step(g.sessions[k], limits, event).registered
  }

  function Stepped(g: Gateway, e: SystemEvent): Gateway
    requires Enabled(g.sys, e)
  {
    var sys := Next(g.sys, e);
    Gateway(sys, Synced(g.sessions, sys.reg, e.InRegistry? && e.event.Remove?))
  }

  /** A registration made for a socket already gone is taken out at once. */
  function OpenedSystem(g: Gateway, k: SocketId): State
    requires Enabled(g.sys, OnOpen(k)) && k in g.sessions
  {
    var made := Next(g.sys, OnOpen(k));
    if g.sessions[k].phase.Ended? then Next(made, InRegistry(Remove(g.sys.reg.nextId))) else made
  }

  function GatewayNext(g: Gateway, limits: Sessions.Limits, e: GatewayEvent): Gateway
    requires GatewayEnabled(g, limits, e)
  {
    match e
    case World(change) => g.(sys := Next(g.sys, change))
    case Upgrades(k, identity, actor) =>
      Gateway(Next(g.sys, Upgrade(k, identity, actor)), g.sessions[k := Sessions.NEW_SESSION])
    case OpensSocket(k) =>
      Gateway(OpenedSystem(g, k), g.sessions[k := Sessions.Registered(g.sessions[k], g.sys.reg.closing)])
    case ReadsOn(k) => g.(sys := Next(g.sys, Reread(k)))
    case ReadsLive(k) =>
      var t := Stepped(g, FinishAdmission(k));
      t.(sessions := t.sessions[k := Sessions.AdmittedOrRefused(t.sessions[k], Sessions.Recheck.Live)])
    case ReadsDead(k) =>
      Gateway(Next(g.sys, Reread(k)), g.sessions[k := Sessions.AdmittedOrRefused(g.sessions[k], Sessions.Dead)])
    case ReadThrows(k) =>
      Gateway(Next(g.sys, RereadFails(k)), g.sessions[k := Sessions.AdmittedOrRefused(g.sessions[k], Sessions.Failed)])
    case Operates(operation) => Stepped(g, operation)
    case Runs(k, event, ending) =>
      var session := Sessions.Step(g.sessions[k], limits, event);
      Gateway(if Drops(g, limits, k, event) then Next(g.sys, InRegistry(ending)) else g.sys, g.sessions[k := session])
  }

  // ----- The invariant -----

  /** A session is told the truth: it is registered exactly while held, and admitted as its connection is. */
  ghost predicate Told(r: Registry, s: Sessions.Session, k: SocketId) {
    && (s.registered <==> Held(r, k))
    && forall c :: c in r.connections && c.controller == Some(k) ==> c.admitted == s.wasAdmitted
  }

  ghost predicate SessionOk(r: Registry, s: Sessions.Session, limits: Sessions.Limits, k: SocketId) {
    Sessions.Inv(s, limits) && Told(r, s, k)
  }

  /** The sockets whose session is not in order. */
  ghost function Untold(g: Gateway, limits: Sessions.Limits): set<SocketId> {
    set k | k in g.sessions && !SessionOk(g.sys.reg, g.sessions[k], limits, k)
  }

  ghost function Unsound(s: State): set<State> {
    set t: State | t == s && !SystemInv(t)
  }

  ghost predicate GatewayInv(g: Gateway, limits: Sessions.Limits) {
    Unsound(g.sys) == {} && g.sessions.Keys == g.sys.sockets.Keys && Untold(g, limits) == {}
  }

  lemma Sound(s: State)
    ensures Unsound(s) == {} <==> SystemInv(s)
  {
    assert s in Unsound(s) <==> !SystemInv(s);
  }

  lemma StaysSound(s: State, e: SystemEvent)
    requires Unsound(s) == {} && Enabled(s, e)
    ensures Unsound(Next(s, e)) == {}
  {
    Sound(s);
    NextKeepsInv(s, e);
    Sound(Next(s, e));
  }

  lemma IsOk(g: Gateway, limits: Sessions.Limits, k: SocketId)
    requires Untold(g, limits) == {} && k in g.sessions
    ensures SessionOk(g.sys.reg, g.sessions[k], limits, k)
  {
    assert k !in Untold(g, limits);
  }

  lemma NowOk(t: Gateway, limits: Sessions.Limits, k: SocketId)
    requires k in t.sessions && Sessions.Inv(t.sessions[k], limits) && Told(t.sys.reg, t.sessions[k], k)
    ensures k !in Untold(t, limits)
  {
  }

  /** A socket whose session is as it was, and still told the truth. */
  lemma StillOk(g: Gateway, limits: Sessions.Limits, t: Gateway, k: SocketId)
    requires Untold(g, limits) == {} && k in g.sessions && k in t.sessions && t.sessions[k] == g.sessions[k]
    requires Told(g.sys.reg, g.sessions[k], k) ==> Told(t.sys.reg, g.sessions[k], k)
    ensures k !in Untold(t, limits)
  {
    IsOk(g, limits, k);
    NowOk(t, limits, k);
  }

  // ----- Who is held -----

  lemma HeldIn(r: Registry, k: SocketId)
    ensures Held(r, k) <==> exists c :: c in r.connections && c.controller == Some(k)
  {
    if c :| c in r.connections && c.controller == Some(k) {
      var i :| 0 <= i < |r.connections| && r.connections[i] == c;
    }
  }

  /** A socket's own connection is gone, and no other's. */
  ghost predicate OnlyGone(r: Registry, e: Registry, k: SocketId) {
    forall c :: c in e.connections <==> c in r.connections && c.controller != Some(k)
  }

  lemma GoneTold(r: Registry, e: Registry, k: SocketId, s: Sessions.Session, j: SocketId)
    requires OnlyGone(r, e, k)
    ensures j != k && Told(r, s, j) ==> Told(e, s, j)
    ensures j == k && !s.registered ==> Told(e, s, j)
  {
    HeldIn(r, j);
    HeldIn(e, j);
  }

  // ----- Sessions that hear of it -----

  /** A run takes no admission, and registers nothing anew. */
  ghost predicate SameHold(s: Sessions.Session, t: Sessions.Session) {
    t.wasAdmitted == s.wasAdmitted && (t.registered ==> s.registered)
  }

  lemma EndedHold(s: Sessions.Session)
    ensures SameHold(s, Sessions.EndedNow(s)) && !Sessions.EndedNow(s).registered
  {
  }

  lemma HeardTold(r: Registry, e: Registry, s: Sessions.Session, k: SocketId, forgets: bool)
    requires Told(r, s, k) && Shrinks(r, e)
    ensures Told(e, Heard(s, Held(e, k), forgets), k)
  {
    HeldIn(r, k);
    HeldIn(e, k);
    HeardHold(s, Held(e, k), forgets);
  }

  lemma HeardKeepsInv(s: Sessions.Session, limits: Sessions.Limits, held: bool, forgets: bool)
    requires Sessions.Inv(s, limits)
    ensures Sessions.Inv(Heard(s, held, forgets), limits)
  {
    SessionRuns.EndedKeepsInv(s, limits);
    SessionRuns.ForgottenKeepsInv(s, limits);
  }

  lemma OperationShrinks(s: State, operation: SystemEvent)
    requires Enabled(s, operation) && (operation.RunClose? || operation.InRegistry?)
    ensures Shrinks(s.reg, Next(s, operation).reg)
  {
    OtherOperationsShrink(s.reg, if operation.RunClose? then CloseTargeted(operation.target) else operation.event);
  }

  lemma OperatesKeepsInv(g: Gateway, limits: Sessions.Limits, operation: SystemEvent)
    requires GatewayInv(g, limits) && Enabled(g.sys, operation) && (operation.RunClose? || operation.InRegistry?)
    ensures GatewayInv(Stepped(g, operation), limits)
  {
    var t, forgets := Stepped(g, operation), operation.InRegistry? && operation.event.Remove?;
    StaysSound(g.sys, operation);
    OperationShrinks(g.sys, operation);
    forall k | k in t.sessions
      ensures k !in Untold(t, limits)
    {
      IsOk(g, limits, k);
      HeardKeepsInv(g.sessions[k], limits, Held(t.sys.reg, k), forgets);
      HeardTold(g.sys.reg, t.sys.reg, g.sessions[k], k, forgets);
    }
  }

  // ----- The opening -----

  /** What an admission makes of one socket: held no more than before, and its own connection admitted. */
  lemma AdmissionTold(s: State, k: SocketId, j: SocketId)
    requires SystemInv(s) && Enabled(s, FinishAdmission(k))
    ensures var t := Next(s, FinishAdmission(k));
            && (Held(t.reg, j) ==> Held(s.reg, j))
            && forall c :: c in t.reg.connections && c.controller == Some(j) ==>
                 if j == k then c.admitted
                 else exists p :: p in s.reg.connections && p.controller == Some(j) && p.admitted == c.admitted
  {
    var t := Next(s, FinishAdmission(k));
    HeldIn(t.reg, j);
    HeldIn(s.reg, j);
    forall c | c in t.reg.connections && c.controller == Some(j)
      ensures exists p :: p in s.reg.connections && p.controller == Some(j) && (j != k ==> p.admitted == c.admitted)
      ensures j == k ==> c.admitted
    {
      var p := AdmissionOrigin(s, k, c);
    }
  }

  /** What hearing of an admission makes of one session. */
  function AfterAdmission(s: Sessions.Session, held: bool, own: bool): Sessions.Session {
    var heard := Heard(s, held, false);
    if own then Sessions.AdmittedOrRefused(heard, Sessions.Recheck.Live) else heard
  }

  lemma HeardHold(s: Sessions.Session, held: bool, forgets: bool)
    ensures var t := Heard(s, held, forgets); (t.registered <==> s.registered && held) && t.wasAdmitted == s.wasAdmitted
  {
    EndedHold(s);
  }

  lemma LiveHold(s: Sessions.Session)
    ensures var t := Sessions.AdmittedOrRefused(s, Sessions.Recheck.Live);
            t.registered == s.registered && t.wasAdmitted == (s.wasAdmitted || s.registered)
  {
    EndedHold(s.(stage := Sessions.Over));
  }

  lemma AfterAdmissionHold(s: Sessions.Session, held: bool, own: bool)
    ensures var t := AfterAdmission(s, held, own);
            && (t.registered <==> s.registered && held)
            && (t.wasAdmitted <==> s.wasAdmitted || (own && t.registered))
  {
    HeardHold(s, held, false);
    LiveHold(Heard(s, held, false));
  }

  lemma ReadsLiveTold(g: Gateway, k: SocketId, j: SocketId)
    requires SystemInv(g.sys) && Enabled(g.sys, FinishAdmission(k)) && k in g.sessions && j in g.sessions
    requires Told(g.sys.reg, g.sessions[j], j)
    ensures var t := Next(g.sys, FinishAdmission(k));
            Told(t.reg, AfterAdmission(g.sessions[j], Held(t.reg, j), j == k), j)
  {
    var t := Next(g.sys, FinishAdmission(k));
    assert (Held(t.reg, j) ==> Held(g.sys.reg, j)) by { AdmissionTold(g.sys, k, j); }
    AfterAdmissionHold(g.sessions[j], Held(t.reg, j), j == k);
    forall c | c in t.reg.connections && c.controller == Some(j)
      ensures Held(t.reg, j) && c.admitted == AfterAdmission(g.sessions[j], Held(t.reg, j), j == k).wasAdmitted
    {
      HeldIn(t.reg, j);
      AdmissionTold(g.sys, k, j);
    }
  }

  lemma ReadsLiveKeepsInv(g: Gateway, limits: Sessions.Limits, k: SocketId)
    requires GatewayInv(g, limits) && GatewayEnabled(g, limits, ReadsLive(k))
    ensures GatewayInv(GatewayNext(g, limits, ReadsLive(k)), limits)
  {
    var t := GatewayNext(g, limits, ReadsLive(k));
    StaysSound(g.sys, FinishAdmission(k));
    forall j | j in t.sessions
      ensures j !in Untold(t, limits)
    {
      IsOk(g, limits, j);
      var heard := Heard(g.sessions[j], Held(t.sys.reg, j), false);
      assert Sessions.Inv(t.sessions[j], limits) by {
        HeardKeepsInv(g.sessions[j], limits, Held(t.sys.reg, j), false);
        if j == k { SessionRuns.RecheckKeepsInv(heard, limits, Sessions.Recheck.Live); }
      }
      assert Told(t.sys.reg, t.sessions[j], j) by {
        Sound(g.sys);
        ReadsLiveTold(g, k, j);
      }
    }
  }

  /** One socket's session changes, and its connection is gone. */
  lemma GoneKeepsInv(g: Gateway, limits: Sessions.Limits, t: Gateway, k: SocketId)
    requires GatewayInv(g, limits) && Unsound(t.sys) == {} && t.sys.sockets.Keys == g.sys.sockets.Keys
    requires OnlyGone(g.sys.reg, t.sys.reg, k) && k in g.sessions && k in t.sessions
    requires t.sessions == g.sessions[k := t.sessions[k]]
    requires Sessions.Inv(t.sessions[k], limits) && !t.sessions[k].registered
    ensures GatewayInv(t, limits)
  {
    GoneTold(g.sys.reg, t.sys.reg, k, t.sessions[k], k);
    NowOk(t, limits, k);
    forall j | j in t.sessions && j != k
      ensures j !in Untold(t, limits)
    {
      GoneTold(g.sys.reg, t.sys.reg, k, t.sessions[j], j);
      StillOk(g, limits, t, j);
    }
    assert Untold(t, limits) == {};
  }

  lemma RefusedGone(s: State, k: SocketId, code: CloseCode)
    requires SystemInv(s) && k in s.sockets && s.sockets[k].stage.Checking?
    ensures OnlyGone(s.reg, RefusedAs(s, k, code).reg, k)
  {
    var conn := s.sockets[k].stage.conn;
    DropIn(s.reg.connections, conn);
    assert Owns(s, k);
    forall c | c in s.reg.connections
      ensures c.id == conn <==> c.controller == Some(k)
    {
      assert Linked(s, c);
    }
  }

  lemma RefusedSession(s: Sessions.Session, limits: Sessions.Limits, answer: Sessions.Recheck)
    requires Sessions.Inv(s, limits) && s.stage.Rereading? && !answer.Live?
    ensures Sessions.Inv(Sessions.AdmittedOrRefused(s, answer), limits)
    ensures !Sessions.AdmittedOrRefused(s, answer).registered
  {
    SessionRuns.RecheckKeepsInv(s, limits, answer);
  }

  lemma RefusedGateway(g: Gateway, limits: Sessions.Limits, t: Gateway, k: SocketId, code: CloseCode,
                       answer: Sessions.Recheck)
    requires GatewayInv(g, limits) && Unsound(t.sys) == {} && k in g.sessions && k in g.sys.sockets
    requires g.sys.sockets[k].stage.Checking? && g.sessions[k].stage.Rereading? && !answer.Live?
    requires t.sys == RefusedAs(g.sys, k, code)
    requires t.sessions == g.sessions[k := Sessions.AdmittedOrRefused(g.sessions[k], answer)]
    ensures GatewayInv(t, limits)
  {
    assert Sessions.Inv(t.sessions[k], limits) && !t.sessions[k].registered by {
      IsOk(g, limits, k);
      RefusedSession(g.sessions[k], limits, answer);
    }
    assert OnlyGone(g.sys.reg, t.sys.reg, k) by {
      Sound(g.sys);
      RefusedGone(g.sys, k, code);
    }
    GoneKeepsInv(g, limits, t, k);
  }

  lemma RefusalKeepsInv(g: Gateway, limits: Sessions.Limits, e: GatewayEvent)
    requires GatewayInv(g, limits) && GatewayEnabled(g, limits, e) && (e.ReadsDead? || e.ReadThrows?)
    ensures GatewayInv(GatewayNext(g, limits, e), limits)
  {
    var t := GatewayNext(g, limits, e);
    if e.ReadsDead? {
      StaysSound(g.sys, Reread(e.refused));
      RefusedGateway(g, limits, t, e.refused, RefusalCode(g.sys.sockets[e.refused].stage.passed), Sessions.Dead);
    } else {
      StaysSound(g.sys, RereadFails(e.failing));
      RefusedGateway(g, limits, t, e.failing, CLOSE_INTERNAL_ERROR, Sessions.Failed);
    }
  }

  /** What opening makes of the registry: one more connection, the socket's own, or none. */
  lemma OpenedConnections(g: Gateway, k: SocketId)
    requires SystemInv(g.sys) && Enabled(g.sys, OnOpen(k)) && k in g.sessions
    ensures var r, e := g.sys.reg, OpenedSystem(g, k).reg;
            && !Held(r, k)
            && forall c :: c in e.connections <==>
                 || c in r.connections
                 || (!r.closing && !g.sessions[k].phase.Ended?
                     && c == Conn(r.nextId, g.sys.sockets[k].identity, false, Some(k)))
  {
    var r, made := g.sys.reg, Next(g.sys, OnOpen(k));
    DropIn(made.reg.connections, r.nextId);
    HeldIn(r, k);
    forall c | c in r.connections
      ensures c.controller != Some(k) && c.id != r.nextId
    {
      assert Linked(g.sys, c);
    }
  }

  lemma OpenedTold(g: Gateway, k: SocketId, j: SocketId)
    requires SystemInv(g.sys) && Enabled(g.sys, OnOpen(k)) && k in g.sessions && j in g.sessions
    requires Told(g.sys.reg, g.sessions[j], j) && !g.sessions[k].wasAdmitted
    ensures var opening := Sessions.Registered(g.sessions[k], g.sys.reg.closing);
            Told(OpenedSystem(g, k).reg, if j == k then opening else g.sessions[j], j)
  {
    OpenedConnections(g, k);
    HeldIn(g.sys.reg, j);
    HeldIn(OpenedSystem(g, k).reg, j);
  }

  lemma OpenedSound(g: Gateway, k: SocketId)
    requires Unsound(g.sys) == {} && Enabled(g.sys, OnOpen(k)) && k in g.sessions
    ensures Unsound(OpenedSystem(g, k)) == {} && OpenedSystem(g, k).sockets.Keys == g.sys.sockets.Keys
  {
    StaysSound(g.sys, OnOpen(k));
    if g.sessions[k].phase.Ended? { StaysSound(Next(g.sys, OnOpen(k)), InRegistry(Remove(g.sys.reg.nextId))); }
  }

  lemma OpenedSession(s: Sessions.Session, limits: Sessions.Limits, bornClosed: bool)
    requires Sessions.Inv(s, limits) && s.stage.NotOpened?
    ensures Sessions.Inv(Sessions.Registered(s, bornClosed), limits) && !s.wasAdmitted
  {
    SessionRuns.OpensKeepsInv(s, limits, bornClosed);
  }

  lemma OpenedOk(g: Gateway, limits: Sessions.Limits, k: SocketId)
    requires GatewayInv(g, limits) && GatewayEnabled(g, limits, OpensSocket(k))
    ensures k !in Untold(GatewayNext(g, limits, OpensSocket(k)), limits) && !g.sessions[k].wasAdmitted
  {
    var t := GatewayNext(g, limits, OpensSocket(k));
    IsOk(g, limits, k);
    OpenedSession(g.sessions[k], limits, g.sys.reg.closing);
    assert Told(t.sys.reg, t.sessions[k], k) by {
      Sound(g.sys);
      OpenedTold(g, k, k);
    }
    NowOk(t, limits, k);
  }

  lemma OpensKeepsInv(g: Gateway, limits: Sessions.Limits, k: SocketId)
    requires GatewayInv(g, limits) && GatewayEnabled(g, limits, OpensSocket(k))
    ensures GatewayInv(GatewayNext(g, limits, OpensSocket(k)), limits)
  {
    var t := GatewayNext(g, limits, OpensSocket(k));
    OpenedSound(g, k);
    assert t.sys == OpenedSystem(g, k) && t.sessions.Keys == g.sessions.Keys;
    OpenedOk(g, limits, k);
    forall j | j in t.sessions && j != k
      ensures j !in Untold(t, limits)
    {
      OtherStaysTold(g, limits, k, j);
    }
    assert Untold(t, limits) == {};
  }

  lemma OtherStaysTold(g: Gateway, limits: Sessions.Limits, k: SocketId, j: SocketId)
    requires GatewayInv(g, limits) && GatewayEnabled(g, limits, OpensSocket(k)) && j in g.sessions && j != k
    requires !g.sessions[k].wasAdmitted
    ensures j !in Untold(GatewayNext(g, limits, OpensSocket(k)), limits)
  {
    if Told(g.sys.reg, g.sessions[j], j) {
      Sound(g.sys);
      OpenedTold(g, k, j);
    }
    StillOk(g, limits, GatewayNext(g, limits, OpensSocket(k)), j);
  }

  lemma WorldKeepsInv(g: Gateway, limits: Sessions.Limits, e: GatewayEvent)
    requires GatewayInv(g, limits) && GatewayEnabled(g, limits, e) && (e.World? || e.ReadsOn?)
    ensures GatewayInv(GatewayNext(g, limits, e), limits)
  {
    var t := GatewayNext(g, limits, e);
    StaysSound(g.sys, if e.World? then e.change else Reread(e.reading));
    assert t.sys.reg == g.sys.reg;
    forall j | j in t.sessions
      ensures j !in Untold(t, limits)
    {
      StillOk(g, limits, t, j);
    }
  }

  lemma NewIsTold(s: State, k: SocketId)
    requires SystemInv(s) && k !in s.sockets
    ensures Told(s.reg, Sessions.NEW_SESSION, k)
  {
    HeldIn(s.reg, k);
    assert forall c :: c in s.reg.connections ==> Linked(s, c);
  }

  lemma NewKeepsInv(limits: Sessions.Limits)
    ensures Sessions.Inv(Sessions.NEW_SESSION, limits)
  {
    assert Sessions.Ids([]) == [];
  }

  lemma UpgradesKeepsInv(g: Gateway, limits: Sessions.Limits, e: GatewayEvent)
    requires GatewayInv(g, limits) && GatewayEnabled(g, limits, e) && e.Upgrades?
    ensures GatewayInv(GatewayNext(g, limits, e), limits)
  {
    var t := GatewayNext(g, limits, e);
    StaysSound(g.sys, Upgrade(e.socket, e.identity, e.actor));
    assert t.sys.reg == g.sys.reg;
    assert e.socket !in Untold(t, limits) by {
      NewKeepsInv(limits);
      Sound(g.sys);
      NewIsTold(g.sys, e.socket);
      NowOk(t, limits, e.socket);
    }
    forall j | j in t.sessions && j != e.socket
      ensures j !in Untold(t, limits)
    {
      StillOk(g, limits, t, j);
    }
    assert Untold(t, limits) == {};
  }

  // ----- A socket's own runs -----

  lemma {:induction false} FlushedHold(s: Sessions.Session, fs: seq<Sessions.Inbound>,
                                       overflows: Sessions.FrameId -> bool)
    ensures SameHold(s, Sessions.Flushed(s, fs, overflows))
    decreases |fs|
  {
    if fs != [] {
      var next := if s.registered then Sessions.Handled(s, fs[0], overflows(fs[0].id))
                  else s.(settled := s.settled + [fs[0].id]);
      assert SameHold(s, next);
      FlushedHold(next, fs[1..], overflows);
    }
  }

  lemma FinishedHold(s: Sessions.Session, overflows: Sessions.FrameId -> bool)
    ensures SameHold(s, Sessions.FinishedOpening(s, overflows))
  {
    FlushedHold(Sessions.OpenedNow(s), s.queue, overflows);
  }

  lemma TickedHold(s: Sessions.Session, limits: Sessions.Limits, overflows: Sessions.FrameId -> bool)
    ensures SameHold(s, Sessions.Ticked(s, limits, overflows))
  {
    FinishedHold(if s.phase.Ended? then s else s.(timers := true), overflows);
  }

  lemma ReceivedHold(s: Sessions.Session, limits: Sessions.Limits, e: Sessions.Event)
    requires e.Message?
    ensures SameHold(s, Sessions.Step(s, limits, e))
  {
    var f := Sessions.Inbound(s.nextFrame, e.bytes, e.content);
    EndedHold(Sessions.Dropped(s));
    EndedHold(Sessions.Started(Sessions.Promised(s, f), f));
  }

  lemma OwnHold(s: Sessions.Session, limits: Sessions.Limits, e: Sessions.Event)
    requires Sessions.Possible(s, e) && IsOwn(e)
    ensures SameHold(s, Sessions.Step(s, limits, e))
  {
    match e
    case Ticks(overflows) => TickedHold(s, limits, overflows);
    case HookReturns(ok, overflows) =>
      if ok { FinishedHold(s, overflows); } else { EndedHold(s.(stage := Sessions.Over)); }
    case Message(_, _, _, _) => ReceivedHold(s, limits, e);
    case TimerFires => EndedHold(s);
    case Closes => EndedHold(s);
    case _ =>
  }

  /** An operation that ends one connection takes it out, and nothing else. */
  lemma EndingDrops(r: Registry, c: Conn, ending: Event)
    requires DistinctIds(r.connections) && c in r.connections
    requires (ending.CloseOne? || ending.Remove? || (ending.Send? && ending.push.Overflow? && c.admitted))
    requires IdOf(ending) == c.id
    ensures forall d :: d in Step(r, ending).connections <==> d in r.connections && d.id != c.id
  {
    FindUnique(r.connections, c);
    DropIn(r.connections, c.id);
  }

  lemma EndedIsGone(s: State, k: SocketId, c: Conn, ending: Event)
    requires SystemInv(s) && c in s.reg.connections
    requires ending.CloseOne? || ending.Remove? || (ending.Send? && ending.push.Overflow?)
    requires IsTheEnded(c, k, ending)
    ensures OnlyGone(s.reg, Step(s.reg, ending), k)
  {
    assert forall d :: d in Step(s.reg, ending).connections <==> d in s.reg.connections && d.id != c.id by {
      EndingDrops(s.reg, c, ending);
    }
    forall d | d in s.reg.connections
      ensures d.id == c.id <==> d.controller == Some(k)
    {
      SameSocket(s, c, d);
    }
    DroppedIsGone(s.reg, Step(s.reg, ending), c, k);
  }

  lemma DroppedIsGone(r: Registry, e: Registry, c: Conn, k: SocketId)
    requires forall d :: d in e.connections <==> d in r.connections && d.id != c.id
    requires forall d :: d in r.connections ==> (d.id == c.id <==> d.controller == Some(k))
    ensures OnlyGone(r, e, k)
  {
  }

  lemma SameSocket(s: State, c: Conn, d: Conn)
    requires SystemInv(s) && c in s.reg.connections && d in s.reg.connections
    ensures d.id == c.id <==> d.controller == c.controller
  {
    assert Linked(s, c) && Linked(s, d);
    if d.id == c.id {
      FindUnique(s.reg.connections, c);
      FindUnique(s.reg.connections, d);
    }
  }

  lemma EndingKeepsInv(g: Gateway, limits: Sessions.Limits, t: Gateway, k: SocketId, ending: Event)
    requires GatewayInv(g, limits) && k in g.sessions && k in t.sessions && Ends(g.sys.reg, k, ending)
    requires t.sys == Next(g.sys, InRegistry(ending)) && t.sessions == g.sessions[k := t.sessions[k]]
    requires Sessions.Inv(t.sessions[k], limits) && !t.sessions[k].registered
    ensures GatewayInv(t, limits)
  {
    StaysSound(g.sys, InRegistry(ending));
    var i :| 0 <= i < |g.sys.reg.connections| && IsTheEnded(g.sys.reg.connections[i], k, ending);
    assert OnlyGone(g.sys.reg, Step(g.sys.reg, ending), k) by {
      Sound(g.sys);
      EndedIsGone(g.sys, k, g.sys.reg.connections[i], ending);
    }
    GoneKeepsInv(g, limits, t, k);
  }

  lemma RunsKeepsInv(g: Gateway, limits: Sessions.Limits, k: SocketId, event: Sessions.Event, ending: Event)
    requires GatewayInv(g, limits) && GatewayEnabled(g, limits, Runs(k, event, ending))
    ensures GatewayInv(GatewayNext(g, limits, Runs(k, event, ending)), limits)
  {
    var t := GatewayNext(g, limits, Runs(k, event, ending));
    assert Sessions.Inv(t.sessions[k], limits) by {
      IsOk(g, limits, k);
      SessionRuns.StepKeepsInv(g.sessions[k], limits, event);
    }
    if Drops(g, limits, k, event) {
      EndingKeepsInv(g, limits, t, k, ending);
    } else {
      assert Told(t.sys.reg, t.sessions[k], k) by {
        IsOk(g, limits, k);
        OwnHold(g.sessions[k], limits, event);
      }
      NowOk(t, limits, k);
      forall j | j in t.sessions && j != k
        ensures j !in Untold(t, limits)
      {
        StillOk(g, limits, t, j);
      }
      assert Untold(t, limits) == {};
    }
  }

  lemma GatewayKeepsInv(g: Gateway, limits: Sessions.Limits, e: GatewayEvent)
    requires GatewayInv(g, limits) && GatewayEnabled(g, limits, e)
    ensures GatewayInv(GatewayNext(g, limits, e), limits)
  {
    match e
    case World(_) => WorldKeepsInv(g, limits, e);
    case Upgrades(_, _, _) => UpgradesKeepsInv(g, limits, e);
    case OpensSocket(k) => OpensKeepsInv(g, limits, k);
    case ReadsOn(_) => WorldKeepsInv(g, limits, e);
    case ReadsLive(k) => ReadsLiveKeepsInv(g, limits, k);
    case ReadsDead(_) => RefusalKeepsInv(g, limits, e);
    case ReadThrows(_) => RefusalKeepsInv(g, limits, e);
    case Operates(operation) => OperatesKeepsInv(g, limits, operation);
    case Runs(k, event, ending) => RunsKeepsInv(g, limits, k, event, ending);
  }

  // ----- What a re-read leads to -----

  lemma LiveReadKeepsHold(s: State, k: SocketId)
    requires SystemInv(s) && Enabled(s, FinishAdmission(k)) && Held(s.reg, k)
    ensures Held(Next(s, FinishAdmission(k)).reg, k)
  {
    HeldIn(s.reg, k);
    var c :| c in s.reg.connections && c.controller == Some(k);
    assert Linked(s, c);
    PendingSurvivesRoom(s.reg, c);
    var room := RoomMade(s.reg, c.identity.account).connections;
    var i :| 0 <= i < |room| && room[i] == c;
    assert FindIs(s.reg, c) by { FindUnique(s.reg.connections, c); }
    assert SetAdmitted(room, c.id)[i].controller == Some(k);
  }

  predicate FindIs(r: Registry, c: Conn) {
    Find(r.connections, c.id) == Some(c)
  }

  /**
   * A re-read that finds everything live on a socket still held admits it: the registry keeps the
   * connection, now admitted, and the session goes on to its opening. On one no longer held it ends it.
   */
  lemma LiveReadAdmits(g: Gateway, limits: Sessions.Limits, k: SocketId)
    requires GatewayInv(g, limits) && GatewayEnabled(g, limits, ReadsLive(k))
    ensures var s, t := g.sessions[k], GatewayNext(g, limits, ReadsLive(k));
            if Held(g.sys.reg, k)
            then && Held(t.sys.reg, k) && t.sessions[k].registered && t.sessions[k].wasAdmitted
                 && t.sessions[k].stage.AdmittedTick? && t.sessions[k].phase == s.phase
                 && t.sessions[k].log == s.log + [Sessions.Admission]
                 && forall c :: c in t.sys.reg.connections && c.controller == Some(k) ==> c.admitted
            else !t.sessions[k].registered && t.sessions[k].phase.Ended? && !t.sessions[k].wasAdmitted
  {
    var t := GatewayNext(g, limits, ReadsLive(k));
    assert Told(g.sys.reg, g.sessions[k], k) && Sessions.Inv(g.sessions[k], limits) by { IsOk(g, limits, k); }
    assert Told(t.sys.reg, t.sessions[k], k) by {
      ReadsLiveKeepsInv(g, limits, k);
      IsOk(t, limits, k);
    }
    if Held(g.sys.reg, k) {
      assert Held(t.sys.reg, k) by {
        Sound(g.sys);
        LiveReadKeepsHold(g.sys, k);
      }
    }
  }

  // ----- What is dispatched -----

  lemma {:induction false} UnheldStartsNothing(s: Sessions.Session, fs: seq<Sessions.Inbound>,
                                               overflows: Sessions.FrameId -> bool)
    requires !s.registered
    ensures Sessions.Flushed(s, fs, overflows).log == s.log
    decreases |fs|
  {
    if fs != [] {
      UnheldStartsNothing(s.(settled := s.settled + [fs[0].id]), fs[1..], overflows);
    }
  }

  /** A frame that starts in this very step. */
  predicate Starts(s: Sessions.Session, t: Sessions.Session, f: Sessions.FrameId) {
    Sessions.Start(f) in t.log && Sessions.Start(f) !in s.log
  }

  lemma FinishedStarts(s: Sessions.Session, overflows: Sessions.FrameId -> bool, f: Sessions.FrameId)
    requires Starts(s, Sessions.FinishedOpening(s, overflows), f)
    ensures s.registered
  {
    if !s.registered { UnheldStartsNothing(Sessions.OpenedNow(s), s.queue, overflows); }
  }

  lemma EndedStartsNothing(s: Sessions.Session, f: Sessions.FrameId)
    ensures !Starts(s, Sessions.EndedNow(s), f)
  {
    if !s.phase.Ended? { assert Sessions.EndedNow(s).log == s.log + [Sessions.End]; }
  }

  lemma ReceivedStarts(s: Sessions.Session, limits: Sessions.Limits, e: Sessions.Event, f: Sessions.FrameId)
    requires e.Message? && Starts(s, Sessions.Step(s, limits, e), f)
    ensures s.registered && s.phase.Open?
  {
    EndedStartsNothing(Sessions.Dropped(s), f);
  }

  lemma ClosedStartsNothing(s: Sessions.Session, f: Sessions.FrameId)
    ensures !Starts(s, Sessions.ClosedByPeer(s), f)
  {
    EndedStartsNothing(s, f);
    var ended, closed := Sessions.EndedNow(s), Sessions.ClosedByPeer(s);
    assert closed.log == ended.log || closed.log == ended.log + [Sessions.CloseHook];
  }

  /** A socket's own run starts a frame only while it is held and was admitted. */
  lemma OwnStarts(s: Sessions.Session, limits: Sessions.Limits, e: Sessions.Event, f: Sessions.FrameId)
    requires Sessions.PhaseOk(s) && Sessions.Possible(s, e) && IsOwn(e)
    requires Starts(s, Sessions.Step(s, limits, e), f)
    ensures s.registered && s.wasAdmitted
  {
    match e
    case Ticks(overflows) => FinishedStarts(if s.phase.Ended? then s else s.(timers := true), overflows, f);
    case HookReturns(ok, overflows) =>
      if ok { FinishedStarts(s, overflows, f); } else { EndedStartsNothing(s.(stage := Sessions.Over), f); }
    case Message(_, _, _, _) => ReceivedStarts(s, limits, e, f);
    case TimerFires => EndedStartsNothing(s, f);
    case Closes => ClosedStartsNothing(s, f);
    case _ =>
  }

  lemma HeardStartsNothing(s: Sessions.Session, held: bool, forgets: bool, f: Sessions.FrameId)
    ensures !Starts(s, Heard(s, held, forgets), f)
  {
    EndedStartsNothing(s, f);
  }

  lemma AnsweredStartsNothing(s: Sessions.Session, answer: Sessions.Recheck, f: Sessions.FrameId)
    ensures !Starts(s, Sessions.AdmittedOrRefused(s, answer), f)
  {
    EndedStartsNothing(s.(stage := Sessions.Over), f);
    assert Sessions.Marked(s, Sessions.Admission).log == s.log + [Sessions.Admission];
  }

  lemma OpeningStartsNothing(s: Sessions.Session, bornClosed: bool, f: Sessions.FrameId)
    ensures !Starts(s, Sessions.Registered(s, bornClosed), f)
  {
    EndedStartsNothing(s.(captured := true, stage := Sessions.Over), f);
  }

  /** No event but a socket's own run starts a frame on it. */
  lemma OnlyOwnRunsStart(g: Gateway, limits: Sessions.Limits, e: GatewayEvent, k: SocketId, f: Sessions.FrameId)
    requires GatewayInv(g, limits) && GatewayEnabled(g, limits, e) && k in g.sessions
    requires Starts(g.sessions[k], GatewayNext(g, limits, e).sessions[k], f)
    ensures e.Runs? && e.running == k
  {
    var t := GatewayNext(g, limits, e);
    match e
    case OpensSocket(j) => OpeningStartsNothing(g.sessions[j], g.sys.reg.closing, f);
    case ReadsLive(j) =>
      HeardStartsNothing(g.sessions[k], Held(t.sys.reg, k), false, f);
      AnsweredStartsNothing(Heard(g.sessions[j], Held(t.sys.reg, j), false), Sessions.Recheck.Live, f);
    case ReadsDead(j) => AnsweredStartsNothing(g.sessions[j], Sessions.Dead, f);
    case ReadThrows(j) => AnsweredStartsNothing(g.sessions[j], Sessions.Failed, f);
    case Operates(operation) =>
      HeardStartsNothing(g.sessions[k], Held(t.sys.reg, k), operation.InRegistry? && operation.event.Remove?, f);
    case _ =>
  }

  /** A socket's connection as a dispatch finds it: held admitted, and entitled or with a close owed. */
  predicate Covers(s: State, k: SocketId, c: Conn) {
    && c in s.reg.connections && c.controller == Some(k) && c.admitted
    && (Entitled(s, c) || Owed(s, c.identity))
  }

  lemma AdmittedIsCovered(s: State, session: Sessions.Session, k: SocketId)
    requires SystemInv(s) && Told(s.reg, session, k) && session.registered && session.wasAdmitted
    ensures exists c :: Covers(s, k, c)
  {
    var i :| 0 <= i < |s.reg.connections| && s.reg.connections[i].controller == Some(k);
    var c := s.reg.connections[i];
    assert c in s.reg.connections;
    assert Linked(s, c) && Covered(s, c);
    assert Covers(s, k, c);
  }

  /**
   * Whenever a frame starts on a socket, the registry holds the socket's connection admitted, on a
   * session or token, an account and a role that are live - or the close of a committed revocation
   * naming it is still owed.
   */
  lemma DispatchIsCovered(g: Gateway, limits: Sessions.Limits, e: GatewayEvent, k: SocketId, f: Sessions.FrameId)
    requires GatewayInv(g, limits) && GatewayEnabled(g, limits, e) && k in g.sessions
    requires Starts(g.sessions[k], GatewayNext(g, limits, e).sessions[k], f)
    ensures exists c :: Covers(g.sys, k, c)
  {
    OnlyOwnRunsStart(g, limits, e, k, f);
    IsOk(g, limits, k);
    assert g.sessions[k].registered && g.sessions[k].wasAdmitted by { OwnStarts(g.sessions[k], limits, e.event, f); }
    Sound(g.sys);
    AdmittedIsCovered(g.sys, g.sessions[k], k);
  }

  // ----- Runs -----

  ghost predicate IsGatewayRun(limits: Sessions.Limits, states: seq<Gateway>, events: seq<GatewayEvent>) {
    && |states| == |events| + 1 && Initial(states[0].sys) && states[0].sessions == map[]
    && forall i :: 0 <= i < |events| ==>
         && GatewayEnabled(states[i], limits, events[i]) && states[i + 1] == GatewayNext(states[i], limits, events[i])
  }

  lemma {:induction false} GatewayRunsKeepInv(limits: Sessions.Limits, states: seq<Gateway>, events: seq<GatewayEvent>,
                                              i: nat)
    requires IsGatewayRun(limits, states, events) && i < |states|
    ensures GatewayInv(states[i], limits)
  {
    if i == 0 {
      EmptyInv(states[0].sys.reg.max, states[0].sys.reg.maxPeers);
      Sound(states[0].sys);
    } else {
      GatewayRunsKeepInv(limits, states, events, i - 1);
      GatewayKeepsInv(states[i - 1], limits, events[i - 1]);
    }
  }

  /** Step `i` started `f` on socket `k`, finding its connection covered. */
  ghost predicate DispatchedAt(states: seq<Gateway>, i: nat, k: SocketId, f: Sessions.FrameId)
    requires i + 1 < |states|
  {
    && k in states[i].sessions && k in states[i + 1].sessions
    && Starts(states[i].sessions[k], states[i + 1].sessions[k], f)
    && exists c :: Covers(states[i].sys, k, c)
  }

  /** Every frame ever started on a socket started in a step that found its connection covered. */
  lemma {:induction false} EveryDispatchWasCovered(limits: Sessions.Limits, states: seq<Gateway>,
                                                   events: seq<GatewayEvent>, j: nat, k: SocketId, f: Sessions.FrameId)
    requires IsGatewayRun(limits, states, events) && j < |states|
    requires k in states[j].sessions && Sessions.Start(f) in states[j].sessions[k].log
    ensures exists i: nat :: i < j && DispatchedAt(states, i, k, f)
  {
    var h := j - 1;
    if k in states[h].sessions && Sessions.Start(f) in states[h].sessions[k].log {
      EveryDispatchWasCovered(limits, states, events, h, k, f);
    } else {
      GatewayRunsKeepInv(limits, states, events, h);
      assert k in states[h].sessions;
      DispatchIsCovered(states[h], limits, events[h], k, f);
      assert DispatchedAt(states, h, k, f);
    }
  }

  /** So with every close run, no frame starts on a revoked credential, account or role. */
  lemma NoDispatchOnceRevoked(limits: Sessions.Limits, states: seq<Gateway>, events: seq<GatewayEvent>, i: nat,
                              k: SocketId, f: Sessions.FrameId)
    requires IsGatewayRun(limits, states, events) && i < |events| && states[i].sys.owed == multiset{}
    requires k in states[i].sessions && k in states[i + 1].sessions
    requires Starts(states[i].sessions[k], states[i + 1].sessions[k], f)
    ensures exists c :: Covers(states[i].sys, k, c) && Entitled(states[i].sys, c)
  {
    GatewayRunsKeepInv(limits, states, events, i);
    DispatchIsCovered(states[i], limits, events[i], k, f);
    var c :| Covers(states[i].sys, k, c);
    assert Entitled(states[i].sys, c);
  }
}
