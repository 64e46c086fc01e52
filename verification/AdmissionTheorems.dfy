/** What the admission protocol guarantees over whole runs, and why each of its parts is needed. */
module AdmissionTheorems {
  import opened Common
  import opened PeerRequests
  import opened RegistryModel
  import opened RegistryProofs
  import opened RegistryRuns
  import opened RegistryOutcomes
  import opened Admission

  /** No socket, nothing registered, nothing owed; any database. */
  ghost predicate Initial(s: State) {
    && s.sockets == map[] && s.owed == multiset{}
    && s.reg == Empty(s.reg.max, s.reg.maxPeers)
  }

  ghost predicate IsRun(states: seq<State>, events: seq<SystemEvent>) {
    && |states| == |events| + 1 && Initial(states[0])
    && forall i :: 0 <= i < |events| ==>
         && Enabled(states[i], events[i]) && states[i + 1] == Next(states[i], events[i])
  }

  lemma {:induction false} RunsKeepInv(states: seq<State>, events: seq<SystemEvent>, i: nat)
    requires IsRun(states, events) && i < |states|
    ensures SystemInv(states[i])
  {
    if i == 0 {
      EmptyInv(states[0].reg.max, states[0].reg.maxPeers);
    } else {
      RunsKeepInv(states, events, i - 1);
      NextKeepsInv(states[i - 1], events[i - 1]);
    }
  }

  function ActorOf(s: State, c: Conn): Option<ActorId> {
    if c.controller.Some? && c.controller.value in s.sockets then s.sockets[c.controller.value].actor else None
  }

  predicate Entitled(s: State, c: Conn) {
    CredentialLive(s.db, c.identity) && AccountLive(s.db, c.identity) && RoleHeld(s.db, c.identity, ActorOf(s, c))
  }

  /**
   * At every point of every interleaving, an admitted connection has a live session or token, a
   * live account and a held role - or the close of a committed revocation that names it is owed.
   */
  lemma AdmissionSafety(states: seq<State>, events: seq<SystemEvent>, i: nat, c: Conn)
    requires IsRun(states, events) && i < |states|
    requires c in states[i].reg.connections && c.admitted
    ensures Entitled(states[i], c) || Owed(states[i], c.identity)
  {
    RunsKeepInv(states, events, i);
    assert Linked(states[i], c) && Covered(states[i], c);
  }

  /** So once every owed close has run, no revoked connection is admitted. */
  lemma NoRevokedConnectionOnceClosed(states: seq<State>, events: seq<SystemEvent>, i: nat)
    requires IsRun(states, events) && i < |states| && states[i].owed == multiset{}
    ensures forall c :: c in states[i].reg.connections && c.admitted ==> Entitled(states[i], c)
  {
    forall c | c in states[i].reg.connections && c.admitted
      ensures Entitled(states[i], c)
    {
      AdmissionSafety(states, events, i, c);
    }
  }

  lemma StaysClosing(s: State, e: SystemEvent)
    requires SystemInv(s) && Enabled(s, e) && s.reg.closing
    ensures Next(s, e).reg.closing
  {
    match e
    case FinishAdmission(socket) => AdmittedKeepsInv(s.reg, s.sockets[socket].stage.conn);
    case RunClose(target) => ClosedTargetKeepsInv(s.reg, target);
    case InRegistry(event) => StepKeepsInv(s.reg, event);
    case _ =>
  }

  lemma ShutdownSets(s: State)
    requires SystemInv(s)
    ensures Next(s, InRegistry(CloseAll)).reg.closing
  {
    ClosingEventsKeepInv(s.reg, CloseAll);
  }

  lemma StepOf(states: seq<State>, events: seq<SystemEvent>, i: nat)
    requires IsRun(states, events) && i < |events|
    ensures SystemInv(states[i]) && Enabled(states[i], events[i]) && states[i + 1] == Next(states[i], events[i])
  {
    RunsKeepInv(states, events, i);
  }

  lemma {:induction false} ClosingForever(states: seq<State>, events: seq<SystemEvent>, i: nat, j: nat)
    requires IsRun(states, events) && i < j < |states| && events[i] == InRegistry(CloseAll)
    ensures states[j].reg.closing
  {
    var k := j - 1;
    StepOf(states, events, k);
    if k == i {
      ShutdownSets(states[k]);
    } else {
      ClosingForever(states, events, i, k);
      StaysClosing(states[k], events[k]);
    }
  }

  /** Once a shutdown has run, nothing is ever registered again, whatever upgrades were in flight. */
  lemma ShutdownIsFinal(states: seq<State>, events: seq<SystemEvent>, i: nat, j: nat)
    requires IsRun(states, events) && i < j < |states| && events[i] == InRegistry(CloseAll)
    ensures states[j].reg.connections == []
  {
    ClosingForever(states, events, i, j);
    RunsKeepInv(states, events, j);
  }

  // ----- One upgrade with nothing in between -----

  function Rereads(s: State, socket: SocketId): State
    decreases if Enabled(s, Reread(socket)) then CHECKS - s.sockets[socket].stage.passed else 0
  {
    if Enabled(s, Reread(socket)) then Rereads(Next(s, Reread(socket)), socket) else s
  }

  function WholeUpgrade(s: State, socket: SocketId, identity: Identity, actor: Option<ActorId>): State
    requires Enabled(s, Upgrade(socket, identity, actor))
  {
    var onOpen := Next(Next(s, Upgrade(socket, identity, actor)), OnOpen(socket));
    var reread := Rereads(onOpen, socket);
    if Enabled(reread, FinishAdmission(socket)) then Next(reread, FinishAdmission(socket)) else reread
  }

  predicate ChecksFrom(db: Db, s: Socket, step: nat) {
    forall k :: step <= k < CHECKS ==> Check(db, s, k)
  }

  predicate FirstFails(db: Db, s: Socket, from: nat, step: nat) {
    from <= step < CHECKS && !Check(db, s, step) && forall k :: from <= k < step ==> Check(db, s, k)
  }

  lemma {:induction false} RereadsDecide(s: State, socket: SocketId)
    requires socket in s.sockets
    requires s.sockets[socket].stage.Checking? && s.sockets[socket].stage.passed <= CHECKS
    ensures var t, stage := Rereads(s, socket), s.sockets[socket].stage;
            && t.db == s.db && t.owed == s.owed && socket in t.sockets
            && if ChecksFrom(s.db, s.sockets[socket], stage.passed)
               then t.reg == s.reg && t.sockets[socket] == s.sockets[socket].(stage := Checking(stage.conn, CHECKS))
               else && t.sockets[socket].stage.Done?
                    && exists step :: FirstFails(s.db, s.sockets[socket], stage.passed, step)
                                      && t.reg == ClosedOne(s.reg, stage.conn, RefusalCode(step))
    decreases CHECKS - s.sockets[socket].stage.passed
  {
    var stage := s.sockets[socket].stage;
    if stage.passed < CHECKS {
      var t := Next(s, Reread(socket));
      if Check(s.db, s.sockets[socket], stage.passed) {
        RereadsDecide(t, socket);
        assert forall k :: Check(t.db, t.sockets[socket], k) <==> Check(s.db, s.sockets[socket], k);
        if !ChecksFrom(s.db, s.sockets[socket], stage.passed) {
          var step :| FirstFails(t.db, t.sockets[socket], stage.passed + 1, step)
                      && Rereads(t, socket).reg == ClosedOne(t.reg, stage.conn, RefusalCode(step));
          assert FirstFails(s.db, s.sockets[socket], stage.passed, step);
        }
      } else {
        assert FirstFails(s.db, s.sockets[socket], stage.passed, stage.passed);
        assert Rereads(t, socket) == t;
      }
    }
  }

  /** A re-read that cannot be made ends its connection with 1011, and nothing else. */
  lemma FailedRereadCloses(s: State, socket: SocketId, c: Conn)
    requires SystemInv(s) && Enabled(s, RereadFails(socket)) && c in s.reg.connections && c.controller == Some(socket)
    ensures var t := Next(s, RereadFails(socket));
            && EndsExactly(s.reg, t.reg, [c], 1011, Flush) && t.sockets[socket].stage.Done?
            && t.db == s.db && t.owed == s.owed
  {
    assert s.sockets[socket].stage.conn == c.id by { assert Linked(s, c); }
    assert Next(s, RereadFails(socket)).reg == Step(s.reg, CloseOne(c.id, 1011));
    CloseOneOutcome(s.reg, c, 1011);
  }

  predicate AllLive(db: Db, identity: Identity, actor: Option<ActorId>) {
    CredentialLive(db, identity) && AccountLive(db, identity) && ActorLive(db, actor) && RoleHeld(db, identity, actor)
  }

  function WhyRefused(db: Db, identity: Identity, actor: Option<ActorId>): CloseCode {
    if CredentialLive(db, identity) && AccountLive(db, identity) && ActorLive(db, actor)
    then CLOSE_PERMISSION_REVOKED
    else CLOSE_SESSION_REVOKED
  }

  lemma PendingOpened(s: State, socket: SocketId, identity: Identity, actor: Option<ActorId>)
    requires SystemInv(s) && Enabled(s, Upgrade(socket, identity, actor)) && !s.reg.closing
    ensures var t := Next(Next(s, Upgrade(socket, identity, actor)), OnOpen(socket));
            var c := Conn(s.reg.nextId, identity, false, Some(socket));
            && SystemInv(t) && t.db == s.db && t.owed == s.owed
            && t.sockets[socket] == Socket(identity, actor, Checking(c.id, 0))
            && t.reg.connections == s.reg.connections + [c]
            && Find(t.reg.connections, c.id) == Some(c)
            && Drop(t.reg.connections, c.id) == s.reg.connections
  {
    var up := Next(s, Upgrade(socket, identity, actor));
    NextKeepsInv(s, Upgrade(socket, identity, actor));
    NextKeepsInv(up, OnOpen(socket));
    var t := Next(up, OnOpen(socket));
    var c := Conn(s.reg.nextId, identity, false, Some(socket));
    assert t.reg.connections == s.reg.connections + [c];
    assert c in t.reg.connections;
    FindUnique(t.reg.connections, c);
    assert forall x :: x in s.reg.connections ==> x.id < c.id;
    LastDropped(s.reg.connections, c);
  }

  /**
   * An upgrade nothing interferes with is admitted exactly when its credential, account, acting
   * actor and role are all live, and a refused one leaves every other connection in place, its own
   * closed as a lost permission when only the role is missing, and as a revoked credential otherwise.
   */
  lemma UndisturbedUpgrade(s: State, socket: SocketId, identity: Identity, actor: Option<ActorId>)
    requires SystemInv(s) && Enabled(s, Upgrade(socket, identity, actor)) && !s.reg.closing
    ensures var t := WholeUpgrade(s, socket, identity, actor);
            && t.db == s.db && t.owed == s.owed
            && if AllLive(s.db, identity, actor)
               then Find(t.reg.connections, s.reg.nextId) == Some(Conn(s.reg.nextId, identity, true, Some(socket)))
               else && t.reg.connections == s.reg.connections
                    && CloseSocket(s.reg.nextId, WhyRefused(s.db, identity, actor), Flush) in t.reg.calls
  {
    PendingOpened(s, socket, identity, actor);
    var pending := Next(Next(s, Upgrade(socket, identity, actor)), OnOpen(socket));
    var c := Conn(s.reg.nextId, identity, false, Some(socket));
    var me := pending.sockets[socket];
    assert ChecksFrom(s.db, me, 0) <==> AllLive(s.db, identity, actor) by {
      assert Check(s.db, me, 0) == CredentialLive(s.db, identity) && Check(s.db, me, 1) == AccountLive(s.db, identity);
      assert Check(s.db, me, 2) == ActorLive(s.db, actor) && Check(s.db, me, 3) == RoleHeld(s.db, identity, actor);
    }
    RereadsDecide(pending, socket);
    var reread := Rereads(pending, socket);
    if AllLive(s.db, identity, actor) {
      assert WholeUpgrade(s, socket, identity, actor) == Next(reread, FinishAdmission(socket));
      assert c in pending.reg.connections;
      AdmittedIdentity(pending.reg, c);
    } else {
      assert WholeUpgrade(s, socket, identity, actor) == reread;
      var step :| FirstFails(s.db, me, 0, step) && reread.reg == ClosedOne(pending.reg, c.id, RefusalCode(step));
      assert RefusalCode(step) == WhyRefused(s.db, identity, actor) by {
        assert Check(s.db, me, 0) == CredentialLive(s.db, identity);
        assert Check(s.db, me, 1) == AccountLive(s.db, identity);
        assert Check(s.db, me, 2) == ActorLive(s.db, actor);
      }
    }
  }

  lemma AdmittedIdentity(r: Registry, c: Conn)
    requires WellFormed(r) && c in r.connections && !c.admitted
    ensures Find(Admitted(r, c.id).connections, c.id) == Some(c.(admitted := true))
  {
    PendingSurvivesRoom(r, c);
    SetAdmittedFinds(RoomMade(r, c.identity.account).connections, c.id, c.id);
  }

  lemma LastDropped(cs: seq<Conn>, c: Conn)
    requires forall x :: x in cs ==> x.id != c.id
    ensures Drop(cs + [c], c.id) == cs
  {
    assert (cs + [c])[..|cs + [c]| - 1] == cs;
    WhereAll(cs, NotId(c.id));
  }

  // ----- Why the protocol has the parts it has -----

  /**
   * Two-phase registration is needed: registered in one step, an upgrade whose credential was
   * revoked - and whose close has already run - is admitted with nothing owed to end it, unless a
   * close that names it was owed for something else all along.
   */
  lemma OneStepRegistrationMissesARevocation(s: State, session: SessionHash, identity: Identity)
    requires SystemInv(s) && !s.reg.closing && identity.session == Some(session) && session in s.db.sessions
    ensures var committed := Next(s, Commit(RevokeSession(session)));
            var closed := Next(committed, RunClose(SessionTarget(session)));
            var registered := AddedConnection(closed.reg, identity, None);
            && closed.owed == s.owed && (!Owed(s, identity) ==> !Owed(closed.(reg := registered), identity))
            && !CredentialLive(closed.db, identity)
            && exists c :: c in registered.connections && c.admitted && c.identity == identity
  {
    var committed := Next(s, Commit(RevokeSession(session)));
    var closed := Next(committed, RunClose(SessionTarget(session)));
    NextKeepsInv(s, Commit(RevokeSession(session)));
    StepKeepsInv(committed.reg, CloseTargeted(SessionTarget(session)));
    AddedIsAdmitted(closed.reg, identity);
  }

  lemma AddedIsAdmitted(r: Registry, identity: Identity)
    requires !r.closing
    ensures exists c :: c in AddedConnection(r, identity, None).connections && c.admitted && c.identity == identity
  {
    var c := Conn(RoomMade(r, identity.account).nextId, identity, true, None);
    assert c in AddedConnection(r, identity, None).connections;
  }

  /**
   * Closing after the commit is needed: were a revocation to close first and commit afterwards,
   * an upgrade in between would pass its re-read and stay admitted on the revoked session.
   */
  lemma ClosingBeforeTheCommitMissesAnUpgrade(s: State, socket: SocketId, identity: Identity, session: SessionHash)
    requires SystemInv(s) && !s.reg.closing && Enabled(s, Upgrade(socket, identity, None))
    requires identity.session == Some(session) && identity.requiredRoles == []
    requires CredentialLive(s.db, identity) && AccountLive(s.db, identity)
    ensures var closed := Next(s, InRegistry(CloseTargeted(SessionTarget(session))));
            var upgraded := WholeUpgrade(closed, socket, identity, None);
            && upgraded.owed == s.owed && (!Owed(s, identity) ==> !Owed(upgraded, identity))
            && Find(upgraded.reg.connections, closed.reg.nextId) ==
               Some(Conn(closed.reg.nextId, identity, true, Some(socket)))
            && !CredentialLive(Apply(upgraded.db, RevokeSession(session)), identity)
  {
    var close := InRegistry(CloseTargeted(SessionTarget(session)));
    var closed := Next(s, close);
    NextKeepsInv(s, close);
    StepKeepsInv(s.reg, CloseTargeted(SessionTarget(session)));
    UndisturbedUpgrade(closed, socket, identity, None);
  }
}
