/**
 * Admission of upgraded sockets against revocations, over every interleaving.
 *
 * The system is the database's live credentials and role grants, the closes that committed
 * revocations still owe, the connection registry, and one stage per socket. Each event is one
 * synchronous run: the re-read is four events, one per query it awaits, so commits, closes and
 * other sockets may fall between any two of them.
 */
module Admission {
  import opened Common
  import opened PeerRequests
  import opened RegistryModel
  import opened RegistryProofs
  import opened RegistryRuns

  type ActorId = nat
  type SocketId = ControllerId

  datatype Db = Db(
    accounts: set<AccountId>,
    sessions: map<SessionHash, AccountId>,
    tokens: map<TokenId, AccountId>,
    actors: set<ActorId>,
    owner: map<ActorId, AccountId>, // whose an actor is, for live and deleted actors alike
    grants: set<(ActorId, Role)>)   // global grants; a scoped one never admits at a role gate

  // ----- What the re-read reads -----

  predicate CredentialLive(db: Db, identity: Identity) {
    match identity.session
    case Some(session) => session in db.sessions && db.sessions[session] == identity.account
    case None =>
      match identity.token
      case Some(token) => token in db.tokens && db.tokens[token] == identity.account
      case None => true
  }

  predicate AccountLive(db: Db, identity: Identity) {
    identity.account in db.accounts
  }

  predicate ActorLive(db: Db, actor: Option<ActorId>) {
    actor.Some? ==> actor.value in db.actors
  }

  predicate RoleHeld(db: Db, identity: Identity, actor: Option<ActorId>) {
    identity.requiredRoles != [] ==>
      && actor.Some?
      && exists i :: 0 <= i < |identity.requiredRoles| && (actor.value, identity.requiredRoles[i]) in db.grants
  }

  // ----- Revocations and the close each one owes -----

  datatype Revocation =
    | RevokeSession(session: SessionHash)
    | RevokeToken(token: TokenId)
    | RevokeSessions(account: AccountId)
    | RevokeTokens(account: AccountId)
    | Logout(session: SessionHash, account: AccountId)
    | ChangePassword(account: AccountId)
    | DeleteAccount(account: AccountId)
    | RevokeRole(actor: ActorId, role: Role)

  function NotOwnedBy<K>(m: map<K, AccountId>, account: AccountId): map<K, AccountId> {
    map k | k in m && m[k] != account :: m[k]
  }

  function Apply(db: Db, rev: Revocation): Db {
    match rev
    case RevokeSession(session) => db.(sessions := db.sessions - {session})
    case RevokeToken(token) => db.(tokens := db.tokens - {token})
    case RevokeSessions(account) => db.(sessions := NotOwnedBy(db.sessions, account))
    case RevokeTokens(account) => db.(tokens := NotOwnedBy(db.tokens, account))
    case Logout(session, account) => // the request's own session
      if session in db.sessions && db.sessions[session] == account then db.(sessions := db.sessions - {session}) else db
    case ChangePassword(account) =>
      db.(sessions := NotOwnedBy(db.sessions, account), tokens := NotOwnedBy(db.tokens, account))
    case DeleteAccount(account) =>
      db.(accounts := db.accounts - {account},
          sessions := NotOwnedBy(db.sessions, account),
          tokens := NotOwnedBy(db.tokens, account),
          actors := set a | a in db.actors && !(a in db.owner && db.owner[a] == account))
    case RevokeRole(actor, role) => db.(grants := db.grants - {(actor, role)})
  }

  predicate Possible(db: Db, rev: Revocation) {
    rev.RevokeRole? ==> rev.actor in db.owner
  }

  function CloseOf(db: Db, rev: Revocation): CloseTarget
    requires Possible(db, rev)
  {
    match rev
    case RevokeSession(session) => SessionTarget(session)
    case RevokeToken(token) => TokenTarget(token)
    case RevokeSessions(account) => AccountTarget(account)
    case RevokeTokens(account) => AccountTarget(account)
    case Logout(_, account) => AccountTarget(account)
    case ChangePassword(account) => AccountTarget(account)
    case DeleteAccount(account) => AccountTarget(account)
    case RevokeRole(actor, role) => RoleTarget(db.owner[actor], role)
  }

  predicate OnAccount(db: Db, identity: Identity, actor: Option<ActorId>) {
    actor.Some? ==> actor.value in db.owner && db.owner[actor.value] == identity.account
  }

  /** The close a revocation owes names every connection the revocation takes anything from. */
  lemma CloseNamesTheRevoked(db: Db, rev: Revocation, identity: Identity, actor: Option<ActorId>)
    requires Possible(db, rev) && OnAccount(db, identity, actor)
    requires || (CredentialLive(db, identity) && !CredentialLive(Apply(db, rev), identity))
             || (AccountLive(db, identity) && !AccountLive(Apply(db, rev), identity))
             || (RoleHeld(db, identity, actor) && !RoleHeld(Apply(db, rev), identity, actor))
    ensures Matches(identity, CloseOf(db, rev))
  {
    if RoleHeld(db, identity, actor) && !RoleHeld(Apply(db, rev), identity, actor) {
      var i :| 0 <= i < |identity.requiredRoles| && (actor.value, identity.requiredRoles[i]) in db.grants;
      assert (actor.value, identity.requiredRoles[i]) !in Apply(db, rev).grants;
    }
  }

  /** Anything that only adds rows, never replacing one. */
  predicate Grows(db: Db, more: Db) {
    && db.accounts <= more.accounts && db.actors <= more.actors && db.grants <= more.grants
    && (forall k :: k in db.sessions ==> k in more.sessions && more.sessions[k] == db.sessions[k])
    && (forall k :: k in db.tokens ==> k in more.tokens && more.tokens[k] == db.tokens[k])
    && (forall k :: k in db.owner ==> k in more.owner && more.owner[k] == db.owner[k])
  }

  // ----- Sockets -----

  /** How far a socket is: re-read steps passed while pending, or admitted, or done. */
  datatype Stage = Upgraded | Checking(conn: ConnId, passed: nat) | Open(conn: ConnId) | Done

  const CHECKS := 4

  datatype Socket = Socket(identity: Identity, actor: Option<ActorId>, stage: Stage)

  datatype State = State(
    db: Db,
    owed: multiset<CloseTarget>, // closes of committed revocations that have not run
    reg: Registry,
    sockets: map<SocketId, Socket>)

  datatype SystemEvent =
    | Upgrade(socket: SocketId, identity: Identity, actor: Option<ActorId>)
    | OnOpen(socket: SocketId)
    | Reread(socket: SocketId)
    | RereadFails(socket: SocketId)
    | FinishAdmission(socket: SocketId)
    | Commit(revocation: Revocation)
    | AddRows(more: Db)
    | DeleteActor(tombstoned: ActorId) // a tombstone alone closes nothing
    | RunClose(target: CloseTarget)
    | InRegistry(event: Event) // any other registry operation, the audit listener's repeated close included

  predicate Check(db: Db, s: Socket, step: nat) {
    if step == 0 then CredentialLive(db, s.identity)
    else if step == 1 then AccountLive(db, s.identity)
    else if step == 2 then ActorLive(db, s.actor)
    else RoleHeld(db, s.identity, s.actor)
  }

  /** Which refusal a failed check is: a dead credential or actor reads as revoked. */
  function RefusalCode(step: nat): CloseCode {
    if step < 3 then CLOSE_SESSION_REVOKED else CLOSE_PERMISSION_REVOKED
  }

  const CLOSE_INTERNAL_ERROR: CloseCode := 1011

  predicate Enabled(s: State, e: SystemEvent) {
    match e
    case Upgrade(socket, identity, actor) => socket !in s.sockets && OnAccount(s.db, identity, actor)
    case OnOpen(socket) => socket in s.sockets && s.sockets[socket].stage.Upgraded?
    case Reread(socket) =>
      socket in s.sockets && s.sockets[socket].stage.Checking? && s.sockets[socket].stage.passed < CHECKS
    case RereadFails(socket) =>
      socket in s.sockets && s.sockets[socket].stage.Checking? && s.sockets[socket].stage.passed < CHECKS
    case FinishAdmission(socket) =>
      socket in s.sockets && s.sockets[socket].stage.Checking? && s.sockets[socket].stage.passed == CHECKS
    case Commit(revocation) => Possible(s.db, revocation)
    case AddRows(more) => Grows(s.db, more)
    case DeleteActor(_) => true
    case RunClose(target) => target in s.owed
    case InRegistry(event) => !event.RegisterPending? && !event.AddConnection? && !event.Admit?
  }

  function AtStage(s: State, socket: SocketId, stage: Stage): map<SocketId, Socket>
    requires socket in s.sockets
  {
    s.sockets[socket := s.sockets[socket].(stage := stage)]
  }

  /** A refusal closes the registration unless something already has. */
  function RefusedAs(s: State, socket: SocketId, code: CloseCode): State
    requires socket in s.sockets && s.sockets[socket].stage.Checking?
  {
    s.(reg := ClosedOne(s.reg, s.sockets[socket].stage.conn, code), sockets := AtStage(s, socket, Done))
  }

  function Next(s: State, e: SystemEvent): State
    requires Enabled(s, e)
  {
    match e
    case Upgrade(socket, identity, actor) => s.(sockets := s.sockets[socket := Socket(identity, actor, Upgraded)])
    case OnOpen(socket) =>
      s.(reg := RegisteredPending(s.reg, s.sockets[socket].identity, Some(socket)),
         sockets := AtStage(s, socket, if s.reg.closing then Done else Checking(s.reg.nextId, 0)))
    case Reread(socket) =>
      var stage := s.sockets[socket].stage;
      if Check(s.db, s.sockets[socket], stage.passed)
      then s.(sockets := AtStage(s, socket, Checking(stage.conn, stage.passed + 1)))
      else RefusedAs(s, socket, RefusalCode(stage.passed))
    case RereadFails(socket) => RefusedAs(s, socket, CLOSE_INTERNAL_ERROR)
    case FinishAdmission(socket) =>
      var conn := s.sockets[socket].stage.conn;
      s.(reg := Admitted(s.reg, conn),
         sockets := AtStage(s, socket, if Find(s.reg.connections, conn).Some? then Open(conn) else Done))
    case Commit(revocation) =>
      s.(db := Apply(s.db, revocation), owed := s.owed + multiset{CloseOf(s.db, revocation)})
    case AddRows(more) => s.(db := more)
    case DeleteActor(actor) => s.(db := s.db.(actors := s.db.actors - {actor}))
    case RunClose(target) => s.(reg := ClosedTarget(s.reg, target), owed := s.owed - multiset{target})
    case InRegistry(event) => s.(reg := Step(s.reg, event))
  }

  // ----- The invariant -----

  predicate Owed(s: State, identity: Identity) {
    exists target :: target in s.owed && Matches(identity, target)
  }

  /** A registered connection is its own socket's, and stands where that socket stands. */
  ghost predicate Linked(s: State, c: Conn) {
    && c.controller.Some? && c.controller.value in s.sockets
    && var socket := s.sockets[c.controller.value];
       && socket.identity == c.identity && OnAccount(s.db, socket.identity, socket.actor)
       && if c.admitted then socket.stage == Open(c.id)
          else socket.stage.Checking? && socket.stage.conn == c.id && socket.stage.passed <= CHECKS
  }

  function Passed(socket: Socket): nat {
    if socket.stage.Checking? then socket.stage.passed else CHECKS
  }

  /** Whatever the re-read has found alive still is, or a close that will find this connection is owed. */
  ghost predicate Covered(s: State, c: Conn)
    requires Linked(s, c)
  {
    var socket := s.sockets[c.controller.value];
    || Owed(s, c.identity)
    || (&& (Passed(socket) >= 1 ==> CredentialLive(s.db, c.identity))
        && (Passed(socket) >= 2 ==> AccountLive(s.db, c.identity))
        && (Passed(socket) >= 4 ==> RoleHeld(s.db, c.identity, socket.actor)))
  }

  /** A connection id belongs to the one socket that was given it. */
  ghost predicate Owns(s: State, k: SocketId)
    requires k in s.sockets
  {
    var stage := s.sockets[k].stage;
    stage.Checking? || stage.Open? ==>
      stage.conn < s.reg.nextId && forall c :: c in s.reg.connections && c.id == stage.conn ==> c.controller == Some(k)
  }

  ghost predicate SystemInv(s: State) {
    && Inv(s.reg)
    && (forall k :: k in s.sockets ==> Owns(s, k))
    && (forall c :: c in s.reg.connections ==> Linked(s, c) && Covered(s, c))
    && (forall k :: k in s.sockets ==> OnAccount(s.db, s.sockets[k].identity, s.sockets[k].actor))
  }

  // ----- What registry operations do to the set of connections -----

  ghost predicate Shrinks(r: Registry, e: Registry) {
    e.nextId == r.nextId && forall c :: c in e.connections ==> c in r.connections
  }

  lemma {:induction false} EndedAllShrinks(r: Registry, vs: seq<Conn>, code: CloseCode, backlog: Backlog)
    ensures Shrinks(r, EndedAll(r, vs, code, backlog))
  {
    if vs != [] {
      EndedAllShrinks(r, vs[..|vs| - 1], code, backlog);
      DropIn(EndedAll(r, vs[..|vs| - 1], code, backlog).connections, vs[|vs| - 1].id);
    }
  }

  lemma DeliveredShrinks(r: Registry, c: Conn, push: Push)
    ensures Shrinks(r, Delivered(r, c, push))
  {
    DropIn(r.connections, c.id);
  }

  lemma {:induction false} DeliveredAllShrinks(r: Registry, cs: seq<Conn>, push: ConnId -> Push)
    ensures Shrinks(r, DeliveredAll(r, cs, push))
  {
    if cs != [] {
      var last := cs[|cs| - 1];
      var before := DeliveredAll(r, cs[..|cs| - 1], push);
      DeliveredAllShrinks(r, cs[..|cs| - 1], push);
      assert DeliveredAll(r, cs, push) == Delivered(before, last, push(last.id));
      DeliveredShrinks(before, last, push(last.id));
    }
  }

  lemma OtherOperationsShrink(r: Registry, event: Event)
    requires !event.RegisterPending? && !event.AddConnection? && !event.Admit?
    ensures Shrinks(r, Step(r, event))
  {
    match event
    case CloseTargeted(target) => EndedAllShrinks(r, Where(r.connections, NamedBy(target)), CodeFor(target), Flush);
    case CloseAll => EndedAllShrinks(r.(closing := true), Where(r.connections, Everyone()), CLOSE_GOING_AWAY, Flush);
    case Broadcast(to, pushes) => DeliveredAllShrinks(r, Where(r.connections, Audience(to)), pushes);
    case Remove(id) => DropIn(r.connections, id);
    case CloseOne(id, _) => DropIn(r.connections, id);
    case Stall(id) => DropIn(r.connections, id);
    case Send(id, _) => DropIn(r.connections, id);
    case PeerRequest(id, _, _) => DropIn(r.connections, id);
    case _ =>
  }

  /** An admission leaves each connection as it was, but for the one it flips. */
  lemma AdmissionFlipsOne(r: Registry, id: ConnId)
    ensures Admitted(r, id).nextId == r.nextId
    ensures forall c :: c in Admitted(r, id).connections ==>
              c in r.connections
                || (c.id == id && c.admitted && exists p :: p in r.connections && c == p.(admitted := true))
  {
    if Find(r.connections, id).Some? && !Find(r.connections, id).value.admitted {
      var account := Find(r.connections, id).value.identity.account;
      EndedAllShrinks(r, Victims(r, account), CLOSE_CONNECTION_LIMIT, Flush);
      var room := RoomMade(r, account).connections;
      forall c | c in SetAdmitted(room, id)
        ensures c in r.connections
                || (c.id == id && c.admitted && exists p :: p in r.connections && c == p.(admitted := true))
      {
        var i :| 0 <= i < |room| && SetAdmitted(room, id)[i] == c;
        assert room[i] in r.connections;
      }
    }
  }

  // ----- Preservation, one kind of event at a time -----

  lemma DatabaseKeepsInv(s: State, t: State)
    requires SystemInv(s)
    requires t.reg == s.reg && t.sockets == s.sockets && s.owed <= t.owed
    requires forall k :: k in s.db.owner ==> k in t.db.owner && t.db.owner[k] == s.db.owner[k]
    requires forall identity: Identity, actor: Option<ActorId> ::
               OnAccount(s.db, identity, actor) && !Owed(t, identity) ==>
               && (CredentialLive(s.db, identity) ==> CredentialLive(t.db, identity))
               && (AccountLive(s.db, identity) ==> AccountLive(t.db, identity))
               && (RoleHeld(s.db, identity, actor) ==> RoleHeld(t.db, identity, actor))
    ensures SystemInv(t)
  {
    forall c | c in t.reg.connections
      ensures Linked(t, c) && Covered(t, c)
    {
      assert Linked(s, c) && Covered(s, c);
      var socket := s.sockets[c.controller.value];
      assert OnAccount(s.db, c.identity, socket.actor);
      assert Owed(s, c.identity) ==> Owed(t, c.identity);
    }
  }

  lemma CommitKeepsInv(s: State, revocation: Revocation)
    requires SystemInv(s) && Possible(s.db, revocation)
    ensures SystemInv(Next(s, Commit(revocation)))
  {
    var t := Next(s, Commit(revocation));
    forall identity: Identity, actor: Option<ActorId> | OnAccount(s.db, identity, actor) && !Owed(t, identity)
      ensures CredentialLive(s.db, identity) ==> CredentialLive(t.db, identity)
      ensures AccountLive(s.db, identity) ==> AccountLive(t.db, identity)
      ensures RoleHeld(s.db, identity, actor) ==> RoleHeld(t.db, identity, actor)
    {
      assert CloseOf(s.db, revocation) in t.owed;
      if (CredentialLive(s.db, identity) && !CredentialLive(t.db, identity))
        || (AccountLive(s.db, identity) && !AccountLive(t.db, identity))
        || (RoleHeld(s.db, identity, actor) && !RoleHeld(t.db, identity, actor)) {
        CloseNamesTheRevoked(s.db, revocation, identity, actor);
      }
    }
    DatabaseKeepsInv(s, t);
  }

  lemma RowsKeepInv(s: State, e: SystemEvent)
    requires SystemInv(s) && Enabled(s, e) && (e.AddRows? || e.DeleteActor?)
    ensures SystemInv(Next(s, e))
  {
    var t := Next(s, e);
    forall identity: Identity, actor: Option<ActorId> | OnAccount(s.db, identity, actor)
      ensures RoleHeld(s.db, identity, actor) ==> RoleHeld(t.db, identity, actor)
    {
      if RoleHeld(s.db, identity, actor) && identity.requiredRoles != [] {
        var i :| 0 <= i < |identity.requiredRoles| && (actor.value, identity.requiredRoles[i]) in s.db.grants;
        assert (actor.value, identity.requiredRoles[i]) in t.db.grants;
      }
    }
    DatabaseKeepsInv(s, t);
  }

  /** Removing connections, with the rest of the system still, keeps the invariant. */
  lemma ShrinkingKeepsInv(s: State, t: State)
    requires SystemInv(s) && Inv(t.reg) && Shrinks(s.reg, t.reg)
    requires t.db == s.db && t.sockets.Keys == s.sockets.Keys
    requires forall k :: k in s.sockets ==>
               t.sockets[k].identity == s.sockets[k].identity && t.sockets[k].actor == s.sockets[k].actor
    requires forall k :: k in s.sockets ==> t.sockets[k].stage == s.sockets[k].stage || t.sockets[k].stage.Done?
    requires forall c :: c in t.reg.connections && c.controller.Some? && c.controller.value in s.sockets ==>
               t.sockets[c.controller.value] == s.sockets[c.controller.value]
    requires forall c :: c in t.reg.connections && Owed(s, c.identity) ==> Owed(t, c.identity)
    ensures SystemInv(t)
  {
    forall c | c in t.reg.connections
      ensures Linked(t, c) && Covered(t, c)
    {
      assert Linked(s, c) && Covered(s, c);
    }
  }

  /** A close that runs leaves no connection it names, so it stops being owed to the rest. */
  lemma CloseKeepsInv(s: State, target: CloseTarget)
    requires SystemInv(s) && target in s.owed
    ensures SystemInv(Next(s, RunClose(target)))
  {
    var t := Next(s, RunClose(target));
    assert t.reg == Step(s.reg, CloseTargeted(target));
    assert Inv(t.reg) by { StepKeepsInv(s.reg, CloseTargeted(target)); }
    assert Shrinks(s.reg, t.reg) by { OtherOperationsShrink(s.reg, CloseTargeted(target)); }
    assert forall c :: c in t.reg.connections ==> c in s.reg.connections && !Matches(c.identity, target) by {
      ClosedWhereEffect(s.reg, NamedBy(target), CodeFor(target));
      WhereIn(s.reg.connections, Not(NamedBy(target)));
    }
    forall c | c in t.reg.connections && Owed(s, c.identity)
      ensures Owed(t, c.identity)
    {
      var other :| other in s.owed && Matches(c.identity, other);
      assert other in t.owed;
    }
    ShrinkingKeepsInv(s, t);
  }

  lemma RegistryEventKeepsInv(s: State, event: Event)
    requires SystemInv(s) && Enabled(s, InRegistry(event))
    ensures SystemInv(Next(s, InRegistry(event)))
  {
    StepKeepsInv(s.reg, event);
    OtherOperationsShrink(s.reg, event);
    ShrinkingKeepsInv(s, Next(s, InRegistry(event)));
  }

  lemma RefusalKeepsInv(s: State, socket: SocketId, code: CloseCode)
    requires SystemInv(s) && socket in s.sockets && s.sockets[socket].stage.Checking?
    ensures SystemInv(RefusedAs(s, socket, code))
  {
    var t := RefusedAs(s, socket, code);
    var conn := s.sockets[socket].stage.conn;
    StepKeepsInv(s.reg, CloseOne(conn, code));
    assert t.reg == Step(s.reg, CloseOne(conn, code));
    forall c | c in t.reg.connections
      ensures c in s.reg.connections && c.id != conn && c.controller != Some(socket)
    {
      DropIn(s.reg.connections, conn);
      assert Linked(s, c);
    }
    ShrinkingKeepsInv(s, t);
  }

  lemma RereadKeepsInv(s: State, socket: SocketId)
    requires SystemInv(s) && Enabled(s, Reread(socket))
    ensures SystemInv(Next(s, Reread(socket)))
  {
    var stage := s.sockets[socket].stage;
    if Check(s.db, s.sockets[socket], stage.passed) {
      var t := Next(s, Reread(socket));
      forall c | c in t.reg.connections
        ensures Linked(t, c) && Covered(t, c)
      {
        assert Linked(s, c) && Covered(s, c);
        assert Owed(s, c.identity) ==> Owed(t, c.identity);
      }
    } else {
      RefusalKeepsInv(s, socket, RefusalCode(stage.passed));
    }
  }

  lemma UpgradeKeepsInv(s: State, e: SystemEvent)
    requires SystemInv(s) && Enabled(s, e) && e.Upgrade?
    ensures SystemInv(Next(s, e))
  {
    var t := Next(s, e);
    forall c | c in t.reg.connections
      ensures Linked(t, c) && Covered(t, c)
    {
      assert Linked(s, c) && Covered(s, c);
      assert Owed(s, c.identity) ==> Owed(t, c.identity);
    }
  }

  lemma OpenKeepsInv(s: State, socket: SocketId)
    requires SystemInv(s) && Enabled(s, OnOpen(socket))
    ensures SystemInv(Next(s, OnOpen(socket)))
  {
    var t := Next(s, OnOpen(socket));
    StepKeepsInv(s.reg, RegisterPending(s.sockets[socket].identity, Some(socket)));
    assert t.reg == Step(s.reg, RegisterPending(s.sockets[socket].identity, Some(socket)));
    forall c | c in t.reg.connections
      ensures Linked(t, c) && Covered(t, c)
    {
      if c in s.reg.connections {
        assert Linked(s, c) && Covered(s, c);
        assert Owed(s, c.identity) ==> Owed(t, c.identity);
      }
    }
  }

  /** Where a connection after `socket`'s admission comes from. */
  predicate Comes(s: State, t: State, socket: SocketId, p: Conn, c: Conn)
    requires socket in s.sockets && s.sockets[socket].stage.Checking?
  {
    && p in s.reg.connections && p.id == c.id && p.identity == c.identity && p.controller == c.controller
    && if c.id == s.sockets[socket].stage.conn
       then c.admitted && p.controller == Some(socket) && socket in t.sockets && t.sockets[socket].stage == Open(c.id)
       else c == p && p.controller != Some(socket)
  }

  lemma AdmissionOrigin(s: State, socket: SocketId, c: Conn) returns (p: Conn)
    requires SystemInv(s) && Enabled(s, FinishAdmission(socket))
    requires c in Next(s, FinishAdmission(socket)).reg.connections
    ensures Comes(s, Next(s, FinishAdmission(socket)), socket, p, c)
  {
    var conn := s.sockets[socket].stage.conn;
    var t := Next(s, FinishAdmission(socket));
    AdmissionFlipsOne(s.reg, conn);
    p :| p in s.reg.connections && (c == p || (c.id == conn && c.admitted && c == p.(admitted := true)));
    assert c.id == conn ==> c.admitted by {
      assert DistinctIds(t.reg.connections) by { AdmittedKeepsInv(s.reg, conn); }
      AdmittedEffect(s.reg, conn);
      FindUnique(t.reg.connections, c);
    }
    assert c.id == conn ==> Has(s.reg.connections, conn);
    assert Linked(s, p) && Owns(s, socket);
  }

  lemma FinishKeepsInv(s: State, socket: SocketId)
    requires SystemInv(s) && Enabled(s, FinishAdmission(socket))
    ensures SystemInv(Next(s, FinishAdmission(socket)))
  {
    var conn := s.sockets[socket].stage.conn;
    var t := Next(s, FinishAdmission(socket));
    assert Inv(t.reg) by { AdmittedKeepsInv(s.reg, conn); }
    assert t.reg.nextId == s.reg.nextId by { AdmissionFlipsOne(s.reg, conn); }
    forall k | k in t.sockets
      ensures Owns(t, k)
    {
      assert Owns(s, k);
      forall c | c in t.reg.connections
        ensures exists p :: p in s.reg.connections && p.id == c.id && p.controller == c.controller
      {
        var p := AdmissionOrigin(s, socket, c);
      }
    }
    forall c | c in t.reg.connections
      ensures Linked(t, c) && Covered(t, c)
    {
      var p := AdmissionOrigin(s, socket, c);
      assert Linked(s, p) && Covered(s, p);
      assert Owed(s, c.identity) <==> Owed(t, c.identity);
    }
  }

  lemma NextKeepsInv(s: State, e: SystemEvent)
    requires SystemInv(s) && Enabled(s, e)
    ensures SystemInv(Next(s, e))
  {
    match e
    case Upgrade(_, _, _) => UpgradeKeepsInv(s, e);
    case OnOpen(socket) => OpenKeepsInv(s, socket);
    case Reread(socket) => RereadKeepsInv(s, socket);
    case RereadFails(socket) => RefusalKeepsInv(s, socket, CLOSE_INTERNAL_ERROR);
    case FinishAdmission(socket) => FinishKeepsInv(s, socket);
    case Commit(revocation) => CommitKeepsInv(s, revocation);
    case AddRows(_) => RowsKeepInv(s, e);
    case DeleteActor(_) => RowsKeepInv(s, e);
    case RunClose(target) => CloseKeepsInv(s, target);
    case InRegistry(event) => RegistryEventKeepsInv(s, event);
  }
}
