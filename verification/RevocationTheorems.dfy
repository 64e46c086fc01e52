/** What a committed revocation takes, for good, and from whom. */
module RevocationTheorems {
  import opened Common
  import opened PeerRequests
  import opened RegistryModel
  import opened RegistryProofs
  import opened RegistryRuns
  import opened Admission
  import opened AdmissionTheorems

  // ----- The rows a revocation names -----

  predicate NamesSession(rev: Revocation, session: SessionHash, account: AccountId) {
    match rev
    case RevokeSession(s) => s == session
    case RevokeSessions(a) => a == account
    case Logout(s, a) => s == session && a == account
    case ChangePassword(a) => a == account
    case DeleteAccount(a) => a == account
    case _ => false
  }

  predicate NamesToken(rev: Revocation, token: TokenId, account: AccountId) {
    match rev
    case RevokeToken(t) => t == token
    case RevokeTokens(a) => a == account
    case ChangePassword(a) => a == account
    case DeleteAccount(a) => a == account
    case _ => false
  }

  predicate NamesAccount(rev: Revocation, account: AccountId) {
    rev == DeleteAccount(account)
  }

  predicate NamesActor(rev: Revocation, owner: map<ActorId, AccountId>, actor: ActorId) {
    rev.DeleteAccount? && actor in owner && owner[actor] == rev.account
  }

  predicate NamesGrant(rev: Revocation, grant: (ActorId, Role)) {
    rev.RevokeRole? && grant == (rev.actor, rev.role)
  }

  /** No row the revocation names is left. */
  ghost predicate Gone(db: Db, rev: Revocation) {
    && (forall s :: s in db.sessions ==> !NamesSession(rev, s, db.sessions[s]))
    && (forall t :: t in db.tokens ==> !NamesToken(rev, t, db.tokens[t]))
    && (forall a :: a in db.accounts ==> !NamesAccount(rev, a))
    && (forall a :: a in db.actors ==> !NamesActor(rev, db.owner, a))
    && (forall grant :: grant in db.grants ==> !NamesGrant(rev, grant))
  }

  /** Every row it does not name is in `t` as it was in `db`, and no row is new. */
  ghost predicate OthersKept(db: Db, t: Db, rev: Revocation) {
    && (forall s :: s in t.sessions ==> s in db.sessions && t.sessions[s] == db.sessions[s])
    && (forall s :: s in db.sessions && !NamesSession(rev, s, db.sessions[s]) ==> s in t.sessions)
    && (forall k :: k in t.tokens ==> k in db.tokens && t.tokens[k] == db.tokens[k])
    && (forall k :: k in db.tokens && !NamesToken(rev, k, db.tokens[k]) ==> k in t.tokens)
    && (forall a :: a in t.accounts ==> a in db.accounts)
    && (forall a :: a in db.accounts && !NamesAccount(rev, a) ==> a in t.accounts)
    && (forall a :: a in t.actors ==> a in db.actors)
    && (forall a :: a in db.actors && !NamesActor(rev, db.owner, a) ==> a in t.actors)
    && (forall grant :: grant in t.grants ==> grant in db.grants)
    && (forall grant :: grant in db.grants && !NamesGrant(rev, grant) ==> grant in t.grants)
    && t.owner == db.owner
  }

  lemma RowsGo(db: Db, rev: Revocation)
    requires Possible(db, rev)
    ensures Gone(Apply(db, rev), rev)
  {
  }

  lemma RowsStay(db: Db, rev: Revocation)
    requires Possible(db, rev)
    ensures OthersKept(db, Apply(db, rev), rev)
  {
  }

  /** A commit takes exactly the rows its revocation names, and owes one close. */
  lemma CommitTakesItsRows(s: State, rev: Revocation)
    requires Enabled(s, Commit(rev))
    ensures var t := Next(s, Commit(rev));
            && Gone(t.db, rev) && OthersKept(s.db, t.db, rev)
            && t.reg == s.reg && t.sockets == s.sockets && |t.owed| == |s.owed| + 1 && s.owed <= t.owed
  {
    RowsGo(s.db, rev);
    RowsStay(s.db, rev);
  }

  /** A deleted actor is found dead by every later re-read, and nothing else goes with it. */
  lemma DeletedActorIsDead(s: State, actor: ActorId)
    ensures var t := Next(s, DeleteActor(actor));
            && !ActorLive(t.db, Some(actor)) && t == s.(db := s.db.(actors := t.db.actors))
            && forall other :: other != actor ==> (other in t.db.actors <==> other in s.db.actors)
  {
  }

  /** Who a revocation's close reaches: no more than the rows it took could belong to. */
  lemma CloseReaches(db: Db, rev: Revocation, identity: Identity)
    requires Possible(db, rev)
    ensures Matches(identity, CloseOf(db, rev)) <==>
              match rev
              case RevokeSession(session) => identity.session == Some(session)
              case RevokeToken(token) => identity.token == Some(token)
              case RevokeRole(actor, role) => identity.account == db.owner[actor] && role in identity.requiredRoles
              case _ => identity.account == rev.account
  {
  }

  // ----- For good -----

  /** Rows added later bring none of them back. */
  ghost predicate KeepsGone(e: SystemEvent, rev: Revocation) {
    e.AddRows? ==> Gone(e.more, rev)
  }

  lemma StepStaysGone(s: State, e: SystemEvent, rev: Revocation)
    requires Enabled(s, e) && Gone(s.db, rev) && KeepsGone(e, rev)
    ensures Gone(Next(s, e).db, rev)
  {
    if e.Commit? {
      CommitTakesItsRows(s, e.revocation);
    }
  }

  /** What a revocation took stays gone in every later state, until a row is added back. */
  lemma {:induction false} RevokedStaysGone(states: seq<State>, events: seq<SystemEvent>, i: nat, j: nat,
                                            rev: Revocation)
    requires IsRun(states, events) && i < j < |states| && events[i] == Commit(rev)
    requires forall k :: i < k < j ==> KeepsGone(events[k], rev)
    ensures Gone(states[j].db, rev)
  {
    var k := j - 1;
    StepOf(states, events, k);
    if k == i {
      CommitTakesItsRows(states[i], rev);
    } else {
      RevokedStaysGone(states, events, i, k, rev);
      StepStaysGone(states[k], events[k], rev);
    }
  }

  /** What a connection rests on is what the revocation took: its credential, its account, or its only role. */
  predicate RestsOn(db: Db, identity: Identity, actor: Option<ActorId>, rev: Revocation) {
    match rev
    case RevokeSession(session) => identity.session == Some(session)
    case RevokeToken(token) => identity.session.None? && identity.token == Some(token)
    case RevokeSessions(account) => identity.account == account && identity.session.Some?
    case RevokeTokens(account) => identity.account == account && identity.session.None? && identity.token.Some?
    case Logout(session, account) => identity.account == account && identity.session == Some(session)
    case ChangePassword(account) => identity.account == account && (identity.session.Some? || identity.token.Some?)
    case DeleteAccount(account) => identity.account == account
    case RevokeRole(a, role) =>
      && identity.requiredRoles != [] && actor == Some(a)
      && forall i :: 0 <= i < |identity.requiredRoles| && (a, identity.requiredRoles[i]) in db.grants ==>
           identity.requiredRoles[i] == role
  }

  lemma RestingIsDead(db: Db, identity: Identity, actor: Option<ActorId>, rev: Revocation)
    requires Gone(db, rev) && RestsOn(db, identity, actor, rev)
    ensures !(CredentialLive(db, identity) && AccountLive(db, identity) && RoleHeld(db, identity, actor))
  {
    if rev.RevokeRole? {
      forall i | 0 <= i < |identity.requiredRoles|
        ensures (rev.actor, identity.requiredRoles[i]) !in db.grants
      {
        assert NamesGrant(rev, (rev.actor, rev.role));
      }
    }
  }

  /**
   * In every state after a revocation committed, its rows not added back, no connection resting on
   * what it took is admitted, unless a close that names the connection is still owed.
   */
  lemma RevokedAreOut(states: seq<State>, events: seq<SystemEvent>, i: nat, j: nat, rev: Revocation, c: Conn)
    requires IsRun(states, events) && i < j < |states| && events[i] == Commit(rev)
    requires forall k :: i < k < j ==> KeepsGone(events[k], rev)
    requires c in states[j].reg.connections && c.admitted && !Owed(states[j], c.identity)
    ensures !RestsOn(states[j].db, c.identity, ActorOf(states[j], c), rev)
  {
    RevokedStaysGone(states, events, i, j, rev);
    AdmissionSafety(states, events, j, c);
    if RestsOn(states[j].db, c.identity, ActorOf(states[j], c), rev) {
      RestingIsDead(states[j].db, c.identity, ActorOf(states[j], c), rev);
    }
  }

  // ----- What is owed -----

  /** The closes the commits of a run owe. */
  function CommittedCloses(states: seq<State>, events: seq<SystemEvent>, n: nat): multiset<CloseTarget>
    requires n <= |events| < |states|
    requires forall i :: 0 <= i < |events| ==> Enabled(states[i], events[i])
  {
    if n == 0 then multiset{}
    else
      CommittedCloses(states, events, n - 1)
      + if events[n - 1].Commit? then multiset{CloseOf(states[n - 1].db, events[n - 1].revocation)} else multiset{}
  }

  function RunCloses(events: seq<SystemEvent>, n: nat): multiset<CloseTarget>
    requires n <= |events|
  {
    if n == 0 then multiset{}
    else RunCloses(events, n - 1) + if events[n - 1].RunClose? then multiset{events[n - 1].target} else multiset{}
  }

  lemma OwedStep(s: State, e: SystemEvent)
    requires Enabled(s, e)
    ensures Next(s, e).owed + (if e.RunClose? then multiset{e.target} else multiset{}) ==
            s.owed + if e.Commit? then multiset{CloseOf(s.db, e.revocation)} else multiset{}
  {
  }

  /** The ledger: every close a commit owes is still owed or has run, and nothing else is owed. */
  lemma {:induction false} OwedIsWhatIsLeft(states: seq<State>, events: seq<SystemEvent>, n: nat)
    requires IsRun(states, events) && n <= |events|
    ensures states[n].owed + RunCloses(events, n) == CommittedCloses(states, events, n)
  {
    if n > 0 {
      OwedIsWhatIsLeft(states, events, n - 1);
      assert Enabled(states[n - 1], events[n - 1]) && states[n] == Next(states[n - 1], events[n - 1]);
      OwedStep(states[n - 1], events[n - 1]);
    }
  }
}
