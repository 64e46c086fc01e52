/**
 * Admission over every connection registry of a backend: one database, and a revocation's close that
 * fans out to all the members of the realtime closer.
 */
module MemberAdmission {
  import opened Common
  import opened PeerRequests
  import opened RegistryModel
  import opened RegistryProofs
  import opened RegistryRuns
  import opened Admission
  import opened AdmissionTheorems
  import opened ConnectionRegistries
  import opened RealtimeClosers

  /** One endpoint's registry, and the sockets upgraded on it. */
  datatype Member = Member(reg: Registry, sockets: map<SocketId, Socket>)

  datatype Backend = Backend(db: Db, owed: multiset<CloseTarget>, members: seq<Member>)

  datatype BackendEvent =
    | At(member: nat, event: SystemEvent)
    | Everywhere(change: SystemEvent)     // a change of the database, whichever member's request made it
    | FansOut(target: CloseTarget)
    | Joins(max: Cap, maxPeers: nat)
    | ShutsDown

  /** The system one member sees: its own registry and sockets, and what all of them share. */
  function View(b: Backend, m: nat): State
    requires m < |b.members|
  {
    State(b.db, b.owed, b.members[m].reg, b.members[m].sockets)
  }

  predicate IsDatabase(e: SystemEvent) {
    e.Commit? || e.AddRows? || e.DeleteActor?
  }

  predicate BackendEnabled(b: Backend, e: BackendEvent) {
    match e
    case At(m, event) => m < |b.members| && !IsDatabase(event) && !event.RunClose? && Enabled(View(b, m), event)
    case Everywhere(change) => IsDatabase(change) && Enabled(Shared(b), change)
    case FansOut(target) => target in b.owed
    case Joins(_, _) => true
    case ShutsDown => true
  }

  /** What the members share, over an empty registry. */
  function Shared(b: Backend): State {
    State(b.db, b.owed, Empty(None, 0), map[])
  }

  function ShutdownEvent(): SystemEvent {
    InRegistry(CloseAll)
  }

  function BackendNext(b: Backend, e: BackendEvent): Backend
    requires BackendEnabled(b, e)
  {
    match e
    case At(m, event) =>
      var t := Next(View(b, m), event);
      b.(members := b.members[m := Member(t.reg, t.sockets)])
    case Everywhere(change) =>
      var t := Next(Shared(b), change);
      b.(db := t.db, owed := t.owed)
    case FansOut(target) =>
      b.(owed := b.owed - multiset{target},
         members := seq(|b.members|, i requires 0 <= i < |b.members| =>
           b.members[i].(reg := ClosedTarget(b.members[i].reg, target))))
    case Joins(max, maxPeers) => b.(members := b.members + [Member(Empty(max, maxPeers), map[])])
    case ShutsDown =>
      b.(members := seq(|b.members|, i requires 0 <= i < |b.members| =>
           b.members[i].(reg := ClosedAll(b.members[i].reg))))
  }

  // ----- Each member sees a run of its own system -----

  /** What a backend event is to member `m`: an event of its system, or nothing. */
  function Seen(e: BackendEvent, m: nat): Option<SystemEvent> {
    match e
    case At(k, event) => if k == m then Some(event) else None
    case Everywhere(change) => Some(change)
    case FansOut(target) => Some(RunClose(target))
    case Joins(_, _) => None
    case ShutsDown => Some(ShutdownEvent())
  }

  lemma ViewSteps(b: Backend, e: BackendEvent, m: nat)
    requires BackendEnabled(b, e) && m < |b.members|
    ensures var t, seen := BackendNext(b, e), Seen(e, m);
            && m < |t.members|
            && (seen.None? ==> View(t, m) == View(b, m))
            && (seen.Some? ==> Enabled(View(b, m), seen.value) && View(t, m) == Next(View(b, m), seen.value))
  {
  }

  ghost predicate BackendInv(b: Backend) {
    forall m :: 0 <= m < |b.members| ==> SystemInv(View(b, m))
  }

  lemma JoinedInv(b: Backend, max: Cap, maxPeers: nat)
    ensures SystemInv(State(b.db, b.owed, Empty(max, maxPeers), map[]))
  {
    EmptyInv(max, maxPeers);
  }

  lemma BackendKeepsInv(b: Backend, e: BackendEvent)
    requires BackendInv(b) && BackendEnabled(b, e)
    ensures BackendInv(BackendNext(b, e))
  {
    var t := BackendNext(b, e);
    forall m | 0 <= m < |t.members|
      ensures SystemInv(View(t, m))
    {
      if m < |b.members| {
        ViewSteps(b, e, m);
        if Seen(e, m).Some? { NextKeepsInv(View(b, m), Seen(e, m).value); }
      } else {
        JoinedInv(b, e.max, e.maxPeers);
      }
    }
  }

  // ----- Runs -----

  ghost predicate IsBackendRun(states: seq<Backend>, events: seq<BackendEvent>) {
    && |states| == |events| + 1 && states[0].members == [] && states[0].owed == multiset{}
    && forall i :: 0 <= i < |events| ==>
         && BackendEnabled(states[i], events[i]) && states[i + 1] == BackendNext(states[i], events[i])
  }

  lemma {:induction false} BackendRunsKeepInv(states: seq<Backend>, events: seq<BackendEvent>, i: nat)
    requires IsBackendRun(states, events) && i < |states|
    ensures BackendInv(states[i])
  {
    if i > 0 {
      BackendRunsKeepInv(states, events, i - 1);
      BackendKeepsInv(states[i - 1], events[i - 1]);
    }
  }

  /**
   * On whichever registry of the backend, an admitted connection is entitled, or the close of a
   * committed revocation that names it has yet to fan out.
   */
  lemma BackendSafety(states: seq<Backend>, events: seq<BackendEvent>, i: nat, m: nat, c: Conn)
    requires IsBackendRun(states, events) && i < |states| && m < |states[i].members|
    requires c in states[i].members[m].reg.connections && c.admitted
    ensures Entitled(View(states[i], m), c) || Owed(View(states[i], m), c.identity)
  {
    BackendRunsKeepInv(states, events, i);
    var s := View(states[i], m);
    assert SystemInv(s);
    assert Linked(s, c) && Covered(s, c);
  }

  /** So once every close has fanned out, no registry holds a revoked connection admitted. */
  lemma NoRevokedConnectionAnywhere(states: seq<Backend>, events: seq<BackendEvent>, i: nat, m: nat, c: Conn)
    requires IsBackendRun(states, events) && i < |states| && states[i].owed == multiset{} && m < |states[i].members|
    requires c in states[i].members[m].reg.connections && c.admitted
    ensures Entitled(View(states[i], m), c)
  {
    BackendSafety(states, events, i, m, c);
  }

  lemma {:induction false} MembersStayClosing(states: seq<Backend>, events: seq<BackendEvent>, i: nat, j: nat, m: nat)
    requires IsBackendRun(states, events) && i < j < |states| && events[i] == ShutsDown && m < |states[i].members|
    ensures m < |states[j].members| && states[j].members[m].reg.closing
  {
    var k := j - 1;
    BackendRunsKeepInv(states, events, k);
    if k == i {
      ViewSteps(states[k], ShutsDown, m);
      ShutdownSets(View(states[k], m));
    } else {
      MembersStayClosing(states, events, i, k, m);
      ViewSteps(states[k], events[k], m);
      if Seen(events[k], m).Some? { StaysClosing(View(states[k], m), Seen(events[k], m).value); }
    }
  }

  /** A shutdown leaves every registry that was a member empty for good. */
  lemma ShutdownReachesAll(states: seq<Backend>, events: seq<BackendEvent>, i: nat, j: nat, m: nat)
    requires IsBackendRun(states, events) && i < j < |states| && events[i] == ShutsDown && m < |states[i].members|
    ensures m < |states[j].members| && states[j].members[m].reg.connections == []
  {
    MembersStayClosing(states, events, i, j, m);
    BackendRunsKeepInv(states, events, j);
    assert SystemInv(View(states[j], m));
  }

  // ----- The fan-out is the closer's -----

  function Regs(b: Backend): (rs: seq<Registry>)
    ensures |rs| == |b.members| && forall i :: 0 <= i < |rs| ==> rs[i] == b.members[i].reg
  {
    seq(|b.members|, i requires 0 <= i < |b.members| => b.members[i].reg)
  }

  /**
   * What the closer's fan-out leaves of the members, however many socket closes throw in however many
   * of them, is what this model's step makes of them.
   */
  lemma FanOutIsTheClosers(b: Backend, target: CloseTarget, fails: seq<set<ConnId>>, after: seq<Registry>,
                           results: seq<CloseResult>, m: nat)
    requires target in b.owed && m < |b.members|
    requires |after| == |results| == |b.members| == |fails|
    requires Reached(Regs(b), Named(target), fails, after, results)
    ensures BackendNext(b, FansOut(target)).members[m] == b.members[m].(reg := after[m])
  {
    assert after[m] == Closes(Regs(b)[m], Named(target)) by {
      ReachedAt(Regs(b), Named(target), fails, after, results, m);
    }
  }
}
