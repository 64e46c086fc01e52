/**
 * One closer over every connection registry of a backend: counted membership, and a fan-out that
 * no failing member cuts short.
 */
module RealtimeClosers {
  import opened Common
  import opened PeerRequests
  import opened RegistryModel
  import opened RegistryProofs
  import opened RegistryRuns
  import opened ConnectionRegistries

  // ----- Which connections an audit row closes -----

  datatype Scope = NoScope | SessionScope | TokenScope | AccountScope | RoleScope

  /** The fields of an audit row the close reads; a missing or empty key is `None`. */
  datatype AuditRow = AuditRow(
    success: bool,
    scope: Scope,
    session: Option<SessionHash>,
    token: Option<TokenId>,
    targetAccount: Option<AccountId>,
    account: Option<AccountId>,
    globalRole: Option<(AccountId, Role)>)

  function CloseTargetOf(row: AuditRow): Option<CloseTarget> {
    if !row.success then None
    else
      match row.scope
      case NoScope => None
      case SessionScope => if row.session.Some? then Some(SessionTarget(row.session.value)) else None
      case TokenScope => if row.token.Some? then Some(TokenTarget(row.token.value)) else None
      case AccountScope =>
        if row.targetAccount.Some? then Some(AccountTarget(row.targetAccount.value))
        else if row.account.Some? then Some(AccountTarget(row.account.value))
        else None
      case RoleScope =>
        if row.globalRole.Some? then Some(RoleTarget(row.globalRole.value.0, row.globalRole.value.1)) else None
  }

  /** Whether the row's own scope and key name a connection. */
  predicate RowNames(row: AuditRow, identity: Identity) {
    match row.scope
    case NoScope => false
    case SessionScope => row.session.Some? && identity.session == row.session
    case TokenScope => row.token.Some? && identity.token == row.token
    case AccountScope =>
      Some(identity.account) == if row.targetAccount.Some? then row.targetAccount else row.account
    case RoleScope =>
      && row.globalRole.Some? && identity.account == row.globalRole.value.0
      && row.globalRole.value.1 in identity.requiredRoles
  }

  /** What a registry is left as once a row has been announced to it. */
  function AfterRow(r: Registry, row: AuditRow): Registry {
    match CloseTargetOf(row)
    case None => r
    case Some(target) => ClosedTarget(r, target)
  }

  /**
   * A row that failed leaves every registry as it was, whatever identifiers it carries; one that
   * succeeded removes exactly the connections its own scope's key names.
   */
  lemma FailedRowsCloseNothing(r: Registry, row: AuditRow)
    requires DistinctIds(r.connections)
    ensures !row.success ==> AfterRow(r, row) == r
    ensures forall c :: c in AfterRow(r, row).connections <==>
              c in r.connections && !(row.success && RowNames(row, c.identity))
  {
    forall identity { TargetIsTheRows(row, identity); }
    if CloseTargetOf(row).Some? {
      TargetRemoves(r, CloseTargetOf(row).value);
    }
  }

  lemma TargetIsTheRows(row: AuditRow, identity: Identity)
    ensures (row.success && RowNames(row, identity)) <==>
              CloseTargetOf(row).Some? && Matches(identity, CloseTargetOf(row).value)
  {
  }

  lemma TargetRemoves(r: Registry, target: CloseTarget)
    requires DistinctIds(r.connections)
    ensures forall c :: c in ClosedTarget(r, target).connections <==> c in r.connections && !Matches(c.identity, target)
  {
    ClosedWhereEffect(r, NamedBy(target), CodeFor(target));
    WhereIn(r.connections, Not(NamedBy(target)));
  }

  // ----- What a close does to the objects around a registry -----

  lemma {:induction false} EndedAllCalls(r: Registry, vs: seq<Conn>, code: CloseCode, c: Conn)
    requires c in vs
    ensures c.controller.Some? ==> Abort(c.controller.value) in EndedAll(r, vs, code, Flush).calls
    ensures CloseSocket(c.id, code, Flush) in EndedAll(r, vs, code, Flush).calls
  {
    var init, last := vs[..|vs| - 1], vs[|vs| - 1];
    if c != last {
      assert c in init;
      EndedAllCalls(r, init, code, c);
    }
  }

  /** Every connection a close names has its controller aborted and its socket closed, failing or not. */
  lemma ClosedTargetCalls(r: Registry, target: CloseTarget, c: Conn)
    requires c in r.connections && Matches(c.identity, target)
    ensures c.controller.Some? ==> Abort(c.controller.value) in ClosedTarget(r, target).calls
    ensures CloseSocket(c.id, CodeFor(target), Flush) in ClosedTarget(r, target).calls
  {
    WhereIn(r.connections, NamedBy(target));
    EndedAllCalls(r, Where(r.connections, NamedBy(target)), CodeFor(target), c);
  }

  // ----- The answer -----

  datatype FanResult = Total(count: nat) | FirstError(member: nat, socket: ConnId)

  /** The answer so far, after one more member's. */
  function Plus(sum: FanResult, member: nat, one: CloseResult): FanResult {
    if sum.FirstError? then sum
    else
      match one
      case Closed(count) => Total(sum.count + count)
      case Threw(socket) => FirstError(member, socket)
  }

  function Summed(results: seq<CloseResult>): FanResult {
    if results == [] then Total(0)
    else Plus(Summed(results[..|results| - 1]), |results| - 1, results[|results| - 1])
  }

  lemma SummedOneMore(results: seq<CloseResult>, one: CloseResult)
    ensures Summed(results + [one]) == Plus(Summed(results), |results|, one)
  {
    assert (results + [one])[..|results|] == results;
  }

  function CountSum(results: seq<CloseResult>): nat {
    if results == [] then 0
    else CountSum(results[..|results| - 1]) + if results[|results| - 1].Closed? then results[|results| - 1].count else 0
  }

  /** It is the sum when no member threw, and otherwise the error of the earliest member that did. */
  lemma {:induction false} SummedMeaning(results: seq<CloseResult>)
    ensures var s := Summed(results);
            && (s.Total? <==> forall i :: 0 <= i < |results| ==> results[i].Closed?)
            && (s.Total? ==> s.count == CountSum(results))
            && (s.FirstError? ==> s.member < |results| && results[s.member] == Threw(s.socket)
                                  && forall i :: 0 <= i < s.member ==> results[i].Closed?)
  {
    if results != [] {
      var n := |results| - 1;
      SummedMeaning(results[..n]);
      assert forall i :: 0 <= i < n ==> results[..n][i] == results[i];
    }
  }

  /** What one fan-out closes. */
  datatype Scale = Named(target: CloseTarget) | Everything

  function Closes(r: Registry, what: Scale): Registry {
    match what
    case Named(target) => ClosedTarget(r, target)
    case Everything => ClosedAll(r)
  }

  function NamedIn(r: Registry, what: Scale): seq<Conn> {
    match what
    case Named(target) => Where(r.connections, NamedBy(target))
    case Everything => r.connections
  }

  /** One addition of a member, and its remover. */
  class Remover {
    const member: ConnectionRegistry
    var removed: bool

    constructor (member: ConnectionRegistry)
      ensures this.member == member && !removed
    {
      this.member, removed := member, false;
    }
  }

  lemma DistinctOneMore<T>(s: seq<T>, x: T)
    requires Distinct(s) && x !in s
    ensures Distinct(s + [x])
  {
    assert forall i :: 0 <= i < |s| ==> s[i] in s;
  }

  /** The registries whose invariant does not hold. */
  ghost function Broken(rs: seq<Registry>): set<nat> {
    set i: nat | i < |rs| && !Inv(rs[i])
  }

  lemma NoneBroken(rs: seq<Registry>, i: nat)
    requires Broken(rs) == {} && i < |rs|
    ensures Inv(rs[i])
  {
    assert i !in Broken(rs);
  }

  /**
   * How far a fan-out has come: each member reached so far is as a close of it leaves it and has
   * answered what that close answers, given the sockets of it whose close throws; the rest are as
   * they were.
   */
  ghost predicate Reached(before: seq<Registry>, what: Scale, fails: seq<set<ConnId>>, now: seq<Registry>,
                          results: seq<CloseResult>)
    requires |results| <= |before| == |fails| == |now|
    decreases |results|
  {
    if results == [] then now == before
    else
      var n := |results| - 1;
      && Reached(before, what, fails, now[n := before[n]], results[..n])
      && now[n] == Closes(before[n], what) && results[n] == ResultOf(NamedIn(before[n], what), fails[n])
  }

  lemma {:induction false} ReachedAt(before: seq<Registry>, what: Scale, fails: seq<set<ConnId>>, now: seq<Registry>,
                                     results: seq<CloseResult>, i: nat)
    requires |results| <= |before| == |fails| == |now| && Reached(before, what, fails, now, results) && i < |before|
    ensures if i < |results|
            then now[i] == Closes(before[i], what) && results[i] == ResultOf(NamedIn(before[i], what), fails[i])
            else now[i] == before[i]
    decreases |results|
  {
    var n := |results| - 1;
    if results != [] && i != n {
      ReachedAt(before, what, fails, now[n := before[n]], results[..n], i);
    }
  }

  lemma OneMoreReached(before: seq<Registry>, what: Scale, fails: seq<set<ConnId>>, now: seq<Registry>,
                       results: seq<CloseResult>, next: seq<Registry>, one: CloseResult)
    requires |results| < |before| == |fails| == |now| == |next| && Reached(before, what, fails, now, results)
    requires forall j :: 0 <= j < |next| && j != |results| ==> next[j] == now[j]
    requires next[|results|] == Closes(before[|results|], what)
    requires one == ResultOf(NamedIn(before[|results|], what), fails[|results|])
    ensures Reached(before, what, fails, next, results + [one])
  {
    var n := |results|;
    ReachedAt(before, what, fails, now, results, n);
    assert next[n := before[n]] == now;
    assert (results + [one])[..n] == results;
  }

  lemma ClosesEffect(r: Registry, what: Scale)
    requires Inv(r)
    ensures Inv(Closes(r, what))
    ensures what.Everything? ==> Closes(r, what).closing && Closes(r, what).connections == []
    ensures what.Named? ==> forall c :: c in Closes(r, what).connections ==> !Matches(c.identity, what.target)
  {
    match what
    case Named(target) =>
      ClosedTargetKeepsInv(r, target);
      ClosedWhereEffect(r, NamedBy(target), CodeFor(target));
      WhereIn(r.connections, Not(NamedBy(target)));
    case Everything => ClosedAllKeepsInv(r);
  }

  /** What each member answers. */
  function EachResult(rs: seq<Registry>, what: Scale, fails: seq<set<ConnId>>): seq<CloseResult>
    requires |fails| == |rs|
  {
    seq(|rs|, i requires 0 <= i < |rs| => ResultOf(NamedIn(rs[i], what), fails[i]))
  }

  /** A fan-out over members that all hold their invariant keeps it, and leaves none what it named. */
  lemma AllReached(before: seq<Registry>, what: Scale, fails: seq<set<ConnId>>, after: seq<Registry>,
                   results: seq<CloseResult>)
    requires |results| == |after| == |before| == |fails| && Reached(before, what, fails, after, results)
    requires Broken(before) == {}
    ensures Broken(after) == {} && results == EachResult(before, what, fails)
    ensures forall i :: 0 <= i < |before| ==> after[i] == Closes(before[i], what)
    ensures what.Everything? ==> forall i :: 0 <= i < |before| ==> after[i].closing && after[i].connections == []
    ensures what.Named? ==>
              forall i, c :: 0 <= i < |before| && c in after[i].connections ==> !Matches(c.identity, what.target)
    ensures Summed(results).Total? <==>
            forall i :: 0 <= i < |before| ==> FirstFailing(NamedIn(before[i], what), fails[i]).None?
  {
    SummedMeaning(results);
    forall i: nat | i < |before|
      ensures after[i] == Closes(before[i], what) && results[i] == ResultOf(NamedIn(before[i], what), fails[i])
      ensures Inv(after[i])
      ensures what.Everything? ==> after[i].closing && after[i].connections == []
      ensures what.Named? ==> forall c :: c in after[i].connections ==> !Matches(c.identity, what.target)
    {
      ReachedAt(before, what, fails, after, results, i);
      NoneBroken(before, i);
      ClosesEffect(before[i], what);
    }
  }

  lemma NamedReached(before: seq<Registry>, target: CloseTarget, fails: seq<set<ConnId>>, after: seq<Registry>,
                     results: seq<CloseResult>)
    requires |after| == |results| == |before| == |fails| && Reached(before, Named(target), fails, after, results)
    requires Broken(before) == {}
    ensures Broken(after) == {} && results == EachResult(before, Named(target), fails)
    ensures forall i :: 0 <= i < |before| ==> after[i] == ClosedTarget(before[i], target)
    ensures forall i, c :: 0 <= i < |before| && c in after[i].connections ==> !Matches(c.identity, target)
    ensures Summed(results).Total? <==> forall i :: 0 <= i < |before| ==>
              FirstFailing(Where(before[i].connections, NamedBy(target)), fails[i]).None?
  {
    AllReached(before, Named(target), fails, after, results);
  }

  class RealtimeCloser {
    var members: seq<ConnectionRegistry>      // in first-addition order
    var counts: map<ConnectionRegistry, nat>
    ghost var additions: set<Remover>
    ghost var holders: map<ConnectionRegistry, set<Remover>>

    /** The members are the counted closers, each once. */
    ghost predicate Listed()
      reads this
    {
      && Distinct(members) && holders.Keys == counts.Keys
      && (forall m :: m in members ==> m in counts) && (forall m :: m in counts ==> m in members)
    }

    /** A member's count is its un-removed additions. */
    ghost predicate MemberCounted(m: ConnectionRegistry)
      requires m in counts && m in holders
      reads this, additions
    {
      counts[m] == |holders[m]| >= 1 && forall a :: a in holders[m] ==> a in additions && a.member == m && !a.removed
    }

    ghost predicate AdditionHeld(a: Remover)
      reads this, a
    {
      !a.removed ==> a.member in holders && a in holders[a.member]
    }

    ghost predicate Counted()
      reads this, additions
    {
      && holders.Keys == counts.Keys
      && (forall m {:trigger MemberCounted(m)} :: m in counts ==> MemberCounted(m))
      && (forall a {:trigger AdditionHeld(a)} :: a in additions ==> AdditionHeld(a))
    }

    /** Registries share no table of peer requests. */
    ghost predicate Apart()
      reads this
    {
      forall m, n :: m in members && n in members && m != n ==> m.pending != n.pending
    }

    ghost predicate Valid()
      reads this, additions
    {
      Listed() && Counted() && Apart()
    }

    constructor ()
      ensures Valid() && members == [] && additions == {}
    {
      members, counts, additions, holders := [], map[], {}, map[];
    }

    /** A member's holders changed, and no other's. */
    twostate lemma OneMemberKeepsCount(m: ConnectionRegistry)
      requires old(Counted()) && holders.Keys == counts.Keys && old(additions) <= additions
      requires forall other :: other in counts && other != m ==>
                 other in old(counts) && counts[other] == old(counts)[other] && holders[other] == old(holders)[other]
      requires forall a :: a in old(additions) && a.member != m ==>
                 a.removed == old(a.removed) && (a.member in counts <==> a.member in old(counts))
      requires m in counts ==> MemberCounted(m)
      requires forall a :: a in additions && a.member == m ==> AdditionHeld(a)
      requires forall a :: a in additions && a !in old(additions) ==> a.member == m
      ensures Counted()
    {
      forall other | other in counts ensures MemberCounted(other) {
        if other != m {
          assert old(MemberCounted(other));
        }
      }
      forall a | a in additions ensures AdditionHeld(a) {
        if a.member != m {
          assert old(AdditionHeld(a));
        }
      }
    }

    method Add(m: ConnectionRegistry) returns (remover: Remover)
      requires Valid()
      requires forall other :: other in members && other != m ==> other.pending != m.pending
      modifies this
      ensures Valid() && fresh(remover) && remover.member == m && !remover.removed
      ensures additions == old(additions) + {remover}
      ensures members == if m in old(members) then old(members) else old(members) + [m]
      ensures counts == old(counts)[m := if m in old(counts) then old(counts)[m] + 1 else 1]
    {
      remover := Enlist(m);
    }

    /** One more holder of one member. */
    twostate lemma JoinedKeepsCount(m: ConnectionRegistry, new remover: Remover)
      requires old(Counted()) && holders.Keys == counts.Keys && additions == old(additions) + {remover}
      requires remover !in old(additions) && remover.member == m && !remover.removed
      requires forall a :: a in old(additions) ==> a.removed == old(a.removed)
      requires counts == old(counts)[m := if m in old(counts) then old(counts)[m] + 1 else 1]
      requires holders == old(holders)[m := if m in old(counts) then old(holders)[m] + {remover} else {remover}]
      ensures Counted()
    {
      if m in old(counts) {
        assert old(MemberCounted(m)) && remover !in old(holders)[m];
      }
      forall a | a in old(additions) && a.member == m ensures AdditionHeld(a) {
        assert old(AdditionHeld(a));
      }
      OneMemberKeepsCount(m);
    }

    method Enlist(m: ConnectionRegistry) returns (remover: Remover)
      requires Listed() && Counted()
      modifies this
      ensures Listed() && Counted() && fresh(remover) && remover.member == m && !remover.removed
      ensures additions == old(additions) + {remover}
      ensures members == if m in old(counts) then old(members) else old(members) + [m]
      ensures counts == old(counts)[m := if m in old(counts) then old(counts)[m] + 1 else 1]
    {
      remover := new Remover(m);
      CountUp(m, remover);
      additions := additions + {remover};
      JoinedKeepsCount(m, remover);
    }

    method CountUp(m: ConnectionRegistry, ghost remover: Remover)
      requires Listed()
      modifies this`members, this`counts, this`holders
      ensures Listed() && members == if m in old(counts) then old(members) else old(members) + [m]
      ensures counts == old(counts)[m := if m in old(counts) then old(counts)[m] + 1 else 1]
      ensures holders == old(holders)[m := if m in old(counts) then old(holders)[m] + {remover} else {remover}]
    {
      if m in counts {
        counts := counts[m := counts[m] + 1];
        holders := holders[m := holders[m] + {remover}];
      } else {
        DistinctOneMore(members, m);
        members := members + [m];
        counts := counts[m := 1];
        holders := holders[m := {remover}];
      }
    }

    method CountDown(m: ConnectionRegistry, ghost remover: Remover)
      requires Listed() && m in counts
      modifies this`members, this`counts, this`holders
      ensures Listed()
      ensures if old(counts)[m] > 1
              then members == old(members) && counts == old(counts)[m := old(counts)[m] - 1]
                && holders == old(holders)[m := old(holders)[m] - {remover}]
              else members == Without(old(members), m) && counts == old(counts) - {m} && holders == old(holders) - {m}
    {
      if counts[m] <= 1 {
        WithoutKeepsDistinct(members, m);
        members := Without(members, m);
        counts := counts - {m};
        holders := holders - {m};
      } else {
        counts := counts[m := counts[m] - 1];
        holders := holders[m := holders[m] - {remover}];
      }
    }

    /** Releases its own addition's count, once: the closer stays a member until the last is released. */
    method Remove(remover: Remover)
      requires Valid() && remover in additions
      modifies this, remover
      ensures Valid() && remover.removed && additions == old(additions)
      ensures old(remover.removed) ==> members == old(members) && counts == old(counts)
      ensures !old(remover.removed) ==>
                && remover.member in old(counts)
                && if old(counts)[remover.member] > 1
                   then members == old(members)
                     && counts == old(counts)[remover.member := old(counts)[remover.member] - 1]
                   else members == Without(old(members), remover.member) && counts == old(counts) - {remover.member}
    {
      if remover.removed {
        return;
      }
      var m := remover.member;
      assert AdditionHeld(remover) && MemberCounted(m);
      assert forall a :: a in additions && a.member == m ==> AdditionHeld(a);
      assert |holders[m] - {remover}| == |holders[m]| - 1;
      remover.removed := true;
      CountDown(m, remover);
      OneMemberKeepsCount(m);
    }

    method MemberCount() returns (count: nat)
      requires Valid()
      ensures count == |members| && count == |counts|
    {
      count := |members|;
      DistinctSize(members, counts.Keys);
    }

    /** One member's close, of what the fan-out names. */
    static method CloseMember(m: ConnectionRegistry, what: Scale, fails: set<ConnId>) returns (result: CloseResult)
      requires m.Valid()
      modifies m, m.pending
      ensures m.Valid() && m.Model() == Closes(old(m.Model()), what)
      ensures result == ResultOf(NamedIn(old(m.Model()), what), fails)
    {
      match what {
        case Named(target) => result := m.CloseConnections(target, fails);
        case Everything => result := m.CloseAllConnections(fails);
      }
    }

    ghost function Registries(): set<object>
      reads this
    {
      set m | m in members :: m
    }

    ghost function Tables(): set<object>
      reads this
    {
      set m | m in members :: m.pending
    }

    ghost function Models(): (rs: seq<Registry>)
      reads this, Registries(), Tables()
      ensures |rs| == |members| && forall i :: 0 <= i < |members| ==> rs[i] == members[i].Model()
    {
      seq(|members|, i requires 0 <= i < |members| reads this, Registries(), Tables() =>
        assert members[i] in members; members[i].Model())
    }

    lemma MembersApart(i: nat, j: nat)
      requires Listed() && Apart() && i < |members| && j < |members| && i != j
      ensures members[i] != members[j] && members[i].pending != members[j].pending
    {
      assert members[i] in members && members[j] in members;
    }

    lemma MemberIn(i: nat)
      requires i < |members|
      ensures members[i] in Registries() && members[i].pending in Tables()
    {
      assert members[i] in members;
    }

    /** The next member's close reaches no other member. */
    method CallMember(i: nat, what: Scale, fails: seq<set<ConnId>>, ghost before: seq<Registry>,
                      ghost results: seq<CloseResult>)
      returns (one: CloseResult)
      requires Listed() && Apart() && Broken(before) == {}
      requires i == |results| < |members| == |before| == |fails| && Reached(before, what, fails, Models(), results)
      modifies members[i], members[i].pending
      ensures Reached(before, what, fails, Models(), results + [one])
    {
      forall j | 0 <= j < |members| && j != i
        ensures members[j] != members[i] && members[j].pending != members[i].pending
      {
        MembersApart(i, j);
      }
      NoneBroken(before, i);
      ReachedAt(before, what, fails, Models(), results, i);
      assert members[i].Model() == before[i];
      one := CloseMember(members[i], what, fails[i]);
      OneMoreReached(before, what, fails, old(Models()), results, Models(), one);
    }

    /**
     * Every member is called once, in order, whatever another throws: each closes all it should,
     * and the answer is the sum, or the first error. `fails[i]` are the sockets of member `i` whose
     * close throws.
     */
    method FanOut(what: Scale, fails: seq<set<ConnId>>) returns (result: FanResult, ghost results: seq<CloseResult>)
      requires Listed() && Apart() && |fails| == |members| && Broken(Models()) == {}
      modifies Registries(), Tables()
      ensures |results| == |members| && result == Summed(results)
      ensures Reached(old(Models()), what, fails, Models(), results)
    {
      result, results := Total(0), [];
      ghost var before := Models();
      for i := 0 to |members|
        invariant |results| == i && result == Summed(results)
        invariant Reached(before, what, fails, Models(), results)
      {
        MemberIn(i);
        var one := CallMember(i, what, fails, before, results);
        SummedOneMore(results, one);
        result, results := Plus(result, i, one), results + [one];
      }
    }

    /** Afterwards no member holds a connection the target names, however many closes threw. */
    method CloseConnections(target: CloseTarget, fails: seq<set<ConnId>>) returns (result: FanResult)
      requires Valid() && |fails| == |members| && Broken(Models()) == {}
      modifies Registries(), Tables()
      ensures Broken(Models()) == {} && result == Summed(EachResult(old(Models()), Named(target), fails))
      ensures forall i :: 0 <= i < |members| ==> Models()[i] == ClosedTarget(old(Models())[i], target)
      ensures forall i, c :: 0 <= i < |members| && c in Models()[i].connections ==> !Matches(c.identity, target)
      ensures result.Total? <==> forall i :: 0 <= i < |members| ==>
                FirstFailing(Where(old(Models())[i].connections, NamedBy(target)), fails[i]).None?
    {
      ghost var before, results := Models(), [];
      result, results := FanOut(Named(target), fails);
      NamedReached(before, target, fails, Models(), results);
    }

    /** The shutdown close: every member is left closing and empty. */
    method CloseAllConnections(fails: seq<set<ConnId>>) returns (result: FanResult)
      requires Valid() && |fails| == |members| && Broken(Models()) == {}
      modifies Registries(), Tables()
      ensures Broken(Models()) == {} && result == Summed(EachResult(old(Models()), Everything, fails))
      ensures forall i :: 0 <= i < |members| ==> Models()[i].closing && Models()[i].connections == []
    {
      ghost var before, results := Models(), [];
      result, results := FanOut(Everything, fails);
      AllReached(before, Everything, fails, Models(), results);
    }
  }
}
