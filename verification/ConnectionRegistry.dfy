/**
 * The registry object. Each method is shown to take the registry from one model state to the
 * next; the loops delete from the very map they iterate.
 */
module ConnectionRegistries {
  import opened Common
  import opened PeerRequests
  import opened RegistryModel
  import opened RegistryProofs
  import opened RegistryRuns

  /** What a close over several connections answers: how many it closed, or the first failure. */
  datatype CloseResult = Closed(count: nat) | Threw(socket: ConnId)

  function FirstFailing(vs: seq<Conn>, fails: set<ConnId>): (f: Option<ConnId>)
    ensures f.None? <==> forall c :: c in vs ==> c.id !in fails
  {
    if vs == [] then None
    else
      var f := FirstFailing(vs[..|vs| - 1], fails);
      if f.Some? then f
      else if vs[|vs| - 1].id in fails then Some(vs[|vs| - 1].id)
      else None
  }

  function ResultOf(vs: seq<Conn>, fails: set<ConnId>): CloseResult {
    if FirstFailing(vs, fails).Some? then Threw(FirstFailing(vs, fails).value) else Closed(|vs|)
  }

  /** The count is of everything closed; a failure reported is the earliest there was. */
  lemma {:induction false} ResultMeaning(vs: seq<Conn>, fails: set<ConnId>)
    ensures match ResultOf(vs, fails)
            case Closed(count) => count == |vs| && forall i :: 0 <= i < |vs| ==> vs[i].id !in fails
            case Threw(id) =>
              && id in fails
              && exists i :: 0 <= i < |vs| && vs[i].id == id && forall j :: 0 <= j < i ==> vs[j].id !in fails
  {
    if vs != [] {
      var n := |vs| - 1;
      ResultMeaning(vs[..n], fails);
      assert forall i :: 0 <= i < n ==> vs[i] == vs[..n][i] && vs[i] in vs[..n];
      if FirstFailing(vs[..n], fails).Some? {
        var i :| 0 <= i < n && vs[..n][i].id == FirstFailing(vs[..n], fails).value
                 && forall j :: 0 <= j < i ==> vs[..n][j].id !in fails;
        assert vs[i].id == FirstFailing(vs, fails).value;
      }
    }
  }

  lemma FailingOneMore(vs: seq<Conn>, c: Conn, fails: set<ConnId>)
    ensures FirstFailing(vs + [c], fails) ==
            if FirstFailing(vs, fails).None? && c.id in fails then Some(c.id) else FirstFailing(vs, fails)
  {
    assert (vs + [c])[..|vs|] == vs;
  }

  // ----- Iterating over the map while deleting from it -----

  ghost function FailedUpTo(was: seq<Conn>, k: nat, p: Conn -> bool, fails: set<ConnId>): Option<ConnId>
    requires k <= |was|
  {
    if k == 0 then None
    else
      var before := FailedUpTo(was, k - 1, p, fails);
      if before.None? && p(was[k - 1]) && was[k - 1].id in fails then Some(was[k - 1].id) else before
  }

  lemma {:induction false} FailedIsFirst(was: seq<Conn>, k: nat, p: Conn -> bool, fails: set<ConnId>)
    requires k <= |was|
    ensures FailedUpTo(was, k, p, fails) == FirstFailing(Where(was[..k], p), fails)
  {
    if k != 0 {
      FailedIsFirst(was, k - 1, p, fails);
      WhereExtend(was, k - 1, p);
      FailingOneMore(Where(was[..k - 1], p), was[k - 1], fails);
      assert Where(was[..k - 1], p) + [] == Where(was[..k - 1], p);
    }
  }

  lemma DropMiddle(before: seq<Conn>, c: Conn, after: seq<Conn>)
    requires forall x :: x in before ==> x.id != c.id
    requires forall x :: x in after ==> x.id != c.id
    ensures Drop(before + [c] + after, c.id) == before + after
  {
    var p := NotId(c.id);
    assert Where(before, p) == before by { WhereAll(before, p); }
    assert Where(after, p) == after by { WhereAll(after, p); }
    assert Where([c], p) == [] by { WhereNone([c], p); }
    assert Where(before + [c], p) == before by { WhereConcat(before, [c], p); }
    assert Where(before + [c] + after, p) == before + after by { WhereConcat(before + [c], after, p); }
  }

  /** The map an iteration sees after visiting `k` entries of `was` and deleting the `gone` ones. */
  ghost function Live(was: seq<Conn>, k: nat, gone: Conn -> bool): seq<Conn>
    requires k <= |was|
  {
    Where(was[..k], Not(gone)) + was[k..]
  }

  lemma LiveStep(was: seq<Conn>, k: nat, gone: Conn -> bool)
    requires k < |was| && DistinctIds(was)
    ensures Live(was, k + 1, gone) == if gone(was[k]) then Drop(Live(was, k, gone), was[k].id) else Live(was, k, gone)
  {
    var kept, rest := Where(was[..k], Not(gone)), was[k + 1..];
    assert Where(was[..k + 1], Not(gone)) == if gone(was[k]) then kept else kept + [was[k]] by {
      WhereExtend(was, k, Not(gone));
    }
    assert Live(was, k, gone) == kept + [was[k]] + rest by {
      assert was[k..] == [was[k]] + rest;
    }
    assert gone(was[k]) ==> Drop(kept + [was[k]] + rest, was[k].id) == kept + rest by {
      WhereIn(was[..k], Not(gone));
      DropMiddle(kept, was[k], rest);
    }
  }

  lemma {:induction false} ClosingLive(r: Registry, was: seq<Conn>, k: nat, p: Conn -> bool, code: CloseCode)
    requires k <= |was| && DistinctIds(was) && r.connections == was
    ensures Visited(EndStep(code, Flush), r, was, k, p).connections == Live(was, k, p)
  {
    if k != 0 {
      ClosingLive(r, was, k - 1, p, code);
      var c := was[k - 1];
      var before := Visited(EndStep(code, Flush), r, was, k - 1, p);
      assert Visited(EndStep(code, Flush), r, was, k, p).connections ==
             if p(c) then Drop(before.connections, c.id) else before.connections;
      assert Live(was, k, p) == if p(c) then Drop(Live(was, k - 1, p), c.id) else Live(was, k - 1, p) by {
        LiveStep(was, k - 1, p);
      }
    }
  }

  lemma {:induction false} HearingLive(r: Registry, was: seq<Conn>, k: nat, to: Conn -> bool, push: ConnId -> Push)
    requires k <= |was| && DistinctIds(was) && r.connections == was
    ensures Visited(OfferStep(push), r, was, k, to).connections == Live(was, k, Both(to, Answering(push, Overflow)))
  {
    if k != 0 {
      HearingLive(r, was, k - 1, to, push);
      var gone, c := Both(to, Answering(push, Overflow)), was[k - 1];
      var before := Visited(OfferStep(push), r, was, k - 1, to);
      assert Visited(OfferStep(push), r, was, k, to).connections ==
             if gone(c) then Drop(before.connections, c.id) else before.connections by {
        assert gone(c) <==> to(c) && push(c.id).Overflow?;
      }
      assert Live(was, k, gone) == if gone(c) then Drop(Live(was, k - 1, gone), c.id) else Live(was, k - 1, gone) by {
        LiveStep(was, k - 1, gone);
      }
    }
  }

  /** Deleting the entry an iteration stands on brings the next one under it: none is skipped. */
  lemma CursorFindsNext(was: seq<Conn>, k: nat, gone: Conn -> bool, i: nat)
    requires k <= |was| && i == CountUpTo(was, k, Not(gone))
    ensures i < |Live(was, k, gone)| <==> k < |was|
    ensures k < |was| ==> Live(was, k, gone)[i] == was[k]
  {
    CountIsWhere(was, k, Not(gone));
  }

  class ConnectionRegistry {
    const maxPerAccount: Cap
    const pending: PendingPeerRequests
    var connections: seq<Conn>
    var closingWriters: set<ConnId>
    var closeCodes: map<ConnId, CloseCode>
    var closing: bool
    var nextId: nat
    ghost var calls: seq<Call>

    ghost function Model(): Registry
      reads this, pending
    {
      Registry(maxPerAccount, pending.maxInFlight, connections, closingWriters, closeCodes, closing, nextId,
               pending.Model(), calls)
    }

    ghost predicate Valid()
      reads this, pending
    {
      Inv(Model())
    }

    constructor (maxPerAccount: Cap, maxPeers: nat)
      ensures Valid() && fresh(pending)
      ensures Model() == Empty(maxPerAccount, maxPeers)
    {
      this.maxPerAccount := maxPerAccount;
      connections, closingWriters, closeCodes, closing, nextId, calls := [], {}, map[], false, 0, [];
      pending := new PendingPeerRequests(maxPeers);
      new;
      EmptyInv(maxPerAccount, maxPeers);
    }

    method Insert(identity: Identity, controller: Option<ControllerId>, admitted: bool) returns (id: ConnId)
      modifies this
      ensures Model() == Inserted(old(Model()), identity, controller, admitted) && id == old(nextId)
    {
      id := nextId;
      nextId := nextId + 1;
      connections := connections + [Conn(id, identity, admitted, controller)];
    }

    method CloseBornClosed(controller: Option<ControllerId>) returns (id: ConnId)
      modifies this
      ensures Model() == BornClosed(old(Model()), controller) && id == old(nextId)
    {
      id := nextId;
      nextId := nextId + 1;
      calls := calls + AbortCall(controller) + [Call.CloseBornClosed(id)];
    }

    method RegisterPending(identity: Identity, controller: Option<ControllerId>) returns (id: ConnId)
      requires Valid()
      modifies this
      ensures Valid() && Model() == RegisteredPending(old(Model()), identity, controller)
      ensures id == old(nextId)
    {
      StepKeepsInv(Model(), Event.RegisterPending(identity, controller));
      if closing {
        id := CloseBornClosed(controller);
      } else {
        id := Insert(identity, controller, false);
      }
    }

    method TakePendingCloseCode(id: ConnId) returns (code: Option<CloseCode>)
      requires Valid()
      modifies this
      ensures Valid() && Model() == CodeTaken(old(Model()), id)
      ensures code == if id in old(closeCodes) then Some(old(closeCodes)[id]) else None
    {
      StepKeepsInv(Model(), TakeCode(id));
      code := if id in closeCodes then Some(closeCodes[id]) else None;
      closeCodes := closeCodes - {id};
    }

    method CleanupConnection(id: ConnId)
      modifies this, pending
      ensures Model() == Cleaned(old(Model()), id)
    {
      connections := Drop(connections, id);
      pending.Drain(id);
    }

    method EndConnection(c: Conn, code: CloseCode, backlog: Backlog)
      modifies this, pending
      ensures Model() == Ended(old(Model()), c, code, backlog)
    {
      CleanupConnection(c.id);
      if !c.admitted {
        closeCodes := closeCodes[c.id := code];
      }
      calls := calls + AbortCall(c.controller);
      closingWriters := closingWriters + {c.id};
      calls := calls + [CloseSocket(c.id, code, backlog)];
    }

    method EvictOldestForAccount(account: AccountId, max: nat)
      requires maxPerAccount == Some(max) && max >= 1 && DistinctIds(connections)
      modifies this, pending
      ensures Model() == RoomMade(old(Model()), account)
    {
      var owned := Where(connections, AdmittedOf(account));
      var excess := |owned| + 1 - max;
      if excess <= 0 {
        return;
      }
      for i := 0 to excess
        invariant Model() == EndedAll(old(Model()), owned[..i], CLOSE_CONNECTION_LIMIT, Flush)
      {
        FoldPrefix(EndStep(CLOSE_CONNECTION_LIMIT, Flush), old(Model()), owned, i);
        EndConnection(owned[i], CLOSE_CONNECTION_LIMIT, Flush);
      }
    }

    /** The answer is whether the registration was still there. */
    method Admit(id: ConnId) returns (ok: bool)
      requires Valid()
      modifies this, pending
      ensures Valid() && Model() == Admitted(old(Model()), id)
      ensures ok <==> Has(old(connections), id)
      ensures ok <==> IsAdmitted(Model(), id)
    {
      AdmittedKeepsInv(Model(), id);
      AdmittedEffect(Model(), id);
      ok := DoAdmit(id);
    }

    method DoAdmit(id: ConnId) returns (ok: bool)
      requires DistinctIds(connections)
      modifies this, pending
      ensures Model() == Admitted(old(Model()), id) && (ok <==> Has(old(connections), id))
    {
      var entry := Find(connections, id);
      ok := entry.Some?;
      if ok && !entry.value.admitted {
        if maxPerAccount.Some? {
          EvictOldestForAccount(entry.value.identity.account, maxPerAccount.value);
        }
        connections := SetAdmitted(connections, id);
      }
    }

    method AddConnection(identity: Identity, controller: Option<ControllerId>) returns (id: ConnId)
      requires Valid()
      modifies this, pending
      ensures Valid() && Model() == AddedConnection(old(Model()), identity, controller)
      ensures id == old(nextId)
    {
      RoomMadeKeepsCore(Model(), identity.account);
      AddedKeepsInv(Model(), identity, controller);
      if closing {
        id := CloseBornClosed(controller);
        return;
      }
      if maxPerAccount.Some? {
        EvictOldestForAccount(identity.account, maxPerAccount.value);
      }
      id := Insert(identity, controller, true);
    }

    method RemoveConnection(id: ConnId)
      requires Valid()
      modifies this, pending
      ensures Valid() && Model() == Removed(old(Model()), id)
    {
      RemovedKeepsInv(Model(), id);
      DoRemove(id);
    }

    method DoRemove(id: ConnId)
      modifies this, pending
      ensures Model() == Removed(old(Model()), id)
    {
      calls := calls + DisposeCalls(Model(), id);
      closeCodes := closeCodes - {id};
      closingWriters := closingWriters - {id};
      CleanupConnection(id);
    }

    method CloseConnection(id: ConnId, code: CloseCode) returns (closed: bool)
      requires Valid()
      modifies this, pending
      ensures Valid() && Model() == ClosedOne(old(Model()), id, code)
      ensures closed <==> Has(old(connections), id)
    {
      ClosedOneKeepsInv(Model(), id, code);
      var entry := Find(connections, id);
      if entry.None? {
        return false;
      }
      EndConnection(entry.value, code, Flush);
      return true;
    }

    /** `fails` are the sockets whose close throws; none of them stops the loop. */
    method CloseWhere(p: Conn -> bool, code: CloseCode, fails: set<ConnId>) returns (result: CloseResult)
      requires DistinctIds(connections)
      modifies this, pending
      ensures Model() == ClosedWhere(old(Model()), p, code)
      ensures result == ResultOf(Where(old(connections), p), fails)
    {
      var count, failed := 0, None;
      var i := 0;
      ghost var was, k := connections, 0;
      while i < |connections|
        invariant k <= |was| && i == CountUpTo(was, k, Not(p))
        invariant i < |connections| <==> k < |was|
        invariant k < |was| ==> connections[i] == was[k]
        invariant Model() == Visited(EndStep(code, Flush), old(Model()), was, k, p)
        invariant failed == FailedUpTo(was, k, p, fails)
        invariant failed.None? ==> count == CountUpTo(was, k, p)
        decreases |was| - k
      {
        var c := connections[i];
        if p(c) {
          EndConnection(c, code, Flush);
          if c.id in fails {
            failed := if failed.None? then Some(c.id) else failed;
          } else {
            count := count + 1;
          }
        } else {
          i := i + 1;
        }
        k := k + 1;
        assert (i < |connections| <==> k < |was|) && (k < |was| ==> connections[i] == was[k]) by {
          ClosingLive(old(Model()), was, k, p, code);
          CursorFindsNext(was, k, p, i);
        }
      }
      assert was[..k] == was;
      assert Model() == ClosedWhere(old(Model()), p, code)
        by { VisitedIsFold(EndStep(code, Flush), old(Model()), was, k, p); }
      assert failed == FirstFailing(Where(was, p), fails) by { FailedIsFirst(was, k, p, fails); }
      assert failed.None? ==> count == |Where(was, p)| by { CountIsWhere(was, k, p); }
      result := if failed.Some? then Threw(failed.value) else Closed(count);
    }

    method CloseConnections(target: CloseTarget, fails: set<ConnId>) returns (result: CloseResult)
      requires Valid()
      modifies this, pending
      ensures Valid() && Model() == ClosedTarget(old(Model()), target)
      ensures result == ResultOf(Where(old(connections), NamedBy(target)), fails)
      ensures forall c :: c in connections <==> c in old(connections) && !Matches(c.identity, target)
    {
      ClosedTargetKeepsInv(Model(), target);
      ClosedWhereEffect(Model(), NamedBy(target), CodeFor(target));
      WhereIn(connections, Not(NamedBy(target)));
      result := CloseWhere(NamedBy(target), CodeFor(target), fails);
    }

    method CloseAllConnections(fails: set<ConnId>) returns (result: CloseResult)
      requires Valid()
      modifies this, pending
      ensures Valid() && Model() == ClosedAll(old(Model()))
      ensures closing && connections == []
      ensures result == ResultOf(old(connections), fails)
    {
      ClosedAllKeepsInv(Model());
      WhereAll(connections, Everyone());
      closing := true;
      result := CloseWhere(Everyone(), CLOSE_GOING_AWAY, fails);
    }

    /** `push` is what the connection's writer answers. */
    method Deliver(c: Conn, push: Push) returns (accepted: bool)
      modifies this, pending
      ensures Model() == Delivered(old(Model()), c, push)
      ensures accepted <==> push.Accepted?
    {
      calls := calls + [Offer(c.id)];
      if push.Overflow? {
        EndConnection(c, CLOSE_OUTBOUND_OVERFLOW, Discard);
      }
      return push.Accepted?;
    }

    method OfferIf(heard: bool, c: Conn, push: Push) returns (taken: bool)
      modifies this, pending
      ensures Model() == if heard then Delivered(old(Model()), c, push) else old(Model())
      ensures taken <==> heard && push.Accepted?
    {
      taken := false;
      if heard {
        taken := Deliver(c, push);
      }
    }

    method FanOut(to: Identity -> bool, push: ConnId -> Push) returns (count: nat)
      requires DistinctIds(connections)
      modifies this, pending
      ensures Model() == Broadcasted(old(Model()), to, push)
      ensures count == |Where(Where(old(connections), Audience(to)), Answering(push, Accepted))|
    {
      count := 0;
      var i := 0;
      ghost var before, was, k := Model(), connections, 0;
      ghost var leaving := Both(Audience(to), Answering(push, Overflow));
      ghost var taking := Both(Audience(to), Answering(push, Accepted));
      while i < |connections|
        invariant k <= |was| && i == CountUpTo(was, k, Not(leaving))
        invariant i < |connections| <==> k < |was|
        invariant k < |was| ==> connections[i] == was[k]
        invariant Model() == Visited(OfferStep(push), before, was, k, Audience(to))
        invariant count == CountUpTo(was, k, taking)
        decreases |was| - k
      {
        var c := connections[i];
        var heard := c.admitted && to(c.identity);
        ghost var visited := Model();
        var taken := OfferIf(heard, c, push(c.id));
        count := count + if taken then 1 else 0;
        assert Model() == if heard then Delivered(visited, c, push(c.id)) else visited;
        assert Audience(to)(c) == heard && leaving(c) == (heard && push(c.id).Overflow?);
        assert taking(c) == (heard && push(c.id).Accepted?);
        if !(heard && push(c.id).Overflow?) { // an overflow deleted the entry under the cursor
          i := i + 1;
        }
        k := k + 1;
        assert (i < |connections| <==> k < |was|) && (k < |was| ==> connections[i] == was[k]) by {
          HearingLive(before, was, k, Audience(to), push);
          CursorFindsNext(was, k, leaving, i);
        }
      }
      assert was[..k] == was;
      assert Model() == Broadcasted(before, to, push)
        by { VisitedIsFold(OfferStep(push), before, was, k, Audience(to)); }
      assert count == |Where(Where(was, Audience(to)), Answering(push, Accepted))| by {
        CountIsWhere(was, k, taking);
        WhereWhere(was, Audience(to), Answering(push, Accepted));
      }
    }

    /** The answer counts exactly the acceptances; `Offers` grows by each recipient once. */
    method BroadcastFiltered(to: Identity -> bool, push: ConnId -> Push) returns (count: nat)
      requires Valid()
      modifies this, pending
      ensures Valid() && Model() == Broadcasted(old(Model()), to, push)
      ensures count == |Where(Where(old(connections), Audience(to)), Answering(push, Accepted))|
      ensures Offers(calls) == old(Offers(calls)) + Ids(Where(old(connections), Audience(to)))
    {
      BroadcastEffect(Model(), to, push);
      BroadcastKeepsInv(Model(), to, push);
      count := FanOut(to, push);
    }

    method SendToAccount(account: AccountId, push: ConnId -> Push) returns (count: nat)
      requires Valid()
      modifies this, pending
      ensures Valid() && Model() == Broadcasted(old(Model()), (identity: Identity) => identity.account == account, push)
      ensures count == |Where(Where(old(connections), AdmittedOf(account)), Answering(push, Accepted))|
    {
      WhereAgree(connections, AdmittedOf(account), Audience((identity: Identity) => identity.account == account));
      count := BroadcastFiltered((identity: Identity) => identity.account == account, push);
    }

    method SendTo(id: ConnId, push: Push) returns (accepted: bool)
      requires Valid()
      modifies this, pending
      ensures Valid() && Model() == SentTo(old(Model()), id, push)
      ensures accepted <==> IsAdmitted(old(Model()), id) && push.Accepted?
    {
      StepKeepsInv(Model(), Send(id, push));
      accepted := DoSend(id, push);
    }

    method DoSend(id: ConnId, push: Push) returns (accepted: bool)
      modifies this, pending
      ensures Model() == SentTo(old(Model()), id, push)
      ensures accepted <==> IsAdmitted(old(Model()), id) && push.Accepted?
    {
      var entry := Find(connections, id);
      if entry.None? || !entry.value.admitted {
        return false;
      }
      accepted := Deliver(entry.value, push);
    }

    method RequestConnection(id: ConnId, encodes: bool, push: Push) returns (result: RequestResult)
      requires Valid()
      modifies this, pending
      ensures Valid() && (Model(), result) == Requested(old(Model()), id, encodes, push)
    {
      RequestedKeepsInv(Model(), id, encodes, push);
      var entry := Find(connections, id);
      if entry.None? || !entry.value.admitted {
        return Answered(ConnectionGone);
      }
      var request := pending.Register(id);
      if request.None? {
        return Answered(TooManyInFlight);
      }
      if !encodes {
        pending.Settle(id, request.value, ConnectionGone);
        return Awaiting(request.value);
      }
      var accepted := Deliver(entry.value, push);
      if !accepted {
        pending.Settle(id, request.value, ConnectionGone);
      }
      return Awaiting(request.value);
    }

    method ResolvePeerResponse(id: ConnId, reply: Reply) returns (matched: bool)
      requires Valid()
      modifies pending
      ensures Valid() && Model() == ReplyRouted(old(Model()), id, reply)
      ensures matched <==> Answers(old(Model()).peers, id, reply)
    {
      ReplyKeepsInv(Model(), id, reply);
      matched := pending.Resolve(id, reply);
    }

    method DropStalled(id: ConnId)
      requires Valid()
      modifies this, pending
      ensures Valid() && Model() == Stalled(old(Model()), id)
    {
      StalledKeepsInv(Model(), id);
      var entry := Find(connections, id);
      if entry.None? {
        return;
      }
      CleanupConnection(id);
      calls := calls + AbortCall(entry.value.controller);
    }

    /** A peer request's deadline timer fires: only a request still pending has one. */
    method PeerDeadlineFires(id: ConnId, request: RequestId)
      requires Valid() && request in pending.promises && pending.promises[request].timerArmed
      requires pending.promises[request].conn == id
      modifies pending
      ensures Valid() && Model() == TimedOut(old(Model()), request)
      ensures pending.promises[request].outcomes == [Timeout]
    {
      DeadlineKeepsInv(Model(), request);
      SettledKeepsOk(pending.Model(), pending.maxInFlight, id, request, Timeout);
      assert IsPending(pending.Model(), id, request);
      pending.Settle(id, request, Timeout);
    }

    /** A closed connection's writer has settled its close, sent or past its deadline. */
    method CloseDeadlineSettles(id: ConnId)
      requires Valid()
      modifies this`closingWriters
      ensures Valid() && Model() == CloseSettled(old(Model()), id)
    {
      RemovingEventsKeepInv(Model(), CloseDeadline(id));
      closingWriters := closingWriters - {id};
    }

    /** The two counts read the same map and between them count every entry once. */
    method Counts() returns (admitted: nat, awaiting: nat)
      ensures admitted == |Where(connections, (c: Conn) => c.admitted)|
      ensures admitted + awaiting == |connections|
    {
      admitted, awaiting := 0, 0;
      for i := 0 to |connections|
        invariant admitted == |Where(connections[..i], (c: Conn) => c.admitted)|
        invariant admitted + awaiting == i
      {
        WhereExtend(connections, i, (c: Conn) => c.admitted);
        if connections[i].admitted {
          admitted := admitted + 1;
        } else {
          awaiting := awaiting + 1;
        }
      }
      assert connections[..|connections|] == connections;
    }
  }
}
