/** The registry over whole runs: the per-account cap, shutdown, peer ownership and fan-out. */
module RegistryRuns {
  import opened Common
  import opened PeerRequests
  import opened RegistryModel
  import opened RegistryProofs

  // ----- The cap -----

  lemma VictimsRegistered(r: Registry, account: AccountId)
    requires DistinctIds(r.connections)
    ensures Victimable(r.connections, Victims(r, account))
    ensures forall c :: c in Victims(r, account) ==> c.admitted && c.identity.account == account
  {
    var owned, vs := Where(r.connections, AdmittedOf(account)), Victims(r, account);
    WhereKeepsDistinct(r.connections, AdmittedOf(account));
    WhereIn(r.connections, AdmittedOf(account));
    forall c | c in vs
      ensures c in owned
    {
      var i :| 0 <= i < |vs| && vs[i] == c;
      assert owned[i] == c;
    }
    assert forall i :: 0 <= i < |vs| ==> vs[i] == owned[i];
  }

  /**
   * Making room closes exactly the account's earliest-registered admitted connections, leaving
   * the later ones, and frees one place under the cap.
   */
  lemma RoomMadeEffect(r: Registry, account: AccountId)
    requires DistinctIds(r.connections)
    ensures var e := RoomMade(r, account);
            && e.connections == Where(r.connections, NotIn(Victims(r, account)))
            && Where(e.connections, AdmittedOf(account)) ==
               Where(r.connections, AdmittedOf(account))[Excess(r, account)..]
            && (r.max.Some? ==> |Where(e.connections, AdmittedOf(account))| < r.max.value)
  {
    var vs := Victims(r, account);
    assert RoomMade(r, account).connections == Where(r.connections, NotIn(vs)) by {
      VictimsRegistered(r, account);
      EndedAllConnections(r, vs, CLOSE_CONNECTION_LIMIT, Flush);
    }
    WhereMinusPrefix(r.connections, AdmittedOf(account), Excess(r, account));
  }

  /** It touches no pending registration and nobody else's connection. */
  lemma RoomSparesOthers(r: Registry, account: AccountId, c: Conn)
    requires DistinctIds(r.connections)
    requires c in r.connections && (!c.admitted || c.identity.account != account)
    ensures c in RoomMade(r, account).connections
  {
    RoomMadeEffect(r, account);
    VictimsRegistered(r, account);
    WhereIn(r.connections, NotIn(Victims(r, account)));
  }

  lemma RoomMadeKeepsCore(r: Registry, account: AccountId)
    requires Core(r)
    ensures Core(RoomMade(r, account))
    ensures RoomMade(r, account).nextId == r.nextId && RoomMade(r, account).closing == r.closing
            && RoomMade(r, account).max == r.max
  {
    VictimsRegistered(r, account);
    EndedAllKeepsCore(r, Victims(r, account), CLOSE_CONNECTION_LIMIT, Flush);
    EndedAllRest(r, Victims(r, account), CLOSE_CONNECTION_LIMIT, Flush);
  }

  lemma {:induction false} SetAdmittedCount(cs: seq<Conn>, c: Conn, account: AccountId)
    requires DistinctIds(cs) && c in cs && !c.admitted
    ensures |Where(SetAdmitted(cs, c.id), AdmittedOf(account))| ==
            |Where(cs, AdmittedOf(account))| + if c.identity.account == account then 1 else 0
  {
    var n := |cs| - 1;
    var s := SetAdmitted(cs, c.id);
    assert s[..n] == SetAdmitted(cs[..n], c.id);
    if cs[n] == c {
      assert SetAdmitted(cs[..n], c.id) == cs[..n];
    } else {
      SetAdmittedCount(cs[..n], c, account);
    }
  }

  lemma SetAdmittedFinds(cs: seq<Conn>, id: ConnId, x: ConnId)
    ensures Has(SetAdmitted(cs, id), x) <==> Has(cs, x)
    ensures DistinctIds(cs) && Find(cs, x).Some? ==>
              Find(SetAdmitted(cs, id), x) ==
              Some(if x == id then Find(cs, x).value.(admitted := true) else Find(cs, x).value)
  {
    var s := SetAdmitted(cs, id);
    assert Has(cs, x) ==> Has(s, x) by {
      if Has(cs, x) {
        var i :| 0 <= i < |cs| && cs[i].id == x;
        assert s[i].id == x;
      }
    }
    if DistinctIds(cs) && Find(cs, x).Some? {
      var i :| 0 <= i < |cs| && cs[i] == Find(cs, x).value;
      assert s[i].id == x;
      FindUnique(s, s[i]);
    }
  }

  lemma PendingSurvivesRoom(r: Registry, c: Conn)
    requires DistinctIds(r.connections) && c in r.connections && !c.admitted
    ensures var room := RoomMade(r, c.identity.account);
            && DistinctIds(room.connections)
            && Find(room.connections, c.id) == Some(c)
            && Admitted(r, c.id) == room.(connections := SetAdmitted(room.connections, c.id))
  {
    assert DistinctIds(RoomMade(r, c.identity.account).connections) by {
      RoomMadeEffect(r, c.identity.account);
      WhereKeepsDistinct(r.connections, NotIn(Victims(r, c.identity.account)));
    }
    FindUnique(r.connections, c);
    RoomSparesOthers(r, c.identity.account, c);
    FindUnique(RoomMade(r, c.identity.account).connections, c);
  }

  /**
   * A refused admission changes nothing at all; a successful one makes room, then flips exactly
   * the entry it names.
   */
  lemma AdmittedEffect(r: Registry, id: ConnId)
    requires DistinctIds(r.connections)
    ensures Find(r.connections, id).None? ==> Admitted(r, id) == r
    ensures Find(r.connections, id).Some? ==> IsAdmitted(Admitted(r, id), id)
  {
    if Find(r.connections, id).Some? && !Find(r.connections, id).value.admitted {
      var c := Find(r.connections, id).value;
      PendingSurvivesRoom(r, c);
      SetAdmittedFinds(RoomMade(r, c.identity.account).connections, id, id);
    }
  }

  /** An admission evicts no other pending registration. */
  lemma AdmissionSparesPending(r: Registry, id: ConnId, p: Conn)
    requires DistinctIds(r.connections) && p in r.connections && !p.admitted && p.id != id
    ensures p in Admitted(r, id).connections
  {
    if Find(r.connections, id).Some? && !Find(r.connections, id).value.admitted {
      var c := Find(r.connections, id).value;
      PendingSurvivesRoom(r, c);
      RoomSparesOthers(r, c.identity.account, p);
      var room := RoomMade(r, c.identity.account).connections;
      var i :| 0 <= i < |room| && room[i] == p;
      assert SetAdmitted(room, id)[i] == p;
    }
  }

  lemma FlippedKeepsCore(room: Registry, c: Conn)
    requires Core(room) && c in room.connections && !c.admitted
    requires room.max.Some? ==> |Where(room.connections, AdmittedOf(c.identity.account))| < room.max.value
    ensures Core(room.(connections := SetAdmitted(room.connections, c.id)))
  {
    var e := room.(connections := SetAdmitted(room.connections, c.id));
    assert WellFormed(e) && ClosedOnce(e) by {
      forall x { SetAdmittedFinds(room.connections, c.id, x); }
    }
    assert PeersOwned(e) by {
      forall x | x in e.peers.pending
        ensures IsAdmitted(e, x)
      {
        SetAdmittedFinds(room.connections, c.id, x);
      }
    }
    assert WithinCap(e) by {
      forall account { SetAdmittedCount(room.connections, c, account); }
    }
  }

  lemma AdmittedKeepsInv(r: Registry, id: ConnId)
    requires Inv(r)
    ensures Inv(Admitted(r, id)) && Admitted(r, id).closing == r.closing
  {
    var found := Find(r.connections, id);
    if found.Some? && !found.value.admitted {
      var c := found.value;
      PendingSurvivesRoom(r, c);
      RoomMadeEffect(r, c.identity.account);
      RoomMadeKeepsCore(r, c.identity.account);
      assert c in RoomMade(r, c.identity.account).connections;
      FlippedKeepsCore(RoomMade(r, c.identity.account), c);
      assert r.connections != [];
    }
  }

  lemma InsertedKeeps(r: Registry, identity: Identity, controller: Option<ControllerId>, admitted: bool)
    requires Core(r)
    requires admitted && r.max.Some? ==> |Where(r.connections, AdmittedOf(identity.account))| < r.max.value
    ensures Core(Inserted(r, identity, controller, admitted))
  {
    var e := Inserted(r, identity, controller, admitted);
    var c := Conn(r.nextId, identity, admitted, controller);
    assert WellFormed(e) by { HasLast(r.connections, c); }
    assert ClosedOnce(e) by { HasLast(r.connections, c); }
    assert PeersOwned(e) by {
      forall x | x in e.peers.pending
        ensures IsAdmitted(e, x)
      {
        FindUnique(e.connections, Find(r.connections, x).value);
      }
    }
    assert WithinCap(e) by { assert e.connections[..|e.connections| - 1] == r.connections; }
  }

  // ----- Closing -----

  /**
   * A close leaves no connection its target names, pending or admitted, and every other one
   * exactly where it was.
   */
  lemma ClosedWhereEffect(r: Registry, p: Conn -> bool, code: CloseCode)
    requires DistinctIds(r.connections)
    ensures ClosedWhere(r, p, code).connections == Where(r.connections, Not(p))
    ensures Victimable(r.connections, Where(r.connections, p))
  {
    var vs := Where(r.connections, p);
    WhereKeepsDistinct(r.connections, p);
    WhereIn(r.connections, p);
    EndedAllConnections(r, vs, code, Flush);
    WhereAgree(r.connections, NotIn(vs), Not(p));
  }

  lemma ClosedWhereKeepsCore(r: Registry, p: Conn -> bool, code: CloseCode)
    requires Core(r)
    ensures Core(ClosedWhere(r, p, code))
    ensures ClosedWhere(r, p, code).closing == r.closing
    ensures r.connections == [] ==> ClosedWhere(r, p, code).connections == []
  {
    ClosedWhereEffect(r, p, code);
    EndedAllKeepsCore(r, Where(r.connections, p), code, Flush);
    EndedAllRest(r, Where(r.connections, p), code, Flush);
  }

  lemma ClosedAllKeepsInv(r: Registry)
    requires Inv(r)
    ensures Inv(ClosedAll(r)) && ClosedAll(r).closing && ClosedAll(r).connections == []
  {
    var s := r.(closing := true);
    ClosedWhereKeepsCore(s, Everyone(), CLOSE_GOING_AWAY);
    ClosedWhereEffect(s, Everyone(), CLOSE_GOING_AWAY);
    WhereNone(r.connections, Not(Everyone()));
  }

  // ----- Delivery -----

  function Answering(push: ConnId -> Push, answer: Push): Conn -> bool {
    (c: Conn) => push(c.id) == answer
  }

  /** The frames offered to writers, in order. */
  function Offers(calls: seq<Call>): seq<ConnId> {
    if calls == [] then []
    else Offers(calls[..|calls| - 1]) + if calls[|calls| - 1].Offer? then [calls[|calls| - 1].to] else []
  }

  function Ids(cs: seq<Conn>): (ids: seq<ConnId>)
    ensures |ids| == |cs| && forall i :: 0 <= i < |cs| ==> ids[i] == cs[i].id
  {
    seq(|cs|, i requires 0 <= i < |cs| => cs[i].id)
  }

  lemma {:induction false} OffersConcat(a: seq<Call>, b: seq<Call>)
    ensures Offers(a + b) == Offers(a) + Offers(b)
  {
    if b == [] {
      assert a + b == a;
    } else {
      assert (a + b)[..|a + b| - 1] == a + b[..|b| - 1];
      OffersConcat(a, b[..|b| - 1]);
    }
  }

  lemma DeliveredOffers(r: Registry, c: Conn, push: Push)
    ensures Offers(Delivered(r, c, push).calls) == Offers(r.calls) + [c.id]
  {
    OffersConcat(r.calls, [Offer(c.id)]);
    var offered := r.calls + [Offer(c.id)];
    OffersConcat(offered, AbortCall(c.controller));
    OffersConcat(offered + AbortCall(c.controller), [CloseSocket(c.id, CLOSE_OUTBOUND_OVERFLOW, Discard)]);
  }

  /** A fan-out offers the frame to each recipient exactly once, in registration order. */
  lemma {:induction false} DeliveredAllOffers(r: Registry, cs: seq<Conn>, push: ConnId -> Push)
    ensures Offers(DeliveredAll(r, cs, push).calls) == Offers(r.calls) + Ids(cs)
  {
    if cs != [] {
      var init, last := cs[..|cs| - 1], cs[|cs| - 1];
      DeliveredAllOffers(r, init, push);
      var before := DeliveredAll(r, init, push);
      assert DeliveredAll(r, cs, push) == Delivered(before, last, push(last.id));
      assert Offers(Delivered(before, last, push(last.id)).calls) == Offers(before.calls) + [last.id] by {
        DeliveredOffers(before, last, push(last.id));
      }
      assert Ids(cs) == Ids(init) + [last.id];
    }
  }

  lemma GoneOneMore(init: seq<Conn>, last: Conn, push: ConnId -> Push)
    ensures Where(init + [last], Answering(push, Overflow)) ==
            Where(init, Answering(push, Overflow)) + if push(last.id).Overflow? then [last] else []
  {
    assert (init + [last])[..|init|] == init;
  }

  /** A fan-out removes exactly the recipients whose writer overflowed. */
  lemma {:induction false} DeliveredAllEffect(r: Registry, cs: seq<Conn>, push: ConnId -> Push)
    requires DistinctIds(r.connections) && Victimable(r.connections, cs)
    ensures var e := DeliveredAll(r, cs, push);
            && e.connections == Where(r.connections, NotIn(Where(cs, Answering(push, Overflow))))
            && e.closing == r.closing && e.max == r.max && e.nextId == r.nextId
  {
    if cs == [] {
      WhereAll(r.connections, NotIn(Where(cs, Answering(push, Overflow))));
    } else {
      var init, last := cs[..|cs| - 1], cs[|cs| - 1];
      assert Victimable(r.connections, init);
      DeliveredAllEffect(r, init, push);
      var before := DeliveredAll(r, init, push);
      assert DeliveredAll(r, cs, push).connections ==
             if push(last.id).Overflow? then Drop(before.connections, last.id) else before.connections;
      var gone := Where(init, Answering(push, Overflow));
      assert Where(cs, Answering(push, Overflow)) == gone + if push(last.id).Overflow? then [last] else [] by {
        assert cs == init + [last];
        GoneOneMore(init, last, push);
      }
      assert gone + [] == gone;
      assert Drop(Where(r.connections, NotIn(gone)), last.id) == Where(r.connections, NotIn(gone + [last])) by {
        DropOneMore(r.connections, gone, last);
      }
    }
  }

  lemma DeliveredKeepsCore(r: Registry, c: Conn, push: Push)
    requires Core(r) && c in r.connections
    ensures Core(Delivered(r, c, push))
  {
    var offered := r.(calls := r.calls + [Offer(c.id)]);
    assert Core(offered);
    if push.Overflow? {
      EndedKeepsCore(offered, c, CLOSE_OUTBOUND_OVERFLOW, Discard);
    }
  }

  lemma {:induction false} DeliveredAllKeepsCore(r: Registry, cs: seq<Conn>, push: ConnId -> Push)
    requires Core(r) && Victimable(r.connections, cs)
    ensures Core(DeliveredAll(r, cs, push))
  {
    if cs != [] {
      var init, last := cs[..|cs| - 1], cs[|cs| - 1];
      assert Victimable(r.connections, init);
      DeliveredAllKeepsCore(r, init, push);
      assert last in DeliveredAll(r, init, push).connections by {
        DeliveredAllEffect(r, init, push);
        WhereIn(init, Answering(push, Overflow));
        WhereIn(r.connections, NotIn(Where(init, Answering(push, Overflow))));
      }
      DeliveredKeepsCore(DeliveredAll(r, init, push), last, push(last.id));
    }
  }

  lemma AudienceRegistered(r: Registry, to: Identity -> bool)
    requires DistinctIds(r.connections)
    ensures Victimable(r.connections, Where(r.connections, Audience(to)))
  {
    WhereKeepsDistinct(r.connections, Audience(to));
    WhereIn(r.connections, Audience(to));
  }

  /**
   * A broadcast over the map it shrinks: each admitted connection the filter names at the start is
   * offered the frame once, exactly the overflowed ones go, and pending registrations are untouched.
   */
  lemma BroadcastEffect(r: Registry, to: Identity -> bool, push: ConnId -> Push)
    requires DistinctIds(r.connections)
    ensures var e := Broadcasted(r, to, push);
            && Offers(e.calls) == Offers(r.calls) + Ids(Where(r.connections, Audience(to)))
            && (forall c :: c in e.connections <==>
                  c in r.connections && !(c.admitted && to(c.identity) && push(c.id).Overflow?))
            && e.closing == r.closing && e.nextId == r.nextId
  {
    var heard := Where(r.connections, Audience(to));
    assert Offers(Broadcasted(r, to, push).calls) == Offers(r.calls) + Ids(heard)
      by { DeliveredAllOffers(r, heard, push); }
    AudienceRegistered(r, to);
    DeliveredAllEffect(r, heard, push);
    var gone := Where(heard, Answering(push, Overflow));
    WhereIn(r.connections, NotIn(gone));
    WhereIn(heard, Answering(push, Overflow));
    WhereIn(r.connections, Audience(to));
  }

  lemma BroadcastKeepsInv(r: Registry, to: Identity -> bool, push: ConnId -> Push)
    requires Inv(r)
    ensures Inv(Broadcasted(r, to, push)) && Broadcasted(r, to, push).closing == r.closing
  {
    var heard := Where(r.connections, Audience(to));
    AudienceRegistered(r, to);
    assert Core(Broadcasted(r, to, push)) by { DeliveredAllKeepsCore(r, heard, push); }
    BroadcastEffect(r, to, push);
  }

  // ----- Runs -----

  datatype Event =
    | RegisterPending(identity: Identity, controller: Option<ControllerId>)
    | AddConnection(identity: Identity, controller: Option<ControllerId>)
    | Admit(id: ConnId)
    | TakeCode(id: ConnId)
    | Remove(id: ConnId)
    | CloseOne(id: ConnId, code: CloseCode)
    | CloseTargeted(target: CloseTarget)
    | CloseAll
    | Broadcast(to: Identity -> bool, pushes: ConnId -> Push)
    | Send(id: ConnId, push: Push)
    | Stall(id: ConnId)
    | CloseDeadline(id: ConnId)
    | PeerRequest(id: ConnId, encodes: bool, push: Push)
    | PeerReply(id: ConnId, reply: Reply)
    | PeerDeadline(request: RequestId)

  function Step(r: Registry, e: Event): Registry
  {
    match e
    case RegisterPending(identity, controller) => RegisteredPending(r, identity, controller)
    case AddConnection(identity, controller) => AddedConnection(r, identity, controller)
    case Admit(id) => Admitted(r, id)
    case TakeCode(id) => CodeTaken(r, id)
    case Remove(id) => Removed(r, id)
    case CloseOne(id, code) => ClosedOne(r, id, code)
    case CloseTargeted(target) => ClosedTarget(r, target)
    case CloseAll => ClosedAll(r)
    case Broadcast(to, pushes) => Broadcasted(r, to, pushes)
    case Send(id, push) => SentTo(r, id, push)
    case Stall(id) => Stalled(r, id)
    case CloseDeadline(id) => CloseSettled(r, id)
    case PeerRequest(id, encodes, push) => Requested(r, id, encodes, push).0
    case PeerReply(id, reply) => ReplyRouted(r, id, reply)
    case PeerDeadline(request) => TimedOut(r, request)
  }

  lemma SettlingKeepsInv(r: Registry, conn: ConnId, id: RequestId, outcome: Outcome)
    requires Inv(r)
    ensures Inv(r.(peers := Settled(r.peers, conn, id, outcome)))
  {
    SettledKeepsOk(r.peers, r.maxPeers, conn, id, outcome);
  }

  lemma RegisteringKeepsInv(r: Registry, conn: ConnId)
    requires Inv(r) && IsAdmitted(r, conn)
    ensures Inv(r.(peers := Registered(r.peers, r.maxPeers, conn).0))
  {
    RegisteredKeepsOk(r.peers, r.maxPeers, conn);
  }

  lemma SentKeepsInv(r: Registry, c: Conn, push: Push)
    requires Inv(r) && c in r.connections
    ensures Inv(Delivered(r, c, push)) && Delivered(r, c, push).closing == r.closing
  {
    DeliveredKeepsCore(r, c, push);
  }

  lemma RequestSentKeepsInv(r: Registry, c: Conn, id: RequestId, encodes: bool, push: Push)
    requires Inv(r) && c in r.connections
    ensures Inv(RequestSent(r, c, id, encodes, push)) && RequestSent(r, c, id, encodes, push).closing == r.closing
  {
    SentKeepsInv(r, c, push);
    SettlingKeepsInv(if encodes then Delivered(r, c, push) else r, c.id, id, ConnectionGone);
  }

  lemma RequestedKeepsInv(r: Registry, id: ConnId, encodes: bool, push: Push)
    requires Inv(r)
    ensures Inv(Requested(r, id, encodes, push).0)
    ensures Requested(r, id, encodes, push).0.closing == r.closing
  {
    if IsAdmitted(r, id) {
      var c := Find(r.connections, id).value;
      var (peers, request) := Registered(r.peers, r.maxPeers, id);
      if request.Some? {
        RegisteringKeepsInv(r, id);
        var r1 := r.(peers := peers);
        RequestSentKeepsInv(r1, c, request.value, encodes, push);
      }
    }
  }

  lemma AddedKeepsInv(r: Registry, identity: Identity, controller: Option<ControllerId>)
    requires Inv(r)
    ensures Inv(AddedConnection(r, identity, controller))
            && AddedConnection(r, identity, controller).closing == r.closing
  {
    if !r.closing {
      RoomMadeEffect(r, identity.account);
      RoomMadeKeepsCore(r, identity.account);
      InsertedKeeps(RoomMade(r, identity.account), identity, controller, true);
    }
  }

  lemma RegisteringEventsKeepInv(r: Registry, e: Event)
    requires Inv(r)
    requires e.RegisterPending? || e.AddConnection? || e.Admit?
    ensures Inv(Step(r, e)) && Step(r, e).closing == r.closing
  {
    match e
    case RegisterPending(identity, controller) =>
      if !r.closing { InsertedKeeps(r, identity, controller, false); }
    case AddConnection(identity, controller) => AddedKeepsInv(r, identity, controller);
    case Admit(id) => AdmittedKeepsInv(r, id);
  }

  lemma ClosedOneKeepsInv(r: Registry, id: ConnId, code: CloseCode)
    requires Inv(r)
    ensures Inv(ClosedOne(r, id, code)) && ClosedOne(r, id, code).closing == r.closing
  {
    var found := Find(r.connections, id);
    if found.Some? {
      EndedKeepsCore(r, found.value, code, Flush);
      assert r.connections != [];
    }
  }

  lemma ClosedTargetKeepsInv(r: Registry, target: CloseTarget)
    requires Inv(r)
    ensures Inv(ClosedTarget(r, target)) && ClosedTarget(r, target).closing == r.closing
  {
    ClosedWhereKeepsCore(r, NamedBy(target), CodeFor(target));
  }

  lemma ClosingEventsKeepInv(r: Registry, e: Event)
    requires Inv(r)
    requires e.CloseOne? || e.CloseTargeted? || e.CloseAll?
    ensures Inv(Step(r, e)) && (Step(r, e).closing <==> r.closing || e.CloseAll?)
  {
    match e
    case CloseOne(id, code) => ClosedOneKeepsInv(r, id, code);
    case CloseTargeted(target) => ClosedTargetKeepsInv(r, target);
    case CloseAll => ClosedAllKeepsInv(r);
  }

  /** Calls that close no socket leave the close-once record alone. */
  lemma QuietCalls(r: Registry, e: Registry, extra: seq<Call>)
    requires ClosedOnce(r) && e.calls == r.calls + extra && e.nextId == r.nextId
    requires forall i :: 0 <= i < |extra| ==> !extra[i].CloseSocket?
    requires forall id :: Has(e.connections, id) ==> Has(r.connections, id)
    ensures ClosedOnce(e)
  {
    assert forall i :: 0 <= i < |e.calls| && e.calls[i].CloseSocket? ==> i < |r.calls| && e.calls[i] == r.calls[i];
  }

  lemma RemovedKeepsInv(r: Registry, id: ConnId)
    requires Inv(r)
    ensures Inv(Removed(r, id))
  {
    var e := Removed(r, id);
    CleanedKeeps(r, id);
    assert WellFormed(e) && PeersOwned(e) && WithinCap(e);
    QuietCalls(r, e, DisposeCalls(r, id));
  }

  lemma StalledKeepsInv(r: Registry, id: ConnId)
    requires Inv(r)
    ensures Inv(Stalled(r, id)) && Stalled(r, id).closing == r.closing
  {
    var found := Find(r.connections, id);
    if found.Some? {
      CleanedKeeps(r, id);
      assert WellFormed(Stalled(r, id)) && PeersOwned(Stalled(r, id)) && WithinCap(Stalled(r, id));
      QuietCalls(r, Stalled(r, id), AbortCall(found.value.controller));
      assert r.connections != [];
    }
  }

  lemma RemovingEventsKeepInv(r: Registry, e: Event)
    requires Inv(r)
    requires e.Remove? || e.Stall? || e.TakeCode? || e.CloseDeadline?
    ensures Inv(Step(r, e)) && Step(r, e).closing == r.closing
  {
    match e
    case Remove(id) => RemovedKeepsInv(r, id);
    case Stall(id) => StalledKeepsInv(r, id);
    case TakeCode(id) =>
    case CloseDeadline(id) =>
  }

  lemma SendingEventsKeepInv(r: Registry, e: Event)
    requires Inv(r)
    requires e.Broadcast? || e.Send?
    ensures Inv(Step(r, e)) && Step(r, e).closing == r.closing
  {
    match e
    case Broadcast(to, pushes) => BroadcastKeepsInv(r, to, pushes);
    case Send(id, push) =>
      if IsAdmitted(r, id) { SentKeepsInv(r, Find(r.connections, id).value, push); }
  }

  lemma ReplyKeepsInv(r: Registry, conn: ConnId, reply: Reply)
    requires Inv(r)
    ensures Inv(ReplyRouted(r, conn, reply))
  {
    if Answers(r.peers, conn, reply) {
      SettlingKeepsInv(r, conn, reply.id.n, ReplyOutcome(reply));
    } else {
      assert ReplyRouted(r, conn, reply) == r;
    }
  }

  lemma DeadlineKeepsInv(r: Registry, id: RequestId)
    requires Inv(r)
    ensures Inv(TimedOut(r, id)) && TimedOut(r, id).closing == r.closing
  {
    if id in r.peers.promises {
      SettlingKeepsInv(r, r.peers.promises[id].conn, id, Timeout);
    }
  }

  lemma PeerRequestKeepsInv(r: Registry, e: Event)
    requires Inv(r) && e.PeerRequest?
    ensures Inv(Step(r, e)) && Step(r, e).closing == r.closing
  {
    var after := Requested(r, e.id, e.encodes, e.push).0;
    assert Inv(after) && after.closing == r.closing by { RequestedKeepsInv(r, e.id, e.encodes, e.push); }
    assert Step(r, e) == after;
  }

  lemma StepKeepsInv(r: Registry, e: Event)
    requires Inv(r)
    ensures Inv(Step(r, e))
    ensures Step(r, e).closing <==> r.closing || e.CloseAll?
  {
    if e.RegisterPending? || e.AddConnection? || e.Admit? {
      RegisteringEventsKeepInv(r, e);
    } else if e.CloseOne? || e.CloseTargeted? || e.CloseAll? {
      ClosingEventsKeepInv(r, e);
    } else if e.Remove? || e.Stall? || e.TakeCode? || e.CloseDeadline? {
      RemovingEventsKeepInv(r, e);
    } else if e.Broadcast? || e.Send? {
      SendingEventsKeepInv(r, e);
    } else if e.PeerRequest? {
      PeerRequestKeepsInv(r, e);
    } else if e.PeerReply? {
      ReplyKeepsInv(r, e.id, e.reply);
    } else {
      DeadlineKeepsInv(r, e.request);
    }
  }

  function Run(r: Registry, es: seq<Event>): (e: Registry)
    requires Inv(r)
    ensures Inv(e)
    ensures r.closing ==> e.closing && e.connections == []
  {
    if es == [] then r
    else
      var s := Run(r, es[..|es| - 1]);
      StepKeepsInv(s, es[|es| - 1]);
      Step(s, es[|es| - 1])
  }

  lemma EmptyInv(max: Cap, maxPeers: nat)
    ensures Inv(Empty(max, maxPeers))
  {
  }
}
