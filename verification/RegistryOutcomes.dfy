/** What each registry operation does to the map, to the peers awaited, and to the objects around it. */
module RegistryOutcomes {
  import opened Common
  import opened PeerRequests
  import opened RegistryModel
  import opened RegistryProofs
  import opened RegistryRuns

  // ----- Ending connections -----

  /** A connection is ended by aborting its controller, if it has one, and then closing its socket. */
  function CallsToEnd(c: Conn, code: CloseCode, backlog: Backlog): seq<Call> {
    match c.controller
    case Some(controller) => [Abort(controller), CloseSocket(c.id, code, backlog)]
    case None => [CloseSocket(c.id, code, backlog)]
  }

  function CallsToEndAll(cs: seq<Conn>, code: CloseCode, backlog: Backlog): seq<Call> {
    if cs == [] then []
    else CallsToEndAll(cs[..|cs| - 1], code, backlog) + CallsToEnd(cs[|cs| - 1], code, backlog)
  }

  lemma {:induction false} EndCallsAre(cs: seq<Conn>, code: CloseCode, backlog: Backlog)
    ensures EndCalls(cs, code, backlog) == CallsToEndAll(cs, code, backlog)
  {
    if cs != [] { EndCallsAre(cs[..|cs| - 1], code, backlog); }
  }

  /**
   * What ending some of the registered connections leaves: the others, in order; each one's calls, in
   * order; the code noted for the ones that were pending; and every peer request they awaited settled
   * as gone, with nobody else's touched.
   */
  ghost predicate EndsExactly(r: Registry, e: Registry, cs: seq<Conn>, code: CloseCode, backlog: Backlog) {
    && e.connections == Where(r.connections, NotIn(cs))
    && e.calls == r.calls + CallsToEndAll(cs, code, backlog)
    && (forall id :: id in e.closeCodes <==> id in r.closeCodes || HasPending(cs, id))
    && (forall id :: id in e.closeCodes ==> e.closeCodes[id] == if HasPending(cs, id) then code else r.closeCodes[id])
    && (forall id :: InFlight(e.peers, id) == if Has(cs, id) then [] else InFlight(r.peers, id))
    && (forall id :: id in e.closingWriters <==> id in r.closingWriters || Has(cs, id))
    && e.nextId == r.nextId
  }

  /** The ended connections' writers are kept until their closes settle. */
  lemma {:induction false} EndedAllWriters(r: Registry, cs: seq<Conn>, code: CloseCode, backlog: Backlog)
    ensures forall id :: id in EndedAll(r, cs, code, backlog).closingWriters <==> id in r.closingWriters || Has(cs, id)
  {
    if cs != [] {
      var init, last := cs[..|cs| - 1], cs[|cs| - 1];
      EndedAllWriters(r, init, code, backlog);
      HasLast(init, last);
      assert cs == init + [last];
      var before, after := EndedAll(r, init, code, backlog), EndedAll(r, cs, code, backlog);
      assert after.closingWriters == before.closingWriters + {last.id};
    }
  }

  lemma EndedOne(r: Registry, c: Conn, code: CloseCode, backlog: Backlog)
    ensures EndedAll(r, [c], code, backlog) == Ended(r, c, code, backlog)
  {
    var step := EndStep(code, backlog);
    FoldOneMore(step, r, [], c);
    assert [] + [c] == [c];
    assert Fold(step, r, []) == r;
  }

  lemma EndedAllOutcome(r: Registry, cs: seq<Conn>, code: CloseCode, backlog: Backlog)
    requires DistinctIds(r.connections) && Victimable(r.connections, cs) && Ok(r.peers, r.maxPeers)
    ensures EndsExactly(r, EndedAll(r, cs, code, backlog), cs, code, backlog)
  {
    EndedAllConnections(r, cs, code, backlog);
    EndedAllRest(r, cs, code, backlog);
    EndCallsAre(cs, code, backlog);
    EndedAllCodes(r, cs, code, backlog);
    EndedAllPeers(r, cs, code, backlog);
    EndedAllWriters(r, cs, code, backlog);
  }

  lemma WhereOutcome(r: Registry, p: Conn -> bool, code: CloseCode)
    requires DistinctIds(r.connections) && Ok(r.peers, r.maxPeers)
    ensures EndsExactly(r, ClosedWhere(r, p, code), Where(r.connections, p), code, Flush)
  {
    assert Victimable(r.connections, Where(r.connections, p)) by { ClosedWhereEffect(r, p, code); }
    EndedAllOutcome(r, Where(r.connections, p), code, Flush);
  }

  /** A close by target ends exactly the connections it names, with 4006 for a lost role and 4001 for a credential. */
  lemma TargetOutcome(r: Registry, target: CloseTarget)
    requires Inv(r)
    ensures var named := Where(r.connections, NamedBy(target));
            EndsExactly(r, Step(r, CloseTargeted(target)), named, if target.RoleTarget? then 4006 else 4001, Flush)
  {
    var code := if target.RoleTarget? then 4006 else 4001;
    WhereOutcome(r, NamedBy(target), code);
    assert Step(r, CloseTargeted(target)) == ClosedWhere(r, NamedBy(target), code);
  }

  /** A shutdown ends every connection, pending or not, with 1001. */
  lemma ShutdownOutcome(r: Registry)
    requires Inv(r)
    ensures EndsExactly(r, Step(r, CloseAll), r.connections, 1001, Flush) && Step(r, CloseAll).closing
  {
    var s := r.(closing := true);
    WhereAll(r.connections, Everyone());
    ClosedWhereEffect(s, Everyone(), CLOSE_GOING_AWAY);
    EndedAllOutcome(s, r.connections, CLOSE_GOING_AWAY, Flush);
    EndedAllRest(s, r.connections, CLOSE_GOING_AWAY, Flush);
  }

  /** A close of one connection ends it with the given code, and a close of any other id does nothing. */
  lemma CloseOneOutcome(r: Registry, c: Conn, code: CloseCode)
    requires Inv(r)
    ensures c in r.connections ==> EndsExactly(r, Step(r, CloseOne(c.id, code)), [c], code, Flush)
    ensures !Has(r.connections, c.id) ==> Step(r, CloseOne(c.id, code)) == r
  {
    if c in r.connections {
      FindUnique(r.connections, c);
      EndedOne(r, c, code, Flush);
      EndedAllOutcome(r, [c], code, Flush);
    }
  }

  /** Room is made by ending the account's earliest admitted connections, with 4004, and just enough of them. */
  lemma RoomOutcome(r: Registry, account: AccountId)
    requires Inv(r)
    ensures var owned := Where(r.connections, AdmittedOf(account));
            var k := if r.max.Some? && |owned| >= r.max.value then |owned| + 1 - r.max.value else 0;
            k <= |owned| && EndsExactly(r, RoomMade(r, account), owned[..k], 4004, Flush)
  {
    VictimsRegistered(r, account);
    EndedAllOutcome(r, Victims(r, account), CLOSE_CONNECTION_LIMIT, Flush);
  }

  // ----- Registering and admitting -----

  /** A registration is pending at the end of the map under a new id, or closed as born while shutting down. */
  lemma RegisterOutcome(r: Registry, identity: Identity, controller: Option<ControllerId>)
    requires Inv(r)
    ensures var e := Step(r, RegisterPending(identity, controller));
            && e.nextId == r.nextId + 1 && !Has(r.connections, r.nextId) && e.peers == r.peers
            && if r.closing
               then e.connections == r.connections
                    && e.calls == r.calls + (match controller case Some(k) => [Abort(k)] case None => [])
                                  + [CloseBornClosed(r.nextId)]
               else e.connections == r.connections + [Conn(r.nextId, identity, false, controller)] && e.calls == r.calls
  {
  }

  /** An admission flips its own entry, once room has been made for it, and changes nothing else. */
  lemma AdmitOutcome(r: Registry, c: Conn)
    requires Inv(r) && c in r.connections && !c.admitted
    ensures var room, e := RoomMade(r, c.identity.account), Step(r, Admit(c.id));
            && e == room.(connections := e.connections) && |e.connections| == |room.connections|
            && forall i :: 0 <= i < |e.connections| ==>
                 e.connections[i] ==
                 if room.connections[i].id == c.id then c.(admitted := true) else room.connections[i]
  {
    FindUnique(r.connections, c);
    PendingSurvivesRoom(r, c);
    var room := RoomMade(r, c.identity.account);
    forall i | 0 <= i < |room.connections| && room.connections[i].id == c.id
      ensures room.connections[i] == c
    {
      FindUnique(room.connections, room.connections[i]);
    }
  }

  /** Registering in one step admits at once, after room has been made. */
  lemma AddOutcome(r: Registry, identity: Identity, controller: Option<ControllerId>)
    requires Inv(r) && !r.closing
    ensures var room, e := RoomMade(r, identity.account), Step(r, AddConnection(identity, controller));
            && e.connections == room.connections + [Conn(r.nextId, identity, true, controller)]
            && e.calls == room.calls && e.nextId == r.nextId + 1
  {
    RoomMadeKeepsCore(r, identity.account);
  }

  // ----- Leaving without a close -----

  /**
   * A removal forgets the connection and its code, settles what its peer was asked, and closes nothing:
   * it disposes of its writer, and of the one still closing.
   */
  lemma RemoveOutcome(r: Registry, id: ConnId)
    requires Inv(r)
    ensures var e := Step(r, Event.Remove(id));
            && e.connections == Where(r.connections, NotId(id)) && !Has(e.connections, id)
            && e.closeCodes == r.closeCodes - {id} && e.closingWriters == r.closingWriters - {id}
            && InFlight(e.peers, id) == []
            && (forall other :: other != id ==> InFlight(e.peers, other) == InFlight(r.peers, other))
            && e.calls == r.calls + (if Has(r.connections, id) then [Dispose(id)] else [])
                                  + (if id in r.closingWriters then [Dispose(id)] else [])
  {
    DropIn(r.connections, id);
    DrainedKeepsOk(r.peers, r.maxPeers, id);
  }

  /** A stalled connection is forgotten and its controller aborted; the writer has already ended its socket. */
  lemma StallOutcome(r: Registry, c: Conn)
    requires Inv(r) && c in r.connections
    ensures var e := Step(r, Stall(c.id));
            && e.connections == Where(r.connections, NotId(c.id)) && InFlight(e.peers, c.id) == []
            && e.calls == r.calls + (match c.controller case Some(k) => [Abort(k)] case None => [])
            && e.closeCodes == r.closeCodes
  {
    FindUnique(r.connections, c);
    DrainedKeepsOk(r.peers, r.maxPeers, c.id);
  }

  /** A code taken is taken once, and a writer whose close has settled is no longer kept. */
  lemma ForgetOutcome(r: Registry, id: ConnId)
    ensures var e := Step(r, TakeCode(id)); id !in e.closeCodes && e == r.(closeCodes := e.closeCodes)
    ensures forall other :: other in r.closeCodes && other != id ==>
              var codes := Step(r, TakeCode(id)).closeCodes; other in codes && codes[other] == r.closeCodes[other]
    ensures var e := Step(r, CloseDeadline(id)); e == r.(closingWriters := e.closingWriters)
    ensures forall other ::
              other in Step(r, CloseDeadline(id)).closingWriters <==> other in r.closingWriters && other != id
  {
  }

  // ----- Sending -----

  /** A frame is offered to an admitted connection's writer, whose overflow ends it with 4005 and no flush. */
  lemma SendOutcome(r: Registry, c: Conn, push: Push)
    requires Inv(r) && c in r.connections && c.admitted
    ensures var e, offered := Step(r, Send(c.id, push)), r.(calls := r.calls + [Offer(c.id)]);
            if push.Overflow? then EndsExactly(offered, e, [c], 4005, Discard) else e == offered
  {
    FindUnique(r.connections, c);
    if push.Overflow? {
      var offered := r.(calls := r.calls + [Offer(c.id)]);
      EndedOne(offered, c, CLOSE_OUTBOUND_OVERFLOW, Discard);
      EndedAllOutcome(offered, [c], CLOSE_OUTBOUND_OVERFLOW, Discard);
    }
  }

  /** Nothing is sent to a connection pending admission, or to none. */
  lemma UnadmittedSend(r: Registry, id: ConnId, push: Push)
    requires Inv(r) && !IsAdmitted(r, id)
    ensures Step(r, Send(id, push)) == r
  {
  }

  // ----- Peer requests -----

  /**
   * A request to a peer is answered at once when the connection is not admitted or has too many
   * awaited; otherwise it takes a new id, and waits exactly if its frame was encoded and accepted.
   */
  lemma RequestOutcome(r: Registry, id: ConnId, encodes: bool, push: Push)
    requires Inv(r)
    ensures var (e, result) := Requested(r, id, encodes, push);
            if !IsAdmitted(r, id) then e == r && result == Answered(ConnectionGone)
            else if |InFlight(r.peers, id)| >= r.maxPeers then e == r && result == Answered(TooManyInFlight)
            else && result.Awaiting? && result.id == r.peers.nextId + 1 && result.id !in r.peers.promises
                 && result.id in e.peers.promises && e.peers.promises[result.id].conn == id
                 && (IsPending(e.peers, id, result.id) <==> encodes && push.Accepted?)
                 && e.peers.promises[result.id].outcomes == (if encodes && push.Accepted? then [] else [ConnectionGone])
                 && (IsAdmitted(e, id) <==> !(encodes && push.Overflow?))
                 && Offers(e.calls) == Offers(r.calls) + (if encodes then [id] else [])
  {
    if IsAdmitted(r, id) && |InFlight(r.peers, id)| < r.maxPeers {
      var c := Find(r.connections, id).value;
      var (peers, request) := Registered(r.peers, r.maxPeers, id);
      RegisteredKeepsOk(r.peers, r.maxPeers, id);
      SentRequestOutcome(r.(peers := peers), c, request.value, encodes, push);
    }
  }

  predicate SettledAsGone(p: Peers, c: ConnId, id: RequestId) {
    && id in p.promises && p.promises[id].conn == c && p.promises[id].outcomes == [ConnectionGone]
    && !IsPending(p, c, id)
  }

  /** A request that was not sent settles as gone, whether or not its connection's end settled it first. */
  lemma UnsentSettles(p: Peers, max: nat, c: ConnId, id: RequestId)
    requires Ok(p, max) && IsPending(p, c, id)
    ensures SettledAsGone(Settled(p, c, id, ConnectionGone), c, id)
    ensures SettledAsGone(Settled(Drained(p, c), c, id, ConnectionGone), c, id)
  {
    SettledKeepsOk(p, max, c, id, ConnectionGone);
    DrainedKeepsOk(p, max, c);
    AllGoneEffect(p.promises, InFlight(p, c));
  }

  lemma SentRequestOutcome(r: Registry, c: Conn, id: RequestId, encodes: bool, push: Push)
    requires DistinctIds(r.connections) && c in r.connections && c.admitted && Ok(r.peers, r.maxPeers)
    requires IsPending(r.peers, c.id, id)
    ensures var e := RequestSent(r, c, id, encodes, push);
            && id in e.peers.promises && e.peers.promises[id].conn == c.id
            && (IsPending(e.peers, c.id, id) <==> encodes && push.Accepted?)
            && e.peers.promises[id].outcomes == (if encodes && push.Accepted? then [] else [ConnectionGone])
    ensures var e := RequestSent(r, c, id, encodes, push);
            && (IsAdmitted(e, c.id) <==> !(encodes && push.Overflow?))
            && Offers(e.calls) == Offers(r.calls) + (if encodes then [c.id] else [])
  {
    UnsentSettles(r.peers, r.maxPeers, c.id, id);
    assert IsAdmitted(r, c.id) by { FindUnique(r.connections, c); }
    assert !Has(Drop(r.connections, c.id), c.id) by { DropIn(r.connections, c.id); }
    DeliveredOffers(r, c, push);
    assert Offers(r.calls) + [] == Offers(r.calls);
  }

  /** A reply settles the request it answers, from its own connection, and no other reply does anything. */
  lemma AnswerOutcome(r: Registry, c: ConnId, n: RequestId, isError: bool, body: Json)
    requires Ok(r.peers, r.maxPeers)
    ensures var e := Step(r, PeerReply(c, Reply(ServerId(n), isError, body)));
            && e == r.(peers := e.peers) && !IsPending(e.peers, c, n)
            && if IsPending(r.peers, c, n)
               then e.peers.promises[n].outcomes == [if isError then ClientError(body) else Success(body)]
               else e == r
  {
    if IsPending(r.peers, c, n) {
      ReplySettles(r.peers, r.maxPeers, c, n, isError, body);
    }
  }

  /** A deadline that passes settles its request as timed out, and one already settled stays as it is. */
  lemma DeadlineOutcome(r: Registry, n: RequestId)
    requires Ok(r.peers, r.maxPeers) && n in r.peers.promises
    ensures var e, c := Step(r, PeerDeadline(n)), r.peers.promises[n].conn;
            && e == r.(peers := e.peers) && !IsPending(e.peers, c, n)
            && if IsPending(r.peers, c, n) then e.peers.promises[n].outcomes == [Timeout] else e == r
  {
    SettledKeepsOk(r.peers, r.maxPeers, r.peers.promises[n].conn, n, Timeout);
  }
}
