/** What ending connections does to the registry, in closed form, and that it keeps the invariant. */
module RegistryProofs {
  import opened Common
  import opened PeerRequests
  import opened RegistryModel

  // ----- Entries with distinct ids -----

  lemma DropIn(cs: seq<Conn>, id: ConnId)
    ensures forall c :: c in Drop(cs, id) <==> c in cs && c.id != id
  {
    WhereIn(cs, NotId(id));
  }

  lemma {:induction false} WhereKeepsDistinct(cs: seq<Conn>, p: Conn -> bool)
    requires DistinctIds(cs)
    ensures DistinctIds(Where(cs, p))
    ensures |Where(cs, p)| <= |cs|
  {
    if cs != [] {
      var n := |cs| - 1;
      WhereKeepsDistinct(cs[..n], p);
      WhereIn(cs[..n], p);
      assert forall c :: c in cs[..n] ==> c.id != cs[n].id;
    }
  }

  lemma RestIsNotGone(w: seq<Conn>, n: nat, c: Conn)
    requires DistinctIds(w) && n <= |w| && c in w[n..]
    ensures c !in w[..n]
  {
    var j :| 0 <= j < |w| - n && w[n..][j] == c;
    assert w[n + j] == c;
    forall i | 0 <= i < n
      ensures w[..n][i] != c
    {
      assert w[i].id != w[n + j].id;
    }
  }

  lemma RestStays(w: seq<Conn>, n: nat)
    requires DistinctIds(w) && n <= |w|
    ensures Where(w[n..], NotIn(w[..n])) == w[n..]
  {
    forall i | 0 <= i < |w[n..]|
      ensures NotIn(w[..n])(w[n..][i])
    {
      RestIsNotGone(w, n, w[n..][i]);
    }
    WhereAll(w[n..], NotIn(w[..n]));
  }

  lemma PrefixGone(w: seq<Conn>, n: nat)
    requires DistinctIds(w) && n <= |w|
    ensures Where(w, NotIn(w[..n])) == w[n..]
  {
    WhereSplit(w, NotIn(w[..n]), n);
    WhereNone(w[..n], NotIn(w[..n]));
    RestStays(w, n);
  }

  /** Taking the first `n` matches out of the map leaves the other matches, in order. */
  lemma WhereMinusPrefix(cs: seq<Conn>, q: Conn -> bool, n: nat)
    requires DistinctIds(cs) && n <= |Where(cs, q)|
    ensures Where(Where(cs, NotIn(Where(cs, q)[..n])), q) == Where(cs, q)[n..]
  {
    var w := Where(cs, q);
    assert Where(Where(cs, NotIn(w[..n])), q) == Where(w, NotIn(w[..n])) by { WhereCommutes(cs, NotIn(w[..n]), q); }
    assert DistinctIds(w) by { WhereKeepsDistinct(cs, q); }
    PrefixGone(w, n);
  }

  lemma FindUnique(cs: seq<Conn>, c: Conn)
    requires DistinctIds(cs) && c in cs
    ensures Find(cs, c.id) == Some(c)
  {
  }

  lemma HasLast(cs: seq<Conn>, c: Conn)
    ensures forall id :: Has(cs + [c], id) <==> Has(cs, id) || c.id == id
  {
    var all := cs + [c];
    assert forall i :: 0 <= i < |cs| ==> all[i] == cs[i];
    assert all[|cs|] == c;
  }

  lemma HasOnlyFewer(cs: seq<Conn>, p: Conn -> bool)
    ensures forall id :: Has(Where(cs, p), id) ==> Has(cs, id)
  {
    WhereIn(cs, p);
    forall id | Has(Where(cs, p), id)
      ensures Has(cs, id)
    {
      var i :| 0 <= i < |Where(cs, p)| && Where(cs, p)[i].id == id;
      assert Where(cs, p)[i] in cs;
    }
  }

  // ----- Ending connections -----

  function EndCalls(vs: seq<Conn>, code: CloseCode, backlog: Backlog): seq<Call> {
    if vs == [] then []
    else
      var c := vs[|vs| - 1];
      EndCalls(vs[..|vs| - 1], code, backlog) + (AbortCall(c.controller) + [CloseSocket(c.id, code, backlog)])
  }

  ghost predicate Victimable(cs: seq<Conn>, vs: seq<Conn>) {
    DistinctIds(vs) && forall c :: c in vs ==> c in cs
  }

  lemma DropOneMore(cs: seq<Conn>, vs: seq<Conn>, v: Conn)
    requires DistinctIds(cs) && v in cs
    ensures Drop(Where(cs, NotIn(vs)), v.id) == Where(cs, NotIn(vs + [v]))
  {
    WhereWhere(cs, NotIn(vs), NotId(v.id));
    forall i | 0 <= i < |cs|
      ensures Both(NotIn(vs), NotId(v.id))(cs[i]) == NotIn(vs + [v])(cs[i])
    {
      assert cs[i] in vs + [v] <==> cs[i] in vs || cs[i] == v;
    }
    WhereAgree(cs, Both(NotIn(vs), NotId(v.id)), NotIn(vs + [v]));
  }

  /** Exactly the connections named leave the map; the others keep their order. */
  lemma {:induction false} EndedAllConnections(r: Registry, vs: seq<Conn>, code: CloseCode, backlog: Backlog)
    requires DistinctIds(r.connections) && Victimable(r.connections, vs)
    ensures EndedAll(r, vs, code, backlog).connections == Where(r.connections, NotIn(vs))
  {
    if vs == [] {
      WhereAll(r.connections, NotIn(vs));
    } else {
      var init, v := vs[..|vs| - 1], vs[|vs| - 1];
      assert Victimable(r.connections, init);
      assert EndedAll(r, init, code, backlog).connections == Where(r.connections, NotIn(init)) by {
        EndedAllConnections(r, init, code, backlog);
      }
      assert EndedAll(r, vs, code, backlog).connections == Drop(EndedAll(r, init, code, backlog).connections, v.id);
      assert Drop(Where(r.connections, NotIn(init)), v.id) == Where(r.connections, NotIn(init + [v])) by {
        DropOneMore(r.connections, init, v);
      }
      assert vs == init + [v];
    }
  }

  /** Each controller is aborted just before its own socket's close, in the order given. */
  lemma {:induction false} EndedAllRest(r: Registry, vs: seq<Conn>, code: CloseCode, backlog: Backlog)
    ensures var e := EndedAll(r, vs, code, backlog);
            && e.calls == r.calls + EndCalls(vs, code, backlog)
            && e.max == r.max && e.maxPeers == r.maxPeers && e.closing == r.closing && e.nextId == r.nextId
  {
    if vs != [] {
      var init, v := vs[..|vs| - 1], vs[|vs| - 1];
      EndedAllRest(r, init, code, backlog);
      var before := EndedAll(r, init, code, backlog);
      assert EndedAll(r, vs, code, backlog).calls ==
             before.calls + (AbortCall(v.controller) + [CloseSocket(v.id, code, backlog)]);
    }
  }

  predicate HasPending(cs: seq<Conn>, id: ConnId) {
    exists i :: 0 <= i < |cs| && cs[i].id == id && !cs[i].admitted
  }

  lemma HasPendingLast(cs: seq<Conn>, c: Conn)
    ensures forall id :: HasPending(cs + [c], id) <==> HasPending(cs, id) || (c.id == id && !c.admitted)
  {
    var all := cs + [c];
    assert forall i :: 0 <= i < |cs| ==> all[i] == cs[i];
    assert all[|cs|] == c;
  }

  /** A close code is recorded for exactly the connections that were still pending. */
  lemma {:induction false} EndedAllCodes(r: Registry, vs: seq<Conn>, code: CloseCode, backlog: Backlog)
    ensures var codes := EndedAll(r, vs, code, backlog).closeCodes;
            forall id ::
              && (id in codes <==> id in r.closeCodes || HasPending(vs, id))
              && (id in codes ==> codes[id] == if HasPending(vs, id) then code else r.closeCodes[id])
  {
    if vs != [] {
      var init, v := vs[..|vs| - 1], vs[|vs| - 1];
      EndedAllCodes(r, init, code, backlog);
      HasPendingLast(init, v);
      assert vs == init + [v];
    }
  }

  /** Every promise of an ended connection resolves, and no other connection's do. */
  lemma {:induction false} EndedAllPeers(r: Registry, vs: seq<Conn>, code: CloseCode, backlog: Backlog)
    requires Ok(r.peers, r.maxPeers)
    ensures var e := EndedAll(r, vs, code, backlog);
            && Ok(e.peers, r.maxPeers)
            && forall id :: InFlight(e.peers, id) == if Has(vs, id) then [] else InFlight(r.peers, id)
  {
    if vs != [] {
      var init, v := vs[..|vs| - 1], vs[|vs| - 1];
      EndedAllPeers(r, init, code, backlog);
      DrainedKeepsOk(EndedAll(r, init, code, backlog).peers, r.maxPeers, v.id);
      HasLast(init, v);
      assert vs == init + [v];
    }
  }

  // ----- The invariant, without what a shutdown adds -----

  ghost predicate Core(r: Registry) {
    WellFormed(r) && PeersOwned(r) && WithinCap(r) && ClosedOnce(r)
  }

  lemma CleanedKeepsPeers(r: Registry, id: ConnId)
    requires DistinctIds(r.connections) && PeersOwned(r)
    ensures PeersOwned(Cleaned(r, id))
  {
    var e := Cleaned(r, id);
    DrainedKeepsOk(r.peers, r.maxPeers, id);
    assert DistinctIds(e.connections) by { WhereKeepsDistinct(r.connections, NotId(id)); }
    forall c | c in e.peers.pending
      ensures IsAdmitted(e, c)
    {
      var found := Find(r.connections, c).value;
      DropIn(r.connections, id);
      FindUnique(e.connections, found);
    }
  }

  lemma DropKeepsCap(r: Registry, id: ConnId)
    requires DistinctIds(r.connections) && WithinCap(r)
    ensures WithinCap(Cleaned(r, id))
  {
    forall account
      ensures |Where(Drop(r.connections, id), AdmittedOf(account))| <= |Where(r.connections, AdmittedOf(account))|
    {
      WhereCommutes(r.connections, NotId(id), AdmittedOf(account));
      WhereKeepsDistinct(r.connections, AdmittedOf(account));
      WhereKeepsDistinct(Where(r.connections, AdmittedOf(account)), NotId(id));
    }
  }

  lemma DropKeepsIds(cs: seq<Conn>, id: ConnId)
    requires DistinctIds(cs)
    ensures DistinctIds(Drop(cs, id)) && !Has(Drop(cs, id), id)
    ensures forall x :: Has(Drop(cs, id), x) ==> Has(cs, x)
  {
    WhereKeepsDistinct(cs, NotId(id));
    HasOnlyFewer(cs, NotId(id));
    DropIn(cs, id);
    assert Has(Drop(cs, id), id) ==> exists c :: c in Drop(cs, id) && c.id == id;
  }

  lemma CleanedKeeps(r: Registry, id: ConnId)
    requires WellFormed(r) && PeersOwned(r) && WithinCap(r)
    ensures var e := Cleaned(r, id);
            WellFormed(e) && PeersOwned(e) && WithinCap(e) && !Has(e.connections, id)
    ensures forall x :: Has(Cleaned(r, id).connections, x) ==> Has(r.connections, x)
  {
    CleanedKeepsPeers(r, id);
    DropKeepsCap(r, id);
    assert WellFormed(Cleaned(r, id)) by {
      DropKeepsIds(r.connections, id);
      DropIn(r.connections, id);
    }
    DropKeepsIds(r.connections, id);
  }

  lemma EndedClosesOnce(r: Registry, c: Conn, code: CloseCode, backlog: Backlog)
    requires WellFormed(r) && ClosedOnce(r) && c in r.connections
    ensures ClosedOnce(Ended(r, c, code, backlog))
  {
    var e := Ended(r, c, code, backlog);
    DropKeepsIds(r.connections, c.id);
    var n := |r.calls|;
    assert forall i :: 0 <= i < n ==> e.calls[i] == r.calls[i];
    assert forall i :: n <= i < |e.calls| && e.calls[i].CloseSocket? ==> i == |e.calls| - 1 && e.calls[i].conn == c.id;
    assert Has(r.connections, c.id);
  }

  lemma EndedWellFormed(r: Registry, c: Conn, code: CloseCode, backlog: Backlog)
    requires WellFormed(r) && c in r.connections
    ensures WellFormed(Ended(r, c, code, backlog))
  {
    var e := Ended(r, c, code, backlog);
    assert e.connections == Drop(r.connections, c.id);
    DropKeepsIds(r.connections, c.id);
    assert forall x :: x in e.connections ==> x.id < e.nextId by { DropIn(r.connections, c.id); }
  }

  lemma EndedKeepsCore(r: Registry, c: Conn, code: CloseCode, backlog: Backlog)
    requires Core(r) && c in r.connections
    ensures Core(Ended(r, c, code, backlog))
  {
    var e := Ended(r, c, code, backlog);
    assert ClosedOnce(e) by { EndedClosesOnce(r, c, code, backlog); }
    assert PeersOwned(e) by { CleanedKeepsPeers(r, c.id); }
    assert WithinCap(e) by { assert WithinCap(Cleaned(r, c.id)) by { DropKeepsCap(r, c.id); } }
    assert WellFormed(e) by { EndedWellFormed(r, c, code, backlog); }
  }

  lemma {:induction false} EndedAllKeepsCore(r: Registry, vs: seq<Conn>, code: CloseCode, backlog: Backlog)
    requires Core(r) && Victimable(r.connections, vs)
    ensures Core(EndedAll(r, vs, code, backlog))
  {
    if vs != [] {
      var init, v := vs[..|vs| - 1], vs[|vs| - 1];
      EndedAllKeepsCore(r, init, code, backlog);
      assert v in EndedAll(r, init, code, backlog).connections by {
        EndedAllConnections(r, init, code, backlog);
        WhereIn(r.connections, NotIn(init));
      }
      EndedKeepsCore(EndedAll(r, init, code, backlog), v, code, backlog);
    }
  }
}
