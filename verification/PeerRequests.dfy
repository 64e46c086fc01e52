/**
 * Requests the server sends to one connected client and awaits a reply to.
 *
 * The table is nested, connection first and then request, and every request is a promise with
 * a deadline timer. `promises` records what each promise was resolved with, so "settles exactly
 * once" is a statement about the length of a sequence.
 */
module PeerRequests {
  import opened Common

  type ConnId = nat
  type RequestId = nat // the n of the server-issued id `s{n}`
  type Json = string

  datatype Outcome =
    | Success(result: Json)
    | ClientError(error: Json)
    | Timeout
    | ConnectionGone
    | TooManyInFlight

  /** The id a reply carries: none, one the server issued, or any other id a client made up. */
  datatype ReplyId = NoId | ServerId(n: RequestId) | ForeignId(text: string)
  datatype Reply = Reply(id: ReplyId, isError: bool, body: Json)

  datatype PeerPromise = PeerPromise(conn: ConnId, timerArmed: bool, outcomes: seq<Outcome>)

  /** The state of the table. An inner map is its keys in insertion order. */
  datatype Peers = Peers(
    pending: map<ConnId, seq<RequestId>>,
    nextId: nat,
    promises: map<RequestId, PeerPromise>)

  const NO_PEERS := Peers(map[], 0, map[])

  function InFlight(p: Peers, c: ConnId): seq<RequestId> {
    if c in p.pending then p.pending[c] else []
  }

  predicate IsPending(p: Peers, c: ConnId, id: RequestId) {
    c in p.pending && id in p.pending[c]
  }

  function Registered(p: Peers, max: nat, c: ConnId): (Peers, Option<RequestId>) {
    if |InFlight(p, c)| >= max then (p, None)
    else
      var id := p.nextId + 1;
      (Peers(p.pending[c := InFlight(p, c) + [id]], id, p.promises[id := PeerPromise(c, true, [])]), Some(id))
  }

  function WithResolved(promises: map<RequestId, PeerPromise>, id: RequestId,
                        outcome: Outcome): map<RequestId, PeerPromise> {
    if id in promises then
      promises[id := PeerPromise(promises[id].conn, false, promises[id].outcomes + [outcome])]
    else promises
  }

  function Settled(p: Peers, c: ConnId, id: RequestId, outcome: Outcome): Peers {
    if !IsPending(p, c, id) then p
    else
      var rest := Without(p.pending[c], id);
      p.(pending := if rest == [] then p.pending - {c} else p.pending[c := rest],
         promises := WithResolved(p.promises, id, outcome))
  }

  function ReplyOutcome(reply: Reply): Outcome {
    if reply.isError then ClientError(reply.body) else Success(reply.body)
  }

  predicate Answers(p: Peers, c: ConnId, reply: Reply) {
    reply.id.ServerId? && IsPending(p, c, reply.id.n)
  }

  function Resolved(p: Peers, c: ConnId, reply: Reply): Peers {
    if Answers(p, c, reply) then Settled(p, c, reply.id.n, ReplyOutcome(reply)) else p
  }

  function Gone(): (map<RequestId, PeerPromise>, RequestId) -> map<RequestId, PeerPromise> {
    (promises: map<RequestId, PeerPromise>, id: RequestId) => WithResolved(promises, id, ConnectionGone)
  }

  function Drained(p: Peers, c: ConnId): Peers {
    p.(pending := p.pending - {c}, promises := Fold(Gone(), p.promises, InFlight(p, c)))
  }

  /**
   * What every operation keeps. Every id up to `nextId` names one promise; a promise is
   * unresolved exactly while its timer is armed and its id is listed under its own connection,
   * and is otherwise resolved exactly once. No inner map is empty or over the cap.
   */
  ghost predicate Ok(p: Peers, max: nat) {
    && (forall c :: c in p.pending ==> 0 < |p.pending[c]| <= max && Distinct(p.pending[c]))
    && (forall id :: id in p.promises <==> 1 <= id <= p.nextId)
    && (forall c, id :: IsPending(p, c, id) ==>
          id in p.promises && p.promises[id].conn == c && p.promises[id].outcomes == [])
    && (forall id :: id in p.promises ==>
          && (p.promises[id].timerArmed <==> IsPending(p, p.promises[id].conn, id))
          && |p.promises[id].outcomes| == if p.promises[id].timerArmed then 0 else 1)
  }

  lemma RegisteredKeepsOk(p: Peers, max: nat, c: ConnId)
    requires Ok(p, max)
    ensures var (q, id) := Registered(p, max, c);
            && Ok(q, max)
            && (id == None <==> |InFlight(p, c)| >= max)
            && (id.Some? ==> id.value !in p.promises && IsPending(q, c, id.value))
  {
    var (q, id) := Registered(p, max, c);
    if id.Some? {
      assert q.pending[c] == InFlight(p, c) + [id.value];
      assert forall x :: x in InFlight(p, c) ==> IsPending(p, c, x);
      assert id.value !in InFlight(p, c);
      forall d, x | IsPending(q, d, x)
        ensures x in q.promises && q.promises[x].conn == d && q.promises[x].outcomes == []
      {
        assert d != c || x != id.value ==> IsPending(p, d, x);
      }
      forall x | x in q.promises
        ensures q.promises[x].timerArmed <==> IsPending(q, q.promises[x].conn, x)
      {
      }
    }
  }

  lemma SettledKeepsOk(p: Peers, max: nat, c: ConnId, id: RequestId, outcome: Outcome)
    requires Ok(p, max)
    ensures Ok(Settled(p, c, id, outcome), max)
    ensures !IsPending(Settled(p, c, id, outcome), c, id)
    ensures IsPending(p, c, id) ==> Settled(p, c, id, outcome).promises[id].outcomes == [outcome]
    ensures forall d: ConnId, x: RequestId :: d != c || x != id ==>
              (IsPending(Settled(p, c, id, outcome), d, x) <==> IsPending(p, d, x))
  {
    if IsPending(p, c, id) {
      WithoutKeepsDistinct(p.pending[c], id);
      var q := Settled(p, c, id, outcome);
      assert forall d: ConnId, x: RequestId :: IsPending(q, d, x) ==> IsPending(p, d, x) && (d != c || x != id);
      assert forall d: ConnId, x: RequestId :: IsPending(p, d, x) && (d != c || x != id) ==> IsPending(q, d, x);
    }
  }

  lemma {:induction false} AllGoneEffect(promises: map<RequestId, PeerPromise>, ids: seq<RequestId>)
    requires Distinct(ids)
    ensures Fold(Gone(), promises, ids).Keys == promises.Keys
    ensures forall id :: id in promises ==>
              Fold(Gone(), promises, ids)[id] ==
              if id in ids then PeerPromise(promises[id].conn, false, promises[id].outcomes + [ConnectionGone])
              else promises[id]
  {
    if ids != [] {
      var n := |ids| - 1;
      AllGoneEffect(promises, ids[..n]);
      assert ids == ids[..n] + [ids[n]];
      assert ids[n] !in ids[..n];
    }
  }

  /** A closing connection's requests are all settled as gone, and nobody else's are touched. */
  lemma DrainedKeepsOk(p: Peers, max: nat, c: ConnId)
    requires Ok(p, max)
    ensures Ok(Drained(p, c), max)
    ensures c !in Drained(p, c).pending
    ensures forall d :: d != c ==> InFlight(Drained(p, c), d) == InFlight(p, d)
    ensures forall id :: id in p.promises ==>
              Drained(p, c).promises[id].outcomes ==
              p.promises[id].outcomes + if IsPending(p, c, id) then [ConnectionGone] else []
  {
    AllGoneEffect(p.promises, InFlight(p, c));
    var q := Drained(p, c);
    forall id | id in q.promises
      ensures && (q.promises[id].timerArmed <==> IsPending(q, q.promises[id].conn, id))
              && |q.promises[id].outcomes| == if q.promises[id].timerArmed then 0 else 1
    {
      assert id in InFlight(p, c) <==> IsPending(p, c, id);
    }
    forall d, id | IsPending(q, d, id)
      ensures id in q.promises && q.promises[id].conn == d && q.promises[id].outcomes == []
    {
      assert IsPending(p, d, id);
      assert id in InFlight(p, c) ==> IsPending(p, c, id);
    }
  }

  /**
   * A reply arriving on one connection can settle only a request issued on that connection,
   * and one that answers nothing changes nothing.
   */
  lemma ReplyIsIsolated(p: Peers, max: nat, c: ConnId, reply: Reply)
    requires Ok(p, max)
    ensures Ok(Resolved(p, c, reply), max)
    ensures forall d :: d != c ==> InFlight(Resolved(p, c, reply), d) == InFlight(p, d)
    ensures forall id :: id in p.promises && Resolved(p, c, reply).promises[id] != p.promises[id] ==>
              p.promises[id].conn == c && reply.id == ServerId(id) && p.promises[id].outcomes == []
    ensures !Answers(p, c, reply) <==> Resolved(p, c, reply) == p
  {
    if Answers(p, c, reply) {
      SettledKeepsOk(p, max, c, reply.id.n, ReplyOutcome(reply));
    }
  }

  /**
   * A reply settles the request it answers with the reply's own body, as a success or as the
   * client's error. The request's timer is disarmed, and every other request is left as it was.
   */
  lemma ReplySettles(p: Peers, max: nat, c: ConnId, n: RequestId, isError: bool, body: Json)
    requires Ok(p, max) && IsPending(p, c, n)
    ensures var q := Resolved(p, c, Reply(ServerId(n), isError, body));
            && q.promises.Keys == p.promises.Keys && q.nextId == p.nextId
            && q.promises[n] == PeerPromise(c, false, [if isError then ClientError(body) else Success(body)])
            && (forall id :: id in p.promises && id != n ==> q.promises[id] == p.promises[id])
            && !IsPending(q, c, n)
            && forall d, id :: d != c || id != n ==> (IsPending(q, d, id) <==> IsPending(p, d, id))
  {
    var reply := Reply(ServerId(n), isError, body);
    SettledKeepsOk(p, max, c, n, ReplyOutcome(reply));
  }

  /** The table itself, mutated in place. */
  class PendingPeerRequests {
    var pending: map<ConnId, seq<RequestId>>
    var nextId: nat
    const maxInFlight: nat
    ghost var promises: map<RequestId, PeerPromise>

    ghost function Model(): Peers
      reads this
    {
      Peers(pending, nextId, promises)
    }

    constructor (maxInFlight: nat)
      ensures Model() == NO_PEERS
      ensures this.maxInFlight == maxInFlight
    {
      this.maxInFlight := maxInFlight;
      pending, nextId, promises := map[], 0, map[];
    }

    method Register(c: ConnId) returns (id: Option<RequestId>)
      modifies this
      ensures (Model(), id) == Registered(old(Model()), maxInFlight, c)
    {
      var existing := if c in pending then pending[c] else [];
      if |existing| >= maxInFlight {
        return None;
      }
      nextId := nextId + 1;
      promises := promises[nextId := PeerPromise(c, true, [])];
      pending := pending[c := existing + [nextId]];
      return Some(nextId);
    }

    method Settle(c: ConnId, id: RequestId, outcome: Outcome)
      modifies this
      ensures Model() == Settled(old(Model()), c, id, outcome)
    {
      if c !in pending || id !in pending[c] {
        return;
      }
      var rest := Without(pending[c], id);
      if rest == [] {
        pending := pending - {c};
      } else {
        pending := pending[c := rest];
      }
      promises := WithResolved(promises, id, outcome);
    }

    method Resolve(c: ConnId, reply: Reply) returns (matched: bool)
      modifies this
      ensures Model() == Resolved(old(Model()), c, reply)
      ensures matched <==> Answers(old(Model()), c, reply)
    {
      if !reply.id.ServerId? || c !in pending || reply.id.n !in pending[c] {
        return false;
      }
      Settle(c, reply.id.n, ReplyOutcome(reply));
      return true;
    }

    method Drain(c: ConnId)
      modifies this
      ensures Model() == Drained(old(Model()), c)
    {
      if c !in pending {
        assert pending - {c} == pending;
        return;
      }
      var ids := pending[c];
      for i := 0 to |ids|
        invariant pending == old(pending) && nextId == old(nextId)
        invariant promises == Fold(Gone(), old(promises), ids[..i])
      {
        FoldPrefix(Gone(), old(promises), ids, i);
        promises := WithResolved(promises, ids[i], ConnectionGone);
      }
      assert ids[..|ids|] == ids;
      pending := pending - {c};
    }
  }
}
