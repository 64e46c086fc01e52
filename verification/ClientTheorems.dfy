/** What the client promises over whole runs. */
module ClientTheorems {
  import opened Common
  import opened ClientModel
  import opened ClientRuns

  /** One event and the time it happens at. */
  datatype Timed = Timed(now: int, event: Event)

  function RunOf(config: Config, policy: Policy, es: seq<Timed>): Client
    requires IsRun(config, policy, es)
    decreases |es|, 1
  {
    if es == [] then NewClient(policy, 0)
    else Step(RunOf(config, policy, es[..|es| - 1]), config, es[|es| - 1].now, es[|es| - 1].event)
  }

  predicate IsRun(config: Config, policy: Policy, es: seq<Timed>)
    decreases |es|, 0
  {
    es != [] ==>
      IsRun(config, policy, es[..|es| - 1]) && Possible(RunOf(config, policy, es[..|es| - 1]), es[|es| - 1].event)
  }

  lemma {:induction false} RunKeepsInv(config: Config, policy: Policy, es: seq<Timed>)
    requires IsRun(config, policy, es)
    ensures Inv(RunOf(config, policy, es), config)
  {
    if es != [] {
      RunKeepsInv(config, policy, es[..|es| - 1]);
      StepKeepsInv(RunOf(config, policy, es[..|es| - 1]), config, es[|es| - 1].now, es[|es| - 1].event);
    } else {
      assert IdsOf([]) == [];
    }
  }


  /** At every event boundary a request is in flight, queued or settled: exactly one of them, and once. */
  lemma RequestConservation(config: Config, policy: Policy, es: seq<Timed>, id: Id)
    requires IsRun(config, policy, es) && id in RunOf(config, policy, es).made
    ensures var c := RunOf(config, policy, es);
            && (if Has(c.pending, id) then 1 else 0) + (if Has(c.queue, id) then 1 else 0)
               + multiset(SettledIds(c.settled))[id] == 1
            && (c.revoked ==> id in SettledIds(c.settled))
  {
    RunKeepsInv(config, policy, es);
    var c := RunOf(config, policy, es);
    OneOfThree(c, [], id);
    HasIsCounted(c.pending, id);
    HasIsCounted(c.queue, id);
    assert IdsOf([]) == [];
    assert id in multiset(c.made);
  }

  /**
   * A frame is written at most once; what is pending has been written, what is queued has not, and
   * a cancel on the wire follows the request it cancels.
   */
  lemma WireDiscipline(config: Config, policy: Policy, es: seq<Timed>)
    requires IsRun(config, policy, es)
    ensures var c := RunOf(config, policy, es);
            && (forall i, j :: 0 <= i < j < |c.wire| && c.wire[i].RequestFrame? ==> c.wire[i] != c.wire[j])
            && (forall j :: 0 <= j < |c.wire| && c.wire[j].CancelFrame? ==> Written(c.wire, j, c.wire[j].of))
            && (forall e :: e in c.pending ==> RequestFrame(e.id) in c.wire)
            && (forall e :: e in c.queue ==> RequestFrame(e.id) !in c.wire)
            && |c.queue| <= config.queueMax && InCallOrder(c.queue)
  {
    RunKeepsInv(config, policy, es);
  }

  /** An abort settles the request; `cancel` goes out exactly when its frame was in flight and the socket takes it. */
  lemma AbortCancelsInFlight(c: Client, config: Config, id: Id, sends: bool)
    requires Inv(c, config) && (Has(c.pending, id) || Has(c.queue, id))
    ensures var t := Aborted(c, id, sends);
            && t.settled == c.settled + [Settlement(id, Rejected(RequestCancelled))]
            && !Has(t.pending, id) && !Has(t.queue, id)
            && t.wire == c.wire +
               if RequestFrame(id) in c.wire && IsConnected(c) && sends then [CancelFrame(id)] else []
  {
    GoneAfterRemove(c.pending, id);
    GoneAfterRemove(c.queue, id);
    if Has(c.pending, id) {
      var i :| 0 <= i < |c.pending| && c.pending[i].id == id;
      assert c.pending[i] in c.pending;
      assert RequestFrame(id) in c.wire;
    } else {
      var i :| 0 <= i < |c.queue| && c.queue[i].id == id;
      assert c.queue[i] in c.queue;
      assert RequestFrame(id) !in c.wire;
    }
  }

  lemma GoneAfterRemove(es: seq<Entry>, id: Id)
    ensures !Has(Remove(es, id), id)
  {
    WhereIn(es, OtherThan(id));
    var rest := Remove(es, id);
    assert forall i :: 0 <= i < |rest| ==> rest[i] in rest;
  }

  function Frames(es: seq<Entry>, aborted: set<Id>, sends: Id -> bool): seq<Wire> {
    if es == [] then []
    else
      var e := es[|es| - 1];
      Frames(es[..|es| - 1], aborted, sends)
      + if !(e.hasSignal && e.id in aborted) && sends(e.id) then [RequestFrame(e.id)] else []
  }

  lemma {:induction false} FlushWrites(c: Client, es: seq<Entry>, aborted: set<Id>, sends: Id -> bool)
    ensures FlushedAll(c, es, aborted, sends).wire == c.wire + Frames(es, aborted, sends)
  {
    if es != [] {
      FlushWrites(c, es[..|es| - 1], aborted, sends);
      assert c.wire + Frames(es[..|es| - 1], aborted, sends) + [] == c.wire + Frames(es[..|es| - 1], aborted, sends);
    }
  }

  lemma {:induction false} AllWritten(es: seq<Entry>, sends: Id -> bool)
    requires forall id :: sends(id)
    ensures |Frames(es, {}, sends)| == |es|
    ensures forall i :: 0 <= i < |es| ==> Frames(es, {}, sends)[i] == RequestFrame(es[i].id)
  {
    if es != [] { AllWritten(es[..|es| - 1], sends); }
  }

  /**
   * On open the queue empties, and its requests go onto the wire in the order their calls were made -
   * each but those whose signal has aborted and those the socket does not take.
   */
  lemma OpenFlushesInCallOrder(c: Client, config: Config, aborted: set<Id>, sends: Id -> bool)
    requires Inv(c, config) && c.ws == Some(NotYetOpen)
    ensures var t := Opened(c, aborted, sends);
            && t.wire == c.wire + Frames(c.queue, aborted, sends) && t.queue == [] && InCallOrder(c.queue)
  {
    var open := TimerCancelled(CountersReset(c.(status := Connected, ws := Some(IsOpen)))).(queue := []);
    assert Opened(c, aborted, sends) == FlushedAll(open, c.queue, aborted, sends);
    FlushedControls(open, c.queue, aborted, sends);
    FlushWrites(open, c.queue, aborted, sends);
  }

  /** So an open socket that takes them all gets every request queued, in call order. */
  lemma OpenFlushesAll(c: Client, config: Config, sends: Id -> bool)
    requires Inv(c, config) && c.ws == Some(NotYetOpen) && forall id :: sends(id)
    ensures var t := Opened(c, {}, sends);
            && |t.wire| == |c.wire| + |c.queue| && InCallOrder(c.queue)
            && forall i :: 0 <= i < |c.queue| ==> t.wire[|c.wire| + i] == RequestFrame(c.queue[i].id)
  {
    OpenFlushesInCallOrder(c, config, {}, sends);
    AllWritten(c.queue, sends);
    var t, fs := Opened(c, {}, sends), Frames(c.queue, {}, sends);
    assert t.wire == c.wire + fs;
    forall i | 0 <= i < |c.queue|
      ensures t.wire[|c.wire| + i] == RequestFrame(c.queue[i].id)
    {
      assert t.wire[|c.wire| + i] == fs[i];
    }
  }

  // ----- The lifecycle -----

  lemma Lifecycle(config: Config, policy: Policy, es: seq<Timed>)
    requires IsRun(config, policy, es)
    ensures LifeOk(RunOf(config, policy, es))
  {
    RunKeepsInv(config, policy, es);
  }

  lemma RevokedStays(c: Client, config: Config, now: int, e: Event)
    requires Inv(c, config) && Possible(c, e) && c.revoked
    ensures var t := Step(c, config, now, e);
            && t.revoked && t.status.Closed? && t.timer.None? && t.ws.None? && t.pending == [] && t.queue == []
            && t.made == c.made && t.wire == c.wire
  {
    StepKeepsInv(c, config, now, e);
    var t := At(c, now);
    assert t.queue == [] && t.pending == [] && t.ws.None? && t.timer.None?;
  }

  lemma RunGrows(config: Config, policy: Policy, es: seq<Timed>, more: seq<Timed>)
    requires IsRun(config, policy, es + more) && more != []
    ensures var before := es + more[..|more| - 1];
            && IsRun(config, policy, before)
            && Possible(RunOf(config, policy, before), more[|more| - 1].event)
            && RunOf(config, policy, es + more) ==
               Step(RunOf(config, policy, before), config, more[|more| - 1].now, more[|more| - 1].event)
  {
    assert (es + more)[..|es + more| - 1] == es + more[..|more| - 1];
  }

  /** Revocation is for good: whatever is called ever after, nothing reconnects, queues, waits or is written. */
  lemma {:induction false} RevokedIsAbsorbing(config: Config, policy: Policy, es: seq<Timed>, more: seq<Timed>)
    requires IsRun(config, policy, es) && IsRun(config, policy, es + more) && RunOf(config, policy, es).revoked
    ensures var c, t := RunOf(config, policy, es), RunOf(config, policy, es + more);
            && t.revoked && t.status.Closed? && t.timer.None? && t.ws.None? && t.pending == [] && t.queue == []
            && t.made == c.made && t.wire == c.wire
  {
    if more == [] {
      assert es + more == es;
      RunKeepsInv(config, policy, es);
    } else {
      var before := es + more[..|more| - 1];
      RunGrows(config, policy, es, more);
      RevokedIsAbsorbing(config, policy, es, more[..|more| - 1]);
      RunKeepsInv(config, policy, before);
      RevokedStays(RunOf(config, policy, before), config, more[|more| - 1].now, more[|more| - 1].event);
    }
  }

  lemma SupersededStays(c: Client, config: Config, now: int, e: Event)
    requires Inv(c, config) && Possible(c, e) && c.superseded && !e.Connect?
    ensures var t := Step(c, config, now, e);
            t.superseded && t.status.Closed? && t.timer.None? && t.ws.None?
  {
    StepKeepsInv(c, config, now, e);
  }

  /** A superseded client stays closed, with no timer, however long `connect` is not called. */
  lemma {:induction false} SupersededWaitsForConnect(config: Config, policy: Policy, es: seq<Timed>, more: seq<Timed>)
    requires IsRun(config, policy, es) && IsRun(config, policy, es + more) && RunOf(config, policy, es).superseded
    requires forall i :: 0 <= i < |more| ==> !more[i].event.Connect?
    ensures var t := RunOf(config, policy, es + more);
            t.superseded && t.status.Closed? && t.timer.None? && t.ws.None?
  {
    if more == [] {
      assert es + more == es;
      RunKeepsInv(config, policy, es);
    } else {
      var before := es + more[..|more| - 1];
      RunGrows(config, policy, es, more);
      SupersededWaitsForConnect(config, policy, es, more[..|more| - 1]);
      RunKeepsInv(config, policy, before);
      SupersededStays(RunOf(config, policy, before), config, more[|more| - 1].now, more[|more| - 1].event);
    }
  }

  /** No policy change makes a scheduled attempt fire later. */
  lemma SetReconnectNeverLater(config: Config, policy: Policy, es: seq<Timed>, now: int, next: Policy)
    requires IsRun(config, policy, es)
    ensures var c := RunOf(config, policy, es);
            var t := Step(c, config, now, SetReconnect(next));
            && (t.timer.Some? ==> c.timer.Some? && t.timer.value <= c.timer.value)
            && (c.timer.Some? && t.timer.None? ==> !next.auto && t.status.Closed?)
  {
    RunKeepsInv(config, policy, es);
    var c := RunOf(config, policy, es);
    ClockKeepsInv(c, config, now);
    PolicyKeepsInv(At(c, now), config, next);
  }
}
