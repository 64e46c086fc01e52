/** What one socket promises, whatever its adapter, its handlers and the registry do. */
module SessionTheorems {
  import opened Common
  import opened SessionModel
  import opened SessionRuns
  import opened SessionRecords

  function RunOf(limits: Limits, es: seq<Event>): Session
    requires IsRun(limits, es)
    decreases |es|, 1
  {
    if es == [] then NEW_SESSION else Step(RunOf(limits, es[..|es| - 1]), limits, es[|es| - 1])
  }

  predicate IsRun(limits: Limits, es: seq<Event>)
    decreases |es|, 0
  {
    es != [] ==> IsRun(limits, es[..|es| - 1]) && Possible(RunOf(limits, es[..|es| - 1]), es[|es| - 1])
  }

  lemma {:induction false} RunKeepsInv(limits: Limits, es: seq<Event>)
    requires IsRun(limits, es)
    ensures Inv(RunOf(limits, es), limits)
  {
    if es != [] {
      RunKeepsInv(limits, es[..|es| - 1]);
      StepKeepsInv(RunOf(limits, es[..|es| - 1]), limits, es[|es| - 1]);
    } else {
      assert Ids([]) == [];
    }
  }

  /**
   * A frame starts only after the admission and the open hook have completed and before the socket
   * ends, frames start in the order they arrived, and nothing is answered on an ended socket.
   */
  lemma DispatchOnlyWhileOpen(limits: Limits, es: seq<Event>, i: nat, f: FrameId)
    requires IsRun(limits, es) && i < |RunOf(limits, es).log|
    ensures var log := RunOf(limits, es).log;
            && (log[i] == Start(f) ==> Before(log, i, Opened) && Before(log, i, Admission) && !Before(log, i, End))
            && (log[i] == Start(f) ==> forall j :: 0 <= j < i && log[j].Start? ==> log[j].frame < f)
            && (log[i] == Reply(f) ==> !Before(log, i, End))
  {
    RunKeepsInv(limits, es);
    var log := RunOf(limits, es).log;
    if log[i] == Start(f) {
      var j :| 0 <= j < i && log[j] == Opened;
      assert Before(log, j, Admission);
    }
  }

  /** Each promise handed out is outstanding or has settled, once; an ended socket leaves none queued. */
  lemma PromisesSettleOnce(limits: Limits, es: seq<Event>, f: FrameId)
    requires IsRun(limits, es) && f in RunOf(limits, es).promised
    ensures var s := RunOf(limits, es);
            && multiset(s.settled)[f] == (if f in Ids(s.queue) || f in s.work then 0 else 1)
            && (s.phase.Ended? ==> f in s.work || f in s.settled)
            && !(f in Ids(s.queue) && f in s.work)
  {
    RunKeepsInv(limits, es);
    var s := RunOf(limits, es);
    DistinctOnce(s.promised, f);
    assert multiset(s.promised)[f] ==
      multiset(Ids(s.queue))[f] + multiset(Ids([]))[f] + multiset(s.work.Keys)[f] + multiset(s.settled)[f];
    assert Ids([]) == [];
  }

  /** The queue before opening is bounded by count and bytes, and the live requests by the ceiling. */
  lemma Bounded(limits: Limits, es: seq<Event>)
    requires IsRun(limits, es)
    ensures var s := RunOf(limits, es);
            && |s.queue| <= MAX_PRE_ADMISSION_FRAMES && (s.queue != [] ==> Bytes(s.queue) <= limits.queueMaxBytes)
            && |s.live| <= MAX_INBOUND_DISPATCHES
            && (forall id :: id in s.live ==> s.live[id] in s.work && s.work[s.live[id]] == Running(id))
            && (forall f, g :: f in s.work && g in s.work && s.work[f].Running? && s.work[f] == s.work[g] ==> f == g)
  {
    RunKeepsInv(limits, es);
  }

  // ----- Requests over a run -----

  lemma {:induction false} RunKeepsRecord(limits: Limits, es: seq<Event>)
    requires IsRun(limits, es)
    ensures Recorded(RunOf(limits, es))
  {
    if es != [] {
      RunKeepsRecord(limits, es[..|es| - 1]);
      RunKeepsInv(limits, es[..|es| - 1]);
      StepKeepsRecord(RunOf(limits, es[..|es| - 1]), limits, es[|es| - 1]);
    }
  }

  predicate Returned(es: seq<Event>, f: FrameId) {
    exists i :: 0 <= i < |es| && es[i].HandlerReturns? && es[i].frame == f
  }

  lemma ReturnedOneMore(es: seq<Event>, f: FrameId)
    requires es != []
    ensures Returned(es, f) <==>
              Returned(es[..|es| - 1], f) || (es[|es| - 1].HandlerReturns? && es[|es| - 1].frame == f)
  {
    var n := |es| - 1;
    assert forall i :: 0 <= i < n ==> es[..n][i] == es[i];
  }

  predicate RunsOn(s: Session, t: Session, e: Event, f: FrameId) {
    && Start(f) in t.log
    && (IsRunning(t, f) <==> IsRunning(s, f) && !(e.HandlerReturns? && e.frame == f))
    && (IsRunning(t, f) ==> t.work[f] == s.work[f])
  }

  lemma RunGrows(limits: Limits, es: seq<Event>, more: seq<Event>)
    requires IsRun(limits, es + more) && more != []
    ensures var before, e := es + more[..|more| - 1], more[|more| - 1];
            && es + more == before + [e]
            && IsRun(limits, before) && Possible(RunOf(limits, before), e)
            && RunOf(limits, es + more) == Step(RunOf(limits, before), limits, e)
  {
    assert (es + more)[..|es + more| - 1] == es + more[..|more| - 1];
  }

  lemma LastRuns(limits: Limits, before: seq<Event>, e: Event, f: FrameId)
    requires IsRun(limits, before) && Possible(RunOf(limits, before), e) && Start(f) in RunOf(limits, before).log
    ensures RunsOn(RunOf(limits, before), Step(RunOf(limits, before), limits, e), e, f)
  {
    RunKeepsInv(limits, before);
    StepRunning(RunOf(limits, before), limits, e, f);
  }

  /** A running handler runs on, whatever else happens, until it returns - and never again. */
  lemma {:induction false} RunningUntilReturn(limits: Limits, es: seq<Event>, more: seq<Event>, f: FrameId)
    requires IsRun(limits, es) && IsRun(limits, es + more) && IsRunning(RunOf(limits, es), f)
    ensures var s, t := RunOf(limits, es), RunOf(limits, es + more);
            && Start(f) in t.log && (IsRunning(t, f) <==> !Returned(more, f))
            && (IsRunning(t, f) ==> t.work[f] == s.work[f])
  {
    if more == [] {
      assert es + more == es;
      assert Start(f) in RunOf(limits, es).log by { RunKeepsRecord(limits, es); }
    } else {
      var n := |more| - 1;
      var before := es + more[..n];
      RunGrows(limits, es, more);
      RunningUntilReturn(limits, es, more[..n], f);
      ReturnedOneMore(more, f);
      LastRuns(limits, before, more[n], f);
    }
  }

  lemma StepRunning(s: Session, limits: Limits, e: Event, f: FrameId)
    requires Inv(s, limits) && Possible(s, e) && Start(f) in s.log
    ensures RunsOn(s, Step(s, limits, e), e, f)
  {
    if !(e.HandlerReturns? && e.frame == f) && !(e.Completes? && e.done == f) {
      StepElsewhere(s, limits, e, f);
    }
  }

  /**
   * From its dispatch on an id stays taken by its request, through cancels, duplicates and the
   * socket's own end, exactly until its handler returns.
   */
  lemma AnsweringFreesTheId(limits: Limits, es: seq<Event>, more: seq<Event>, id: RequestId)
    requires IsRun(limits, es) && IsRun(limits, es + more) && id in RunOf(limits, es).live
    ensures var s, t := RunOf(limits, es), RunOf(limits, es + more);
            (id in t.live && t.live[id] == s.live[id]) <==> !Returned(more, s.live[id])
  {
    RunKeepsInv(limits, es);
    RunKeepsInv(limits, es + more);
    var s := RunOf(limits, es);
    assert s.work[s.live[id]] == Running(id);
    RunningUntilReturn(limits, es, more, s.live[id]);
  }

  lemma OneMore(limits: Limits, es: seq<Event>, e: Event)
    requires IsRun(limits, es + [e])
    ensures IsRun(limits, es) && Possible(RunOf(limits, es), e)
    ensures RunOf(limits, es + [e]) == Step(RunOf(limits, es), limits, e)
  {
    assert (es + [e])[..|es + [e]| - 1] == es;
  }

  /**
   * In any run a request message takes an id exactly when it finds it free, the ceiling not reached
   * and the socket open and held; otherwise nothing is dispatched and nothing live is disturbed.
   */
  lemma RefusedRequests(limits: Limits, es: seq<Event>, bytes: nat, id: RequestId, known: bool, overflows: bool)
    requires IsRun(limits, es + [Message(bytes, Request(id, known), false, overflows)])
    requires IsRun(limits, es)
    ensures var s, t := RunOf(limits, es), RunOf(limits, es + [Message(bytes, Request(id, known), false, overflows)]);
            var takes := DispatchesNow(s, false) && known && id !in s.live && |s.live| < MAX_INBOUND_DISPATCHES;
            && t.live == (if takes then s.live[id := s.nextFrame] else s.live)
            && (IsRunning(t, s.nextFrame) <==> takes)
            && forall g :: g in s.work ==> g in t.work && t.work[g] == s.work[g]
  {
    OneMore(limits, es, Message(bytes, Request(id, known), false, overflows));
    MessageEffect(RunOf(limits, es), limits, bytes, Request(id, known), false, overflows);
    assert RunOf(limits, es).nextFrame !in RunOf(limits, es).work by {
      RunKeepsInv(limits, es);
      NextIsNew(RunOf(limits, es));
    }
  }

  /** So a second request under a live id is refused however long the first runs. */
  lemma DuplicatesAreRefused(limits: Limits, es: seq<Event>, more: seq<Event>, bytes: nat, id: RequestId, known: bool,
                             overflows: bool)
    requires IsRun(limits, es) && IsRun(limits, es + more)
    requires IsRun(limits, es + more + [Message(bytes, Request(id, known), false, overflows)])
    requires id in RunOf(limits, es).live && !Returned(more, RunOf(limits, es).live[id])
    ensures var s := RunOf(limits, es + more);
            var t := RunOf(limits, es + more + [Message(bytes, Request(id, known), false, overflows)]);
            !IsRunning(t, s.nextFrame) && t.live == s.live && id in t.live && t.live[id] == RunOf(limits, es).live[id]
  {
    AnsweringFreesTheId(limits, es, more, id);
    RefusedRequests(limits, es + more, bytes, id, known, overflows);
  }

  /**
   * In any run, whatever is newly cancelled is a handler running then and after - never one that has
   * returned, or a later one under its id. A message cancels only the handler whose id it names, and
   * does so whenever that one is live on an open, held socket.
   */
  lemma CancelIsScoped(limits: Limits, es: seq<Event>, e: Event, g: FrameId)
    requires IsRun(limits, es) && IsRun(limits, es + [e]) && g !in RunOf(limits, es).cancelled
    ensures var s, t := RunOf(limits, es), RunOf(limits, es + [e]);
            && (g in t.cancelled ==> IsRunning(t, g))
            && (g in t.cancelled && e.Message? ==> IsRunning(s, g) && e.content == Cancel(s.work[g].request))
            && (e.Message? && DispatchesNow(s, e.tooBig) ==>
                  (IsRunning(s, g) && e.content == Cancel(s.work[g].request) ==> g in t.cancelled))
  {
    OneMore(limits, es, e);
    RunKeepsInv(limits, es);
    var s := RunOf(limits, es);
    StepCancels(s, limits, e, g);
    if e.Message? { MessageEffect(s, limits, e.bytes, e.content, e.tooBig, e.replyOverflows); }
  }

  /** Whether `f`'s handler has returned a reply while the registry held the connection. */
  predicate Replied(limits: Limits, es: seq<Event>, f: FrameId)
    requires IsRun(limits, es)
  {
    es != [] &&
    (Replied(limits, es[..|es| - 1], f) || RepliesNow(RunOf(limits, es[..|es| - 1]), es[|es| - 1], f))
  }

  /** Exactly the returns with a reply on a held connection are answered. */
  lemma {:induction false} AnsweredIffReplied(limits: Limits, es: seq<Event>, f: FrameId)
    requires IsRun(limits, es)
    ensures Reply(f) in RunOf(limits, es).log <==> Replied(limits, es, f)
  {
    if es != [] {
      AnsweredIffReplied(limits, es[..|es| - 1], f);
      StepReplies(RunOf(limits, es[..|es| - 1]), limits, es[|es| - 1], f);
    }
  }

  /** A frame is answered at most once, and only after it started. */
  lemma AnsweredOnce(limits: Limits, es: seq<Event>, i: nat, f: FrameId)
    requires IsRun(limits, es) && i < |RunOf(limits, es).log| && RunOf(limits, es).log[i] == Reply(f)
    ensures var log := RunOf(limits, es).log;
            && Before(log, i, Start(f)) && forall j :: 0 <= j < |log| && j != i ==> log[j] != Reply(f)
  {
    RunKeepsRecord(limits, es);
  }

  /** A socket is admitted at most once, and never after it ended. */
  lemma NoAdmissionAfterTheEnd(limits: Limits, es: seq<Event>, i: nat)
    requires IsRun(limits, es) && i < |RunOf(limits, es).log| && RunOf(limits, es).log[i] == Admission
    ensures var log := RunOf(limits, es).log;
            && !Before(log, i, End) && forall j :: 0 <= j < |log| && j != i ==> log[j] != Admission
  {
    RunKeepsRecord(limits, es);
  }

  /** The re-read's return admits a held connection or ends the socket, and never admits an ended one. */
  lemma RecheckAdmitsOrEnds(s: Session, limits: Limits, answer: Recheck)
    requires Inv(s, limits) && s.stage.Rereading?
    ensures AdmittedOrRefused(s, answer).wasAdmitted <==> answer.Live? && s.registered
    ensures s.phase.Ended? ==> !AdmittedOrRefused(s, answer).wasAdmitted
    ensures AdmittedOrRefused(s, answer).wasAdmitted || AdmittedOrRefused(s, answer).phase.Ended?
  {
  }
}
