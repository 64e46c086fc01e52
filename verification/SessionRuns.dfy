/** A socket over whole runs: when frames dispatch, in what order, and what becomes of each. */
module SessionRuns {
  import opened Common
  import opened SessionModel

  // ----- The log -----

  lemma BeforeAppend(log: seq<Mark>, m: Mark, x: Mark)
    ensures Before(log + [x], |log| + 1, m) <==> Before(log, |log|, m) || x == m
  {
    var l := log + [x];
    assert l[|log|] == x;
    if Before(log, |log|, m) {
      var j :| 0 <= j < |log| && log[j] == m;
      assert l[j] == m;
    }
  }

  lemma BeforeSame(log: seq<Mark>, i: nat, m: Mark, x: Mark)
    requires i <= |log|
    ensures Before(log + [x], i, m) <==> Before(log, i, m)
  {
    var l := log + [x];
    assert forall j :: 0 <= j < i ==> l[j] == log[j];
  }

  lemma MarkKeepsPast(s: Session, x: Mark)
    requires LogOk(s)
    requires x.Start? || x.Reply? ==> !s.phase.Ended?
    requires x.Start? ==> Before(s.log, |s.log|, Opened)
    requires x.Opened? ==> s.wasAdmitted
    ensures var l := s.log + [x];
            && (forall i :: 0 <= i < |l| && (l[i].Start? || l[i].Reply?) ==> !Before(l, i, End))
            && (forall i :: 0 <= i < |l| && l[i].Start? ==> Before(l, i, Opened))
            && (forall i :: 0 <= i < |l| && l[i].Opened? ==> Before(l, i, Admission))
  {
    var l := s.log + [x];
    forall i | 0 <= i < |l|
      ensures l[i].Start? || l[i].Reply? ==> !Before(l, i, End)
      ensures l[i].Start? ==> Before(l, i, Opened)
      ensures l[i].Opened? ==> Before(l, i, Admission)
    {
      BeforeSame(s.log, i, End, x);
      BeforeSame(s.log, i, Opened, x);
      BeforeSame(s.log, i, Admission, x);
      assert i < |s.log| ==> l[i] == s.log[i];
    }
  }

  lemma MarkKeepsLog(s: Session, t: Session, x: Mark)
    requires LogOk(s) && t.log == s.log + [x]
    requires x.Start? || x.Reply? ==> !s.phase.Ended?
    requires x.Start? ==> Before(s.log, |s.log|, Opened)
    requires x.Opened? ==> s.wasAdmitted
    requires t.phase.Ended? <==> s.phase.Ended? || x.End?
    requires t.phase.Open? ==> s.phase.Open? || x.Opened?
    requires t.wasAdmitted <==> s.wasAdmitted || x.Admission?
    ensures LogOk(t)
  {
    MarkKeepsPast(s, x);
    BeforeAppend(s.log, End, x);
    BeforeAppend(s.log, Opened, x);
    BeforeAppend(s.log, Admission, x);
  }

  // ----- Ending -----

  lemma IdsConcat(a: seq<Inbound>, b: seq<Inbound>)
    ensures Ids(a + b) == Ids(a) + Ids(b)
  {
  }

  lemma EndedKeeps(s: Session, limits: Limits, rest: seq<Inbound>)
    requires Conserved(s, rest) && LiveOk(s) && LogOk(s) && OrderOk(s, rest)
    requires s.phase.Ended? ==> s.queue == [] && !s.timers
    ensures var t := EndedNow(s);
            && Conserved(t, rest) && LiveOk(t) && LogOk(t) && OrderOk(t, rest) && t.phase.Ended? && t.queue == []
  {
    if !s.phase.Ended? {
      var t := EndedNow(s);
      assert LogOk(t) by { EndedLog(s); }
      assert Conserved(t, rest) by { EndedConserved(s, rest); }
      assert OrderOk(t, rest) by { EndedOrder(s, rest); }
    }
  }

  lemma EndedLog(s: Session)
    requires LogOk(s) && !s.phase.Ended?
    ensures LogOk(EndedNow(s))
  {
    MarkKeepsLog(s, EndedNow(s), End);
  }

  lemma EndedOrder(s: Session, rest: seq<Inbound>)
    requires OrderOk(s, rest) && !s.phase.Ended?
    ensures OrderOk(EndedNow(s), rest)
  {
    assert forall i :: 0 <= i < |s.log| ==> EndedNow(s).log[i] == s.log[i];
  }

  lemma EndedConserved(s: Session, rest: seq<Inbound>)
    requires Conserved(s, rest) && !s.phase.Ended?
    ensures Conserved(EndedNow(s), rest)
  {
    assert multiset(s.settled + Ids(s.queue)) == multiset(s.settled) + multiset(Ids(s.queue));
    assert Ids([]) == [];
  }

  // ----- Starting a frame -----

  lemma NextIsNotAtWork(s: Session, f: Inbound, rest: seq<Inbound>)
    requires Conserved(s, [f] + rest)
    ensures f.id !in s.work && f.id !in s.settled
    ensures multiset(s.promised) ==
              multiset(Ids(s.queue)) + multiset{f.id} + multiset(Ids(rest)) + multiset(s.work.Keys) + multiset(s.settled)
  {
    IdsConcat([f], rest);
    assert Ids([f]) == [f.id];
    DistinctOnce(s.promised, f.id);
  }

  lemma BegunConserved(s: Session, t: Session, f: Inbound, rest: seq<Inbound>, work: Work)
    requires Conserved(s, [f] + rest) && t.work == s.work[f.id := work]
    requires t.promised == s.promised && t.queue == s.queue && t.settled == s.settled && t.nextFrame == s.nextFrame
    ensures Conserved(t, rest)
  {
    NextIsNotAtWork(s, f, rest);
    assert t.work.Keys == s.work.Keys + {f.id};
    assert multiset(t.work.Keys) == multiset(s.work.Keys) + multiset{f.id};
  }

  lemma BegunOrder(s: Session, t: Session, f: Inbound, rest: seq<Inbound>)
    requires OrderOk(s, [f] + rest) && s.phase.Open? && t.phase.Open?
    requires t.log == s.log + [Start(f.id)] && t.queue == s.queue && t.nextFrame == s.nextFrame
    ensures OrderOk(t, rest)
  {
    var fs := [f] + rest;
    assert fs[0] == f;
    assert forall i :: 0 <= i < |rest| ==> fs[i + 1] == rest[i];
    assert forall i :: 0 <= i < |s.log| ==> t.log[i] == s.log[i];
  }

  lemma DispatchedLive(s: Session, t: Session, id: RequestId, frame: FrameId)
    requires LiveOk(s) && frame !in s.work && id !in s.live && |s.live| < MAX_INBOUND_DISPATCHES
    requires t.live == s.live[id := frame] && t.work == s.work[frame := Running(id)]
    ensures LiveOk(t)
  {
    assert t.live.Keys == s.live.Keys + {id};
    forall i | i in t.live
      ensures t.live[i] in t.work && t.work[t.live[i]] == Running(i)
    {
      assert i != id ==> i in s.live && s.live[i] != frame;
    }
  }

  lemma BegunLive(s: Session, f: Inbound)
    requires LiveOk(s) && f.id !in s.work
    ensures LiveOk(Started(s, f))
  {
    var t := Started(s, f);
    if Dispatches(s.live, f.content) {
      DispatchedLive(s, t, f.content.id, f.id);
    } else {
      assert t.live == s.live && t.work == s.work[f.id := Returning];
    }
  }

  lemma StartedKeeps(s: Session, limits: Limits, f: Inbound, rest: seq<Inbound>)
    requires InvWith(s, limits, [f] + rest) && s.phase.Open?
    ensures InvWith(Started(s, f), limits, rest)
  {
    var t := Started(s, f);
    assert Conserved(t, rest) by { BegunConserved(s, t, f, rest, WorkFor(s.live, f.content)); }
    assert OrderOk(t, rest) by { BegunOrder(s, t, f, rest); }
    assert LogOk(t) by { MarkKeepsLog(s, t, Start(f.id)); }
    assert LiveOk(t) by {
      NextIsNotAtWork(s, f, rest);
      BegunLive(s, f);
    }
  }

  lemma HandledKeeps(s: Session, limits: Limits, f: Inbound, rest: seq<Inbound>, overflows: bool)
    requires InvWith(s, limits, [f] + rest) && s.phase.Open?
    ensures InvWith(Handled(s, f, overflows), limits, rest)
  {
    StartedKeeps(s, limits, f, rest);
    if overflows {
      EndedKeeps(Started(s, f), limits, rest);
      EndedKeepsPhase(Started(s, f), limits);
    }
  }

  lemma EndedKeepsPhase(s: Session, limits: Limits)
    requires PhaseOk(s) && QueueOk(s, limits)
    ensures PhaseOk(EndedNow(s)) && QueueOk(EndedNow(s), limits)
  {
  }

  lemma EndedKeepsInv(s: Session, limits: Limits)
    requires Inv(s, limits)
    ensures Inv(EndedNow(s), limits)
  {
    EndedKeeps(s, limits, []);
    EndedKeepsPhase(s, limits);
  }

  lemma DroppedConserved(s: Session, f: Inbound, rest: seq<Inbound>)
    requires Conserved(s, [f] + rest)
    ensures Conserved(s.(settled := s.settled + [f.id]), rest)
  {
    NextIsNotAtWork(s, f, rest);
    assert multiset(s.settled + [f.id]) == multiset(s.settled) + multiset{f.id};
  }

  lemma DroppedOrder(s: Session, f: Inbound, rest: seq<Inbound>)
    requires OrderOk(s, [f] + rest)
    ensures OrderOk(s, rest)
  {
    var fs := [f] + rest;
    assert forall i :: 0 <= i < |rest| ==> fs[i + 1] == rest[i];
  }

  lemma DroppedKeeps(s: Session, limits: Limits, f: Inbound, rest: seq<Inbound>)
    requires InvWith(s, limits, [f] + rest)
    ensures InvWith(s.(settled := s.settled + [f.id]), limits, rest)
  {
    var t := s.(settled := s.settled + [f.id]);
    assert Conserved(t, rest) by { DroppedConserved(s, f, rest); }
    assert OrderOk(t, rest) by { DroppedOrder(s, f, rest); }
  }

  /** The flush starts what may start, in order, and settles the rest. */
  lemma {:induction false} FlushedKeeps(s: Session, limits: Limits, fs: seq<Inbound>, overflows: FrameId -> bool)
    requires InvWith(s, limits, fs) && (s.registered ==> s.phase.Open?)
    ensures Inv(Flushed(s, fs, overflows), limits)
    decreases |fs|
  {
    if fs != [] {
      assert fs == [fs[0]] + fs[1..];
      if s.registered {
        HandledKeeps(s, limits, fs[0], fs[1..], overflows(fs[0].id));
        FlushedKeeps(Handled(s, fs[0], overflows(fs[0].id)), limits, fs[1..], overflows);
      } else {
        DroppedKeeps(s, limits, fs[0], fs[1..]);
        FlushedKeeps(s.(settled := s.settled + [fs[0].id]), limits, fs[1..], overflows);
      }
    }
  }

  // ----- Every event keeps the invariant -----

  lemma OpenedKeeps(s: Session, limits: Limits)
    requires Inv(s, limits) && s.wasAdmitted && s.phase.Opening?
    ensures InvWith(OpenedNow(s), limits, s.queue)
  {
    var t := OpenedNow(s);
    MarkKeepsLog(s, t, Opened);
    assert Conserved(t, s.queue) by { assert Ids([]) == []; }
    assert OrderOk(t, s.queue) by { assert forall i :: 0 <= i < |t.log| ==> !t.log[i].Start?; }
    assert QueueOk(t, limits);
  }

  lemma FinishedKeepsInv(s: Session, limits: Limits, overflows: FrameId -> bool)
    requires Inv(s, limits) && s.wasAdmitted
    ensures Inv(FinishedOpening(s, overflows), limits)
  {
    if s.phase.Opening? {
      OpenedKeeps(s, limits);
      FlushedKeeps(OpenedNow(s), limits, s.queue, overflows);
    }
  }

  /** A change of stage, hold or timers alone touches no frame. */
  lemma ControlsKeepInv(s: Session, t: Session, limits: Limits)
    requires Inv(s, limits) && PhaseOk(t)
    requires t == s.(stage := t.stage, registered := t.registered, captured := t.captured, closed := t.closed,
                     timers := t.timers)
    ensures Inv(t, limits)
  {
  }

  lemma OpensKeepsInv(s: Session, limits: Limits, bornClosed: bool)
    requires Inv(s, limits) && s.stage.NotOpened?
    ensures Inv(Registered(s, bornClosed), limits)
  {
    var over := s.(captured := true, stage := Over);
    if bornClosed || s.phase.Ended? {
      ControlsKeepInv(s, over, limits);
      if bornClosed { EndedKeepsInv(over, limits); }
    } else {
      ControlsKeepInv(s, s.(captured := true, stage := Rereading, registered := true), limits);
    }
  }

  lemma RecheckKeepsInv(s: Session, limits: Limits, answer: Recheck)
    requires Inv(s, limits) && s.stage.Rereading?
    ensures Inv(AdmittedOrRefused(s, answer), limits)
  {
    if answer.Live? && s.registered {
      var t := AdmittedOrRefused(s, answer);
      MarkKeepsLog(s, t, Admission);
      assert OrderOk(t, []) && Conserved(t, []) && LiveOk(t) && QueueOk(t, limits);
    } else {
      EndedKeepsInv(s.(stage := Over), limits);
    }
  }

  lemma TickKeepsInv(s: Session, limits: Limits, overflows: FrameId -> bool)
    requires Inv(s, limits) && s.stage.AdmittedTick?
    ensures Inv(Ticked(s, limits, overflows), limits)
  {
    var timed := if s.phase.Ended? then s else s.(timers := true);
    if !limits.hasOpenHook {
      FinishedKeepsInv(timed, limits, overflows);
    }
  }

  lemma PromisedMore(s: Session, f: Inbound)
    requires Conserved(s, []) && f.id == s.nextFrame
    ensures Distinct(Promised(s, f).promised)
    ensures multiset(Promised(s, f).promised) == multiset(s.promised) + multiset{f.id}
  {
    assert forall i :: 0 <= i < |s.promised| ==> s.promised[i] in s.promised;
  }

  lemma PromisedConserved(s: Session, t: Session, f: Inbound)
    requires Conserved(s, []) && f.id == s.nextFrame
    requires t.promised == s.promised + [f.id] && t.nextFrame == s.nextFrame + 1 && t.work == s.work
             && t.settled == s.settled
    ensures t.queue == s.queue ==> Conserved(t, [f])
    ensures t.queue == s.queue + [f] ==> Conserved(t, [])
  {
    PromisedMore(s, f);
    assert Ids([f]) == [f.id] && Ids([]) == [];
    IdsConcat(s.queue, [f]);
  }

  lemma QueuedKeepsInv(s: Session, limits: Limits, f: Inbound)
    requires Inv(s, limits) && s.phase.Opening? && f.id == s.nextFrame && !QueueFull(s, limits, f.bytes)
    ensures Inv(Queued(s, f), limits)
  {
    var t := Queued(s, f);
    assert Conserved(t, []) by { PromisedConserved(s, t, f); }
    assert QueueOk(t, limits) by { assert t.queue[..|t.queue| - 1] == s.queue; }
    assert OrderOk(t, []) && LiveOk(t) && LogOk(t) && PhaseOk(t);
  }

  lemma ArrivedKeeps(s: Session, limits: Limits, f: Inbound)
    requires Inv(s, limits) && s.phase.Open? && f.id == s.nextFrame
    ensures InvWith(Promised(s, f), limits, [f] + [])
  {
    var t := Promised(s, f);
    assert [f] + [] == [f];
    assert Conserved(t, [f]) by { PromisedConserved(s, t, f); }
    assert OrderOk(t, [f]) && QueueOk(t, limits) && LiveOk(t) && LogOk(t) && PhaseOk(t);
  }

  lemma NumberedKeepsInv(s: Session, limits: Limits)
    requires Inv(s, limits)
    ensures Inv(Dropped(s), limits)
  {
  }

  lemma MessageKeepsInv(s: Session, limits: Limits, bytes: nat, content: Content, tooBig: bool, overflows: bool)
    requires Inv(s, limits)
    ensures Inv(Received(s, limits, bytes, content, tooBig, overflows), limits)
  {
    var f := Inbound(s.nextFrame, bytes, content);
    var n := Dropped(s);
    assert Inv(n, limits) by { NumberedKeepsInv(s, limits); }
    if s.phase.Opening? && !tooBig && !QueueFull(s, limits, bytes) {
      assert Inv(Queued(s, f), limits) by { QueuedKeepsInv(s, limits, f); }
    } else if s.phase.Open? && !tooBig && s.registered {
      assert Inv(Handled(Promised(s, f), f, overflows), limits) by {
        ArrivedKeeps(s, limits, f);
        HandledKeeps(Promised(s, f), limits, f, [], overflows);
      }
    } else {
      assert Inv(EndedNow(n), limits) by { EndedKeepsInv(n, limits); }
    }
  }

  /** A reply to an open socket, or the close hook's call. */
  lemma MarkedKeepsInv(s: Session, limits: Limits, x: Mark)
    requires Inv(s, limits) && ((x.Reply? && !s.phase.Ended?) || x.CloseHook?)
    ensures Inv(Marked(s, x), limits)
  {
    assert LogOk(Marked(s, x)) by { MarkKeepsLog(s, Marked(s, x), x); }
  }

  lemma FreedKeepsInv(s: Session, limits: Limits, frame: FrameId)
    requires Inv(s, limits) && frame in s.work && s.work[frame].Running?
    ensures Inv(s.(live := s.live - {s.work[frame].request}, work := s.work[frame := Returning]), limits)
  {
    var t := s.(live := s.live - {s.work[frame].request}, work := s.work[frame := Returning]);
    assert t.work.Keys == s.work.Keys;
    assert LiveOk(t) by { assert |s.live - {s.work[frame].request}| <= |s.live|; }
  }

  lemma AnsweredKeepsInv(s: Session, limits: Limits, frame: FrameId, replies: bool)
    requires Inv(s, limits) && frame in s.work && s.work[frame].Running?
    ensures Inv(Answered(s, frame, replies), limits)
  {
    if replies && s.registered {
      MarkedKeepsInv(s, limits, Reply(frame));
      FreedKeepsInv(Marked(s, Reply(frame)), limits, frame);
    } else {
      FreedKeepsInv(s, limits, frame);
    }
  }

  lemma CompletedKeepsInv(s: Session, limits: Limits, done: FrameId)
    requires Inv(s, limits) && done in s.work && s.work[done].Returning?
    ensures Inv(WorkDone(s, done), limits)
  {
    var t := WorkDone(s, done);
    assert t.work.Keys == s.work.Keys - {done};
    assert multiset(s.work.Keys) == multiset(t.work.Keys) + multiset{done};
    assert multiset(t.settled) == multiset(s.settled) + multiset{done};
  }

  lemma ClosedKeepsInv(s: Session, limits: Limits)
    requires Inv(s, limits)
    ensures Inv(ClosedByPeer(s), limits)
  {
    EndedKeepsInv(s, limits);
    var ended := EndedNow(s).(closed := true);
    ControlsKeepInv(EndedNow(s), ended, limits);
    MarkedKeepsInv(ended, limits, CloseHook);
  }

  lemma HookFailedKeepsInv(s: Session, limits: Limits)
    requires Inv(s, limits) && s.stage.InOpenHook?
    ensures Inv(EndedNow(s.(stage := Over)), limits)
  {
    EndedKeepsInv(s.(stage := Over), limits);
  }

  lemma ForgottenKeepsInv(s: Session, limits: Limits)
    requires Inv(s, limits)
    ensures Inv(s.(registered := false), limits)
  {
  }

  lemma StepKeepsInv(s: Session, limits: Limits, e: Event)
    requires Inv(s, limits) && Possible(s, e)
    ensures Inv(Step(s, limits, e), limits)
  {
    match e
    case Opens(bornClosed) => OpensKeepsInv(s, limits, bornClosed);
    case Rechecked(answer) => RecheckKeepsInv(s, limits, answer);
    case Ticks(overflows) => TickKeepsInv(s, limits, overflows);
    case HookReturns(ok, overflows) =>
      if ok { FinishedKeepsInv(s, limits, overflows); } else { HookFailedKeepsInv(s, limits); }
    case Message(bytes, content, tooBig, overflows) => MessageKeepsInv(s, limits, bytes, content, tooBig, overflows);
    case HandlerReturns(frame, replies) => AnsweredKeepsInv(s, limits, frame, replies);
    case Completes(done) => CompletedKeepsInv(s, limits, done);
    case TimerFires => EndedKeepsInv(s, limits);
    case RegistryEnds => EndedKeepsInv(s, limits);
    case RegistryForgets => ForgottenKeepsInv(s, limits);
    case Closes => ClosedKeepsInv(s, limits);
  }
}
