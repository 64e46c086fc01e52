/** What one socket's log holds at most once, and how long a request stays at work. */
module SessionRecords {
  import opened Common
  import opened SessionModel
  import opened SessionRuns

  // ----- The record -----

  /** Every mark is made once, a reply after its frame's start, and the admission before the end. */
  ghost predicate InOrder(log: seq<Mark>) {
    && Distinct(log)
    && (forall i :: 0 <= i < |log| && log[i].Reply? ==> Before(log, i, Start(log[i].to)))
    && (forall i :: 0 <= i < |log| && log[i].Admission? ==> !Before(log, i, End))
  }

  predicate IsRunning(s: Session, f: FrameId) {
    f in s.work && s.work[f].Running?
  }

  /** What is still at work has started, and what still runs is unanswered. */
  ghost predicate Recorded(s: Session) {
    && InOrder(s.log)
    && (Opened in s.log ==> !s.phase.Opening?) && (CloseHook in s.log ==> s.closed)
    && (forall f :: f in s.work ==> Start(f) in s.log)
    && (forall f :: IsRunning(s, f) ==> Reply(f) !in s.log)
  }

  lemma MarkKeepsOrder(log: seq<Mark>, x: Mark)
    requires InOrder(log) && x !in log
    requires x.Reply? ==> Start(x.to) in log
    requires x.Admission? ==> End !in log
    ensures InOrder(log + [x])
  {
    var l := log + [x];
    forall i | 0 <= i < |l|
      ensures l[i].Reply? ==> Before(l, i, Start(l[i].to))
      ensures l[i].Admission? ==> !Before(l, i, End)
    {
      assert i < |log| ==> l[i] == log[i];
      if l[i].Reply? { BeforeSame(log, i, Start(l[i].to), x); }
      BeforeSame(log, i, End, x);
    }
  }

  /** A mark about no frame. */
  lemma MarkKeepsRecord(s: Session, t: Session, x: Mark)
    requires Recorded(s) && t.log == s.log + [x] && x !in s.log && t.work == s.work
    requires !x.Start? && !x.Reply?
    requires x.Admission? ==> End !in s.log
    requires Opened in t.log ==> !t.phase.Opening?
    requires CloseHook in t.log ==> t.closed
    ensures Recorded(t)
  {
    MarkKeepsOrder(s.log, x);
    assert forall m :: m in t.log <==> m in s.log || m == x;
  }

  lemma SameKeepsRecord(s: Session, t: Session)
    requires Recorded(s) && t.log == s.log && t.work == s.work
    requires (t.phase.Opening? ==> s.phase.Opening?) && (s.closed ==> t.closed)
    ensures Recorded(t)
  {
  }

  lemma BeforeIsIn(log: seq<Mark>, m: Mark)
    ensures Before(log, |log|, m) <==> m in log
  {
  }

  ghost predicate EndKnown(s: Session) {
    s.phase.Ended? <==> Before(s.log, |s.log|, End)
  }

  lemma EndedKeepsRecord(s: Session)
    requires Recorded(s) && EndKnown(s)
    ensures Recorded(EndedNow(s))
  {
    if !s.phase.Ended? {
      BeforeIsIn(s.log, End);
      MarkKeepsRecord(s, EndedNow(s), End);
    }
  }

  lemma ReplyFollowsStart(log: seq<Mark>, f: FrameId)
    requires InOrder(log) && Reply(f) in log
    ensures Start(f) in log
  {
    var i :| 0 <= i < |log| && log[i] == Reply(f);
    assert Before(log, i, Start(f));
  }

  lemma StartedKeepsRecord(s: Session, f: Inbound)
    requires Recorded(s) && Start(f.id) !in s.log
    ensures Recorded(Started(s, f))
  {
    var t := Started(s, f);
    MarkKeepsOrder(s.log, Start(f.id));
    assert Reply(f.id) !in s.log by { if Reply(f.id) in s.log { ReplyFollowsStart(s.log, f.id); } }
    assert forall m :: m in t.log <==> m in s.log || m == Start(f.id);
    assert forall g :: g != f.id ==> (g in t.work <==> g in s.work) && (g in s.work ==> t.work[g] == s.work[g]);
  }

  lemma NotStarted(s: Session, f: Inbound, rest: seq<Inbound>)
    requires OrderOk(s, [f] + rest)
    ensures Start(f.id) !in s.log
  {
    assert ([f] + rest)[0] == f;
  }

  lemma HandledKeepsRecord(s: Session, limits: Limits, f: Inbound, rest: seq<Inbound>, overflows: bool)
    requires InvWith(s, limits, [f] + rest) && s.phase.Open? && Recorded(s)
    ensures Recorded(Handled(s, f, overflows))
  {
    NotStarted(s, f, rest);
    StartedKeepsRecord(s, f);
    if overflows {
      StartedKeeps(s, limits, f, rest);
      EndedKeepsRecord(Started(s, f));
    }
  }

  lemma {:induction false} FlushedKeepsRecord(s: Session, limits: Limits, fs: seq<Inbound>, overflows: FrameId -> bool)
    requires InvWith(s, limits, fs) && (s.registered ==> s.phase.Open?) && Recorded(s)
    ensures Recorded(Flushed(s, fs, overflows))
    decreases |fs|
  {
    if fs != [] {
      assert fs == [fs[0]] + fs[1..];
      if s.registered {
        var next := Handled(s, fs[0], overflows(fs[0].id));
        assert InvWith(next, limits, fs[1..]) by { HandledKeeps(s, limits, fs[0], fs[1..], overflows(fs[0].id)); }
        assert Recorded(next) by { HandledKeepsRecord(s, limits, fs[0], fs[1..], overflows(fs[0].id)); }
        FlushedKeepsRecord(next, limits, fs[1..], overflows);
      } else {
        var next := s.(settled := s.settled + [fs[0].id]);
        assert InvWith(next, limits, fs[1..]) by { DroppedKeeps(s, limits, fs[0], fs[1..]); }
        assert Recorded(next) by { SameKeepsRecord(s, next); }
        FlushedKeepsRecord(next, limits, fs[1..], overflows);
      }
    }
  }

  lemma FinishedKeepsRecord(s: Session, limits: Limits, overflows: FrameId -> bool)
    requires Inv(s, limits) && s.wasAdmitted && Recorded(s)
    ensures Recorded(FinishedOpening(s, overflows))
  {
    if s.phase.Opening? {
      OpenedKeeps(s, limits);
      MarkKeepsRecord(s, OpenedNow(s), Opened);
      FlushedKeepsRecord(OpenedNow(s), limits, s.queue, overflows);
    }
  }

  lemma RecheckKeepsRecord(s: Session, limits: Limits, answer: Recheck)
    requires Inv(s, limits) && s.stage.Rereading? && Recorded(s)
    ensures Recorded(AdmittedOrRefused(s, answer))
  {
    if answer.Live? && s.registered {
      BeforeIsIn(s.log, End);
      BeforeIsIn(s.log, Admission);
      MarkKeepsRecord(s, AdmittedOrRefused(s, answer), Admission);
    } else {
      EndedKeepsRecord(s.(stage := Over));
    }
  }

  lemma TickKeepsRecord(s: Session, limits: Limits, overflows: FrameId -> bool)
    requires Inv(s, limits) && s.stage.AdmittedTick? && Recorded(s)
    ensures Recorded(Ticked(s, limits, overflows))
  {
    var timed := if s.phase.Ended? then s else s.(timers := true);
    ControlsKeepInv(s, timed, limits);
    if !limits.hasOpenHook { FinishedKeepsRecord(timed, limits, overflows); }
  }

  lemma DispatchKeepsRecord(s: Session, limits: Limits, f: Inbound, overflows: bool)
    requires Inv(s, limits) && s.phase.Open? && f.id == s.nextFrame && Recorded(s)
    ensures Recorded(Handled(Promised(s, f), f, overflows))
  {
    SameKeepsRecord(s, Promised(s, f));
    ArrivedKeeps(s, limits, f);
    HandledKeepsRecord(Promised(s, f), limits, f, [], overflows);
  }

  lemma WaitKeepsRecord(s: Session, f: Inbound)
    requires Recorded(s) && EndKnown(s)
    ensures Recorded(Dropped(s)) && Recorded(EndedNow(Dropped(s))) && Recorded(Queued(s, f))
  {
    SameKeepsRecord(s, Dropped(s));
    SameKeepsRecord(s, Queued(s, f));
    EndedKeepsRecord(Dropped(s));
  }

  lemma MessageKeepsRecord(s: Session, limits: Limits, bytes: nat, content: Content, tooBig: bool, overflows: bool)
    requires Inv(s, limits) && Recorded(s)
    ensures Recorded(Received(s, limits, bytes, content, tooBig, overflows))
  {
    var f := Inbound(s.nextFrame, bytes, content);
    if s.phase.Open? && !tooBig && s.registered {
      DispatchKeepsRecord(s, limits, f, overflows);
    } else {
      WaitKeepsRecord(s, f);
    }
  }

  lemma AnsweredKeepsRecord(s: Session, frame: FrameId, replies: bool)
    requires Recorded(s) && IsRunning(s, frame)
    ensures Recorded(Answered(s, frame, replies))
  {
    var t := Answered(s, frame, replies);
    if replies && s.registered {
      MarkKeepsOrder(s.log, Reply(frame));
      assert forall m :: m in t.log <==> m in s.log || m == Reply(frame);
    }
    assert forall g :: IsRunning(t, g) ==> g != frame && IsRunning(s, g);
  }

  lemma ClosedKeepsRecord(s: Session)
    requires Recorded(s) && EndKnown(s) && !s.closed
    ensures Recorded(ClosedByPeer(s))
  {
    var ended := EndedNow(s).(closed := true);
    assert Recorded(EndedNow(s)) by { EndedKeepsRecord(s); }
    SameKeepsRecord(EndedNow(s), ended);
    assert CloseHook !in ended.log;
    if s.captured && s.wasAdmitted { MarkKeepsRecord(ended, Marked(ended, CloseHook), CloseHook); }
  }

  lemma CompletedKeepsRecord(s: Session, done: FrameId)
    requires Recorded(s)
    ensures Recorded(WorkDone(s, done))
  {
    assert forall g :: IsRunning(WorkDone(s, done), g) ==> IsRunning(s, g);
  }

  lemma OpensKeepsRecord(s: Session, bornClosed: bool)
    requires Recorded(s) && EndKnown(s)
    ensures Recorded(Registered(s, bornClosed))
  {
    var over := s.(captured := true, stage := Over);
    SameKeepsRecord(s, over);
    EndedKeepsRecord(over);
    SameKeepsRecord(s, s.(captured := true, stage := Rereading, registered := true));
  }

  lemma EndingKeepsRecord(s: Session)
    requires Recorded(s) && EndKnown(s)
    ensures Recorded(EndedNow(s)) && Recorded(EndedNow(s.(stage := Over))) && Recorded(s.(registered := false))
  {
    EndedKeepsRecord(s);
    SameKeepsRecord(s, s.(stage := Over));
    EndedKeepsRecord(s.(stage := Over));
    SameKeepsRecord(s, s.(registered := false));
  }

  lemma StepKeepsRecord(s: Session, limits: Limits, e: Event)
    requires Inv(s, limits) && Possible(s, e) && Recorded(s)
    ensures Recorded(Step(s, limits, e))
  {
    match e
    case Opens(bornClosed) => OpensKeepsRecord(s, bornClosed);
    case Rechecked(answer) => RecheckKeepsRecord(s, limits, answer);
    case Ticks(overflows) => TickKeepsRecord(s, limits, overflows);
    case HookReturns(ok, overflows) =>
      if ok { FinishedKeepsRecord(s, limits, overflows); } else { EndingKeepsRecord(s); }
    case Message(bytes, content, tooBig, overflows) => MessageKeepsRecord(s, limits, bytes, content, tooBig, overflows);
    case HandlerReturns(frame, replies) => AnsweredKeepsRecord(s, frame, replies);
    case Completes(done) => CompletedKeepsRecord(s, done);
    case TimerFires => EndingKeepsRecord(s);
    case RegistryEnds => EndingKeepsRecord(s);
    case RegistryForgets => EndingKeepsRecord(s);
    case Closes => ClosedKeepsRecord(s);
  }

  // ----- A request at work -----

  /** What a step does to a frame that has started: its work goes on until its handler returns. */
  ghost predicate WorkGoesOn(s: Session, t: Session, f: FrameId) {
    && Start(f) in t.log && (Reply(f) in t.log <==> Reply(f) in s.log)
    && (f in t.work <==> f in s.work) && (f in s.work ==> t.work[f] == s.work[f])
  }

  lemma StartedElsewhere(s: Session, g: Inbound, overflows: bool, f: FrameId)
    requires Start(f) in s.log && g.id != f
    ensures WorkGoesOn(s, Handled(s, g, overflows), f)
  {
    var t := Started(s, g);
    assert forall m :: m in t.log <==> m in s.log || m == Start(g.id);
    assert forall m :: m in EndedNow(t).log <==> m in t.log || (m == End && !t.phase.Ended?);
  }

  lemma {:induction false} FlushedElsewhere(s: Session, fs: seq<Inbound>, overflows: FrameId -> bool, f: FrameId)
    requires Start(f) in s.log && forall i :: 0 <= i < |fs| ==> fs[i].id != f
    ensures WorkGoesOn(s, Flushed(s, fs, overflows), f)
    decreases |fs|
  {
    if fs != [] {
      if s.registered {
        StartedElsewhere(s, fs[0], overflows(fs[0].id), f);
        FlushedElsewhere(Handled(s, fs[0], overflows(fs[0].id)), fs[1..], overflows, f);
      } else {
        FlushedElsewhere(s.(settled := s.settled + [fs[0].id]), fs[1..], overflows, f);
      }
    }
  }

  lemma FinishedElsewhere(s: Session, limits: Limits, overflows: FrameId -> bool, f: FrameId)
    requires Inv(s, limits) && Start(f) in s.log
    ensures WorkGoesOn(s, FinishedOpening(s, overflows), f)
  {
    assert !s.phase.Opening?;
  }

  lemma MessageElsewhere(s: Session, limits: Limits, bytes: nat, content: Content, tooBig: bool, overflows: bool,
                         f: FrameId)
    requires Inv(s, limits) && Start(f) in s.log
    ensures WorkGoesOn(s, Received(s, limits, bytes, content, tooBig, overflows), f)
  {
    var g := Inbound(s.nextFrame, bytes, content);
    assert f < s.nextFrame;
    StartedElsewhere(Promised(s, g), g, overflows, f);
    EndedElsewhere(Dropped(s), f);
  }

  lemma EndedElsewhere(s: Session, f: FrameId)
    requires Start(f) in s.log
    ensures WorkGoesOn(s, EndedNow(s), f)
  {
    assert forall m :: m in EndedNow(s).log <==> m in s.log || (m == End && !s.phase.Ended?);
  }

  lemma ClosedElsewhere(s: Session, f: FrameId)
    requires Start(f) in s.log
    ensures WorkGoesOn(s, ClosedByPeer(s), f)
  {
    EndedElsewhere(s, f);
    assert ClosedByPeer(s).log == EndedNow(s).log || ClosedByPeer(s).log == EndedNow(s).log + [CloseHook];
  }

  lemma AnsweredElsewhere(s: Session, frame: FrameId, replies: bool, f: FrameId)
    requires IsRunning(s, frame) && frame != f && Start(f) in s.log
    ensures WorkGoesOn(s, Answered(s, frame, replies), f)
  {
    assert Answered(s, frame, replies).log == s.log + if replies && s.registered then [Reply(frame)] else [];
  }

  /** Only its handler's return ends a request, and only that answers it - if the connection is still held. */
  lemma StepElsewhere(s: Session, limits: Limits, e: Event, f: FrameId)
    requires Inv(s, limits) && Possible(s, e) && Start(f) in s.log
    requires !(e.HandlerReturns? && e.frame == f) && !(e.Completes? && e.done == f)
    ensures WorkGoesOn(s, Step(s, limits, e), f)
  {
    match e
    case Opens(bornClosed) => EndedElsewhere(s.(captured := true, stage := Over), f);
    case Rechecked(_) => // no frame has started by then
    case Ticks(overflows) =>
      var timed := if s.phase.Ended? then s else s.(timers := true);
      ControlsKeepInv(s, timed, limits);
      FinishedElsewhere(timed, limits, overflows, f);
    case HookReturns(ok, overflows) =>
      FinishedElsewhere(s, limits, overflows, f);
      EndedElsewhere(s.(stage := Over), f);
    case Message(bytes, content, tooBig, overflows) =>
      MessageElsewhere(s, limits, bytes, content, tooBig, overflows, f);
    case HandlerReturns(frame, replies) => AnsweredElsewhere(s, frame, replies, f);
    case Completes(done) =>
    case TimerFires => EndedElsewhere(s, f);
    case RegistryEnds => EndedElsewhere(s, f);
    case RegistryForgets =>
    case Closes => ClosedElsewhere(s, f);
  }

  // ----- What is answered -----

  /** A reply is marked by its handler's return, and by nothing else. */
  predicate RepliesNow(s: Session, e: Event, f: FrameId) {
    e == HandlerReturns(f, true) && s.registered
  }

  lemma EndedReplies(s: Session, f: FrameId)
    ensures Reply(f) in EndedNow(s).log <==> Reply(f) in s.log
  {
    if !s.phase.Ended? {
      assert EndedNow(s).log == s.log + [End];
    }
  }

  lemma {:induction false} FlushedReplies(s: Session, fs: seq<Inbound>, overflows: FrameId -> bool, f: FrameId)
    ensures Reply(f) in Flushed(s, fs, overflows).log <==> Reply(f) in s.log
    decreases |fs|
  {
    if fs != [] {
      if s.registered {
        HandledReplies(s, fs[0], overflows(fs[0].id), f);
        FlushedReplies(Handled(s, fs[0], overflows(fs[0].id)), fs[1..], overflows, f);
      } else {
        FlushedReplies(s.(settled := s.settled + [fs[0].id]), fs[1..], overflows, f);
      }
    }
  }

  lemma HandledReplies(s: Session, g: Inbound, overflows: bool, f: FrameId)
    ensures Reply(f) in Handled(s, g, overflows).log <==> Reply(f) in s.log
  {
    assert Started(s, g).log == s.log + [Start(g.id)];
    EndedReplies(Started(s, g), f);
  }

  lemma FinishedReplies(s: Session, overflows: FrameId -> bool, f: FrameId)
    ensures Reply(f) in FinishedOpening(s, overflows).log <==> Reply(f) in s.log
  {
    assert OpenedNow(s).log == s.log + [Opened];
    FlushedReplies(OpenedNow(s), s.queue, overflows, f);
  }

  lemma TickReplies(s: Session, limits: Limits, overflows: FrameId -> bool, f: FrameId)
    ensures Reply(f) in Ticked(s, limits, overflows).log <==> Reply(f) in s.log
  {
    var timed := if s.phase.Ended? then s else s.(timers := true);
    assert timed.log == s.log;
    FinishedReplies(timed, overflows, f);
  }

  lemma ClosedReplies(s: Session, f: FrameId)
    ensures Reply(f) in ClosedByPeer(s).log <==> Reply(f) in s.log
  {
    EndedReplies(s, f);
    assert ClosedByPeer(s).log == EndedNow(s).log || ClosedByPeer(s).log == EndedNow(s).log + [CloseHook];
  }

  lemma RecheckReplies(s: Session, answer: Recheck, f: FrameId)
    ensures Reply(f) in AdmittedOrRefused(s, answer).log <==> Reply(f) in s.log
  {
    EndedReplies(s.(stage := Over), f);
    assert Marked(s, Admission).log == s.log + [Admission];
  }

  lemma MessageReplies(s: Session, limits: Limits, bytes: nat, content: Content, tooBig: bool, overflows: bool,
                       f: FrameId)
    ensures Reply(f) in Received(s, limits, bytes, content, tooBig, overflows).log <==> Reply(f) in s.log
  {
    var g := Inbound(s.nextFrame, bytes, content);
    if s.phase.Open? && !tooBig && s.registered {
      HandledReplies(Promised(s, g), g, overflows, f);
    } else {
      EndedReplies(Dropped(s), f);
    }
  }

  lemma AnsweredReplies(s: Session, frame: FrameId, replies: bool, f: FrameId)
    requires IsRunning(s, frame)
    ensures Reply(f) in Answered(s, frame, replies).log <==>
              Reply(f) in s.log || (frame == f && replies && s.registered)
  {
    assert Answered(s, frame, replies).log == s.log + if replies && s.registered then [Reply(frame)] else [];
  }

  lemma StepReplies(s: Session, limits: Limits, e: Event, f: FrameId)
    requires Possible(s, e)
    ensures Reply(f) in Step(s, limits, e).log <==> Reply(f) in s.log || RepliesNow(s, e, f)
  {
    match e
    case Opens(_) => EndedReplies(s.(captured := true, stage := Over), f);
    case Rechecked(answer) => RecheckReplies(s, answer, f);
    case Ticks(overflows) => TickReplies(s, limits, overflows, f);
    case HookReturns(ok, overflows) =>
      if ok { FinishedReplies(s, overflows, f); } else { EndedReplies(s.(stage := Over), f); }
    case Message(bytes, content, tooBig, overflows) => MessageReplies(s, limits, bytes, content, tooBig, overflows, f);
    case HandlerReturns(frame, replies) => AnsweredReplies(s, frame, replies, f);
    case Completes(done) => assert WorkDone(s, done).log == s.log;
    case TimerFires => EndedReplies(s, f);
    case RegistryEnds => EndedReplies(s, f);
    case RegistryForgets => assert s.(registered := false).log == s.log;
    case Closes => ClosedReplies(s, f);
  }

  // ----- What is cancelled -----

  predicate CancelledRuns(s: Session, g: FrameId) {
    g in s.cancelled ==> IsRunning(s, g)
  }

  lemma HandledCancels(s: Session, f: Inbound, overflows: bool, g: FrameId)
    requires LiveOk(s) && f.id !in s.work && CancelledRuns(s, g)
    ensures CancelledRuns(Handled(s, f, overflows), g)
  {
    EndedKeepsWork(Started(s, f));
    assert g in Started(s, f).cancelled ==> IsRunning(s, g) && g != f.id;
  }

  /** The end aborts what runs, and none of it stops for that. */
  lemma EndedKeepsWork(s: Session)
    ensures var t := EndedNow(s); t.work == s.work && t.live == s.live && t.cancelled == s.cancelled
  {
  }

  lemma {:induction false} FlushedCancels(s: Session, limits: Limits, fs: seq<Inbound>, overflows: FrameId -> bool,
                                          g: FrameId)
    requires InvWith(s, limits, fs) && (s.registered ==> s.phase.Open?) && CancelledRuns(s, g)
    ensures CancelledRuns(Flushed(s, fs, overflows), g)
    decreases |fs|
  {
    if fs != [] {
      assert fs == [fs[0]] + fs[1..];
      if s.registered {
        var next := Handled(s, fs[0], overflows(fs[0].id));
        assert InvWith(next, limits, fs[1..]) by { HandledKeeps(s, limits, fs[0], fs[1..], overflows(fs[0].id)); }
        assert CancelledRuns(next, g) by {
          NextIsNotAtWork(s, fs[0], fs[1..]);
          HandledCancels(s, fs[0], overflows(fs[0].id), g);
        }
        FlushedCancels(next, limits, fs[1..], overflows, g);
      } else {
        var next := s.(settled := s.settled + [fs[0].id]);
        assert InvWith(next, limits, fs[1..]) by { DroppedKeeps(s, limits, fs[0], fs[1..]); }
        FlushedCancels(next, limits, fs[1..], overflows, g);
      }
    }
  }

  lemma FinishedCancels(s: Session, limits: Limits, overflows: FrameId -> bool, g: FrameId)
    requires Inv(s, limits) && s.wasAdmitted && g !in s.cancelled
    ensures CancelledRuns(FinishedOpening(s, overflows), g)
  {
    if s.phase.Opening? {
      OpenedKeeps(s, limits);
      FlushedCancels(OpenedNow(s), limits, s.queue, overflows, g);
    }
  }

  /** Whether a message is dispatched as it arrives. */
  predicate DispatchesNow(s: Session, tooBig: bool) {
    s.phase.Open? && !tooBig && s.registered
  }

  /** What a message makes of the live ids, the work and the cancelled: what its start does, or nothing. */
  lemma MessageEffect(s: Session, limits: Limits, bytes: nat, content: Content, tooBig: bool, overflows: bool)
    ensures var t := Received(s, limits, bytes, content, tooBig, overflows);
            if DispatchesNow(s, tooBig)
            then && t.live == LiveWith(s.live, Inbound(s.nextFrame, bytes, content))
                 && t.work == s.work[s.nextFrame := WorkFor(s.live, content)]
                 && t.cancelled == s.cancelled + CancelledBy(s.live, content)
            else t.live == s.live && t.work == s.work && t.cancelled == s.cancelled
  {
    var f := Inbound(s.nextFrame, bytes, content);
    if DispatchesNow(s, tooBig) {
      EndedKeepsWork(Started(Promised(s, f), f));
    } else {
      EndedKeepsWork(Dropped(s));
    }
  }

  lemma NextIsNew(s: Session)
    requires Conserved(s, [])
    ensures s.nextFrame !in s.work
  {
    forall f | f in s.work
      ensures f in s.promised
    {
      assert f in multiset(s.work.Keys);
      assert f in multiset(s.promised);
    }
  }

  /** Nothing is cancelled but a handler that runs, and runs on. */
  lemma StepCancels(s: Session, limits: Limits, e: Event, g: FrameId)
    requires Inv(s, limits) && Possible(s, e) && g !in s.cancelled
    ensures CancelledRuns(Step(s, limits, e), g)
    ensures g in Step(s, limits, e).cancelled && e.Message? ==>
              IsRunning(s, g) && e.content == Cancel(s.work[g].request)
  {
    match e
    case Ticks(overflows) =>
      var timed := if s.phase.Ended? then s else s.(timers := true);
      ControlsKeepInv(s, timed, limits);
      if !limits.hasOpenHook { FinishedCancels(timed, limits, overflows, g); }
    case HookReturns(ok, overflows) => if ok { FinishedCancels(s, limits, overflows, g); }
    case Message(bytes, content, tooBig, overflows) =>
      MessageEffect(s, limits, bytes, content, tooBig, overflows);
      NextIsNew(s);
    case _ =>
  }
}
