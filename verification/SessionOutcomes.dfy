/** What each event does on a socket: which frames start, wait or are dropped, and when it ends. */
module SessionOutcomes {
  import opened Common
  import opened SessionModel
  import opened SessionRuns
  import opened SessionRecords
  import opened SessionTheorems

  // ----- The flush of the queue -----

  /** How many frames of a queue start: up to and including the first whose start overflows. */
  function HowManyStart(fs: seq<Inbound>, overflows: FrameId -> bool): (n: nat)
    ensures n <= |fs|
    ensures forall i :: 0 <= i < n - 1 ==> !overflows(fs[i].id)
    ensures n < |fs| ==> n > 0 && overflows(fs[n - 1].id)
  {
    if fs == [] then 0
    else if overflows(fs[0].id) then 1
    else 1 + HowManyStart(fs[1..], overflows)
  }

  function StartMarks(ids: seq<FrameId>): (marks: seq<Mark>)
    ensures |marks| == |ids| && forall i :: 0 <= i < |ids| ==> marks[i] == Start(ids[i])
  {
    seq(|ids|, i requires 0 <= i < |ids| => Start(ids[i]))
  }

  /** Whether the flush ends the connection. */
  predicate EndsFlush(fs: seq<Inbound>, overflows: FrameId -> bool) {
    exists i :: 0 <= i < |fs| && overflows(fs[i].id)
  }

  lemma UnheldDrops(s: Session, fs: seq<Inbound>, overflows: FrameId -> bool)
    requires !s.registered
    ensures Flushed(s, fs, overflows) == s.(settled := s.settled + Ids(fs))
    decreases |fs|
  {
    if fs == [] {
      assert s.settled + Ids(fs) == s.settled;
    } else {
      UnheldDrops(s.(settled := s.settled + [fs[0].id]), fs[1..], overflows);
      assert s.settled + [fs[0].id] + Ids(fs[1..]) == s.settled + Ids(fs);
    }
  }

  /** What a flush of a held, open socket makes of the log, the promises and the end. */
  ghost predicate FlushesAs(s: Session, t: Session, fs: seq<Inbound>, overflows: FrameId -> bool) {
    var n := HowManyStart(fs, overflows);
    && t.log == s.log + StartMarks(Ids(fs[..n])) + (if EndsFlush(fs, overflows) then [End] else [])
    && t.settled == s.settled + Ids(fs[n..])
    && (t.registered <==> !EndsFlush(fs, overflows)) && (t.phase.Open? <==> !EndsFlush(fs, overflows))
  }

  lemma {:induction false} FlushOrder(s: Session, fs: seq<Inbound>, overflows: FrameId -> bool)
    requires s.registered && s.phase.Open? && s.queue == []
    ensures FlushesAs(s, Flushed(s, fs, overflows), fs, overflows)
    decreases |fs|
  {
    if fs == [] {
      assert s.log + StartMarks(Ids(fs[..0])) + [] == s.log && s.settled + Ids(fs[0..]) == s.settled;
    } else {
      var next := Handled(s, fs[0], overflows(fs[0].id));
      if overflows(fs[0].id) {
        LastStarts(s, fs, overflows);
      } else {
        FlushOrder(next, fs[1..], overflows);
        OneMoreStarts(s, fs, overflows);
      }
    }
  }

  lemma LastStarts(s: Session, fs: seq<Inbound>, overflows: FrameId -> bool)
    requires s.registered && s.phase.Open? && s.queue == [] && fs != [] && overflows(fs[0].id)
    ensures FlushesAs(s, Flushed(s, fs, overflows), fs, overflows)
  {
    var next := Handled(s, fs[0], true);
    UnheldDrops(next, fs[1..], overflows);
    assert EndsFlush(fs, overflows) && HowManyStart(fs, overflows) == 1;
    assert Ids([]) == [] && next.settled == s.settled;
    assert StartMarks(Ids(fs[..1])) == [Start(fs[0].id)];
    assert next.log == s.log + [Start(fs[0].id)] + [End];
  }

  lemma OneMoreStarts(s: Session, fs: seq<Inbound>, overflows: FrameId -> bool)
    requires s.registered && s.phase.Open? && fs != [] && !overflows(fs[0].id)
    requires FlushesAs(Handled(s, fs[0], false), Flushed(s, fs, overflows), fs[1..], overflows)
    ensures FlushesAs(s, Flushed(s, fs, overflows), fs, overflows)
  {
    var next := Handled(s, fs[0], false);
    assert next.log == s.log + [Start(fs[0].id)] && next.settled == s.settled;
    RestFlushes(s, next, Flushed(s, fs, overflows), fs, overflows);
  }

  lemma RestFlushes(s: Session, next: Session, t: Session, fs: seq<Inbound>, overflows: FrameId -> bool)
    requires fs != [] && !overflows(fs[0].id) && FlushesAs(next, t, fs[1..], overflows)
    requires next.log == s.log + [Start(fs[0].id)] && next.settled == s.settled
    ensures FlushesAs(s, t, fs, overflows)
  {
    var rest, n := fs[1..], HowManyStart(fs, overflows);
    var tail := if EndsFlush(fs, overflows) then [End] else [];
    RestEnds(fs, overflows);
    MarksOfRest(fs, n);
    assert HowManyStart(rest, overflows) == n - 1;
    Regrouped(s.log, Start(fs[0].id), StartMarks(Ids(rest[..n - 1])), StartMarks(Ids(fs[..n])), tail);
  }

  lemma Regrouped(log: seq<Mark>, x: Mark, a: seq<Mark>, b: seq<Mark>, tail: seq<Mark>)
    requires [x] + a == b
    ensures log + [x] + a + tail == log + b + tail
  {
    assert log + [x] + a == log + ([x] + a);
  }

  lemma RestEnds(fs: seq<Inbound>, overflows: FrameId -> bool)
    requires fs != [] && !overflows(fs[0].id)
    ensures EndsFlush(fs, overflows) <==> EndsFlush(fs[1..], overflows)
  {
    var rest := fs[1..];
    assert forall i :: 0 <= i < |rest| ==> rest[i] == fs[i + 1];
    if i :| 0 <= i < |fs| && overflows(fs[i].id) { assert rest[i - 1] == fs[i]; }
  }

  lemma MarksOfRest(fs: seq<Inbound>, n: nat)
    requires 0 < n <= |fs|
    ensures [Start(fs[0].id)] + StartMarks(Ids(fs[1..][..n - 1])) == StartMarks(Ids(fs[..n]))
    ensures fs[1..][n - 1..] == fs[n..]
  {
  }

  /** What of a started frame is at work: its handler, when it took its id, or what is left of it. */
  function LiveBefore(live: map<RequestId, FrameId>, fs: seq<Inbound>): map<RequestId, FrameId> {
    if fs == [] then live
    else
      var before, f := LiveBefore(live, fs[..|fs| - 1]), fs[|fs| - 1];
      if TakesItsId(before, f.content) then before[f.content.id := f.id] else before
  }

  /** A request for a known method takes its id, if that is free and fewer than 128 are live. */
  predicate TakesItsId(live: map<RequestId, FrameId>, content: Content) {
    content.Request? && content.known && content.id !in live && |live| < 128
  }

  lemma {:induction false} LiveBeforeFirst(live: map<RequestId, FrameId>, f: Inbound, fs: seq<Inbound>)
    ensures LiveBefore(live, [f] + fs) == LiveBefore(LiveWith(live, f), fs)
  {
    if fs == [] {
      assert [f] + fs == [f] && [f][..0] == [];
      assert LiveBefore(live, []) == live;
    } else {
      LiveBeforeFirst(live, f, fs[..|fs| - 1]);
      assert ([f] + fs)[..|fs|] == [f] + fs[..|fs| - 1];
    }
  }

  function Turn(live: map<RequestId, FrameId>, content: Content): Work {
    if TakesItsId(live, content) then Running(content.id) else Returning
  }

  /** The first `n` frames are at work, each under its request's id exactly when it could take it in its turn. */
  ghost predicate WorksAs(live: map<RequestId, FrameId>, work: map<FrameId, Work>, after: map<FrameId, Work>,
                          fs: seq<Inbound>, n: nat)
    requires n <= |fs|
  {
    && (forall i :: 0 <= i < n ==> WorksAt(live, after, fs, i))
    && (forall g :: g in work ==> g in after && after[g] == work[g])
  }

  ghost predicate WorksAt(live: map<RequestId, FrameId>, after: map<FrameId, Work>, fs: seq<Inbound>, i: nat)
    requires i < |fs|
  {
    fs[i].id in after && after[fs[i].id] == Turn(LiveBefore(live, fs[..i]), fs[i].content)
  }

  /** Frames still to start: none at work yet, and no two the same. */
  ghost predicate Unstarted(work: map<FrameId, Work>, fs: seq<Inbound>) {
    && (forall i, j :: 0 <= i < j < |fs| ==> fs[i].id != fs[j].id)
    && (forall i :: 0 <= i < |fs| ==> fs[i].id !in work)
  }

  lemma RestUnstarted(work: map<FrameId, Work>, fs: seq<Inbound>, turn: Work)
    requires fs != [] && Unstarted(work, fs)
    ensures Unstarted(work[fs[0].id := turn], fs[1..])
  {
    var rest := fs[1..];
    assert forall i :: 0 <= i < |rest| ==> rest[i] == fs[i + 1];
  }

  lemma FirstWorks(live: map<RequestId, FrameId>, work: map<FrameId, Work>, fs: seq<Inbound>)
    requires fs != [] && fs[0].id !in work
    ensures WorksAs(live, work, work[fs[0].id := Turn(live, fs[0].content)], fs, 1)
  {
    assert fs[..0] == [];
  }

  lemma RestWorks(live: map<RequestId, FrameId>, work: map<FrameId, Work>, after: map<FrameId, Work>,
                  fs: seq<Inbound>, n: nat)
    requires fs != [] && 0 < n <= |fs| && fs[0].id !in work
    requires WorksAs(LiveWith(live, fs[0]), work[fs[0].id := Turn(live, fs[0].content)], after, fs[1..], n - 1)
    ensures WorksAs(live, work, after, fs, n)
  {
    var rest, first := fs[1..], work[fs[0].id := Turn(live, fs[0].content)];
    assert forall g :: g in work ==> g in first && first[g] == work[g];
    forall i | 0 <= i < n
      ensures WorksAt(live, after, fs, i)
    {
      if i == 0 {
        assert fs[..0] == [] && fs[0].id in first;
      } else {
        assert rest[i - 1] == fs[i] && WorksAt(LiveWith(live, fs[0]), after, rest, i - 1);
        assert fs[..i] == [fs[0]] + rest[..i - 1];
        LiveBeforeFirst(live, fs[0], rest[..i - 1]);
      }
    }
  }

  lemma RestLive(live: map<RequestId, FrameId>, fs: seq<Inbound>, n: nat)
    requires fs != [] && 0 < n <= |fs|
    ensures LiveBefore(live, fs[..n]) == LiveBefore(LiveWith(live, fs[0]), fs[1..][..n - 1])
  {
    assert fs[..n] == [fs[0]] + fs[1..][..n - 1];
    LiveBeforeFirst(live, fs[0], fs[1..][..n - 1]);
  }

  lemma {:induction false} FlushWork(s: Session, fs: seq<Inbound>, overflows: FrameId -> bool)
    requires s.registered && Unstarted(s.work, fs)
    ensures var t, n := Flushed(s, fs, overflows), HowManyStart(fs, overflows);
            WorksAs(s.live, s.work, t.work, fs, n) && t.live == LiveBefore(s.live, fs[..n])
    decreases |fs|
  {
    if fs != [] {
      var next, rest := Handled(s, fs[0], overflows(fs[0].id)), fs[1..];
      FirstWork(s, fs[0], overflows(fs[0].id));
      RestLive(s.live, fs, HowManyStart(fs, overflows));
      if overflows(fs[0].id) {
        UnheldDrops(next, rest, overflows);
        FirstWorks(s.live, s.work, fs);
      } else {
        RestUnstarted(s.work, fs, Turn(s.live, fs[0].content));
        FlushWork(next, rest, overflows);
        RestWorks(s.live, s.work, Flushed(s, fs, overflows).work, fs, HowManyStart(fs, overflows));
      }
    }
  }

  /** What one start makes of the live ids and the work. */
  lemma FirstWork(s: Session, f: Inbound, overflows: bool)
    requires f.id !in s.work
    ensures var next := Handled(s, f, overflows);
            && next.live == LiveWith(s.live, f) && next.work == s.work[f.id := Turn(s.live, f.content)]
            && (next.registered <==> s.registered && !overflows)
  {
    StartedParts(s, f);
    EndedKeepsWork(Started(s, f));
    EndedIsUnheld(Started(s, f));
  }

  lemma StartedParts(s: Session, f: Inbound)
    ensures var t := Started(s, f);
            && t.live == LiveWith(s.live, f) && t.work == s.work[f.id := Turn(s.live, f.content)]
            && t.registered == s.registered
  {
  }

  lemma EndedIsUnheld(s: Session)
    ensures !EndedNow(s).registered
  {
  }

  // ----- The opening completes -----

  /** The events that complete the opening: the tick with no hook to await, or the hook's return. */
  predicate CompletesOpening(s: Session, limits: Limits, e: Event) {
    (e.Ticks? && !limits.hasOpenHook) || (e.HookReturns? && e.ok)
  }

  function OverflowsOf(e: Event): FrameId -> bool
    requires e.Ticks? || e.HookReturns?
  {
    if e.Ticks? then e.overflows else e.flushOverflows
  }

  /**
   * When the opening of a held socket completes, the socket opens and the queue starts, frame by
   * frame in arrival order, up to and including the first whose start overflows; the rest settle
   * unstarted. Each started one is at work, and a known request runs under its id if that was free,
   * and the ceiling not reached, when its turn came.
   */
  lemma OpeningStartsTheQueue(limits: Limits, es: seq<Event>, e: Event)
    requires IsRun(limits, es + [e]) && IsRun(limits, es)
    requires var s := RunOf(limits, es); s.phase.Opening? && s.registered && CompletesOpening(s, limits, e)
    ensures var s, t := RunOf(limits, es), RunOf(limits, es + [e]);
            var n := HowManyStart(s.queue, OverflowsOf(e));
            && t.log == s.log + [Opened] + StartMarks(Ids(s.queue[..n]))
                        + (if EndsFlush(s.queue, OverflowsOf(e)) then [End] else [])
            && t.settled == s.settled + Ids(s.queue[n..]) && t.queue == []
            && (t.phase.Open? <==> !EndsFlush(s.queue, OverflowsOf(e)))
            && WorksAs(s.live, s.work, t.work, s.queue, n) && t.live == LiveBefore(s.live, s.queue[..n])
  {
    OneMore(limits, es, e);
    var s := RunOf(limits, es);
    assert Inv(s, limits) by { RunKeepsInv(limits, es); }
    FinishStartsTheQueue(if e.Ticks? then s.(timers := true) else s, limits, OverflowsOf(e));
  }

  lemma FinishStartsTheQueue(s: Session, limits: Limits, overflows: FrameId -> bool)
    requires Conserved(s, []) && OrderOk(s, []) && s.phase.Opening? && s.registered
    ensures var t, n := FinishedOpening(s, overflows), HowManyStart(s.queue, overflows);
            && t.log == s.log + [Opened] + StartMarks(Ids(s.queue[..n]))
                        + (if EndsFlush(s.queue, overflows) then [End] else [])
            && t.settled == s.settled + Ids(s.queue[n..]) && t.queue == []
            && (t.phase.Open? <==> !EndsFlush(s.queue, overflows))
            && WorksAs(s.live, s.work, t.work, s.queue, n) && t.live == LiveBefore(s.live, s.queue[..n])
  {
    var open := OpenedNow(s);
    FlushOrder(open, s.queue, overflows);
    QueuedIsNotAtWork(s);
    FlushWork(open, s.queue, overflows);
    FlushedQueue(open, s.queue, overflows);
  }

  lemma QueuedIsNotAtWork(s: Session)
    requires Conserved(s, []) && OrderOk(s, [])
    ensures Unstarted(s.work, s.queue)
  {
    forall i | 0 <= i < |s.queue|
      ensures s.queue[i].id !in s.work
    {
      var id := s.queue[i].id;
      DistinctOnce(s.promised, id);
      assert Ids(s.queue)[i] == id;
      assert id in multiset(Ids(s.queue));
    }
  }

  lemma {:induction false} FlushedQueue(s: Session, fs: seq<Inbound>, overflows: FrameId -> bool)
    requires s.queue == []
    ensures Flushed(s, fs, overflows).queue == []
    decreases |fs|
  {
    if fs != [] {
      FlushedQueue(if s.registered then Handled(s, fs[0], overflows(fs[0].id))
                   else s.(settled := s.settled + [fs[0].id]), fs[1..], overflows);
    }
  }

  // ----- Messages -----

  /** A socket that ends here and now: its queue settles, and nothing it was admitted with stays. */
  ghost predicate EndsHere(s: Session, t: Session) {
    && t.phase.Ended? && !t.registered && !t.timers && t.queue == [] && t.work == s.work && t.promised == s.promised
    && t.log == s.log + [End] && t.settled == s.settled + Ids(s.queue)
  }

  lemma EndOutcome(s: Session)
    requires !s.phase.Ended?
    ensures EndsHere(s, EndedNow(s))
  {
  }

  /** Whether one more frame passes the queue's bounds by count or by bytes. */
  predicate OverflowsQueue(s: Session, limits: Limits, bytes: nat) {
    |s.queue| >= 256 || Bytes(s.queue) + bytes > limits.queueMaxBytes
  }

  /**
   * What a message comes to: nothing on an ended socket, the end when it is too big, when it passes the
   * queue's bounds while opening, or when the registry no longer holds the connection; the last place
   * in the queue while opening; and on an open, held socket its start, at once.
   */
  lemma MessageOutcome(limits: Limits, es: seq<Event>, bytes: nat, content: Content, tooBig: bool, overflows: bool)
    requires IsRun(limits, es) && IsRun(limits, es + [Message(bytes, content, tooBig, overflows)])
    ensures var s, t := RunOf(limits, es), RunOf(limits, es + [Message(bytes, content, tooBig, overflows)]);
            var f := Inbound(s.nextFrame, bytes, content);
            if s.phase.Ended? then t == s.(nextFrame := s.nextFrame + 1)
            else if tooBig || (s.phase.Opening? && OverflowsQueue(s, limits, bytes)) || (s.phase.Open? && !s.registered)
            then EndsHere(s, t)
            else && t.promised == s.promised + [f.id] && f.id !in s.promised
                 && if s.phase.Opening?
                    then t.queue == s.queue + [f] && t.log == s.log && t.work == s.work && t.phase.Opening?
                    else && t.log == s.log + [Start(f.id)] + (if overflows then [End] else [])
                         && f.id in t.work && t.settled == s.settled && (t.phase.Open? <==> !overflows)
  {
    OneMore(limits, es, Message(bytes, content, tooBig, overflows));
    var s := RunOf(limits, es);
    assert Conserved(s, []) && QueueOk(s, limits) && PhaseOk(s) by { RunKeepsInv(limits, es); }
    assert s.nextFrame !in s.promised;
    MessageStep(s, limits, bytes, content, tooBig, overflows);
  }

  lemma MessageStep(s: Session, limits: Limits, bytes: nat, content: Content, tooBig: bool, overflows: bool)
    requires PhaseOk(s) && QueueOk(s, limits)
    ensures var t := Received(s, limits, bytes, content, tooBig, overflows);
            var f := Inbound(s.nextFrame, bytes, content);
            if s.phase.Ended? then t == s.(nextFrame := s.nextFrame + 1)
            else if tooBig || (s.phase.Opening? && OverflowsQueue(s, limits, bytes)) || (s.phase.Open? && !s.registered)
            then EndsHere(s, t)
            else && t.promised == s.promised + [f.id]
                 && if s.phase.Opening?
                    then t.queue == s.queue + [f] && t.log == s.log && t.work == s.work && t.phase.Opening?
                    else && t.log == s.log + [Start(f.id)] + (if overflows then [End] else [])
                         && f.id in t.work && t.settled == s.settled && (t.phase.Open? <==> !overflows)
  {
    var f := Inbound(s.nextFrame, bytes, content);
    if !s.phase.Ended? {
      EndOutcome(Dropped(s));
      if s.phase.Open? && !tooBig && s.registered { DispatchStep(Promised(s, f), f, overflows); }
    }
  }

  lemma DispatchStep(s: Session, f: Inbound, overflows: bool)
    requires s.phase.Open? && s.queue == []
    ensures var t := Handled(s, f, overflows);
            && t.log == s.log + [Start(f.id)] + (if overflows then [End] else []) && f.id in t.work
            && t.settled == s.settled && t.promised == s.promised && (t.phase.Open? <==> !overflows)
  {
    var t := Started(s, f);
    EndOutcome(t);
    assert s.settled + Ids([]) == s.settled;
  }

  // ----- Opening, the re-read and the end -----

  /** Opening registers the connection, unless the socket is born closed or has ended already. */
  lemma OpensOutcome(s: Session, limits: Limits, bornClosed: bool)
    requires Inv(s, limits) && s.stage.NotOpened?
    ensures var t := Step(s, limits, Opens(bornClosed));
            && t.captured && (t.registered <==> !bornClosed && !s.phase.Ended?)
            && (t.stage.Rereading? <==> t.registered)
            && (bornClosed ==> t.phase.Ended?)
  {
  }

  /**
   * The admission is marked exactly when the re-read passed and the connection is still held; otherwise
   * the socket ends.
   */
  lemma RecheckOutcome(s: Session, limits: Limits, answer: Recheck)
    requires Inv(s, limits) && s.stage.Rereading?
    ensures var t := Step(s, limits, Rechecked(answer));
            if answer.Live? && s.registered
            then t.wasAdmitted && t.log == s.log + [Admission] && t.phase == s.phase && t.queue == s.queue
            else !t.wasAdmitted && t.phase.Ended? && (!s.phase.Ended? ==> EndsHere(s.(stage := Over), t))
  {
    if !s.phase.Ended? { EndOutcome(s.(stage := Over)); }
  }

  /** After an admission the timers run, and the hook is awaited where there is one, unless the socket has ended. */
  lemma TickOutcome(s: Session, limits: Limits, overflows: FrameId -> bool)
    requires Inv(s, limits) && s.stage.AdmittedTick? && limits.hasOpenHook
    ensures var t := Step(s, limits, Ticks(overflows));
            t.stage.InOpenHook? && t.log == s.log && (t.timers <==> !s.phase.Ended? || s.timers) && t.phase == s.phase
  {
  }

  /**
   * A timer, a failed hook, the registry and the peer each end the socket; the peer's close runs the
   * close hook, if admitted.
   */
  lemma EndingsOutcome(s: Session, limits: Limits, e: Event)
    requires Inv(s, limits) && Possible(s, e)
    requires e.TimerFires? || e.RegistryEnds? || e.Closes? || (e.HookReturns? && !e.ok)
    ensures var t := Step(s, limits, e);
            && t.phase.Ended? && t.queue == [] && t.work == s.work
            && t.log == s.log + (if s.phase.Ended? then [] else [End])
                        + (if e.Closes? && s.captured && s.wasAdmitted then [CloseHook] else [])
            && t.settled == s.settled + Ids(s.queue)
  {
    var before := if e.HookReturns? then s.(stage := Over) else s;
    if s.phase.Ended? {
      assert s.settled + Ids([]) == s.settled && s.log + [] == s.log;
    } else {
      EndOutcome(before);
    }
  }

  /** A bare removal ends nothing by itself: the socket is no longer held, and all else stays. */
  lemma ForgottenOutcome(s: Session, limits: Limits)
    requires Inv(s, limits) && s.registered
    ensures var t := Step(s, limits, RegistryForgets);
            && !t.registered && t.phase == s.phase && t.log == s.log && t.queue == s.queue
            && t.work == s.work && t.live == s.live && t.settled == s.settled && t.wasAdmitted == s.wasAdmitted
  {
  }

  /** A handler's return answers, if it replies on a held connection, and its promise settles once the rest is done. */
  lemma ReturnOutcome(s: Session, limits: Limits, frame: FrameId, replies: bool)
    requires Inv(s, limits) && IsRunning(s, frame)
    ensures var t := Step(s, limits, HandlerReturns(frame, replies));
            var d := Step(t, limits, Completes(frame));
            && t.log == s.log + (if replies && s.registered then [Reply(frame)] else [])
            && Possible(t, Completes(frame)) && frame !in d.work && d.settled == s.settled + [frame]
            && s.work[frame].request !in t.live
  {
  }
}
