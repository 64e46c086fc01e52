/** What the outbound writer promises over whole runs. */
module OutboundTheorems {
  import opened Common
  import opened OutboundModel
  import opened OutboundRuns

  function RunOf(env: Env, es: seq<Event>): Writer {
    if es == [] then NEW_WRITER else Step(env, RunOf(env, es[..|es| - 1]), es[|es| - 1])
  }

  predicate IsRun(env: Env, es: seq<Event>) {
    es != [] ==> IsRun(env, es[..|es| - 1]) && Possible(RunOf(env, es[..|es| - 1]), es[|es| - 1])
  }

  lemma {:induction false} RunKeepsInv(env: Env, es: seq<Event>)
    requires IsRun(env, es)
    ensures Inv(env, RunOf(env, es))
  {
    if es != [] {
      RunKeepsInv(env, es[..|es| - 1]);
      StepKeepsInv(env, RunOf(env, es[..|es| - 1]), es[|es| - 1]);
    }
  }

  // ----- Order and conservation -----

  /** No send throws. */
  ghost predicate Steady(env: Env) {
    forall n :: !env.throws(n)
  }

  ghost predicate AllTook(offers: seq<Offer>) {
    forall i :: 0 <= i < |offers| ==> offers[i].took
  }

  lemma {:induction false} AllTaken(offers: seq<Offer>)
    requires AllTook(offers)
    ensures Taken(offers) == Frames(offers)
  {
    if offers != [] { AllTaken(offers[..|offers| - 1]); }
  }

  lemma {:induction false} HandedOverTook(env: Env, w: Writer, buffered: nat, stop: bool)
    requires Steady(env) && AllTook(w.offered) && w.thrownSince == 0
    ensures var d := HandedOver(env, w, buffered, stop).0;
            AllTook(d.offered) && d.thrownSince == 0
    decreases |w.waiting|
  {
    if w.waiting != [] && buffered < HIGH_WATER {
      HandedOverTook(env, HandedOne(env, w), Buffered(HandedOne(env, w).socket), stop);
    }
  }

  lemma DrainedTook(env: Env, w: Writer)
    requires Steady(env) && AllTook(w.offered) && w.thrownSince == 0
    ensures AllTook(Drained(env, w).offered) && Drained(env, w).thrownSince == 0
  {
    HandedOverTook(env, Checked(w), Buffered(w.socket), false);
  }

  lemma PushTook(env: Env, w: Writer, f: Frame)
    requires Steady(env) && AllTook(w.offered) && w.thrownSince == 0
    ensures AllTook(Pushed(env, w, f).0.offered) && Pushed(env, w, f).0.thrownSince == 0
  {
  }

  lemma StepTook(env: Env, w: Writer, e: Event)
    requires Steady(env) && AllTook(w.offered) && w.thrownSince == 0
    ensures AllTook(Step(env, w, e).offered) && Step(env, w, e).thrownSince == 0
  {
    match e
    case PushFrame(frame) => PushTook(env, w, frame);
    case PumpTurn => DrainedTook(env, w.(pump := false));
    case PollFires => DrainedTook(env, PollTaken(w));
    case Close(_) => HandedOverTook(env, Quieted(w, Closing), Buffered(w.socket), true);
    case _ =>
  }

  lemma {:induction false} RunTook(env: Env, es: seq<Event>)
    requires IsRun(env, es) && Steady(env)
    ensures AllTook(RunOf(env, es).offered) && RunOf(env, es).thrownSince == 0
  {
    if es != [] {
      RunTook(env, es[..|es| - 1]);
      StepTook(env, RunOf(env, es[..|es| - 1]), es[|es| - 1]);
    }
  }

  /**
   * Whatever the socket throws on, the frames accepted are, in the order they were pushed, those
   * offered to the socket, then those waiting, then what a close discarded; the socket has exactly
   * the offered ones it did not throw on, in that order; and nothing is discarded while open. The
   * write-through path never overtakes.
   */
  lemma AcceptedIsHandedThenWaiting(env: Env, es: seq<Event>)
    requires IsRun(env, es)
    ensures var w := RunOf(env, es);
            && w.accepted == Frames(w.offered) + w.waiting + w.discarded
            && DataOf(w.socket.log) == Taken(w.offered)
            && (w.state.Open? ==> w.discarded == [])
  {
    RunKeepsInv(env, es);
  }

  /** So one that never throws has every frame accepted that neither waits nor was discarded. */
  lemma SteadyLosesNothing(env: Env, es: seq<Event>)
    requires IsRun(env, es) && Steady(env)
    ensures var w := RunOf(env, es);
            && w.accepted == DataOf(w.socket.log) + w.waiting + w.discarded
            && (w.state.Open? ==> w.accepted == DataOf(w.socket.log) + w.waiting)
  {
    RunKeepsInv(env, es);
    RunTook(env, es);
    AllTaken(RunOf(env, es).offered);
  }

  /** Whatever the socket throws on, each push is accepted or leaves the record alone, and none waits unscheduled. */
  lemma OpenRunsAreScheduled(env: Env, es: seq<Event>, f: Frame)
    requires IsRun(env, es)
    ensures var w := RunOf(env, es);
            var (d, push) := Pushed(env, w, f);
            && d.accepted == (if push.Accepted? then w.accepted + [f] else w.accepted)
            && (d.state.Open? && (d.waiting != [] || Buffered(d.socket) > 0) ==> d.pump || d.poll.Some?)
            && (d.state.Open? && Buffered(d.socket) > 0 ==> d.stall)
            && (push.Refused? <==> !w.state.Open? || (IsIdle(w) && env.throws(w.socket.sends)))
  {
    RunKeepsInv(env, es);
    PushedKeepsInv(env, RunOf(env, es), f);
  }

  // ----- Closing -----

  lemma SplitAccepted(a: seq<Frame>, b: seq<Frame>, w: seq<Frame>, k: nat)
    requires k <= |w| && a + w == b + w[k..]
    ensures b == a + w[..k]
  {
    assert w == w[..k] + w[k..];
    assert a + w == (a + w[..k]) + w[k..];
    assert |b| == |a + w[..k]|;
    assert forall i :: 0 <= i < |b| ==> b[i] == (b + w[k..])[i] && (a + w[..k])[i] == ((a + w[..k]) + w[k..])[i];
  }

  lemma FlushPrefix(env: Env, q: Writer)
    requires Sound(env, q) && q.discarded == []
    ensures var f := HandedOver(env, q, Buffered(q.socket), true).0;
            var k := |q.waiting| - |f.waiting|;
            && k >= 0 && f.waiting == q.waiting[k..] && f.discarded == [] && f.accepted == q.accepted
            && f.state == q.state && InOrder(f)
  {
    HandedOverPrefix(env, q, Buffered(q.socket), true);
    HandedOverControls(env, q, Buffered(q.socket), true);
    HandedOverKeeps(env, q, true);
  }

  lemma OfferedPrefix(w: Writer, f: Writer)
    requires InOrder(w) && InOrder(f) && w.discarded == [] && f.discarded == [] && f.accepted == w.accepted
    requires |f.waiting| <= |w.waiting| && f.waiting == w.waiting[|w.waiting| - |f.waiting|..]
    ensures Frames(f.offered) == Frames(w.offered) + w.waiting[..|w.waiting| - |f.waiting|]
  {
    assert Frames(f.offered) + f.waiting == f.accepted;
    assert Frames(w.offered) + w.waiting == w.accepted;
    SplitAccepted(Frames(w.offered), Frames(f.offered), w.waiting, |w.waiting| - |f.waiting|);
  }

  lemma FlushedSuffix(env: Env, w: Writer)
    requires Inv(env, w) && w.state.Open?
    ensures var f := FlushedFor(env, Quieted(w, Closing), Flush);
            var k := |w.waiting| - |f.waiting|;
            && k >= 0 && f.waiting == w.waiting[k..] && Frames(f.offered) == Frames(w.offered) + w.waiting[..k]
            && f.discarded == [] && f.state.Closing?
            && (Steady(env) && f.waiting != [] ==> Buffered(f.socket) >= HIGH_WATER)
  {
    var quiet := Quieted(w, Closing);
    assert Sound(env, quiet);
    FlushPrefix(env, quiet);
    OfferedPrefix(quiet, FlushedFor(env, quiet, Flush));
    if Steady(env) {
      SteadyStop(env, quiet, Buffered(quiet.socket));
    }
  }

  lemma CloseSentRecord(env: Env, f: Writer)
    requires f.discarded == []
    ensures var d := CloseSent(env, f);
            && d.discarded == f.waiting && d.offered == f.offered && d.waiting == [] && d.state == f.state
            && Buffered(d.socket) == Buffered(f.socket)
  {
    assert f.waiting + [] == f.waiting;
  }

  /** A close offers a prefix of what waits to the socket - none of it to discard - and drops the suffix. */
  lemma CloseDropsASuffix(env: Env, w: Writer, backlog: Backlog)
    requires Inv(env, w) && w.state.Open?
    ensures var d := ClosedWith(env, w, backlog);
            var k := |w.waiting| - |d.discarded|;
            && k >= 0 && d.discarded == w.waiting[k..] && Frames(d.offered) == Frames(w.offered) + w.waiting[..k]
            && (backlog.Discard? ==> k == 0)
            && (Steady(env) && backlog.Flush? && d.discarded != [] ==> Buffered(d.socket) >= HIGH_WATER)
            && !d.state.Open? && d.waiting == []
  {
    var f := FlushedFor(env, Quieted(w, Closing), backlog);
    if backlog.Flush? {
      FlushedSuffix(env, w);
    } else {
      assert w.waiting[0..] == w.waiting && w.waiting[..0] == [];
    }
    CloseSentRecord(env, f);
  }

  /** With no throw to stop it, a flush stops only at the mark. */
  lemma {:induction false} SteadyStop(env: Env, w: Writer, buffered: nat)
    requires Steady(env) && buffered == Buffered(w.socket)
    ensures var d := HandedOver(env, w, buffered, true).0;
            d.waiting == [] || Buffered(d.socket) >= HIGH_WATER
    decreases |w.waiting|
  {
    if w.waiting != [] && buffered < HIGH_WATER {
      SteadyStop(env, HandedOne(env, w), Buffered(HandedOne(env, w).socket));
    }
  }

  lemma ClosedStaysClosed(env: Env, w: Writer, e: Event)
    requires Inv(env, w) && Possible(w, e) && !w.state.Open?
    ensures !Step(env, w, e).state.Open? && DataOf(Step(env, w, e).socket.log) == DataOf(w.socket.log)
    ensures Step(env, w, e).accepted == w.accepted
  {
    DataAppend(w.socket.log, Cut);
  }

  lemma LastAfterClose(env: Env, es: seq<Event>, e: Event)
    requires IsRun(env, es + [e]) && !RunOf(env, es).state.Open?
    ensures var w, t := RunOf(env, es), RunOf(env, es + [e]);
            && !t.state.Open? && DataOf(t.socket.log) == DataOf(w.socket.log) && t.accepted == w.accepted
  {
    OneMore(env, es, e);
    RunKeepsInv(env, es);
    ClosedStaysClosed(env, RunOf(env, es), e);
  }

  /** Once closed, the socket is never sent data again, whatever is pushed or fires, nor is a frame accepted. */
  lemma {:induction false} NothingFollowsTheClose(env: Env, es: seq<Event>, more: seq<Event>)
    requires IsRun(env, es) && IsRun(env, es + more) && !RunOf(env, es).state.Open?
    ensures !RunOf(env, es + more).state.Open?
    ensures DataOf(RunOf(env, es + more).socket.log) == DataOf(RunOf(env, es).socket.log)
    ensures RunOf(env, es + more).accepted == RunOf(env, es).accepted
  {
    if more == [] {
      assert es + more == es;
    } else {
      var before, e := es + more[..|more| - 1], more[|more| - 1];
      assert es + more == before + [e];
      OneMore(env, before, e);
      NothingFollowsTheClose(env, es, more[..|more| - 1]);
      LastAfterClose(env, before, e);
    }
  }

  /** A frame pushed at an idle open connection reaches the socket, ahead of a close right after it. */
  lemma IdlePushPrecedesTheClose(env: Env, w: Writer, f: Frame, backlog: Backlog)
    requires Inv(env, w) && w.state.Open? && IsIdle(w) && Steady(env) && !env.closeThrows
    ensures ClosedWith(env, Pushed(env, w, f).0, backlog).socket.log == w.socket.log + [Data(f), CloseFrame]
  {
    var pushed := Pushed(env, w, f).0;
    assert pushed.waiting == [] && pushed.socket.log == w.socket.log + [Data(f)];
  }

  // ----- The write deadline -----

  /**
   * What a drain decides about the deadline, on any socket: it is cleared exactly when the bytes
   * written reach those covered less those the socket has since thrown on.
   */
  lemma DeadlineCleared(env: Env, w: Writer)
    requires Inv(env, w) && w.stall
    ensures !Checked(w).stall <==> w.covered <= w.socket.written + w.thrownSince
  {
  }

  /**
   * So on a socket that does not throw the deadline is exact: cleared when every byte buffered at
   * its arming is written, and left armed when one is not.
   */
  lemma DeadlineExact(env: Env, es: seq<Event>)
    requires IsRun(env, es) && Steady(env) && RunOf(env, es).stall
    ensures var w := RunOf(env, es);
            !Checked(w).stall <==> w.covered <= w.socket.written
  {
    RunKeepsInv(env, es);
    RunTook(env, es);
  }

  /**
   * On any other it is never late, and is cleared over unwritten bytes exactly when the frames the
   * socket has thrown on since the arming hold as many.
   */
  lemma DeadlineClearedEarly(env: Env, w: Writer)
    requires Inv(env, w) && w.stall
    ensures Checked(w).stall ==> w.socket.written < w.covered
    ensures w.socket.written < w.covered ==>
              (!Checked(w).stall <==> w.covered - w.socket.written <= w.thrownSince)
  {
  }

  ghost predicate Threw(offers: seq<Offer>) {
    exists i :: 0 <= i < |offers| && !offers[i].took && offers[i].frame.bytes > 0
  }

  /** Bytes count as thrown only for a send that threw. */
  ghost predicate ThrownByOffers(w: Writer) {
    w.thrownSince > 0 ==> Threw(w.offered)
  }

  lemma OfferKeepsThrown(env: Env, w: Writer, f: Frame)
    requires ThrownByOffers(w)
    ensures ThrownByOffers(OfferedTo(env, w, f))
  {
    var d := OfferedTo(env, w, f);
    assert d.offered[|w.offered|] == Offer(f, !env.throws(w.socket.sends));
    assert forall i :: 0 <= i < |w.offered| ==> d.offered[i] == w.offered[i];
  }

  lemma {:induction false} HandedOverThrown(env: Env, w: Writer, buffered: nat, stop: bool)
    requires ThrownByOffers(w)
    ensures ThrownByOffers(HandedOver(env, w, buffered, stop).0)
    decreases |w.waiting|
  {
    if w.waiting != [] && buffered < HIGH_WATER {
      OfferKeepsThrown(env, Unlinked(w), w.waiting[0]);
      HandedOverThrown(env, HandedOne(env, w), Buffered(HandedOne(env, w).socket), stop);
    }
  }

  lemma WatchedThrown(w: Writer, buffered: nat)
    requires ThrownByOffers(w)
    ensures ThrownByOffers(Watched(w, buffered))
  {
    assert Watched(w, buffered).offered == w.offered;
    assert Watched(w, buffered).thrownSince in {0, w.thrownSince};
  }

  lemma DrainedThrown(env: Env, w: Writer)
    requires ThrownByOffers(w)
    ensures ThrownByOffers(Drained(env, w))
  {
    HandedOverThrown(env, Checked(w), Buffered(w.socket), false);
    var (handed, buffered) := HandedOver(env, Checked(w), Buffered(w.socket), false);
    WatchedThrown(PollReset(handed, Checked(w).budget.frames), buffered);
  }

  lemma PushedThrown(env: Env, w: Writer, f: Frame)
    requires ThrownByOffers(w)
    ensures ThrownByOffers(Pushed(env, w, f).0)
  {
    var sent := SentIdle(env, w, f);
    var recorded := Recorded(sent, f);
    assert forall i :: 0 <= i < |w.offered| ==> recorded.offered[i] == w.offered[i];
    WatchedThrown(recorded, Buffered(sent.socket));
  }

  lemma StepThrown(env: Env, w: Writer, e: Event)
    requires ThrownByOffers(w)
    ensures ThrownByOffers(Step(env, w, e))
  {
    match e
    case PushFrame(frame) => PushedThrown(env, w, frame);
    case PumpTurn => DrainedThrown(env, w.(pump := false));
    case PollFires => DrainedThrown(env, PollTaken(w));
    case Close(_) => HandedOverThrown(env, Quieted(w, Closing), Buffered(w.socket), true);
    case _ =>
  }

  /** So a run in which it is cleared early is one in which a frame's send threw. */
  lemma {:induction false} EarlyOnlyAfterAThrow(env: Env, es: seq<Event>)
    requires IsRun(env, es)
    ensures ThrownByOffers(RunOf(env, es))
    ensures var w := RunOf(env, es);
            w.stall && w.socket.written < w.covered && !Checked(w).stall ==> w.thrownSince > 0 && Threw(w.offered)
  {
    if es != [] {
      EarlyOnlyAfterAThrow(env, es[..|es| - 1]);
      StepThrown(env, RunOf(env, es[..|es| - 1]), es[|es| - 1]);
    }
    RunKeepsInv(env, es);
  }

  /**
   * It does happen: a frame of 100 bytes is sent, the send of a second of 200 throws in the pump, and
   * the poll then finds the deadline met with not one byte written.
   */
  lemma DeadlineMetUnwritten(env: Env, a: Frame, b: Frame)
    requires env.maxBytes >= 1000 && a.bytes == 100 && b.bytes == 200
    requires !env.throws(0) && env.throws(1)
    ensures var es := [PushFrame(a), PushFrame(b), PumpTurn];
            var w := RunOf(env, es);
            && IsRun(env, es) && Possible(w, PollFires)
            && w.stall && w.covered == 100 && w.socket.written == 0 && !Checked(w).stall
  {
    OneMore(env, [], PushFrame(a));
    OneMore(env, [PushFrame(a)], PushFrame(b));
    OneMore(env, [PushFrame(a), PushFrame(b)], PumpTurn);
    var sent := RunOf(env, [PushFrame(a)]);
    assert sent == WrittenThrough(env, NEW_WRITER, a) && Buffered(sent.socket) == 100;
    assert RunOf(env, [PushFrame(a), PushFrame(b)]) == Queued(sent, b);
    assert [PushFrame(a), PushFrame(b)] + [PumpTurn] == [PushFrame(a), PushFrame(b), PumpTurn];
    PumpThrows(env, Queued(sent, b), b);
  }

  lemma PumpThrows(env: Env, w: Writer, f: Frame)
    requires w.state.Open? && w.waiting == [f] && env.throws(w.socket.sends)
    requires w.stall && !Met(w) && w.poll.Some? && Buffered(w.socket) < HIGH_WATER
    ensures var d := PumpRun(env, w);
            && d.stall && d.covered == w.covered && d.socket == w.socket.(sends := w.socket.sends + 1)
            && d.handedSince == w.handedSince + f.bytes && d.poll.Some?
  {
    var ran := w.(pump := false);
    assert Checked(ran) == ran;
    var next := HandedOne(env, ran);
    assert next.waiting == [];
    assert HandedOver(env, ran, Buffered(w.socket), false) == (next, Buffered(w.socket));
  }

  lemma OneMore(env: Env, es: seq<Event>, e: Event)
    ensures RunOf(env, es + [e]) == Step(env, RunOf(env, es), e)
    ensures IsRun(env, es + [e]) <==> IsRun(env, es) && Possible(RunOf(env, es), e)
  {
    assert (es + [e])[..|es + [e]| - 1] == es;
  }

  // ----- The mark -----

  /** The socket's buffer stays under the mark plus the frame it took last, closed or not. */
  lemma BufferUnderMark(env: Env, es: seq<Event>)
    requires IsRun(env, es)
    ensures var s := RunOf(env, es).socket;
            Buffered(s) < HIGH_WATER + LastBytes(DataOf(s.log))
  {
    RunKeepsInv(env, es);
  }

  /** A pump turn leaves nothing waiting unless the buffer is at the mark. */
  lemma PumpRunsDry(env: Env, w: Writer)
    requires Inv(env, w) && w.state.Open? && w.pump
    ensures PumpRun(env, w).waiting == [] || Buffered(PumpRun(env, w).socket) >= HIGH_WATER
  {
    DrainedKeeps(env, w.(pump := false));
  }
}
