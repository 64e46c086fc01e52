/** The writer over whole runs: order, conservation, scheduling and the deadline arithmetic. */
module OutboundRuns {
  import opened Common
  import opened OutboundModel

  // ----- Appending to the records -----

  lemma FramesAppend(offers: seq<Offer>, o: Offer)
    ensures Frames(offers + [o]) == Frames(offers) + [o.frame]
    ensures Taken(offers + [o]) == Taken(offers) + if o.took then [o.frame] else []
  {
    assert (offers + [o])[..|offers|] == offers;
  }

  lemma DataAppend(log: seq<Sent>, x: Sent)
    ensures DataOf(log + [x]) == DataOf(log) + if x.Data? then [x.frame] else []
  {
    assert (log + [x])[..|log|] == log;
  }

  lemma SumAppend(fs: seq<Frame>, f: Frame)
    ensures Sum(fs + [f]) == Sum(fs) + f.bytes
  {
    assert (fs + [f])[..|fs|] == fs;
  }

  lemma {:induction false} SumHead(fs: seq<Frame>)
    requires fs != []
    ensures Sum(fs) == fs[0].bytes + Sum(fs[1..])
  {
    if |fs| > 1 {
      var init := fs[..|fs| - 1];
      SumHead(init);
      assert fs[1..][..|fs[1..]| - 1] == init[1..];
    }
  }

  // ----- Handing over -----

  lemma OfferedOne(env: Env, s: Socket, offers: seq<Offer>, f: Frame)
    requires DataOf(s.log) == Taken(offers)
    ensures DataOf(Offered(env, s, f).log) == Taken(offers + [Offer(f, !env.throws(s.sends))])
  {
    FramesAppend(offers, Offer(f, !env.throws(s.sends)));
    DataAppend(s.log, Data(f));
  }

  lemma OfferUnderMark(env: Env, s: Socket, f: Frame)
    requires UnderMark(s) && s.handed - s.written < HIGH_WATER
    ensures UnderMark(Offered(env, s, f))
  {
    DataAppend(s.log, Data(f));
  }

  lemma MoveHead(a: seq<Frame>, w: seq<Frame>, c: seq<Frame>)
    requires w != []
    ensures a + w + c == (a + [w[0]]) + w[1..] + c
  {
  }

  lemma HandedOneInOrder(env: Env, w: Writer)
    requires w.waiting != [] && InOrder(w)
    ensures InOrder(HandedOne(env, w))
  {
    var f, took := w.waiting[0], !env.throws(w.socket.sends);
    OfferedOne(env, w.socket, w.offered, f);
    FramesAppend(w.offered, Offer(f, took));
    MoveHead(Frames(w.offered), w.waiting, w.discarded);
    assert HandedOne(env, w).offered == w.offered + [Offer(f, took)];
  }

  lemma HandedOneBudgeted(env: Env, w: Writer)
    requires w.waiting != [] && Budgeted(env, w)
    ensures Budgeted(env, HandedOne(env, w))
  {
    SumHead(w.waiting);
  }

  ghost predicate DataOnly(s: Socket) {
    forall i :: 0 <= i < |s.log| ==> s.log[i].Data?
  }

  ghost predicate Sound(env: Env, w: Writer) {
    InOrder(w) && Budgeted(env, w) && Deadlined(w) && DataOnly(w.socket) && UnderMark(w.socket)
  }

  lemma OfferDataOnly(env: Env, s: Socket, f: Frame)
    requires DataOnly(s)
    ensures DataOnly(Offered(env, s, f))
  {
  }

  lemma HandedOneDeadlined(env: Env, w: Writer)
    requires w.waiting != [] && Deadlined(w)
    ensures Deadlined(HandedOne(env, w))
  {
  }

  lemma HandedOneKeeps(env: Env, w: Writer)
    requires w.waiting != [] && Sound(env, w) && Buffered(w.socket) < HIGH_WATER
    ensures Sound(env, HandedOne(env, w))
    ensures env.throws(w.socket.sends) ==> Buffered(HandedOne(env, w).socket) == Buffered(w.socket)
  {
    var d := HandedOne(env, w);
    assert InOrder(d) by { HandedOneInOrder(env, w); }
    assert Budgeted(env, d) by { HandedOneBudgeted(env, w); }
    assert Deadlined(d) by { HandedOneDeadlined(env, w); }
    assert UnderMark(d.socket) by { OfferUnderMark(env, w.socket, w.waiting[0]); }
    assert DataOnly(d.socket) by { OfferDataOnly(env, w.socket, w.waiting[0]); }
  }

  /** Everything about a writer the pump does not touch. */
  ghost predicate SameControls(w: Writer, d: Writer) {
    && d.state == w.state && d.pump == w.pump && d.poll == w.poll && d.pollDelay == w.pollDelay
    && d.lastBuffered == w.lastBuffered && d.stall == w.stall && d.closeTimer == w.closeTimer
    && d.covered == w.covered && d.discarded == w.discarded && d.accepted == w.accepted
    && d.socket.written == w.socket.written
  }

  lemma {:induction false} HandedOverControls(env: Env, w: Writer, buffered: nat, stop: bool)
    ensures SameControls(w, HandedOver(env, w, buffered, stop).0)
    decreases |w.waiting|
  {
    if w.waiting != [] && buffered < HIGH_WATER && !(stop && env.throws(w.socket.sends)) {
      HandedOverControls(env, HandedOne(env, w), Buffered(HandedOne(env, w).socket), stop);
    }
  }

  lemma TailOfTail<T>(s: seq<T>, k: nat)
    requires k < |s|
    ensures s[1..][|s| - 1 - k..] == s[|s| - k..]
  {
  }

  /** What leaves the queue is a prefix of it. */
  lemma {:induction false} HandedOverPrefix(env: Env, w: Writer, buffered: nat, stop: bool)
    ensures var d := HandedOver(env, w, buffered, stop).0;
            |d.waiting| <= |w.waiting| && d.waiting == w.waiting[|w.waiting| - |d.waiting|..]
    decreases |w.waiting|
  {
    if w.waiting != [] && buffered < HIGH_WATER && !(stop && env.throws(w.socket.sends)) {
      var next := HandedOne(env, w);
      assert HandedOver(env, w, buffered, stop) == HandedOver(env, next, Buffered(next.socket), stop);
      assert next.waiting == w.waiting[1..];
      HandedOverPrefix(env, next, Buffered(next.socket), stop);
      TailOfTail(w.waiting, |HandedOver(env, next, Buffered(next.socket), stop).0.waiting|);
    }
  }

  /** The pump's rule: frames go until nothing waits or the buffer is at the mark. */
  lemma {:induction false} HandedOverKeeps(env: Env, w: Writer, stop: bool)
    requires Sound(env, w)
    ensures var (d, buffered) := HandedOver(env, w, Buffered(w.socket), stop);
            && Sound(env, d) && buffered == Buffered(d.socket)
            && (!stop ==> d.waiting == [] || buffered >= HIGH_WATER)
    decreases |w.waiting|
  {
    if w.waiting != [] && Buffered(w.socket) < HIGH_WATER {
      var next := HandedOne(env, w);
      HandedOneKeeps(env, w);
      if !(stop && env.throws(w.socket.sends)) {
        HandedOverKeeps(env, next, stop);
        assert HandedOver(env, w, Buffered(w.socket), stop) == HandedOver(env, next, Buffered(next.socket), stop);
      }
    }
  }

  // ----- Every event keeps the invariant -----

  ghost predicate PollSane(w: Writer) {
    1 <= w.pollDelay <= POLL_MAX_DELAY && (w.poll.Some? ==> 1 <= w.poll.value <= POLL_MAX_DELAY)
  }

  lemma WatchedKeeps(env: Env, w: Writer)
    requires Sound(env, w) && PollSane(w)
    ensures var d := Watched(w, Buffered(w.socket));
            && Sound(env, d) && Scheduled(d) && d.waiting == w.waiting && d.socket == w.socket
            && d.state == w.state && d.discarded == w.discarded && d.closeTimer == w.closeTimer && d.pump == w.pump
            && d.accepted == w.accepted
  {
    var d := Watched(w, Buffered(w.socket));
    assert d.waiting == w.waiting && d.socket == w.socket && d.accepted == w.accepted && d.offered == w.offered
        && d.discarded == w.discarded && d.budget == w.budget;
    assert Deadlined(d);
    assert Scheduled(d);
  }

  lemma OpenKeepsInv(env: Env, w: Writer)
    requires Sound(env, w) && Scheduled(w) && w.state.Open? && w.discarded == [] && !w.closeTimer
    ensures Inv(env, w)
  {
  }

  /** Open and sound, but for what is scheduled. */
  ghost predicate Drainable(env: Env, w: Writer) {
    Sound(env, w) && PollSane(w) && w.state.Open? && w.discarded == [] && !w.closeTimer
  }

  lemma CheckedKeeps(env: Env, w: Writer)
    requires Drainable(env, w)
    ensures Drainable(env, Checked(w)) && Checked(w).socket == w.socket
  {
  }

  lemma PumpedKeeps(env: Env, w: Writer)
    requires Drainable(env, w)
    ensures var (d, buffered) := HandedOver(env, w, Buffered(w.socket), false);
            Drainable(env, d) && buffered == Buffered(d.socket) && (d.waiting == [] || buffered >= HIGH_WATER)
  {
    HandedOverKeeps(env, w, false);
    HandedOverControls(env, w, Buffered(w.socket), false);
  }

  lemma ResetKeeps(env: Env, w: Writer, frames: int)
    requires Drainable(env, w)
    ensures var d := PollReset(w, frames);
            Drainable(env, d) && d.waiting == w.waiting && d.socket == w.socket
  {
  }

  lemma WatchedKeepsInv(env: Env, w: Writer)
    requires Drainable(env, w)
    ensures var d := Watched(w, Buffered(w.socket));
            Inv(env, d) && d.state.Open? && d.waiting == w.waiting && d.socket == w.socket
  {
    WatchedKeeps(env, w);
    OpenKeepsInv(env, Watched(w, Buffered(w.socket)));
  }

  lemma DrainedKeeps(env: Env, w: Writer)
    requires Drainable(env, w)
    ensures var d := Drained(env, w);
            Inv(env, d) && d.state.Open? && (d.waiting == [] || Buffered(d.socket) >= HIGH_WATER)
  {
    CheckedKeeps(env, w);
    PumpedKeeps(env, Checked(w));
    var handed := HandedOver(env, Checked(w), Buffered(w.socket), false).0;
    ResetKeeps(env, handed, Checked(w).budget.frames);
    WatchedKeepsInv(env, PollReset(handed, Checked(w).budget.frames));
  }

  lemma WrittenInOrder(env: Env, w: Writer, t: Writer, f: Frame)
    requires InOrder(w) && w.waiting == [] && w.discarded == [] && t.waiting == [] && t.discarded == []
    requires t.accepted == w.accepted + [f] && t.offered == w.offered + [Offer(f, true)]
    requires !env.throws(w.socket.sends) && t.socket == Offered(env, w.socket, f)
    ensures InOrder(t)
  {
    OfferedOne(env, w.socket, w.offered, f);
    FramesAppend(w.offered, Offer(f, true));
    assert w.accepted == Frames(w.offered);
  }

  lemma WrittenThroughKeeps(env: Env, w: Writer, f: Frame)
    requires Inv(env, w) && w.state.Open? && IsIdle(w)
    ensures var d := WrittenThrough(env, w, f);
            && Inv(env, d) && d.waiting == []
            && d.accepted == if env.throws(w.socket.sends) then w.accepted else w.accepted + [f]
  {
    if !env.throws(w.socket.sends) {
      var sent := Recorded(SentIdle(env, w, f), f);
      assert InOrder(sent) by { WrittenInOrder(env, w, sent, f); }
      assert UnderMark(sent.socket) by { OfferUnderMark(env, w.socket, f); }
      assert DataOnly(sent.socket) by { OfferDataOnly(env, w.socket, f); }
      assert Budgeted(env, sent) && Deadlined(sent) && PollSane(sent);
      WatchedKeeps(env, sent);
    }
  }

  lemma QueuedKeepsInv(env: Env, w: Writer, f: Frame)
    requires Inv(env, w) && w.state.Open? && Fits(env, w.budget, f.bytes)
    ensures Inv(env, Queued(w, f))
  {
    var d := Queued(w, f);
    assert InOrder(d) by {
      assert w.accepted == Frames(w.offered) + w.waiting;
      assert Frames(w.offered) + (w.waiting + [f]) == Frames(w.offered) + w.waiting + [f];
    }
    assert Budgeted(env, d) by { SumAppend(w.waiting, f); }
  }

  lemma PushedKeepsInv(env: Env, w: Writer, f: Frame)
    requires Inv(env, w)
    ensures Inv(env, Pushed(env, w, f).0)
    ensures var (d, push) := Pushed(env, w, f);
            if push.Accepted? then d.accepted == w.accepted + [f]
            else d.accepted == w.accepted && d.waiting == w.waiting
  {
    if w.state.Open? {
      if IsIdle(w) {
        WrittenThroughKeeps(env, w, f);
      } else if Fits(env, w.budget, f.bytes) {
        QueuedKeepsInv(env, w, f);
      }
    }
  }

  /** Discarding what waits, with nothing more to be scheduled. */
  lemma DiscardedKeeps(env: Env, w: Writer)
    requires Sound(env, w) && w.discarded == []
    ensures var d := DiscardedAll(w);
            && Sound(env, d) && d.waiting == [] && d.discarded == w.waiting
            && d.accepted == Frames(w.offered) + w.waiting
  {
    assert w.waiting + [] == w.waiting;
    assert Frames(w.offered) + w.waiting + [] == Frames(w.offered) + [] + w.waiting;
  }

  /** One control frame after the data ends the record. */
  lemma ControlLast(w: Writer, x: Sent)
    requires DataOnly(w.socket) && !x.Data? && InOrder(w) && UnderMark(w.socket)
    ensures var d := w.(socket := w.socket.(log := w.socket.log + [x]));
            InOrder(d) && UnderMark(d.socket) && (d.state.Open? || CloseLast(d))
  {
    DataAppend(w.socket.log, x);
  }

  lemma CloseSentKeepsInv(env: Env, flushed: Writer)
    requires Sound(env, flushed) && flushed.discarded == []
    requires flushed.state.Closing? && flushed.poll.None? && !flushed.stall
    ensures Inv(env, CloseSent(env, flushed))
  {
    DiscardedKeeps(env, flushed);
    ControlLast(DiscardedAll(flushed).(closeTimer := true), CloseFrame);
  }

  lemma ClosedKeepsInv(env: Env, w: Writer, backlog: Backlog)
    requires Inv(env, w)
    ensures Inv(env, ClosedWith(env, w, backlog))
  {
    if w.state.Open? {
      var quiet := Quieted(w, Closing);
      assert Sound(env, quiet);
      HandedOverKeeps(env, quiet, true);
      HandedOverControls(env, quiet, Buffered(quiet.socket), true);
      CloseSentKeepsInv(env, FlushedFor(env, quiet, backlog));
    }
  }

  lemma StallKeepsInv(env: Env, w: Writer)
    requires Inv(env, w) && w.stall
    ensures Inv(env, StallFired(env, w))
  {
    if w.state.Open? {
      var quiet := PollCleared(w.(stall := false, state := Ended));
      DiscardedKeeps(env, quiet);
      ControlLast(DiscardedAll(quiet), Cut);
      ControlLast(DiscardedAll(quiet), CloseFrame);
    }
  }

  lemma CloseDeadlineKeepsInv(env: Env, w: Writer, gone: bool)
    requires Inv(env, w) && w.closeTimer
    ensures Inv(env, CloseFired(env, w, gone))
  {
    DataAppend(w.socket.log, Cut);
  }

  lemma DisposeKeepsInv(env: Env, w: Writer)
    requires Inv(env, w)
    ensures Inv(env, Disposed(w))
  {
    var quiet := Quieted(w, Ended);
    if w.state.Open? {
      DiscardedKeeps(env, quiet);
    } else {
      assert [] + w.discarded == w.discarded;
    }
  }

  lemma StepKeepsInv(env: Env, w: Writer, e: Event)
    requires Inv(env, w) && Possible(w, e)
    ensures Inv(env, Step(env, w, e))
  {
    match e
    case PushFrame(frame) => PushedKeepsInv(env, w, frame);
    case PumpTurn => if w.state.Open? { DrainedKeeps(env, w.(pump := false)); }
    case PollFires =>
      if w.state.Open? {
        DrainedKeeps(env, PollTaken(w));
      }
    case StallFires => StallKeepsInv(env, w);
    case Close(backlog) => ClosedKeepsInv(env, w, backlog);
    case CloseDeadline(gone) => CloseDeadlineKeepsInv(env, w, gone);
    case Dispose => DisposeKeepsInv(env, w);
    case SocketWrites(_) =>
  }
}
