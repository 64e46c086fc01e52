/** What each of the writer's operations answers, and what it does to the socket and the queue. */
module OutboundOutcomes {
  import opened Common
  import opened OutboundModel
  import opened OutboundRuns
  import opened OutboundTheorems

  // ----- A push -----

  /** Nothing waits, is scheduled or is unwritten: a frame may go straight to the socket. */
  predicate AtRest(w: Writer) {
    w.waiting == [] && !w.pump && w.socket.written >= w.socket.handed
  }

  /** Whether one more frame behind those waiting would pass the budget; the first always fits. */
  predicate PassesBudget(env: Env, w: Writer, f: Frame) {
    w.waiting != [] && Sum(w.waiting) + f.bytes + (|w.waiting| + 1) * FRAME_OVERHEAD > env.maxBytes
  }

  /** What a push is answered, by the state of the connection. */
  function Deserved(env: Env, w: Writer, f: Frame): Push {
    if !w.state.Open? then Refused
    else if AtRest(w) then if env.throws(w.socket.sends) then Refused else Accepted
    else if PassesBudget(env, w, f) then Overflow
    else Accepted
  }

  /**
   * A push overflows exactly when the connection is open, not at rest, something waits and the budget
   * would be passed; it is refused exactly on a closed one, or when the idle send throws. An accepted
   * frame is on the socket, when it was at rest, and the last one waiting otherwise. Either way a pump
   * turn is scheduled, so what follows in the same run waits behind it.
   */
  lemma PushOutcome(env: Env, w: Writer, f: Frame)
    requires Inv(env, w)
    ensures var (t, push) := Pushed(env, w, f);
            && push == Deserved(env, w, f) && t.state == w.state
            && t.accepted == w.accepted + (if push.Accepted? then [f] else [])
            && t.waiting == w.waiting + (if push.Accepted? && !AtRest(w) then [f] else [])
            && t.socket.log == w.socket.log + (if push.Accepted? && AtRest(w) then [Data(f)] else [])
            && (push.Overflow? ==> t == w)
            && (w.state.Open? && !push.Overflow? ==> t.pump)
  {
  }

  /** Over runs: the event of a push does what its answer says. */
  lemma PushesOverRuns(env: Env, es: seq<Event>, f: Frame)
    requires IsRun(env, es)
    ensures var w, t := RunOf(env, es), RunOf(env, es + [PushFrame(f)]);
            && (Deserved(env, w, f).Accepted? && !AtRest(w) ==> t.waiting == w.waiting + [f])
            && (Deserved(env, w, f).Accepted? && AtRest(w) ==> t.socket.log == w.socket.log + [Data(f)])
            && (!Deserved(env, w, f).Accepted? ==> t.accepted == w.accepted && t.waiting == w.waiting)
  {
    OneMore(env, es, PushFrame(f));
    RunKeepsInv(env, es);
    PushOutcome(env, RunOf(env, es), f);
  }

  // ----- The pump and the poll -----

  /** A writer whose pump or poll has just fired. */
  function Roused(w: Writer, e: Event): Writer {
    if e.PumpTurn? then w.(pump := false) else PollTaken(w)
  }

  /** The oldest of what waited has been offered, in order, and what is left waits for the socket's buffer. */
  predicate HandsOverAPrefix(w: Writer, t: Writer) {
    var k := |w.waiting| - |t.waiting|;
    && k >= 0 && t.waiting == w.waiting[k..] && Frames(t.offered) == Frames(w.offered) + w.waiting[..k]
    && t.state.Open? && t.accepted == w.accepted
    && (t.waiting == [] || Buffered(t.socket) >= HIGH_WATER)
  }

  /** A pump turn or a poll hands over a prefix of what waits and stops only at the mark. */
  lemma DrainOutcome(env: Env, w: Writer, e: Event)
    requires Inv(env, w) && w.state.Open? && Possible(w, e) && (e.PumpTurn? || e.PollFires?)
    ensures HandsOverAPrefix(w, Step(env, w, e))
  {
    var r := Roused(w, e);
    assert HandsOverAPrefix(r, Drained(env, r)) by { RousedDrains(env, r); }
    SamePrefix(w, r, Drained(env, r));
    assert Step(env, w, e) == Drained(env, r);
  }

  lemma SamePrefix(w: Writer, r: Writer, t: Writer)
    requires r.waiting == w.waiting && r.offered == w.offered && r.accepted == w.accepted && HandsOverAPrefix(r, t)
    ensures HandsOverAPrefix(w, t)
  {
  }

  /** Once nothing waits or is unwritten the polling ends, and the next starts over at its shortest delay. */
  lemma PollingEnds(env: Env, w: Writer, e: Event)
    requires Inv(env, w) && w.state.Open? && Possible(w, e) && (e.PumpTurn? || e.PollFires?)
    ensures var t := Step(env, w, e);
            t.waiting == [] && Buffered(t.socket) == 0 ==> t.poll.None? && t.pollDelay == 1 && t.lastBuffered == 0
  {
    assert Drainable(env, Roused(w, e));
    DrainedAtRest(env, Roused(w, e));
    assert Step(env, w, e) == Drained(env, Roused(w, e));
  }

  lemma DrainedAtRest(env: Env, w: Writer)
    requires Drainable(env, w)
    ensures NoPolling(Drained(env, w))
  {
    var d := Checked(w);
    var (h, buffered) := HandedOver(env, d, Buffered(w.socket), false);
    assert buffered == Buffered(h.socket) by {
      CheckedKeeps(env, w);
      PumpedKeeps(env, d);
    }
    WatchedAtRest(PollReset(h, d.budget.frames));
  }

  /** With nothing to wait for there is no poll. */
  predicate NoPolling(t: Writer) {
    t.waiting == [] && Buffered(t.socket) == 0 ==> t.poll.None? && t.pollDelay == 1 && t.lastBuffered == 0
  }

  lemma WatchedAtRest(v: Writer)
    ensures NoPolling(Watched(v, Buffered(v.socket)))
  {
  }

  lemma RousedDrains(env: Env, w: Writer)
    requires Drainable(env, w)
    ensures HandsOverAPrefix(w, Drained(env, w))
  {
    var t := Drained(env, w);
    DrainedParts(env, w);
    assert InOrder(t) && t.state.Open? && t.discarded == []
           && (t.waiting == [] || Buffered(t.socket) >= HIGH_WATER) by {
      DrainedKeeps(env, w);
    }
    OfferedPrefix(w, t);
  }

  lemma WatchKeeps(v: Writer, frames: int, buffered: nat)
    ensures var t := Watched(PollReset(v, frames), buffered);
            t.waiting == v.waiting && t.accepted == v.accepted && t.state == v.state && t.socket == v.socket
  {
  }

  lemma DrainedParts(env: Env, w: Writer)
    ensures var t := Drained(env, w);
            && t.accepted == w.accepted
            && |t.waiting| <= |w.waiting| && t.waiting == w.waiting[|w.waiting| - |t.waiting|..]
  {
    var d := Checked(w);
    var (h, buffered) := HandedOver(env, d, Buffered(w.socket), false);
    assert d.waiting == w.waiting && d.accepted == w.accepted;
    assert |h.waiting| <= |w.waiting| && h.waiting == w.waiting[|w.waiting| - |h.waiting|..] by {
      HandedOverPrefix(env, d, Buffered(w.socket), false);
    }
    assert h.accepted == d.accepted by { HandedOverControls(env, d, Buffered(w.socket), false); }
    WatchKeeps(h, d.budget.frames, buffered);
  }

  /** A poll that moves nothing doubles the next delay, to its bound; any progress makes it short again. */
  lemma PollBacksOff(env: Env, w: Writer)
    requires Inv(env, w) && w.state.Open? && w.poll.Some?
    ensures var t := Step(env, w, PollFires);
            t.poll.Some? ==>
              if |t.waiting| == |w.waiting| && Buffered(t.socket) >= w.lastBuffered
              then t.poll == Some(if w.pollDelay * 2 < 32 then w.pollDelay * 2 else 32)
              else t.poll == Some(1)
  {
    var d := Checked(PollTaken(w));
    var (h, buffered) := HandedOver(env, d, Buffered(d.socket), false);
    PollHanded(env, w);
    assert SameControls(d, h) by { HandedOverControls(env, d, Buffered(d.socket), false); }
    var v := PollReset(h, d.budget.frames);
    assert Step(env, w, PollFires) == Watched(v, buffered);
    NextPoll(v, buffered);
  }

  lemma NextPoll(v: Writer, buffered: nat)
    requires v.poll.None?
    ensures var t := Watched(v, buffered);
            && t.waiting == v.waiting && t.socket == v.socket
            && (t.poll.Some? ==> t.poll == Some(if buffered < v.lastBuffered then 1 else v.pollDelay))
  {
  }

  lemma PollHanded(env: Env, w: Writer)
    requires Inv(env, w) && w.state.Open?
    ensures var d := Checked(PollTaken(w));
            var (h, buffered) := HandedOver(env, d, Buffered(d.socket), false);
            && buffered == Buffered(h.socket) && h.budget.frames == |h.waiting| && d.budget.frames == |w.waiting|
  {
    var d := Checked(PollTaken(w));
    CheckedKeeps(env, PollTaken(w));
    HandedOverKeeps(env, d, false);
  }

  // ----- Endings -----

  /**
   * A close ends the record with the close frame, if the socket takes it, under the close's own
   * deadline; what it flushed came before, and it stops short only at the mark or at a send that threw.
   */
  lemma CloseOutcome(env: Env, w: Writer, backlog: Backlog)
    requires Inv(env, w) && w.state.Open?
    ensures var t := Step(env, w, Close(backlog));
            && t.state.Closing? && t.waiting == [] && t.closeTimer && t.poll.None? && !t.stall
            && (!env.closeThrows ==> |t.socket.log| > 0 && t.socket.log[|t.socket.log| - 1] == CloseFrame)
            && (backlog.Discard? && !env.closeThrows ==> t.socket.log == w.socket.log + [CloseFrame])
            && (backlog.Flush? && t.discarded != [] ==>
                  Buffered(t.socket) >= HIGH_WATER || (|t.offered| > 0 && !t.offered[|t.offered| - 1].took))
  {
    var quiet := Quieted(w, Closing);
    HandedOverControls(env, quiet, Buffered(quiet.socket), true);
    FlushStops(env, quiet, Buffered(quiet.socket));
    CloseSentRecord(env, FlushedFor(env, quiet, backlog)) by {
      HandedOverControls(env, quiet, Buffered(quiet.socket), true);
    }
  }

  /** A flush goes on until nothing waits, the buffer is at the mark, or a send throws. */
  lemma {:induction false} FlushStops(env: Env, w: Writer, buffered: nat)
    requires buffered == Buffered(w.socket)
    ensures var d := HandedOver(env, w, buffered, true).0;
            d.waiting == [] || Buffered(d.socket) >= HIGH_WATER || (|d.offered| > 0 && !d.offered[|d.offered| - 1].took)
    decreases |w.waiting|
  {
    if w.waiting != [] && buffered < HIGH_WATER && !env.throws(w.socket.sends) {
      var next := HandedOne(env, w);
      FlushStops(env, next, Buffered(next.socket));
    }
  }

  /**
   * A socket that has not written what its deadline covered is cut off, or closed where it cannot be;
   * all that waits is lost.
   */
  lemma StallOutcome(env: Env, w: Writer)
    requires Inv(env, w) && w.state.Open? && w.stall
    ensures var t := Step(env, w, StallFires);
            && t.state.Ended? && t.waiting == [] && t.discarded == w.waiting && t.poll.None? && !t.stall
            && t.socket.log == w.socket.log + (if env.cuts then [Cut] else if env.closeThrows then [] else [CloseFrame])
  {
  }

  /** A closing socket still holding bytes at its close deadline is cut off, where it can be. */
  lemma CloseDeadlineOutcome(env: Env, w: Writer, gone: bool)
    requires Inv(env, w) && w.closeTimer
    ensures var t := Step(env, w, CloseDeadline(gone));
            && t.state.Ended? && !t.closeTimer
            && (t.socket.log == w.socket.log + [Cut] <==> !gone && Buffered(w.socket) > 0 && env.cuts)
            && (gone || Buffered(w.socket) == 0 || !env.cuts ==> t.socket.log == w.socket.log)
  {
  }

  lemma DisposeOutcome(env: Env, w: Writer)
    requires Inv(env, w)
    ensures var t := Step(env, w, Event.Dispose);
            && t.state.Ended? && t.waiting == [] && t.poll.None? && !t.stall && !t.closeTimer
            && t.socket == w.socket && (w.state.Open? ==> t.discarded == w.waiting)
  {
  }
}
