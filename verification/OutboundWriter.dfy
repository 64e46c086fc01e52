/**
 * The writer object: its queue is a singly linked list, and each of its methods is shown to take
 * the writer from one model state to the next.
 */
module OutboundWriters {
  import opened Common
  import opened OutboundModel
  import opened OutboundRuns
  import opened OutboundOutcomes

  /** The accounting for one connection's waiting frames. */
  class OutboundBudget {
    const maxBytes: nat
    var bytes: int
    var frames: int

    constructor (maxBytes: nat)
      ensures this.maxBytes == maxBytes && bytes == 0 && frames == 0
    {
      this.maxBytes, bytes, frames := maxBytes, 0, 0;
    }

    method Admit(frameBytes: nat) returns (fits: bool)
      modifies this
      ensures fits <==> old(frames) == 0 || old(bytes) + frameBytes + (old(frames) + 1) * FRAME_OVERHEAD <= maxBytes
      ensures if fits then bytes == old(bytes) + frameBytes && frames == old(frames) + 1 else unchanged(this)
    {
      if frames != 0 && bytes + frameBytes + (frames + 1) * FRAME_OVERHEAD > maxBytes {
        return false;
      }
      bytes := bytes + frameBytes;
      frames := frames + 1;
      return true;
    }

    method Release(frameBytes: nat)
      modifies this
      ensures bytes == old(bytes) - frameBytes && frames == old(frames) - 1
    {
      bytes := bytes - frameBytes;
      frames := frames - 1;
    }

    method Clear()
      modifies this
      ensures bytes == 0 && frames == 0
    {
      bytes, frames := 0, 0;
    }
  }

  /** One frame waiting for the socket, linked to the frame queued after it. */
  class WaitingFrame {
    const frame: Frame
    var next: WaitingFrame?

    constructor (frame: Frame)
      ensures this.frame == frame && next == null
    {
      this.frame, next := frame, null;
    }
  }

  function FramesIn(spine: seq<WaitingFrame>): (fs: seq<Frame>)
    ensures |fs| == |spine| && forall i :: 0 <= i < |spine| ==> fs[i] == spine[i].frame
  {
    seq(|spine|, i requires 0 <= i < |spine| => spine[i].frame)
  }

  class WsOutboundWriter {
    const env: Env
    const budget: OutboundBudget
    var state: State
    var head: WaitingFrame?
    var tail: WaitingFrame?
    var pumpPending: bool
    var pollTimer: Option<nat>
    var pollDelay: nat
    var lastBuffered: nat
    var stallTimer: bool
    var handedSinceStallStart: nat
    var closeTimer: bool
    var socket: Socket
    ghost var spine: seq<WaitingFrame>
    ghost var accepted: seq<Frame>
    ghost var offered: seq<Offer>
    ghost var discarded: seq<Frame>
    ghost var covered: nat
    ghost var thrownSince: nat

    /** The list, oldest first. */
    ghost predicate Linked()
      reads this`head, this`tail, this`spine, spine
    {
      && (head == if spine == [] then null else spine[0])
      && (tail == if spine == [] then null else spine[|spine| - 1])
      && (tail != null ==> tail.next == null)
      && forall i, j :: 0 <= i < |spine| && j == i + 1 < |spine| ==> spine[i].next == spine[j]
    }

    ghost function Model(): Writer
      reads this, budget
    {
      Writer(state, FramesIn(spine), Budget(budget.bytes, budget.frames), pumpPending, pollTimer, pollDelay,
             lastBuffered, stallTimer, handedSinceStallStart, closeTimer, socket, accepted, offered, discarded, covered,
             thrownSince)
    }

    ghost predicate Valid()
      reads this, budget, spine
    {
      Linked() && budget.maxBytes == env.maxBytes && Inv(env, Model())
    }

    constructor (env: Env)
      ensures Valid() && fresh(budget) && Model() == NEW_WRITER && this.env == env
    {
      this.env := env;
      budget := new OutboundBudget(env.maxBytes);
      state, head, tail, spine := Open, null, null, [];
      pumpPending, pollTimer, pollDelay, lastBuffered := false, None, 1, 0;
      stallTimer, handedSinceStallStart, closeTimer, socket := false, 0, false, Socket([], 0, 0, 0);
      accepted, offered, discarded, covered, thrownSince := [], [], [], 0, 0;
    }

    // ----- Parts -----

    method Write(frame: Frame) returns (took: bool)
      modifies this`socket
      ensures socket == Offered(env, old(socket), frame) && took == !env.throws(old(socket.sends))
    {
      took := !env.throws(socket.sends);
      socket := Offered(env, socket, frame);
    }

    method ClearPollTimer()
      modifies this`pollTimer, this`pollDelay, this`lastBuffered
      ensures Model() == PollCleared(old(Model()))
    {
      pollTimer, pollDelay, lastBuffered := None, 1, 0;
    }

    method ClearStallTimer()
      modifies this`stallTimer, this`handedSinceStallStart
      ensures Model() == StallCleared(old(Model()))
    {
      stallTimer, handedSinceStallStart := false, 0;
    }

    method DiscardWaiting()
      modifies this`head, this`tail, this`spine, this`discarded, budget
      ensures Linked() && Model() == DiscardedAll(old(Model()))
    {
      discarded := FramesIn(spine) + discarded;
      head, tail, spine := null, null, [];
      budget.Clear();
    }

    method ArmDeadline(buffered: nat)
      modifies this`stallTimer, this`handedSinceStallStart, this`covered, this`thrownSince
      ensures Model() == DeadlineArmed(old(Model()), buffered)
    {
      if buffered > 0 && !stallTimer {
        handedSinceStallStart, stallTimer := 0, true;
        covered, thrownSince := socket.handed, 0;
      }
    }

    method ArmPoll(buffered: nat)
      requires Linked()
      modifies this`pollTimer, this`pollDelay, this`lastBuffered
      ensures Model() == PollArmed(old(Model()), buffered)
    {
      if buffered == 0 && head == null {
        ClearPollTimer();
        return;
      }
      if buffered < lastBuffered {
        pollDelay := 1;
      }
      lastBuffered := buffered;
      if pollTimer.Some? {
        return;
      }
      pollTimer := Some(pollDelay);
    }

    method Watch(buffered: nat)
      requires Linked()
      modifies this`stallTimer, this`handedSinceStallStart, this`covered, this`thrownSince, this`pollTimer,
               this`pollDelay, this`lastBuffered
      ensures Model() == Watched(old(Model()), buffered)
    {
      ArmDeadline(buffered);
      ArmPoll(buffered);
    }

    method Unlink() returns (frame: Frame)
      requires Linked() && head != null
      modifies this`head, this`tail, this`spine, budget
      ensures old(spine) != [] && frame == old(Model()).waiting[0] && spine == old(spine)[1..]
      ensures Linked() && Model() == Unlinked(old(Model()))
    {
      var node := head;
      assert node.next == if |spine| > 1 then spine[1] else null;
      assert FramesIn(spine[1..]) == FramesIn(spine)[1..];
      head := node.next;
      if head == null {
        tail := null;
      }
      spine := spine[1..];
      budget.Release(node.frame.bytes);
      frame := node.frame;
    }

    method OfferToSocket(frame: Frame) returns (took: bool)
      modifies this`handedSinceStallStart, this`socket, this`offered, this`thrownSince
      ensures Model() == OfferedTo(env, old(Model()), frame) && took == !env.throws(old(socket.sends))
    {
      handedSinceStallStart := handedSinceStallStart + frame.bytes;
      took := Write(frame);
      offered := offered + [Offer(frame, took)];
      thrownSince := if took then thrownSince else thrownSince + frame.bytes;
    }

    /** Unlinks the oldest waiting frame, and only then writes it. */
    method HandOne() returns (took: bool)
      requires Linked() && head != null
      modifies this`head, this`tail, this`spine, this`handedSinceStallStart, this`socket, this`offered,
               this`thrownSince, budget
      ensures old(spine) != [] && Linked() && Model() == HandedOne(env, old(Model()))
      ensures took == !env.throws(old(socket.sends)) && spine == old(spine)[1..]
    {
      var frame := Unlink();
      took := OfferToSocket(frame);
    }

    method HandOver(bufferedBefore: nat, stopWhenRefused: bool) returns (buffered: nat)
      requires Linked()
      modifies this`head, this`tail, this`spine, this`handedSinceStallStart, this`socket, this`offered,
               this`thrownSince, budget
      ensures Linked() && (Model(), buffered) == HandedOver(env, old(Model()), bufferedBefore, stopWhenRefused)
    {
      buffered := bufferedBefore;
      ghost var done := HandedOver(env, Model(), buffered, stopWhenRefused);
      while head != null && buffered < HIGH_WATER
        invariant Linked() && HandedOver(env, Model(), buffered, stopWhenRefused) == done
        decreases |spine|
      {
        var took := HandOne();
        if !took && stopWhenRefused {
          assert (Model(), buffered) == done;
          return;
        }
        buffered := Buffered(socket);
      }
    }

    /** What the deadline covered may be written by now. */
    method CheckDeadline(buffered: nat)
      requires buffered == Buffered(socket)
      modifies this`stallTimer, this`handedSinceStallStart
      ensures Model() == Checked(old(Model()))
    {
      if stallTimer && buffered <= handedSinceStallStart {
        ClearStallTimer();
      }
    }

    method ResetPoll(waiting: int)
      modifies this`pollDelay
      ensures Model() == PollReset(old(Model()), waiting)
    {
      if budget.frames != waiting {
        pollDelay := 1;
      }
    }

    method Drain()
      requires Linked()
      modifies this, budget
      ensures Linked() && Model() == Drained(env, old(Model()))
    {
      var buffered := Buffered(socket);
      CheckDeadline(buffered);
      var waiting := budget.frames;
      buffered := HandOver(buffered, false);
      ResetPoll(waiting);
      Watch(buffered);
    }

    /** A frame at the end of the list. */
    method Append(frame: Frame)
      requires Linked()
      modifies this`head, this`tail, this`spine, tail
      ensures Linked() && FramesIn(spine) == FramesIn(old(spine)) + [frame]
    {
      var node := new WaitingFrame(frame);
      forall i | 0 <= i < |spine| - 1 ensures spine[i] != tail {
        assert spine[i].next == spine[i + 1];
      }
      if tail == null {
        head := node;
      } else {
        tail.next := node;
      }
      tail := node;
      spine := spine + [node];
    }

    // ----- Operations and timers, as steps of the list and the counters -----

    method SendIdle(frame: Frame) returns (took: bool)
      modifies this`stallTimer, this`handedSinceStallStart, this`pumpPending, this`socket
      ensures Model() == SentIdle(env, old(Model()), frame) && took == !env.throws(old(socket.sends))
    {
      ClearStallTimer();
      pumpPending := true;
      took := Write(frame);
    }

    ghost method RecordSent(frame: Frame)
      modifies this`accepted, this`offered
      ensures Model() == Recorded(old(Model()), frame)
    {
      accepted, offered := accepted + [frame], offered + [Offer(frame, true)];
    }

    method RecordAndWatch(frame: Frame)
      requires Linked()
      modifies this`accepted, this`offered, this`stallTimer, this`handedSinceStallStart, this`covered, this`thrownSince,
               this`pollTimer, this`pollDelay, this`lastBuffered
      ensures Linked() && Model() == Watched(Recorded(old(Model()), frame), Buffered(socket))
    {
      RecordSent(frame);
      Watch(Buffered(socket));
    }

    method WriteThrough(frame: Frame) returns (took: bool)
      requires Linked()
      modifies this
      ensures Linked() && Model() == WrittenThrough(env, old(Model()), frame) && took == !env.throws(old(socket.sends))
    {
      took := SendIdle(frame);
      if took {
        RecordAndWatch(frame);
      }
    }

    method Enqueue(frame: Frame)
      requires Linked()
      modifies this`head, this`tail, this`spine, this`accepted, this`pumpPending, tail
      ensures Linked() && Model() == Queued(old(Model()), frame).(budget := old(Model()).budget)
    {
      Append(frame);
      accepted := accepted + [frame];
      pumpPending := true;
    }

    method DoPush(frame: Frame) returns (push: Push)
      requires Linked() && budget.maxBytes == env.maxBytes
      modifies this, budget, tail
      ensures Linked() && (Model(), push) == Pushed(env, old(Model()), frame)
    {
      if !state.Open? {
        return Refused;
      }
      if !pumpPending && head == null && Buffered(socket) == 0 {
        var took := WriteThrough(frame);
        return if took then Accepted else Refused;
      }
      var admitted := budget.Admit(frame.bytes);
      if !admitted {
        return Overflow;
      }
      Enqueue(frame);
      return Accepted;
    }

    method SendClose()
      modifies this`socket
      ensures socket == ClosedSocket(env, old(socket))
    {
      socket := ClosedSocket(env, socket);
    }

    method Cutting()
      modifies this`socket
      ensures socket == old(socket).(log := old(socket).log + [Cut])
    {
      socket := socket.(log := socket.log + [Cut]);
    }

    method Quiet(next: State)
      modifies this`state, this`pollTimer, this`pollDelay, this`lastBuffered, this`stallTimer,
               this`handedSinceStallStart
      ensures Model() == Quieted(old(Model()), next)
    {
      state := next;
      ClearPollTimer();
      ClearStallTimer();
    }

    method FlushBacklog(backlog: Backlog)
      requires Linked()
      modifies this`head, this`tail, this`spine, this`handedSinceStallStart, this`socket, this`offered,
               this`thrownSince, budget
      ensures Linked() && Model() == FlushedFor(env, old(Model()), backlog)
    {
      if backlog.Flush? {
        var _ := HandOver(Buffered(socket), true);
      }
    }

    /** What still waits is dropped, and the close sent under its deadline. */
    method CloseSocketLast()
      modifies this`head, this`tail, this`spine, this`discarded, this`closeTimer, this`socket, budget
      ensures Linked() && Model() == CloseSent(env, old(Model()))
    {
      DiscardWaiting();
      closeTimer := true;
      SendClose();
    }

    method DoClose(backlog: Backlog)
      requires Linked()
      modifies this, budget
      ensures Linked() && Model() == ClosedWith(env, old(Model()), backlog)
    {
      if !state.Open? {
        return;
      }
      Quiet(Closing);
      FlushBacklog(backlog);
      CloseSocketLast();
    }

    method DoStall()
      requires Linked()
      modifies this, budget
      ensures Linked() && Model() == StallFired(env, old(Model()))
    {
      stallTimer := false;
      if !state.Open? {
        return;
      }
      state := Ended;
      ClearPollTimer();
      DiscardWaiting();
      if env.cuts {
        Cutting();
      } else {
        SendClose();
      }
    }

    method DoPoll()
      requires Linked()
      modifies this, budget
      ensures Linked() && Model() == Polled(env, old(Model()))
    {
      pollTimer := None;
      if !state.Open? {
        return;
      }
      pollDelay := if pollDelay * 2 < POLL_MAX_DELAY then pollDelay * 2 else POLL_MAX_DELAY;
      Drain();
    }

    method DoPumpTurn()
      requires Linked()
      modifies this, budget
      ensures Linked() && Model() == PumpRun(env, old(Model()))
    {
      pumpPending := false;
      if state.Open? {
        Drain();
      }
    }

    method DoCloseDeadline(gone: bool)
      requires Linked()
      modifies this
      ensures Linked() && Model() == CloseFired(env, old(Model()), gone)
    {
      closeTimer, state := false, Ended;
      if !gone && Buffered(socket) > 0 && env.cuts {
        Cutting();
      }
    }

    // ----- The same, with what they keep -----

    method Push(frame: Frame) returns (push: Push)
      requires Valid()
      modifies this, budget, tail
      ensures Valid() && (Model(), push) == Pushed(env, old(Model()), frame)
      ensures push == Deserved(env, old(Model()), frame)
    {
      PushedKeepsInv(env, Model(), frame);
      PushOutcome(env, Model(), frame);
      push := DoPush(frame);
    }

    method PumpTurn()
      requires Valid() && pumpPending
      modifies this, budget
      ensures Valid() && Model() == PumpRun(env, old(Model()))
    {
      StepKeepsInv(env, Model(), Event.PumpTurn);
      DoPumpTurn();
    }

    method PollFires()
      requires Valid() && pollTimer.Some?
      modifies this, budget
      ensures Valid() && Model() == Polled(env, old(Model()))
    {
      StepKeepsInv(env, Model(), Event.PollFires);
      DoPoll();
    }

    method Close(backlog: Backlog)
      requires Valid()
      modifies this, budget
      ensures Valid() && Model() == ClosedWith(env, old(Model()), backlog)
    {
      ClosedKeepsInv(env, Model(), backlog);
      DoClose(backlog);
    }

    method StallFires()
      requires Valid() && stallTimer
      modifies this, budget
      ensures Valid() && Model() == StallFired(env, old(Model()))
    {
      StallKeepsInv(env, Model());
      DoStall();
    }

    method CloseDeadline(gone: bool)
      requires Valid() && closeTimer
      modifies this
      ensures Valid() && Model() == CloseFired(env, old(Model()), gone)
    {
      CloseDeadlineKeepsInv(env, Model(), gone);
      DoCloseDeadline(gone);
    }

    method Dispose()
      requires Valid()
      modifies this, budget
      ensures Valid() && Model() == Disposed(old(Model()))
    {
      DisposeKeepsInv(env, Model());
      Quiet(Ended);
      closeTimer := false;
      DiscardWaiting();
    }
  }
}
