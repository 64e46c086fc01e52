/**
 * The outbound side of one connection: a budgeted queue, the pump that hands frames to the socket,
 * and the deadline on what the socket has not written.
 *
 * The socket is a byte counter: a send it takes adds the frame, and it writes what it likes
 * between events. What it takes, and what happened to every accepted frame, is recorded.
 */
module OutboundModel {
  import opened Common

  datatype Frame = Frame(text: string, bytes: nat)

  const HIGH_WATER := 65536
  const FRAME_OVERHEAD := 64
  const POLL_MAX_DELAY := 32

  datatype Sent = Data(frame: Frame) | CloseFrame | Cut

  datatype Socket = Socket(
    log: seq<Sent>, // what the socket took, in order
    handed: nat,    // payload bytes taken
    written: nat,   // of those, the bytes written
    sends: nat)     // frames offered to it, thrown ones included

  function Buffered(s: Socket): nat {
    if s.handed >= s.written then s.handed - s.written else 0
  }

  /** `throws` says which sends the socket throws on, `cuts` whether the runtime can drop it. */
  datatype Env = Env(maxBytes: nat, throws: nat -> bool, closeThrows: bool, cuts: bool)

  datatype State = Open | Closing | Ended

  datatype Offer = Offer(frame: Frame, took: bool)

  datatype Budget = Budget(bytes: int, frames: int)

  datatype Writer = Writer(
    state: State,
    waiting: seq<Frame>,
    budget: Budget,
    pump: bool,              // a pump turn is scheduled
    poll: Option<nat>,       // the poll timer, with its delay
    pollDelay: nat,
    lastBuffered: nat,
    stall: bool,             // the write deadline is armed
    handedSince: nat,
    closeTimer: bool,
    socket: Socket,
    // what happened
    accepted: seq<Frame>,
    offered: seq<Offer>,
    discarded: seq<Frame>,
    covered: nat,            // bytes taken when the deadline was armed
    thrownSince: nat)        // bytes the socket threw on since

  const NEW_WRITER :=
    Writer(Open, [], Budget(0, 0), false, None, 1, 0, false, 0, false, Socket([], 0, 0, 0), [], [], [], 0, 0)

  datatype Push = Accepted | Refused | Overflow

  datatype Backlog = Flush | Discard

  // ----- The socket -----

  function Offered(env: Env, s: Socket, f: Frame): Socket {
    if env.throws(s.sends) then s.(sends := s.sends + 1)
    else s.(log := s.log + [Data(f)], handed := s.handed + f.bytes, sends := s.sends + 1)
  }

  function ClosedSocket(env: Env, s: Socket): Socket {
    if env.closeThrows then s else s.(log := s.log + [CloseFrame])
  }

  // ----- The budget -----

  predicate Fits(env: Env, b: Budget, bytes: nat) {
    b.frames == 0 || b.bytes + bytes + (b.frames + 1) * FRAME_OVERHEAD <= env.maxBytes
  }

  // ----- The writer -----

  function StallCleared(w: Writer): Writer {
    w.(stall := false, handedSince := 0)
  }

  function PollCleared(w: Writer): Writer {
    w.(poll := None, pollDelay := 1, lastBuffered := 0)
  }

  /** The deadline covers the bytes in the buffer when it starts. */
  function DeadlineArmed(w: Writer, buffered: nat): Writer {
    if buffered > 0 && !w.stall
    then w.(stall := true, handedSince := 0, covered := w.socket.handed, thrownSince := 0)
    else w
  }

  function PollArmed(w: Writer, buffered: nat): Writer {
    if buffered == 0 && w.waiting == [] then PollCleared(w)
    else
      var delay := if buffered < w.lastBuffered then 1 else w.pollDelay;
      w.(pollDelay := delay, lastBuffered := buffered, poll := if w.poll.Some? then w.poll else Some(delay))
  }

  function Watched(w: Writer, buffered: nat): Writer {
    PollArmed(DeadlineArmed(w, buffered), buffered)
  }

  function Recorded(w: Writer, f: Frame): Writer {
    w.(accepted := w.accepted + [f], offered := w.offered + [Offer(f, true)])
  }

  function SentIdle(env: Env, w: Writer, f: Frame): Writer {
    StallCleared(w).(pump := true, socket := Offered(env, w.socket, f))
  }

  function WrittenThrough(env: Env, w: Writer, f: Frame): Writer {
    var sent := SentIdle(env, w, f);
    if env.throws(w.socket.sends) then sent else Watched(Recorded(sent, f), Buffered(sent.socket))
  }

  predicate IsIdle(w: Writer) {
    !w.pump && w.waiting == [] && Buffered(w.socket) == 0
  }

  function Queued(w: Writer, f: Frame): Writer {
    w.(waiting := w.waiting + [f], budget := Budget(w.budget.bytes + f.bytes, w.budget.frames + 1),
       pump := true, accepted := w.accepted + [f])
  }

  function Pushed(env: Env, w: Writer, f: Frame): (Writer, Push) {
    if !w.state.Open? then (w, Refused)
    else if IsIdle(w) then (WrittenThrough(env, w, f), if env.throws(w.socket.sends) then Refused else Accepted)
    else if !Fits(env, w.budget, f.bytes) then (w, Overflow)
    else (Queued(w, f), Accepted)
  }

  function Unlinked(w: Writer): Writer
    requires w.waiting != []
  {
    w.(waiting := w.waiting[1..], budget := Budget(w.budget.bytes - w.waiting[0].bytes, w.budget.frames - 1))
  }

  function OfferedTo(env: Env, w: Writer, f: Frame): Writer {
    var took := !env.throws(w.socket.sends);
    w.(handedSince := w.handedSince + f.bytes, socket := Offered(env, w.socket, f),
       offered := w.offered + [Offer(f, took)],
       thrownSince := if took then w.thrownSince else w.thrownSince + f.bytes)
  }

  /** The oldest waiting frame leaves the queue for the socket. */
  function HandedOne(env: Env, w: Writer): Writer
    requires w.waiting != []
  {
    OfferedTo(env, Unlinked(w), w.waiting[0])
  }

  function HandedOver(env: Env, w: Writer, buffered: nat, stopWhenRefused: bool): (Writer, nat)
    decreases |w.waiting|
  {
    if w.waiting == [] || buffered >= HIGH_WATER then (w, buffered)
    else
      var next := HandedOne(env, w);
      if stopWhenRefused && env.throws(w.socket.sends) then (next, buffered)
      else HandedOver(env, next, Buffered(next.socket), stopWhenRefused)
  }

  /** The deadline is met once the buffer holds no more than was handed over since. */
  predicate Met(w: Writer) {
    Buffered(w.socket) <= w.handedSince
  }

  function Checked(w: Writer): Writer {
    if w.stall && Met(w) then StallCleared(w) else w
  }

  function PollReset(w: Writer, frames: int): Writer {
    if w.budget.frames != frames then w.(pollDelay := 1) else w
  }

  function Drained(env: Env, w: Writer): Writer {
    var checked := Checked(w);
    var (handed, buffered) := HandedOver(env, checked, Buffered(w.socket), false);
    Watched(PollReset(handed, checked.budget.frames), buffered)
  }

  function DiscardedAll(w: Writer): Writer {
    w.(waiting := [], budget := Budget(0, 0), discarded := w.waiting + w.discarded)
  }

  function PumpRun(env: Env, w: Writer): Writer {
    var ran := w.(pump := false);
    if w.state.Open? then Drained(env, ran) else ran
  }

  /** The poll's timer is gone, and its next delay twice as long, to its bound. */
  function PollTaken(w: Writer): Writer {
    w.(poll := None, pollDelay := if w.pollDelay * 2 < POLL_MAX_DELAY then w.pollDelay * 2 else POLL_MAX_DELAY)
  }

  function Polled(env: Env, w: Writer): Writer {
    if w.state.Open? then Drained(env, PollTaken(w)) else w.(poll := None)
  }

  function Quieted(w: Writer, state: State): Writer {
    StallCleared(PollCleared(w.(state := state)))
  }

  function FlushedFor(env: Env, w: Writer, backlog: Backlog): Writer {
    if backlog.Flush? then HandedOver(env, w, Buffered(w.socket), true).0 else w
  }

  function CloseSent(env: Env, w: Writer): Writer {
    var emptied := DiscardedAll(w).(closeTimer := true);
    emptied.(socket := ClosedSocket(env, emptied.socket))
  }

  function ClosedWith(env: Env, w: Writer, backlog: Backlog): Writer {
    if !w.state.Open? then w else CloseSent(env, FlushedFor(env, Quieted(w, Closing), backlog))
  }

  function StallFired(env: Env, w: Writer): Writer {
    var fired := w.(stall := false);
    if !w.state.Open? then fired
    else
      var ended := DiscardedAll(PollCleared(fired.(state := Ended)));
      ended.(socket :=
        if env.cuts then ended.socket.(log := ended.socket.log + [Cut]) else ClosedSocket(env, ended.socket))
  }

  /** A socket still holding unwritten bytes past its close deadline is cut where it can be. */
  function CloseFired(env: Env, w: Writer, gone: bool): Writer {
    var fired := w.(closeTimer := false, state := Ended);
    if !gone && Buffered(w.socket) > 0 && env.cuts
    then fired.(socket := fired.socket.(log := fired.socket.log + [Cut]))
    else fired
  }

  function Disposed(w: Writer): Writer {
    DiscardedAll(Quieted(w, Ended)).(closeTimer := false)
  }

  // ----- Events -----

  datatype Event =
    | PushFrame(frame: Frame)
    | PumpTurn
    | PollFires
    | StallFires
    | Close(backlog: Backlog)
    | CloseDeadline(gone: bool) // whether the socket reads as closed by then
    | Dispose
    | SocketWrites(bytes: nat)

  predicate Possible(w: Writer, e: Event) {
    match e
    case PumpTurn => w.pump
    case PollFires => w.poll.Some?
    case StallFires => w.stall
    case CloseDeadline(_) => w.closeTimer
    case SocketWrites(bytes) => bytes <= Buffered(w.socket)
    case _ => true
  }

  function Step(env: Env, w: Writer, e: Event): Writer {
    match e
    case PushFrame(frame) => Pushed(env, w, frame).0
    case PumpTurn => PumpRun(env, w)
    case PollFires => Polled(env, w)
    case StallFires => StallFired(env, w)
    case Close(backlog) => ClosedWith(env, w, backlog)
    case CloseDeadline(gone) => CloseFired(env, w, gone)
    case Dispose => Disposed(w)
    case SocketWrites(bytes) => w.(socket := w.socket.(written := w.socket.written + bytes))
  }

  // ----- What every event keeps -----

  function Frames(offers: seq<Offer>): seq<Frame> {
    if offers == [] then [] else Frames(offers[..|offers| - 1]) + [offers[|offers| - 1].frame]
  }

  function Taken(offers: seq<Offer>): seq<Frame> {
    if offers == [] then []
    else Taken(offers[..|offers| - 1]) + if offers[|offers| - 1].took then [offers[|offers| - 1].frame] else []
  }

  /** The data frames the socket has, in the order it took them. */
  function DataOf(log: seq<Sent>): seq<Frame> {
    if log == [] then []
    else DataOf(log[..|log| - 1]) + if log[|log| - 1].Data? then [log[|log| - 1].frame] else []
  }

  function Sum(fs: seq<Frame>): nat {
    if fs == [] then 0 else Sum(fs[..|fs| - 1]) + fs[|fs| - 1].bytes
  }

  /**
   * Frames leave in the order they were accepted: what was offered to the socket, then what waits,
   * then what a close threw away - and the socket has exactly the offered ones it did not throw on.
   */
  ghost predicate InOrder(w: Writer) {
    && w.accepted == Frames(w.offered) + w.waiting + w.discarded
    && DataOf(w.socket.log) == Taken(w.offered)
  }

  ghost predicate Budgeted(env: Env, w: Writer) {
    && w.budget == Budget(Sum(w.waiting), |w.waiting|)
    && (|w.waiting| <= 1 || Sum(w.waiting) + |w.waiting| * FRAME_OVERHEAD <= env.maxBytes)
  }

  /** Whatever waits or is unwritten has a pump turn or a poll coming, and what is unwritten a deadline. */
  ghost predicate Scheduled(w: Writer) {
    && (w.waiting != [] || Buffered(w.socket) > 0 ==> w.pump || w.poll.Some?)
    && (Buffered(w.socket) > 0 ==> w.stall)
    && 1 <= w.pollDelay <= POLL_MAX_DELAY
    && (w.poll.Some? ==> 1 <= w.poll.value <= POLL_MAX_DELAY)
  }

  ghost predicate Deadlined(w: Writer) {
    w.stall ==> w.covered <= w.socket.handed && w.handedSince == w.socket.handed - w.covered + w.thrownSince
  }

  /** A close frame is the last thing sent, but for the cut of a socket that never wrote it. */
  ghost predicate CloseLast(w: Writer) {
    && (w.state.Open? ==> forall i :: 0 <= i < |w.socket.log| ==> w.socket.log[i].Data?)
    && forall i, j :: 0 <= i < j < |w.socket.log| && !w.socket.log[i].Data? ==> w.socket.log[j].Cut?
  }

  function LastBytes(fs: seq<Frame>): nat {
    if fs == [] then 0 else fs[|fs| - 1].bytes
  }

  /** The socket's buffer stays under the mark plus the last frame it took. */
  ghost predicate UnderMark(s: Socket) {
    && s.written <= s.handed
    && s.handed - s.written < HIGH_WATER + LastBytes(DataOf(s.log))
  }

  ghost predicate Quiet(w: Writer) {
    w.waiting == [] && w.poll.None? && !w.stall
  }

  ghost predicate Inv(env: Env, w: Writer) {
    && InOrder(w) && Budgeted(env, w) && CloseLast(w) && UnderMark(w.socket) && Deadlined(w)
    && (if w.state.Open? then Scheduled(w) && w.discarded == [] && !w.closeTimer else Quiet(w))
    && (w.closeTimer ==> w.state.Closing?)
  }
}
