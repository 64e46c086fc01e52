/**
 * One upgraded socket from admission to close: the frames queued before it is open, their dispatch,
 * and the requests live on it.
 *
 * Each event is one synchronous run between awaits. The registry's answers are what it would say
 * of this connection: it still holds it (`registered`), or has ended it. `log` records, in order,
 * what the socket did.
 */
module SessionModel {
  import opened Common

  type FrameId = nat // numbered as they arrive
  type RequestId = nat // a JSON-RPC id; only its equality matters

  const MAX_PRE_ADMISSION_FRAMES := 256
  const MAX_INBOUND_DISPATCHES := 128

  /** What a frame turns out to be when it is handled. */
  datatype Content =
    | Refusable // unparseable, a batch, or invalid: answered with an error
    | PeerReply
    | Cancel(target: RequestId)
    | Notification
    | Request(id: RequestId, known: bool)

  datatype Inbound = Inbound(id: FrameId, bytes: nat, content: Content)

  datatype Phase = Opening | Open | Ended

  /** Where the opening run is suspended. */
  datatype Stage = NotOpened | Rereading | AdmittedTick | InOpenHook | Over

  datatype Recheck = Live | Dead | Failed

  /** A started frame: its handler runs under a request id, or what is left of it is returning. */
  datatype Work = Running(request: RequestId) | Returning

  datatype Mark = Admission | Opened | Start(frame: FrameId) | Reply(to: FrameId) | End | CloseHook

  datatype Limits = Limits(queueMaxBytes: nat, hasOpenHook: bool)

  datatype Session = Session(
    phase: Phase,
    stage: Stage,
    registered: bool,
    captured: bool,
    wasAdmitted: bool,
    closed: bool,                    // the adapter's close event has come
    timers: bool,                    // the receive watchdog and the credential deadline
    queue: seq<Inbound>,
    queuedBytes: nat,
    live: map<RequestId, FrameId>,
    work: map<FrameId, Work>,
    cancelled: set<FrameId>,
    promised: seq<FrameId>,          // frames the adapter was given a promise for
    settled: seq<FrameId>,
    nextFrame: FrameId,
    log: seq<Mark>)

  const NEW_SESSION :=
    Session(Opening, NotOpened, false, false, false, false, false, [], 0, map[], map[], {}, [], [], 0, [])

  function Ids(fs: seq<Inbound>): (ids: seq<FrameId>)
    ensures |ids| == |fs| && forall i :: 0 <= i < |fs| ==> ids[i] == fs[i].id
  {
    seq(|fs|, i requires 0 <= i < |fs| => fs[i].id)
  }

  function Marked(s: Session, m: Mark): Session {
    s.(log := s.log + [m])
  }

  /** The abort listener: runs once, whoever ended the socket. */
  function EndedNow(s: Session): Session {
    if s.phase.Ended? then s.(registered := false)
    else Marked(s.(phase := Ended, registered := false, timers := false, queue := [],
                   settled := s.settled + Ids(s.queue)), End)
  }

  // ----- Dispatch -----

  predicate Dispatches(live: map<RequestId, FrameId>, content: Content) {
    content.Request? && content.known && content.id !in live && |live| < MAX_INBOUND_DISPATCHES
  }

  function WorkFor(live: map<RequestId, FrameId>, content: Content): Work {
    if Dispatches(live, content) then Running(content.id) else Returning
  }

  function LiveWith(live: map<RequestId, FrameId>, f: Inbound): map<RequestId, FrameId> {
    if Dispatches(live, f.content) then live[f.content.id := f.id] else live
  }

  /** A cancel aborts the handler now live under the id it names, if any. */
  function CancelledBy(live: map<RequestId, FrameId>, content: Content): set<FrameId> {
    if content.Cancel? && content.target in live then {live[content.target]} else {}
  }

  function Started(s: Session, f: Inbound): Session {
    s.(work := s.work[f.id := WorkFor(s.live, f.content)],
       live := LiveWith(s.live, f),
       cancelled := s.cancelled + CancelledBy(s.live, f.content),
       log := s.log + [Start(f.id)])
  }

  /** One frame handled up to its first await; `overflows` is whether what it sent ended the connection. */
  function Handled(s: Session, f: Inbound, overflows: bool): Session {
    if overflows then EndedNow(Started(s, f)) else Started(s, f)
  }

  /** The queue, taken whole and handled back to back; a frame that no longer may run is dropped. */
  function Flushed(s: Session, fs: seq<Inbound>, overflows: FrameId -> bool): Session
    decreases |fs|
  {
    if fs == [] then s
    else
      var next := if s.registered then Handled(s, fs[0], overflows(fs[0].id))
                  else s.(settled := s.settled + [fs[0].id]);
      Flushed(next, fs[1..], overflows)
  }

  // ----- Events -----

  datatype Event =
    | Opens(bornClosed: bool)
    | Rechecked(answer: Recheck)
    | Ticks(overflows: FrameId -> bool)          // the run after the admission
    | HookReturns(ok: bool, flushOverflows: FrameId -> bool)
    | Message(bytes: nat, content: Content, tooBig: bool, replyOverflows: bool)
    | HandlerReturns(frame: FrameId, replies: bool)
    | Completes(done: FrameId)
    | TimerFires
    | RegistryEnds    // a revocation, an eviction, a shutdown, a stall
    | RegistryForgets // a bare removal: nothing closes the socket
    | Closes

  predicate Possible(s: Session, e: Event) {
    match e
    case Opens(_) => s.stage.NotOpened?
    case Rechecked(_) => s.stage.Rereading?
    case Ticks(_) => s.stage.AdmittedTick?
    case HookReturns(_, _) => s.stage.InOpenHook?
    case HandlerReturns(frame, _) => frame in s.work && s.work[frame].Running?
    case Completes(done) => done in s.work && s.work[done].Returning?
    case TimerFires => s.timers
    case RegistryEnds => s.registered
    case RegistryForgets => s.registered
    case Closes => !s.closed
    case Message(_, _, _, _) => true
  }

  function Registered(s: Session, bornClosed: bool): Session {
    var captured := s.(captured := true);
    if bornClosed then EndedNow(captured.(stage := Over))
    else if s.phase.Ended? then captured.(stage := Over)
    else captured.(stage := Rereading, registered := true)
  }

  /** Refused, unless the registry still holds the connection the re-read found alive. */
  function AdmittedOrRefused(s: Session, answer: Recheck): Session {
    if answer.Live? && s.registered then Marked(s.(stage := AdmittedTick, wasAdmitted := true), Admission)
    else EndedNow(s.(stage := Over))
  }

  /** Open from here on, with the queue taken whole. */
  function OpenedNow(s: Session): Session {
    Marked(s.(stage := Over, phase := Open, queue := []), Opened)
  }

  function FinishedOpening(s: Session, overflows: FrameId -> bool): Session {
    var over := s.(stage := Over);
    if !s.phase.Opening? then over
    else Flushed(OpenedNow(s), s.queue, overflows)
  }

  function Ticked(s: Session, limits: Limits, overflows: FrameId -> bool): Session {
    var timed := if s.phase.Ended? then s else s.(timers := true);
    if limits.hasOpenHook then timed.(stage := InOpenHook) else FinishedOpening(timed, overflows)
  }

  predicate QueueFull(s: Session, limits: Limits, bytes: nat) {
    |s.queue| >= MAX_PRE_ADMISSION_FRAMES || s.queuedBytes + bytes > limits.queueMaxBytes
  }

  /** The adapter gets a promise for the frame. */
  function Promised(s: Session, f: Inbound): Session {
    s.(nextFrame := s.nextFrame + 1, promised := s.promised + [f.id])
  }

  function Queued(s: Session, f: Inbound): Session {
    Promised(s, f).(queue := s.queue + [f], queuedBytes := s.queuedBytes + f.bytes)
  }

  function Dropped(s: Session): Session {
    s.(nextFrame := s.nextFrame + 1)
  }

  /** Before the socket is open a frame waits, within the queue's bounds. */
  function Waiting(s: Session, limits: Limits, f: Inbound): Session {
    if QueueFull(s, limits, f.bytes) then EndedNow(Dropped(s)) else Queued(s, f)
  }

  /** On an open one it dispatches, while the registry holds the connection. */
  function Dispatching(s: Session, f: Inbound, overflows: bool): Session {
    if !s.registered then EndedNow(Dropped(s)) else Handled(Promised(s, f), f, overflows)
  }

  function Received(s: Session, limits: Limits, bytes: nat, content: Content, tooBig: bool, overflows: bool): Session {
    var f := Inbound(s.nextFrame, bytes, content);
    if s.phase.Ended? then Dropped(s)
    else if tooBig then EndedNow(Dropped(s))
    else if s.phase.Opening? then Waiting(s, limits, f)
    else Dispatching(s, f, overflows)
  }

  /** The reply goes out while the connection is held, and only then is the id free again. */
  function Answered(s: Session, frame: FrameId, replies: bool): Session
    requires frame in s.work && s.work[frame].Running?
  {
    var sent := if replies && s.registered then Marked(s, Reply(frame)) else s;
    sent.(live := sent.live - {s.work[frame].request}, work := sent.work[frame := Returning])
  }

  function WorkDone(s: Session, done: FrameId): Session {
    s.(work := s.work - {done}, settled := s.settled + [done])
  }

  function ClosedByPeer(s: Session): Session {
    var ended := EndedNow(s).(closed := true);
    if s.captured && s.wasAdmitted then Marked(ended, CloseHook) else ended
  }

  function Step(s: Session, limits: Limits, e: Event): Session
    requires Possible(s, e)
  {
    match e
    case Opens(bornClosed) => Registered(s, bornClosed)
    case Rechecked(answer) => AdmittedOrRefused(s, answer)
    case Ticks(overflows) => Ticked(s, limits, overflows)
    case HookReturns(ok, overflows) =>
      if ok then FinishedOpening(s, overflows) else EndedNow(s.(stage := Over))
    case Message(bytes, content, tooBig, overflows) => Received(s, limits, bytes, content, tooBig, overflows)
    case HandlerReturns(frame, replies) => Answered(s, frame, replies)
    case Completes(done) => WorkDone(s, done)
    case TimerFires => EndedNow(s)
    case RegistryEnds => EndedNow(s)
    case RegistryForgets => s.(registered := false)
    case Closes => ClosedByPeer(s)
  }

  // ----- What every event keeps -----

  function Bytes(fs: seq<Inbound>): nat {
    if fs == [] then 0 else Bytes(fs[..|fs| - 1]) + fs[|fs| - 1].bytes
  }

  /** The socket's phase, the registry's hold and the opening run agree. */
  ghost predicate PhaseOk(s: Session) {
    && (s.phase.Ended? ==> !s.registered && !s.timers && s.queue == [])
    && (s.phase.Open? ==> s.stage.Over? && s.wasAdmitted && s.queue == [])
    && (s.stage.AdmittedTick? || s.stage.InOpenHook? ==> s.wasAdmitted)
    && (s.wasAdmitted ==> s.captured && !s.stage.NotOpened? && !s.stage.Rereading?)
    && (s.timers ==> s.wasAdmitted)
    && (s.captured <==> !s.stage.NotOpened?) && (s.registered ==> s.captured)
    && (s.closed ==> s.phase.Ended?)
  }

  ghost predicate QueueOk(s: Session, limits: Limits) {
    && |s.queue| <= MAX_PRE_ADMISSION_FRAMES
    && (s.phase.Opening? ==> s.queuedBytes == Bytes(s.queue) <= limits.queueMaxBytes)
  }

  /** Each promise given is for one frame, which is queued, about to be flushed, at work, or settled once. */
  ghost predicate Conserved(s: Session, rest: seq<Inbound>) {
    && multiset(s.promised) ==
      multiset(Ids(s.queue)) + multiset(Ids(rest)) + multiset(s.work.Keys) + multiset(s.settled)
    && Distinct(s.promised) && forall f :: f in s.promised ==> f < s.nextFrame
  }

  /** The live ids are exactly the running handlers', one each, never more than the ceiling. */
  ghost predicate LiveOk(s: Session) {
    && |s.live| <= MAX_INBOUND_DISPATCHES
    && (forall id :: id in s.live ==> s.live[id] in s.work && s.work[s.live[id]] == Running(id))
    && (forall f :: f in s.work && s.work[f].Running? ==> s.work[f].request in s.live && s.live[s.work[f].request] == f)
  }

  ghost predicate Before(log: seq<Mark>, i: nat, m: Mark)
    requires i <= |log|
  {
    exists j :: 0 <= j < i && log[j] == m
  }

  /** Frames start, and are answered, only between the opening's completion and the socket's end. */
  ghost predicate LogOk(s: Session) {
    && (forall i :: 0 <= i < |s.log| && (s.log[i].Start? || s.log[i].Reply?) ==> !Before(s.log, i, End))
    && (forall i :: 0 <= i < |s.log| && s.log[i].Start? ==> Before(s.log, i, Opened))
    && (forall i :: 0 <= i < |s.log| && s.log[i].Opened? ==> Before(s.log, i, Admission))
    && (s.phase.Ended? <==> Before(s.log, |s.log|, End))
    && (s.phase.Open? ==> Before(s.log, |s.log|, Opened))
    && (s.wasAdmitted <==> Before(s.log, |s.log|, Admission))
  }

  ghost predicate Ascending(fs: seq<Inbound>, below: FrameId) {
    && (forall i, j :: 0 <= i < j < |fs| ==> fs[i].id < fs[j].id)
    && forall i :: 0 <= i < |fs| ==> fs[i].id < below
  }

  /** Frames start in the order they arrived, and those still to start arrived after all that have. */
  ghost predicate OrderOk(s: Session, rest: seq<Inbound>) {
    && (forall i, j :: 0 <= i < j < |s.log| && s.log[i].Start? && s.log[j].Start? ==> s.log[i].frame < s.log[j].frame)
    && (forall i :: 0 <= i < |s.log| && s.log[i].Start? ==> s.log[i].frame < s.nextFrame)
    && Ascending(s.queue, s.nextFrame) && Ascending(rest, s.nextFrame)
    && (s.phase.Opening? ==> forall i :: 0 <= i < |s.log| ==> !s.log[i].Start?)
    && forall i, j :: 0 <= i < |s.log| && s.log[i].Start? && 0 <= j < |rest| ==> s.log[i].frame < rest[j].id
  }

  ghost predicate InvWith(s: Session, limits: Limits, rest: seq<Inbound>) {
    PhaseOk(s) && QueueOk(s, limits) && Conserved(s, rest) && LiveOk(s) && LogOk(s) && OrderOk(s, rest)
  }

  ghost predicate Inv(s: Session, limits: Limits) {
    InvWith(s, limits, [])
  }
}
