/** The socket's closures as an object: each adapter event, and each run after an await, is a method. */
module SocketSessions {
  import opened Common
  import opened SessionModel
  import opened SessionRuns

  class WsSocket {
    const limits: Limits
    var phase: Phase
    var stage: Stage
    var registered: bool
    var captured: bool
    var wasAdmitted: bool
    var timers: bool
    var queuedFrames: seq<Inbound>
    var queuedBytes: nat
    var pendingControllers: map<RequestId, FrameId>
    var cancelled: set<FrameId>
    var nextFrame: FrameId
    ghost var closed: bool
    ghost var work: map<FrameId, Work>
    ghost var promised: seq<FrameId>
    ghost var settled: seq<FrameId>
    ghost var log: seq<Mark>

    ghost function Model(): Session
      reads this
    {
      Session(phase, stage, registered, captured, wasAdmitted, closed, timers, queuedFrames, queuedBytes,
              pendingControllers, work, cancelled, promised, settled, nextFrame, log)
    }

    ghost predicate Valid()
      reads this
    {
      Inv(Model(), limits)
    }

    constructor (limits: Limits)
      ensures Valid() && Model() == NEW_SESSION && this.limits == limits
    {
      this.limits := limits;
      phase, stage, registered, captured, wasAdmitted, timers := Opening, NotOpened, false, false, false, false;
      queuedFrames, queuedBytes, pendingControllers, cancelled, nextFrame := [], 0, map[], {}, 0;
      closed, work, promised, settled, log := false, map[], [], [], [];
      new;
      assert Ids([]) == [];
    }

    // ----- Parts -----

    /** The socket's signal aborts: its listener runs once. */
    method Abort()
      modifies this
      ensures Model() == EndedNow(old(Model()))
    {
      registered := false;
      if !phase.Ended? {
        RecordEnd();
      }
    }

    method RecordEnd()
      requires !phase.Ended? && !registered
      modifies this`phase, this`timers, this`settled, this`queuedFrames, this`log
      ensures Model() == EndedNow(old(Model()))
    {
      phase := Ended;
      timers := false;
      settled := settled + Ids(queuedFrames);
      queuedFrames := [];
      log := log + [End];
    }

    /** A request is live from here until its reply; a refused one never is. */
    method TakeRequest(f: Inbound)
      modifies this`pendingControllers
      ensures pendingControllers == LiveWith(old(pendingControllers), f)
    {
      if !f.content.Request? || f.content.id in pendingControllers {
        return;
      }
      if |pendingControllers| >= MAX_INBOUND_DISPATCHES {
        return;
      }
      if f.content.known {
        pendingControllers := pendingControllers[f.content.id := f.id];
      }
    }

    method CancelRequest(content: Content)
      modifies this`cancelled
      ensures cancelled == old(cancelled) + CancelledBy(pendingControllers, content)
    {
      if content.Cancel? && content.target in pendingControllers {
        cancelled := cancelled + {pendingControllers[content.target]};
      }
    }

    method StartFrame(f: Inbound)
      modifies this`work, this`pendingControllers, this`cancelled, this`log
      ensures Model() == Started(old(Model()), f)
    {
      RecordStart(f);
      CancelRequest(f.content);
      TakeRequest(f);
    }

    ghost method RecordStart(f: Inbound)
      modifies this`work, this`log
      ensures Model() == old(Model()).(work := old(work)[f.id := WorkFor(pendingControllers, f.content)],
                                       log := old(log) + [Start(f.id)])
    {
      log := log + [Start(f.id)];
      work := work[f.id := WorkFor(pendingControllers, f.content)];
    }

    /** A frame handled up to its first await. */
    method HandleFrame(f: Inbound, overflows: bool)
      modifies this
      ensures Model() == Handled(old(Model()), f, overflows)
    {
      StartFrame(f);
      if overflows {
        Abort();
      }
    }

    method Flush(frames: seq<Inbound>, overflows: FrameId -> bool)
      modifies this
      ensures Model() == Flushed(old(Model()), frames, overflows)
    {
      ghost var done := Flushed(Model(), frames, overflows);
      for i := 0 to |frames|
        invariant Flushed(Model(), frames[i..], overflows) == done
      {
        assert frames[i..][1..] == frames[i + 1..];
        if registered {
          HandleFrame(frames[i], overflows(frames[i].id));
        } else {
          settled := settled + [frames[i].id];
        }
      }
    }

    method FinishOpening(overflows: FrameId -> bool)
      modifies this
      ensures Model() == FinishedOpening(old(Model()), overflows)
    {
      stage := Over;
      if !phase.Opening? {
        return;
      }
      phase := Open;
      log := log + [Opened];
      var frames := queuedFrames;
      queuedFrames := [];
      Flush(frames, overflows);
    }

    method QueueFrame(f: Inbound)
      modifies this
      ensures Model() == Waiting(old(Model()), limits, f)
    {
      nextFrame := nextFrame + 1;
      if |queuedFrames| >= MAX_PRE_ADMISSION_FRAMES || queuedBytes + f.bytes > limits.queueMaxBytes {
        assert Model() == Dropped(old(Model()));
        Abort();
        return;
      }
      assert !QueueFull(old(Model()), limits, f.bytes);
      queuedBytes := queuedBytes + f.bytes;
      promised := promised + [f.id];
      queuedFrames := queuedFrames + [f];
    }

    method DispatchFrame(f: Inbound, overflows: bool)
      modifies this
      ensures Model() == Dispatching(old(Model()), f, overflows)
    {
      nextFrame := nextFrame + 1;
      if !registered {
        Abort();
        return;
      }
      promised := promised + [f.id];
      assert Model() == Promised(old(Model()), f);
      HandleFrame(f, overflows);
    }

    method Receive(bytes: nat, content: Content, tooBig: bool, overflows: bool)
      modifies this
      ensures Model() == Received(old(Model()), limits, bytes, content, tooBig, overflows)
    {
      var f := Inbound(nextFrame, bytes, content);
      if phase.Ended? {
        nextFrame := nextFrame + 1;
      } else if tooBig {
        nextFrame := nextFrame + 1;
        Abort();
      } else if phase.Opening? {
        QueueFrame(f);
      } else {
        DispatchFrame(f, overflows);
      }
    }

    // ----- Adapter events and runs after an await, as steps -----

    method DoOpen(bornClosed: bool)
      modifies this
      ensures Model() == Registered(old(Model()), bornClosed)
    {
      captured := true;
      if bornClosed {
        stage := Over;
        Abort();
      } else if phase.Ended? {
        stage := Over;
      } else {
        stage, registered := Rereading, true;
      }
    }

    method DoRecheck(answer: Recheck)
      modifies this
      ensures Model() == AdmittedOrRefused(old(Model()), answer)
    {
      if answer.Live? && registered {
        stage, wasAdmitted := AdmittedTick, true;
        log := log + [Admission];
      } else {
        stage := Over;
        Abort();
      }
    }

    method DoTick(overflows: FrameId -> bool)
      modifies this
      ensures Model() == Ticked(old(Model()), limits, overflows)
    {
      if !phase.Ended? {
        timers := true;
      }
      if limits.hasOpenHook {
        stage := InOpenHook;
      } else {
        FinishOpening(overflows);
      }
    }

    method DoClose()
      modifies this
      ensures Model() == ClosedByPeer(old(Model()))
    {
      Abort();
      closed := true;
      if captured && wasAdmitted {
        log := log + [CloseHook];
      }
    }

    method ReplyAndFree(frame: FrameId, id: RequestId, replies: bool)
      requires frame in work && work[frame] == Running(id)
      modifies this
      ensures Model() == Answered(old(Model()), frame, replies)
    {
      if replies && registered {
        log := log + [Reply(frame)];
      }
      pendingControllers := pendingControllers - {id};
      work := work[frame := Returning];
    }

    // ----- The same, with what they keep -----

    method OnOpen(bornClosed: bool)
      requires Valid() && stage.NotOpened?
      modifies this
      ensures Valid() && Model() == Registered(old(Model()), bornClosed)
    {
      OpensKeepsInv(Model(), limits, bornClosed);
      DoOpen(bornClosed);
    }

    /** The re-read came back, or failed: admitted only if the registry still holds the connection. */
    method AfterRecheck(answer: Recheck)
      requires Valid() && stage.Rereading?
      modifies this
      ensures Valid() && Model() == AdmittedOrRefused(old(Model()), answer)
    {
      RecheckKeepsInv(Model(), limits, answer);
      DoRecheck(answer);
    }

    method AfterAdmission(overflows: FrameId -> bool)
      requires Valid() && stage.AdmittedTick?
      modifies this
      ensures Valid() && Model() == Ticked(old(Model()), limits, overflows)
    {
      TickKeepsInv(Model(), limits, overflows);
      DoTick(overflows);
    }

    /** The open hook returned; a throw ends the socket. */
    method AfterOpenHook(overflows: FrameId -> bool)
      requires Valid() && stage.InOpenHook?
      modifies this
      ensures Valid() && Model() == FinishedOpening(old(Model()), overflows)
    {
      FinishedKeepsInv(Model(), limits, overflows);
      FinishOpening(overflows);
    }

    method AfterOpenHookFailed()
      requires Valid() && stage.InOpenHook?
      modifies this
      ensures Valid() && Model() == EndedNow(old(Model()).(stage := Over))
    {
      HookFailedKeepsInv(Model(), limits);
      stage := Over;
      assert Model() == old(Model()).(stage := Over);
      Abort();
    }

    method OnMessage(bytes: nat, content: Content, tooBig: bool, overflows: bool)
      requires Valid()
      modifies this
      ensures Valid() && Model() == Received(old(Model()), limits, bytes, content, tooBig, overflows)
    {
      MessageKeepsInv(Model(), limits, bytes, content, tooBig, overflows);
      Receive(bytes, content, tooBig, overflows);
    }

    /** A handler came back: the reply first, then the id is free. */
    method AfterHandler(frame: FrameId, id: RequestId, replies: bool)
      requires Valid() && frame in work && work[frame] == Running(id)
      modifies this
      ensures Valid() && Model() == Answered(old(Model()), frame, replies)
    {
      AnsweredKeepsInv(Model(), limits, frame, replies);
      ReplyAndFree(frame, id, replies);
    }

    method AfterEffects(frame: FrameId)
      requires Valid() && frame in work && work[frame].Returning?
      modifies this`work, this`settled
      ensures Valid() && Model() == WorkDone(old(Model()), frame)
    {
      CompletedKeepsInv(Model(), limits, frame);
      work := work - {frame};
      settled := settled + [frame];
    }

    /** The server ends the socket: a timer of its own, or the registry closing the connection. */
    method EndSocket()
      requires Valid()
      modifies this
      ensures Valid() && Model() == EndedNow(old(Model()))
    {
      EndedKeepsInv(Model(), limits);
      Abort();
    }

    /** The registry no longer holds the connection, though nothing closed the socket. */
    method Forgotten()
      requires Valid() && registered
      modifies this`registered
      ensures Valid() && Model() == old(Model()).(registered := false)
    {
      ForgottenKeepsInv(Model(), limits);
      registered := false;
    }

    method OnClose()
      requires Valid()
      modifies this
      ensures Valid() && Model() == ClosedByPeer(old(Model()))
    {
      ClosedKeepsInv(Model(), limits);
      DoClose();
    }
  }
}
