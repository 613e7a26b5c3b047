/** The takeover channel as an object: each method is one stretch of code between two awaits. */
module WebSocketChannel {
  import opened Options
  import opened Channel

  class TakeoverChannel {
    const limits: Limits
    // the channel's fields, grouped by what they belong to
    var core: Core
    var inbound: Inbound
    var video: Video
    var uses: Uses
    var told: seq<Notice> // history: what the peer was told at the end

    function View(): Channel
      reads this
    {
      Channel(core, inbound, video, uses, told)
    }

    constructor (limits: Limits)
      ensures this.limits == limits && View() == OPENED
    {
      this.limits := limits;
      core, inbound, video, uses := OPENED.core, OPENED.inbound, OPENED.video, OPENED.uses;
      told := OPENED.told;
    }

    // -------------------------------------------------------------- shared pieces

    method ClearFrames()
      modifies `video
      ensures video == Cleared(old(video))
    {
      if video.pending.Some? {
        video := video.(lost := video.lost + 1);
      }
      video := video.(timer := false, pending := None);
    }

    method NotifyTerminal(notice: Notice)
      modifies `told
      ensures told == old(told) + [notice]
    {
      told := told + [notice];
    }

    method SafeClose(status: nat, reason: Reason)
      modifies `told
      ensures told == old(told) + [HangUp(status, reason)]
    {
      told := told + [HangUp(status, reason)];
    }

    /** `failClosed` after its release. */
    method TellFailed(code: Failure)
      modifies `told
      ensures View() == FailureTold(old(View()), code)
    {
      var last := if core.lastFailure.Some? then core.lastFailure.value else code;
      NotifyTerminal(TellFailure(last));
      SafeClose(
        if code.TransportFailure? || core.lastFailure == Some(ReleaseFailed) then INTERNAL else POLICY,
        ByFailure(last));
    }

    method CloseAdmission(code: Failure)
      modifies `core
      ensures core == Fence(old(core), code)
    {
      core := core.(lastFailure := Some(code));
      core := core.(admission := false, state := Failed, fences := core.fences + 1);
    }

    /** `failClosed` up to its release, which it awaits if `waits`. */
    method FailClosed(code: Failure) returns (waits: bool)
      modifies `core, `video, `told
      ensures View() == Fenced(old(View()), code) && waits == Waits(old(View()))
    {
      hide FailureTold, Cleared, Fence;
      if core.state.Failed? || core.state.Closed? || core.state.Revoked? {
        return false;
      }
      CloseAdmission(code);
      ClearFrames();
      if core.released {
        TellFailed(code);
        return false;
      }
      return true;
    }

    method ReleaseAnswered(ok: bool)
      modifies `core
      ensures View() == AfterRelease(old(View()), ok)
    {
      if ok {
        core := core.(released := true);
      } else {
        RecordReleaseFailure();
      }
    }

    method RecordReleaseFailure()
      modifies `core
      ensures core == old(core).(released := false, state := Failed, lastFailure := Some(ReleaseFailed),
                                 rejections := old(core).rejections + 1)
    {
      core := core.(released := false, state := Failed, lastFailure := Some(ReleaseFailed));
      core := core.(rejections := core.rejections + 1);
    }

    method FailInQueue(code: Failure)
      modifies `core, `video, `inbound, `told
      ensures View() == QueueFails(old(View()), code)
    {
      hide FailureTold, Cleared;
      var waits := FailClosed(code);
      inbound := inbound.(running := if waits then QueueFailing(code) else Idle);
    }

    method FailElsewhere(code: Failure)
      modifies `core, `video, `told
      ensures View() == OtherFails(old(View()), code)
    {
      hide FailureTold, Cleared;
      var waits := FailClosed(code);
      if waits {
        core := core.(failing := core.failing + [code]);
      }
    }

    // -------------------------------------------------------------- the queue

    method ReserveQueuedInbound(bytes: nat) returns (reserved: bool)
      modifies `inbound
      ensures reserved ==
        (old(inbound).messages + 1 <= limits.maxQueuedMessages && old(inbound).bytes + bytes <= limits.maxQueuedBytes)
      ensures inbound ==
        if reserved then Reserved(old(inbound), bytes) else old(inbound)
    {
      var nextMessages, nextBytes := inbound.messages + 1, inbound.bytes + bytes;
      if nextMessages > limits.maxQueuedMessages || nextBytes > limits.maxQueuedBytes {
        return false;
      }
      inbound := inbound.(messages := nextMessages, bytes := nextBytes);
      inbound := inbound.(
        mostMessages := Max(inbound.mostMessages, nextMessages), mostBytes := Max(inbound.mostBytes, nextBytes));
      return true;
    }

    method Enqueue(op: Operation)
      modifies `inbound
      ensures inbound == Enqueued(old(inbound), op)
    {
      inbound := inbound.(queue := inbound.queue + [op]);
    }

    method ReceiveText(bytes: nat, kind: Kind)
      modifies `inbound, `core
      ensures View() == AfterReceive(limits, old(View()), bytes, kind)
    {
      if !core.admission {
        return;
      }
      var index := |inbound.received|;
      inbound := inbound.(received := inbound.received + [kind]);
      if bytes > limits.maxInboundBytes {
        core := core.(admission := false);
        Enqueue(Refused(InvalidMessage));
        return;
      }
      var reserved := ReserveQueuedInbound(bytes);
      if !reserved {
        core := core.(admission := false);
        Enqueue(Refused(QueueOverflow));
        return;
      }
      Enqueue(Message(index, bytes, kind));
    }

    /** `disconnect()` and `revoke()`. */
    method Terminate(op: Operation)
      modifies `core, `inbound
      ensures View() == AfterCall(old(View()), op)
    {
      core := core.(admission := false);
      Enqueue(op);
    }

    method RunNext()
      requires inbound.running.Idle? && inbound.queue != []
      modifies `core, `inbound, `video, `told
      ensures View() == AfterRun(old(View()))
    {
      hide TextRuns, QueueFails, Terminated;
      var op := inbound.queue[0];
      inbound := inbound.(queue := inbound.queue[1..]);
      match op {
        case Message(index, bytes, kind) =>
          inbound := inbound.(messages := inbound.messages - 1, bytes := inbound.bytes - bytes, taken := index + 1);
          RunText(index, kind);
        case Refused(code) => FailInQueue(code);
        case Disconnect => RunTermination(Closed);
        case Revoke => RunTermination(Revoked);
      }
    }

    method RunText(index: nat, kind: Kind)
      modifies `core, `inbound, `video, `told
      ensures View() == TextRuns(old(View()), index, kind)
    {
      if !core.state.Open? || !core.admission {
        return;
      }
      match kind {
        case Malformed => FailInQueue(InvalidMessage);
        case NotAllowed => FailInQueue(InputNotAllowed);
        case Diagnostic =>
        case Latency =>
        case Ping => inbound := inbound.(running := BeginPing);
        case Finished => StartCompletion();
        case Input => inbound := inbound.(running := BeginInput(index));
      }
    }

    method StartCompletion()
      modifies `core, `inbound, `video, `told
      ensures View() == CompletionStarts(old(View()))
    {
      if core.doneStarted || !core.state.Open? {
        return;
      }
      core := core.(doneStarted := true, admission := false, state := Closing);
      ClearFrames();
      NotifyTerminal(TellClosing);
      core := core.(completions := core.completions + 1);
      inbound := inbound.(running := Completing);
    }

    method RunTermination(final: State)
      modifies `core, `inbound, `video, `told
      ensures View() == Terminated(old(View()), final)
    {
      if (core.state.Closed? || core.state.Revoked?) && core.released {
        return;
      }
      core := core.(state := final);
      ClearFrames();
      if !core.released {
        inbound := inbound.(running := Releasing(final));
      } else if final.Revoked? {
        SafeClose(NORMAL, ByRevocation);
      }
    }

    method QueueBeginAnswered(ok: bool)
      requires inbound.running.BeginPing? || inbound.running.BeginInput?
      modifies this
      ensures View() == AfterQueueBegin(old(View()), ok)
    {
      if !ok {
        FailInQueue(StaleGeneration);
        return;
      }
      uses := uses.(begun := uses.begun + 1);
      var point := inbound.running;
      if point.BeginInput? && core.state.Open? && core.admission {
        inbound := inbound.(dispatched := inbound.dispatched + [point.index]);
        inbound := inbound.(running := Dispatching(point.index));
      } else {
        if point.BeginPing? {
          inbound := inbound.(ponged := inbound.ponged + 1);
        }
        uses := uses.(ended := uses.ended + 1);
        inbound := inbound.(running := Ending(Fine));
      }
    }

    method InputAnswered(outcome: Outcome)
      requires inbound.running.Dispatching?
      modifies `inbound, `uses
      ensures View() == AfterInput(old(View()), outcome)
    {
      inbound := inbound.(finished := inbound.finished + 1);
      uses := uses.(ended := uses.ended + 1);
      inbound := inbound.(running := Ending(outcome));
    }

    method QueueEndAnswered(ok: bool)
      requires inbound.running.Ending?
      modifies `core, `inbound, `video, `told
      ensures View() == AfterQueueEnd(old(View()), ok)
    {
      if !ok {
        FailInQueue(StaleGeneration);
      } else if inbound.running.outcome.Fatal? {
        FailInQueue(TransportFailure);
      } else {
        inbound := inbound.(running := Idle);
      }
    }

    method CompleteAnswered(ok: bool)
      requires inbound.running.Completing?
      modifies `core, `inbound, `video, `told
      ensures View() == AfterComplete(old(View()), ok)
    {
      if !ok {
        FailInQueue(StaleGeneration);
        return;
      }
      core := core.(released := true, state := Closed);
      NotifyTerminal(TellClosed);
      SafeClose(NORMAL, ByCompletion);
      inbound := inbound.(running := Idle);
    }

    method QueueReleaseAnswered(ok: bool)
      requires inbound.running.Releasing? || inbound.running.QueueFailing?
      modifies `core, `inbound, `told
      ensures View() == AfterQueueRelease(old(View()), ok)
    {
      var point := inbound.running;
      ReleaseAnswered(ok);
      inbound := inbound.(running := Idle);
      if point.QueueFailing? {
        TellFailed(point.code);
      } else if !ok {
        SafeClose(INTERNAL, ByFailure(ReleaseFailed));
      } else if point.final.Revoked? {
        SafeClose(NORMAL, ByRevocation);
      }
    }

    // -------------------------------------------------------------- the frame path

    method ReplacePendingFrame(frame: nat)
      modifies `video
      ensures video == ReplacePending(old(video), frame)
    {
      if video.pending.Some? {
        video := video.(droppedFrames := video.droppedFrames + 1);
      }
      video := video.(pending := Some(frame));
    }

    method SetDrainTimer()
      modifies `video
      ensures video == ScheduleDrain(old(video), core.state)
    {
      if video.timer || !core.state.Open? {
        return;
      }
      video := video.(timer := true);
    }

    method FailInFrameLoop(code: Failure)
      modifies `core, `video, `told
      ensures View() == FrameFails(old(View()), code)
    {
      hide FailureTold, Cleared;
      var waits := FailClosed(code);
      video := video.(lost := video.lost + 1, sending := if waits then FrameFailing(code) else NoFrame);
    }

    /** The frame loop from its test to the next await. */
    method SendFrameLoop(current: nat, buffer: Buffer)
      modifies `core, `video, `told
      ensures View() == FrameLoop(old(View()), current, buffer)
    {
      if !core.state.Open? {
        video := video.(lost := video.lost + 1, sending := NoFrame);
        return;
      }
      match buffer {
        case Full =>
          ReplacePendingFrame(current);
          SetDrainTimer();
          video := video.(sending := NoFrame);
        case Broken => FailInFrameLoop(TransportFailure);
        case Clear => video := video.(sending := FrameBegin(current));
      }
    }

    method PushFrame(valid: bool, first: Buffer, second: Buffer)
      modifies `core, `video, `told
      ensures View() == AfterPush(old(View()), valid, first, second)
    {
      hide FrameLoop, OtherFails;
      if !core.state.Open? {
        return;
      }
      if !valid {
        FailElsewhere(FrameTooLarge);
        return;
      }
      if video.sending.NoFrame? && first.Broken? {
        FailElsewhere(TransportFailure);
        return;
      }
      var frame := video.accepted;
      video := video.(accepted := video.accepted + 1);
      if !video.sending.NoFrame? || first.Full? {
        ReplacePendingFrame(frame);
        SetDrainTimer();
        return;
      }
      if video.pending.Some? {
        video := video.(droppedFrames := video.droppedFrames + 1, pending := None);
      }
      SendFrameLoop(frame, second);
    }

    method DrainTimerFires(first: Buffer, second: Buffer)
      requires video.timer
      modifies `core, `video, `told
      ensures View() == AfterTimer(old(View()), first, second)
    {
      hide FrameLoop, OtherFails;
      video := video.(timer := false);
      if !core.state.Open? || !video.sending.NoFrame? || video.pending.None? {
        return;
      }
      match first {
        case Full => SetDrainTimer();
        case Broken => FailElsewhere(TransportFailure);
        case Clear =>
          var frame := video.pending.value;
          video := video.(pending := None);
          SendFrameLoop(frame, second);
      }
    }

    method FrameBeginAnswered(ok: bool)
      requires video.sending.FrameBegin?
      modifies `core, `video, `uses, `told
      ensures View() == AfterFrameBegin(old(View()), ok)
    {
      if !ok {
        FailInFrameLoop(StaleGeneration);
        return;
      }
      uses := uses.(begun := uses.begun + 1);
      var current := video.sending.frame;
      video := video.(handed := video.handed + [current], sending := FrameSend(current));
    }

    method FrameSendAnswered(ok: bool)
      requires video.sending.FrameSend?
      modifies `uses, `video
      ensures View() == AfterFrameSend(old(View()), ok)
    {
      uses := uses.(ended := uses.ended + 1);
      video := video.(answered := video.answered + 1, sending := FrameEnd(video.sending.frame, ok));
    }

    method FrameEndAnswered(ok: bool, buffer: Buffer)
      requires video.sending.FrameEnd?
      modifies `core, `video, `told
      ensures View() == AfterFrameEnd(old(View()), ok, buffer)
    {
      if !ok {
        FailInFrameLoop(StaleGeneration);
        return;
      }
      if !video.sending.sent {
        FailInFrameLoop(TransportFailure);
        return;
      }
      hide FrameLoop;
      video := video.(sentFrames := video.sentFrames + 1, delivered := video.delivered + [video.sending.frame]);
      var current := video.pending;
      video := video.(pending := None, sending := NoFrame);
      if current.Some? {
        SendFrameLoop(current.value, buffer);
      }
    }

    method FrameReleaseAnswered(ok: bool)
      requires video.sending.FrameFailing?
      modifies `core, `video, `told
      ensures View() == AfterFrameRelease(old(View()), ok)
    {
      var code := video.sending.code;
      ReleaseAnswered(ok);
      TellFailed(code);
      video := video.(sending := NoFrame);
    }

    // -------------------------------------------------------------- `start()`

    method Start()
      modifies `uses
      ensures View() == AfterStart(old(View()))
    {
      if core.state.Open? {
        uses := uses.(startBegin := uses.startBegin + 1);
      }
    }

    method StartBeginAnswered(ok: bool)
      requires uses.startBegin > 0
      modifies `core, `video, `uses, `told
      ensures View() == AfterStartBegin(old(View()), ok)
    {
      uses := uses.(startBegin := uses.startBegin - 1);
      if ok {
        uses := uses.(startUse := uses.startUse + 1, begun := uses.begun + 1);
      } else {
        FailElsewhere(StaleGeneration);
      }
    }

    method StartSendAnswered()
      requires uses.startUse > 0
      modifies `uses
      ensures View() == AfterStartSent(old(View()))
    {
      uses := uses.(startUse := uses.startUse - 1, startEnd := uses.startEnd + 1, ended := uses.ended + 1);
    }

    method StartEndAnswered(ok: bool, sent: bool)
      requires uses.startEnd > 0
      modifies `core, `video, `uses, `told
      ensures View() == AfterStartEnd(old(View()), ok, sent)
    {
      uses := uses.(startEnd := uses.startEnd - 1);
      if !ok {
        FailElsewhere(StaleGeneration);
      } else if !sent {
        FailElsewhere(TransportFailure);
      }
    }

    method OtherReleaseAnswered(which: nat, ok: bool)
      requires which < |core.failing|
      modifies `core, `told
      ensures View() == AfterOtherRelease(old(View()), which, ok)
    {
      var code := core.failing[which];
      core := core.(failing := core.failing[..which] + core.failing[which + 1..]);
      ReleaseAnswered(ok);
      TellFailed(code);
    }
  }
}
