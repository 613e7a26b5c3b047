/** Every interleaving of the channel: what all its steps keep, and what follows for whole runs. */
module ChannelRuns {
  import opened Options
  import opened Channel

  predicate Increasing(s: seq<nat>) {
    forall i, j | 0 <= i < j < |s| :: s[i] < s[j]
  }

  /** One more than the last element. */
  function Top(s: seq<nat>): nat {
    if s == [] then 0 else s[|s| - 1] + 1
  }

  lemma {:induction false} IncreasingSnoc(s: seq<nat>, n: nat)
    requires Increasing(s) && Top(s) <= n
    ensures Increasing(s + [n]) && Top(s + [n]) == n + 1
  {
  }

  // ---------------------------------------------------------------- the state

  predicate Fencing(op: Operation) {
    !op.Message?
  }

  predicate HasFence(queue: seq<Operation>) {
    exists k | 0 <= k < |queue| :: Fencing(queue[k])
  }

  /** `failClosed` calls awaiting the release. */
  function Failing(x: Channel): nat {
    One(x.inbound.running.QueueFailing?) + One(x.video.sending.FrameFailing?) + |x.core.failing|
  }

  /** Authority is given back, or that is on the way, or it was rejected. */
  predicate GivesBack(x: Channel) {
    || x.core.released || x.core.rejections > 0 || Failing(x) > 0
    || x.inbound.running.Releasing? || x.core.state.Closing?
  }

  /** How the state and the operations that leave `open` hang together. */
  predicate CoreOk(x: Channel) {
    var c, running := x.core, x.inbound.running;
    && (c.admission ==> c.state.Open?)
    && (c.state.Closing? ==> running.Completing?)
    && (running.Completing? || running.Releasing? || c.doneStarted ==> !c.state.Open?)
    && (HasFence(x.inbound.queue) ==> !c.admission)
    && c.completions == One(c.doneStarted)
    && (c.fences > 0 ==> Terminal(c.state))
    && Failing(x) <= c.fences <= 1
    && (!c.state.Open? ==> GivesBack(x))
  }

  /** Whoever closes admission has queued an operation that will leave `open`. */
  predicate StateOk(x: Channel) {
    CoreOk(x) && (x.core.state.Open? && !x.core.admission ==> HasFence(x.inbound.queue))
  }

  // ---------------------------------------------------------------- the queue

  function Messages(queue: seq<Operation>): nat {
    if queue == [] then 0 else One(queue[0].Message?) + Messages(queue[1..])
  }

  function QueueBytes(queue: seq<Operation>): nat {
    if queue == [] then 0 else (if queue[0].Message? then queue[0].bytes else 0) + QueueBytes(queue[1..])
  }

  lemma {:induction false} Appended(queue: seq<Operation>, op: Operation)
    ensures Messages(queue + [op]) == Messages(queue) + One(op.Message?)
    ensures QueueBytes(queue + [op]) == QueueBytes(queue) + (if op.Message? then op.bytes else 0)
  {
    if queue == [] {
      assert queue + [op] == [op];
    } else {
      Appended(queue[1..], op);
      assert (queue + [op])[1..] == queue[1..] + [op];
    }
  }

  predicate CountersOk(l: Limits, i: Inbound) {
    && i.messages == Messages(i.queue) <= i.mostMessages <= l.maxQueuedMessages
    && i.bytes == QueueBytes(i.queue) <= i.mostBytes <= l.maxQueuedBytes
  }

  /** Queued texts are received messages in order, all behind the last one taken up. */
  predicate QueueOrder(queue: seq<Operation>, taken: nat, received: seq<Kind>) {
    && (forall k | 0 <= k < |queue| && queue[k].Message? ::
          taken <= queue[k].index < |received| && received[queue[k].index] == queue[k].kind)
    && (forall j, k | 0 <= j < k < |queue| && queue[j].Message? && queue[k].Message? :: queue[j].index < queue[k].index)
  }

  /** What was dispatched are received inputs, in order, each once. */
  predicate Dispatches(i: Inbound) {
    && i.taken <= |i.received|
    && Increasing(i.dispatched) && Top(i.dispatched) <= i.taken
    && (forall k | k in i.dispatched :: k < |i.received| && i.received[k] == Input)
    && (i.running.BeginInput? ==>
          Top(i.dispatched) <= i.running.index < i.taken && i.received[i.running.index] == Input)
    && |i.dispatched| == i.finished + One(i.running.Dispatching?)
  }

  // ---------------------------------------------------------------- the frames

  function InFlight(v: Video): nat {
    One(v.sending.FrameBegin? || v.sending.FrameSend? || v.sending.FrameEnd?)
  }

  /** Every accepted frame is accounted for, and a pending one will be looked at again. */
  predicate FramesOk(v: Video, s: State) {
    && (v.pending.Some? || v.timer ==> s.Open?)
    && v.accepted == v.sentFrames + v.droppedFrames + One(v.pending.Some?) + InFlight(v) + v.lost
    && (s.Open? ==> v.lost == 0 && !v.sending.FrameFailing?)
    && v.lost + InFlight(v) <= 2
    && (v.pending.Some? ==> !v.sending.NoFrame? || v.timer)
  }

  predicate FrameOrder(v: Video) {
    && Increasing(v.handed) && Increasing(v.delivered)
    && (forall f | f in v.delivered :: f in v.handed)
    && |v.delivered| == v.sentFrames
    && |v.handed| == v.answered + One(v.sending.FrameSend?)
    && Top(v.handed) <= v.accepted
    && Top(v.delivered) <= Top(v.handed)
    && (v.sending.FrameBegin? ==> Top(v.handed) <= v.sending.frame < v.accepted)
    && (v.sending.FrameSend? || v.sending.FrameEnd? ==>
          Top(v.handed) == v.sending.frame + 1 && v.sending.frame in v.handed && Top(v.delivered) <= v.sending.frame)
    && (v.pending.Some? ==> Top(v.handed) <= v.pending.value < v.accepted)
    && (v.pending.Some? && v.sending.FrameBegin? ==> v.sending.frame < v.pending.value)
  }

  // ---------------------------------------------------------------- the lease

  /** Uses begun and not yet ended. */
  function Users(x: Channel): nat {
    One(x.inbound.running.Dispatching?) + One(x.video.sending.FrameSend?) + x.uses.startUse
  }

  predicate UsesOk(x: Channel) {
    x.uses.begun == x.uses.ended + Users(x)
  }

  predicate ChannelOk(l: Limits, x: Channel) {
    && StateOk(x)
    && CountersOk(l, x.inbound)
    && QueueOrder(x.inbound.queue, x.inbound.taken, x.inbound.received)
    && Dispatches(x.inbound)
    && FramesOk(x.video, x.core.state)
    && FrameOrder(x.video)
    && UsesOk(x)
  }

  // ---------------------------------------------------------------- every step keeps it

  lemma {:induction false} FenceAppended(queue: seq<Operation>, op: Operation)
    ensures Fencing(op) || HasFence(queue) <==> HasFence(queue + [op])
  {
    if Fencing(op) {
      assert Fencing((queue + [op])[|queue|]);
    } else if HasFence(queue) {
      var k :| 0 <= k < |queue| && Fencing(queue[k]);
      assert Fencing((queue + [op])[k]);
    }
    assert forall k | 0 <= k < |queue| :: (queue + [op])[k] == queue[k];
  }

  lemma {:induction false} FenceTaken(queue: seq<Operation>)
    requires queue != []
    ensures HasFence(queue) && queue[0].Message? ==> HasFence(queue[1..])
    ensures HasFence(queue[1..]) || Fencing(queue[0]) ==> HasFence(queue)
  {
    if HasFence(queue) && queue[0].Message? {
      var k :| 0 <= k < |queue| && Fencing(queue[k]);
      assert Fencing(queue[1..][k - 1]);
    }
  }

  predicate FrameEvent(e: Event) {
    e.PushFrame? || e.FrameBegun? || e.FrameSent? || e.FrameEnded? || e.FrameReleased? || e.TimerFires?
  }

  predicate QueueEvent(e: Event) {
    || e.ReceiveText? || e.CallDisconnect? || e.CallRevoke? || e.RunNext? || e.QueueBegun? || e.InputAnswered?
    || e.QueueEnded? || e.CompleteAnswered? || e.QueueReleased?
  }

  // the state

  lemma {:induction false} QueueFailsState(x: Channel, code: Failure)
    requires CoreOk(x) && !x.inbound.running.QueueFailing? && !x.inbound.running.Releasing?
    ensures StateOk(QueueFails(x, code))
  {
    hide HasFence, FailureTold, Cleared;
  }

  lemma {:induction false} FrameFailsState(x: Channel, code: Failure)
    requires StateOk(x) && !x.video.sending.FrameFailing?
    ensures StateOk(FrameFails(x, code))
  {
    hide HasFence, FailureTold, Cleared;
  }

  lemma {:induction false} OtherFailsState(x: Channel, code: Failure)
    requires StateOk(x)
    ensures StateOk(OtherFails(x, code))
  {
    hide HasFence, FailureTold, Cleared;
  }

  lemma {:induction false} FrameLoopState(x: Channel, frame: nat, buffer: Buffer)
    requires StateOk(x) && !x.video.sending.FrameFailing?
    ensures StateOk(FrameLoop(x, frame, buffer))
  {
    hide HasFence, FrameFails;
    FrameFailsState(x, TransportFailure);
  }

  lemma {:induction false} PushStateKept(x: Channel, valid: bool, first: Buffer, second: Buffer)
    requires StateOk(x)
    ensures StateOk(AfterPush(x, valid, first, second))
  {
    hide HasFence, OtherFails, FrameLoop;
    OtherFailsState(x, if valid then TransportFailure else FrameTooLarge);
    if x.video.sending.NoFrame? {
      FrameLoopState(x.(video := Overtaken(x.video)), x.video.accepted, second);
    }
  }

  lemma {:induction false} TimerStateKept(x: Channel, first: Buffer, second: Buffer)
    requires StateOk(x) && x.video.timer
    ensures StateOk(AfterTimer(x, first, second))
  {
    hide HasFence, OtherFails, FrameLoop;
    var v := x.video.(timer := false);
    OtherFailsState(x.(video := v), TransportFailure);
    if v.sending.NoFrame? && v.pending.Some? {
      FrameLoopState(x.(video := v.(pending := None)), v.pending.value, second);
    }
  }

  lemma {:induction false} FrameEndStateKept(x: Channel, ok: bool, buffer: Buffer)
    requires StateOk(x) && x.video.sending.FrameEnd?
    ensures StateOk(AfterFrameEnd(x, ok, buffer))
  {
    hide HasFence, FrameFails, FrameLoop;
    FrameFailsState(x, if ok then TransportFailure else StaleGeneration);
    if x.video.pending.Some? {
      FrameLoopState(x.(video := Delivered(x.video)), x.video.pending.value, buffer);
    }
  }

  lemma {:induction false} FrameAnswerStateKept(l: Limits, x: Channel, e: Event)
    requires StateOk(x) && Enabled(x, e) && (e.FrameBegun? || e.FrameSent? || e.FrameReleased?)
    ensures StateOk(Next(l, x, e))
  {
    hide HasFence, FailureTold, FrameFails;
    if e.FrameBegun? {
      FrameFailsState(x, StaleGeneration);
    }
  }

  lemma {:induction false} TextStateKept(x: Channel, index: nat, kind: Kind)
    requires StateOk(x) && x.inbound.running.Idle?
    ensures StateOk(TextRuns(x, index, kind))
  {
    hide HasFence, QueueFails, Cleared;
    QueueFailsState(x, if kind.NotAllowed? then InputNotAllowed else InvalidMessage);
  }

  lemma {:induction false} RunStateKept(x: Channel)
    requires StateOk(x) && Enabled(x, RunNext)
    ensures StateOk(AfterRun(x))
  {
    hide HasFence, TextRuns, QueueFails, Cleared, Farewell;
    var y, op := x.(inbound := Dequeued(x.inbound)), x.inbound.queue[0];
    FenceTaken(x.inbound.queue);
    if op.Message? {
      TextStateKept(y, op.index, op.kind);
    } else if op.Refused? {
      QueueFailsState(y, op.code);
    }
  }

  lemma {:induction false} ArrivalStateKept(l: Limits, x: Channel, e: Event)
    requires StateOk(x) && (e.ReceiveText? || e.CallDisconnect? || e.CallRevoke?)
    ensures StateOk(Next(l, x, e))
  {
    hide HasFence;
    var queue := x.inbound.queue;
    match e {
      case ReceiveText(bytes, kind) =>
        FenceAppended(queue, Message(|x.inbound.received|, bytes, kind));
        FenceAppended(queue, Refused(if bytes > l.maxInboundBytes then InvalidMessage else QueueOverflow));
      case CallDisconnect => FenceAppended(queue, Disconnect);
      case CallRevoke => FenceAppended(queue, Revoke);
    }
  }

  lemma {:induction false} AnswerStateKept(l: Limits, x: Channel, e: Event)
    requires StateOk(x) && Enabled(x, e)
    requires e.QueueBegun? || e.InputAnswered? || e.QueueEnded? || e.CompleteAnswered?
    ensures StateOk(Next(l, x, e))
  {
    hide HasFence, QueueFails;
    if !e.InputAnswered? {
      QueueFailsState(x, if e.ok then TransportFailure else StaleGeneration);
    }
  }

  lemma {:induction false} ReleaseStateKept(x: Channel, ok: bool)
    requires StateOk(x) && Enabled(x, QueueReleased(ok))
    ensures StateOk(AfterQueueRelease(x, ok))
  {
    hide HasFence, FailureTold, Farewell;
  }

  lemma {:induction false} StartStateKept(l: Limits, x: Channel, e: Event)
    requires StateOk(x) && Enabled(x, e)
    requires e.Start? || e.StartBegun? || e.StartSent? || e.StartEnded?
    ensures StateOk(Next(l, x, e))
  {
    hide HasFence, OtherFails;
    if e.StartBegun? || e.StartEnded? {
      var u := if e.StartBegun? then x.uses.(startBegin := x.uses.startBegin - 1)
               else x.uses.(startEnd := x.uses.startEnd - 1);
      OtherFailsState(x.(uses := u), if e.ok then TransportFailure else StaleGeneration);
    }
  }

  lemma {:induction false} OtherReleaseStateKept(x: Channel, which: nat, ok: bool)
    requires StateOk(x) && which < |x.core.failing|
    ensures StateOk(AfterOtherRelease(x, which, ok))
  {
    hide HasFence, FailureTold;
  }

  lemma {:induction false} StateKept(l: Limits, x: Channel, e: Event)
    requires StateOk(x) && Enabled(x, e)
    ensures StateOk(Next(l, x, e))
  {
    hide FrameEvent, StateOk, AfterPush, AfterTimer, AfterFrameEnd, AfterRun, AfterQueueRelease, AfterOtherRelease;
    match e {
      case PushFrame(valid, first, second) => PushStateKept(x, valid, first, second);
      case TimerFires(first, second) => TimerStateKept(x, first, second);
      case FrameEnded(ok, buffer) => FrameEndStateKept(x, ok, buffer);
      case FrameBegun(_) => FrameAnswerStateKept(l, x, e);
      case FrameSent(_) => FrameAnswerStateKept(l, x, e);
      case FrameReleased(_) => FrameAnswerStateKept(l, x, e);
      case RunNext => RunStateKept(x);
      case ReceiveText(_, _) => ArrivalStateKept(l, x, e);
      case CallDisconnect => ArrivalStateKept(l, x, e);
      case CallRevoke => ArrivalStateKept(l, x, e);
      case QueueReleased(ok) => ReleaseStateKept(x, ok);
      case QueueBegun(_) => AnswerStateKept(l, x, e);
      case InputAnswered(_) => AnswerStateKept(l, x, e);
      case QueueEnded(_) => AnswerStateKept(l, x, e);
      case CompleteAnswered(_) => AnswerStateKept(l, x, e);
      case OtherReleased(which, ok) => OtherReleaseStateKept(x, which, ok);
      case Start => StartStateKept(l, x, e);
      case StartBegun(_) => StartStateKept(l, x, e);
      case StartSent => StartStateKept(l, x, e);
      case StartEnded(_, _) => StartStateKept(l, x, e);
    }
  }

  // the queue

  lemma {:induction false} OthersSpareQueue(l: Limits, x: Channel, e: Event)
    requires Enabled(x, e) && !QueueEvent(e)
    ensures Next(l, x, e).inbound == x.inbound
  {
    hide Fenced, OtherFails, FrameFails, FrameLoop, FailureTold, ReplacePending, ScheduleDrain, Overtaken, Delivered;
  }

  lemma {:induction false} OthersKeepQueue(l: Limits, x: Channel, e: Event)
    requires Enabled(x, e) && !e.ReceiveText? && !e.CallDisconnect? && !e.CallRevoke? && !e.RunNext?
    ensures var i, j := x.inbound, Next(l, x, e).inbound;
      && j.queue == i.queue && j.messages == i.messages && j.bytes == i.bytes
      && j.mostMessages == i.mostMessages && j.mostBytes == i.mostBytes
  {
    if !QueueEvent(e) {
      OthersSpareQueue(l, x, e);
      hide *;
    } else {
      hide Cleared;
    }
  }

  lemma {:induction false} RunCounters(x: Channel)
    requires Enabled(x, RunNext)
    ensures var d, j := Dequeued(x.inbound), AfterRun(x).inbound;
      && j.queue == d.queue && j.messages == d.messages && j.bytes == d.bytes
      && j.mostMessages == d.mostMessages && j.mostBytes == d.mostBytes
  {
    hide Dequeued, Cleared;
  }

  lemma {:induction false} CountersKept(l: Limits, x: Channel, e: Event)
    requires CountersOk(l, x.inbound) && Enabled(x, e)
    ensures CountersOk(l, Next(l, x, e).inbound)
  {
    if e.RunNext? {
      RunCounters(x);
      hide AfterRun;
    } else if e.ReceiveText? || e.CallDisconnect? || e.CallRevoke? {
      var queue := Next(l, x, e).inbound.queue;
      if queue != x.inbound.queue {
        Appended(x.inbound.queue, queue[|queue| - 1]);
      }
      hide Messages, QueueBytes;
    } else {
      OthersKeepQueue(l, x, e);
      hide Next, Messages, QueueBytes;
    }
  }

  predicate InputsOk(i: Inbound) {
    QueueOrder(i.queue, i.taken, i.received) && Dispatches(i)
  }

  /** The operation that awaits changes, but to no input. */
  lemma {:induction false} PointKept(i: Inbound, running: QueuePoint)
    requires InputsOk(i) && !i.running.Dispatching? && !running.BeginInput? && !running.Dispatching?
    ensures InputsOk(i.(running := running))
  {
  }

  lemma {:induction false} ReceivedInputs(l: Limits, i: Inbound, bytes: nat, kind: Kind)
    requires InputsOk(i)
    ensures InputsOk(Received(l, i, bytes, kind))
  {
  }

  lemma {:induction false} RunInputs(x: Channel)
    requires InputsOk(x.inbound) && Enabled(x, RunNext)
    ensures InputsOk(AfterRun(x).inbound)
  {
    var i, op := Dequeued(x.inbound), x.inbound.queue[0];
    assert InputsOk(i);
    if op.Message? && op.kind.Input? {
      assert InputsOk(i.(running := BeginInput(op.index)));
    }
    PointKept(i, QueueFailing(if op.Refused? then op.code else InvalidMessage));
    PointKept(i, QueueFailing(InputNotAllowed));
    PointKept(i, BeginPing);
    PointKept(i, Completing);
    PointKept(i, Releasing(if op.Disconnect? then Closed else Revoked));
    PointKept(i, Idle);
    hide InputsOk, Dequeued, Cleared;
  }

  lemma {:induction false} BeginInputs(x: Channel, ok: bool)
    requires InputsOk(x.inbound) && Enabled(x, QueueBegun(ok))
    ensures InputsOk(AfterQueueBegin(x, ok).inbound)
  {
    if x.inbound.running.BeginInput? {
      IncreasingSnoc(x.inbound.dispatched, x.inbound.running.index);
    }
    hide QueueOrder, Cleared, Increasing;
  }

  lemma {:induction false} AnsweredInput(x: Channel, outcome: Outcome)
    requires InputsOk(x.inbound) && x.inbound.running.Dispatching?
    ensures InputsOk(AfterInput(x, outcome).inbound)
  {
    hide QueueOrder, Increasing;
  }

  lemma {:induction false} CalledInputs(i: Inbound, op: Operation)
    requires InputsOk(i) && Fencing(op)
    ensures InputsOk(Enqueued(i, op))
  {
    hide Increasing;
  }

  /** The other answers move the queue's own point only. */
  lemma {:induction false} OnlyPointMoves(l: Limits, x: Channel, e: Event)
    requires Enabled(x, e) && (e.QueueEnded? || e.CompleteAnswered? || e.QueueReleased?)
    ensures var j := Next(l, x, e).inbound;
      j == x.inbound.(running := j.running) && !j.running.BeginInput? && !j.running.Dispatching?
  {
    hide QueueFails, FailureTold, Farewell;
  }

  lemma {:induction false} InputsKept(l: Limits, x: Channel, e: Event)
    requires InputsOk(x.inbound) && Enabled(x, e)
    ensures InputsOk(Next(l, x, e).inbound)
  {
    hide InputsOk, AfterRun, AfterQueueBegin, AfterInput, Received, Fits, Enqueued;
    if !QueueEvent(e) {
      OthersSpareQueue(l, x, e);
      hide Next;
    } else if e.QueueEnded? || e.CompleteAnswered? || e.QueueReleased? {
      OnlyPointMoves(l, x, e);
      PointKept(x.inbound, Next(l, x, e).inbound.running);
      hide Next;
    } else {
      match e {
        case RunNext => RunInputs(x);
        case QueueBegun(ok) => BeginInputs(x, ok);
        case ReceiveText(bytes, kind) => ReceivedInputs(l, x.inbound, bytes, kind);
        case InputAnswered(outcome) => AnsweredInput(x, outcome);
        case CallDisconnect => CalledInputs(x.inbound, Disconnect);
        case CallRevoke => CalledInputs(x.inbound, Revoke);
      }
    }
  }

  // the frames

  /** What the queue and the `start()` calls can do to the frame path. */
  predicate FramesSpared(x: Channel, y: Channel) {
    || (y.video == x.video && (y.core.state.Open? <==> x.core.state.Open?))
    || (y.video == Cleared(x.video) && !y.core.state.Open?)
  }

  lemma {:induction false} OthersSpareFrames(l: Limits, x: Channel, e: Event)
    requires Enabled(x, e) && StateOk(x) && !FrameEvent(e)
    ensures FramesSpared(x, Next(l, x, e))
  {
    hide HasFence, Received, Fits, Cleared, Dequeued;
  }

  predicate VideoOk(v: Video, s: State) {
    FramesOk(v, s) && FrameOrder(v)
  }

  lemma {:induction false} SparedFramesKept(x: Channel, y: Channel)
    requires FramesSpared(x, y) && VideoOk(x.video, x.core.state)
    ensures VideoOk(y.video, y.core.state)
  {
    hide Increasing;
  }

  /** A frame taken in hand, with none pending. */
  predicate InHand(v: Video, frame: nat) {
    && v.sending.NoFrame? && v.pending.None? && v.lost == 0
    && v.accepted == v.sentFrames + v.droppedFrames + 1
    && FrameOrder(v) && Top(v.handed) <= frame < v.accepted
  }

  lemma {:induction false} FrameLoopOk(x: Channel, frame: nat, buffer: Buffer)
    requires x.core.state.Open? && InHand(x.video, frame)
    ensures VideoOk(FrameLoop(x, frame, buffer).video, FrameLoop(x, frame, buffer).core.state)
  {
    hide Increasing;
  }

  lemma {:induction false} OtherFailsOk(x: Channel, code: Failure)
    requires VideoOk(x.video, x.core.state)
    ensures VideoOk(OtherFails(x, code).video, OtherFails(x, code).core.state)
  {
    hide VideoOk, FailureTold;
    SparedFramesKept(x, OtherFails(x, code));
  }

  lemma {:induction false} PendingOk(v: Video, s: State)
    requires VideoOk(v, s) && s.Open?
    ensures VideoOk(ScheduleDrain(ReplacePending(v, v.accepted), s).(accepted := v.accepted + 1), s)
  {
    hide Increasing;
  }

  lemma {:induction false} OvertakenOk(v: Video, s: State)
    requires VideoOk(v, s) && s.Open? && v.sending.NoFrame?
    ensures InHand(Overtaken(v), v.accepted)
  {
    hide Increasing;
  }

  lemma {:induction false} PushOk(x: Channel, valid: bool, first: Buffer, second: Buffer)
    requires VideoOk(x.video, x.core.state)
    ensures VideoOk(AfterPush(x, valid, first, second).video, AfterPush(x, valid, first, second).core.state)
  {
    hide VideoOk, FrameLoop, OtherFails, ReplacePending, ScheduleDrain, Overtaken, InHand;
    OtherFailsOk(x, if valid then TransportFailure else FrameTooLarge);
    if x.core.state.Open? {
      PendingOk(x.video, x.core.state);
      if x.video.sending.NoFrame? {
        OvertakenOk(x.video, x.core.state);
        FrameLoopOk(x.(video := Overtaken(x.video)), x.video.accepted, second);
      }
    }
  }

  lemma {:induction false} TimerOk(x: Channel, first: Buffer, second: Buffer)
    requires VideoOk(x.video, x.core.state) && x.video.timer
    ensures VideoOk(AfterTimer(x, first, second).video, AfterTimer(x, first, second).core.state)
  {
    hide Increasing;
    var v := x.video.(timer := false);
    if v.sending.NoFrame? && v.pending.Some? && first.Clear? {
      FrameLoopOk(x.(video := v.(pending := None)), v.pending.value, second);
    }
    hide FrameLoop;
  }

  lemma {:induction false} FrameFailsOk(x: Channel, code: Failure)
    requires VideoOk(x.video, x.core.state) && InFlight(x.video) == 1 && !x.video.sending.FrameSend?
    ensures VideoOk(FrameFails(x, code).video, FrameFails(x, code).core.state)
  {
    hide Increasing;
  }

  lemma {:induction false} FrameEndOk(x: Channel, ok: bool, buffer: Buffer)
    requires VideoOk(x.video, x.core.state) && x.video.sending.FrameEnd?
    ensures VideoOk(AfterFrameEnd(x, ok, buffer).video, AfterFrameEnd(x, ok, buffer).core.state)
  {
    FrameFailsOk(x, if ok then TransportFailure else StaleGeneration);
    IncreasingSnoc(x.video.delivered, x.video.sending.frame);
    hide Increasing;
    var v := Delivered(x.video);
    if x.video.pending.Some? {
      FrameLoopOk(x.(video := v), x.video.pending.value, buffer);
    }
    hide FrameLoop, FrameFails;
  }

  lemma {:induction false} FrameBeginOk(x: Channel, ok: bool)
    requires VideoOk(x.video, x.core.state) && x.video.sending.FrameBegin?
    ensures VideoOk(AfterFrameBegin(x, ok).video, AfterFrameBegin(x, ok).core.state)
  {
    FrameFailsOk(x, StaleGeneration);
    IncreasingSnoc(x.video.handed, x.video.sending.frame);
    hide Increasing, FrameFails;
  }

  lemma {:induction false} VideoKept(l: Limits, x: Channel, e: Event)
    requires VideoOk(x.video, x.core.state) && StateOk(x) && Enabled(x, e)
    ensures VideoOk(Next(l, x, e).video, Next(l, x, e).core.state)
  {
    if !FrameEvent(e) {
      OthersSpareFrames(l, x, e);
      SparedFramesKept(x, Next(l, x, e));
      hide *;
    } else if e.FrameSent? || e.FrameReleased? {
      hide Increasing;
    } else {
      hide VideoOk, StateOk;
      match e {
        case PushFrame(valid, first, second) => PushOk(x, valid, first, second);
        case TimerFires(first, second) => TimerOk(x, first, second);
        case FrameBegun(ok) => FrameBeginOk(x, ok);
        case FrameEnded(ok, buffer) => FrameEndOk(x, ok, buffer);
      }
      hide AfterPush, AfterTimer, AfterFrameBegin, AfterFrameEnd;
    }
  }

  // the uses

  lemma {:induction false} FrameUsesKept(l: Limits, x: Channel, e: Event)
    requires UsesOk(x) && Enabled(x, e) && FrameEvent(e)
    ensures UsesOk(Next(l, x, e))
  {
    hide OtherFails, FrameFails, FrameLoop, FailureTold;
  }

  lemma {:induction false} QueueUsesKept(l: Limits, x: Channel, e: Event)
    requires UsesOk(x) && Enabled(x, e) && QueueEvent(e)
    ensures UsesOk(Next(l, x, e))
  {
    hide QueueFails, FailureTold, Farewell, Fits;
  }

  lemma {:induction false} StartUsesKept(l: Limits, x: Channel, e: Event)
    requires UsesOk(x) && Enabled(x, e) && !FrameEvent(e) && !QueueEvent(e)
    ensures UsesOk(Next(l, x, e))
  {
    hide OtherFails, FailureTold;
  }

  lemma {:induction false} UsesKept(l: Limits, x: Channel, e: Event)
    requires UsesOk(x) && Enabled(x, e)
    ensures UsesOk(Next(l, x, e))
  {
    hide UsesOk, Next, Enabled, FrameEvent, QueueEvent;
    if FrameEvent(e) {
      FrameUsesKept(l, x, e);
    } else if QueueEvent(e) {
      QueueUsesKept(l, x, e);
    } else {
      StartUsesKept(l, x, e);
    }
  }

  lemma {:induction false} NextOk(l: Limits, x: Channel, e: Event)
    requires ChannelOk(l, x) && Enabled(x, e)
    ensures ChannelOk(l, Next(l, x, e))
  {
    StateKept(l, x, e);
    CountersKept(l, x, e);
    InputsKept(l, x, e);
    VideoKept(l, x, e);
    UsesKept(l, x, e);
    hide Next, Enabled, StateOk, CountersOk, InputsOk, VideoOk, UsesOk;
  }

  // ---------------------------------------------------------------- runs

  ghost predicate Run(l: Limits, x: Channel, events: seq<Event>, y: Channel)
    decreases |events|
  {
    if events == [] then x == y
    else Enabled(x, events[0]) && Run(l, Next(l, x, events[0]), events[1..], y)
  }

  ghost predicate Reachable(l: Limits, x: Channel) {
    exists events :: Run(l, OPENED, events, x)
  }

  lemma {:induction false} RunOk(l: Limits, x: Channel, events: seq<Event>, y: Channel)
    requires ChannelOk(l, x) && Run(l, x, events, y)
    ensures ChannelOk(l, y)
    decreases |events|
  {
    if events != [] {
      NextOk(l, x, events[0]);
      hide Next, Enabled, ChannelOk;
      RunOk(l, Next(l, x, events[0]), events[1..], y);
    }
  }

  lemma {:induction false} InitialState()
    ensures StateOk(OPENED) && UsesOk(OPENED)
  {
    assert !HasFence([]);
  }

  lemma {:induction false} InitialInbound(l: Limits)
    ensures CountersOk(l, OPENED.inbound) && InputsOk(OPENED.inbound)
  {
  }

  lemma {:induction false} InitialFrames()
    ensures FramesOk(OPENED.video, OPENED.core.state)
  {
  }

  lemma {:induction false} InitialFrameOrder()
    ensures FrameOrder(OPENED.video)
  {
  }

  lemma {:induction false} InitialOk(l: Limits)
    ensures ChannelOk(l, OPENED)
  {
    InitialState();
    InitialInbound(l);
    InitialFrames();
    InitialFrameOrder();
    hide StateOk, UsesOk, CountersOk, FramesOk, FrameOrder, QueueOrder, Dispatches;
  }

  lemma {:induction false} ReachableOk(l: Limits, x: Channel)
    requires Reachable(l, x)
    ensures ChannelOk(l, x)
  {
    hide ChannelOk, Run;
    var events :| Run(l, OPENED, events, x);
    InitialOk(l);
    RunOk(l, OPENED, events, x);
  }

  // ---------------------------------------------------------------- input

  /** `onInput` is called only while the channel is open and admits input. */
  lemma {:induction false} DispatchOnlyWhileOpen(l: Limits, x: Channel, e: Event)
    requires Enabled(x, e)
    ensures var y := Next(l, x, e);
      || y.inbound.dispatched == x.inbound.dispatched
      || (x.core.state.Open? && x.core.admission && x.inbound.running.BeginInput?
          && y.inbound.dispatched == x.inbound.dispatched + [x.inbound.running.index])
  {
    if !QueueEvent(e) {
      OthersSpareQueue(l, x, e);
      hide *;
    }
  }

  lemma {:induction false} StaysClosed(l: Limits, x: Channel, e: Event)
    requires Enabled(x, e) && !x.core.admission
    ensures !Next(l, x, e).core.admission
  {
    hide QueueFails, OtherFails, FrameFails, FrameLoop, FailureTold, Farewell;
    hide Received, Fits, Dequeued, ReplacePending, ScheduleDrain, Overtaken, Delivered;
  }

  /** Admission never reopens: once closed, no run dispatches anything more. */
  lemma {:induction false} InputFence(l: Limits, x: Channel, events: seq<Event>, y: Channel)
    requires !x.core.admission && Run(l, x, events, y)
    ensures !y.core.admission && y.inbound.dispatched == x.inbound.dispatched
    decreases |events|
  {
    if events != [] {
      DispatchOnlyWhileOpen(l, x, events[0]);
      StaysClosed(l, x, events[0]);
      hide Next, Enabled;
      InputFence(l, Next(l, x, events[0]), events[1..], y);
    }
  }

  /** What was dispatched are received inputs, in order, each once and one at a time; and no
      dispatch is possible once the channel has left `open`. */
  lemma {:induction false} DispatchedInOrder(l: Limits, x: Channel)
    requires Reachable(l, x)
    ensures var i := x.inbound;
      && (forall j, k | 0 <= j < k < |i.dispatched| :: i.dispatched[j] < i.dispatched[k])
      && (forall j | j in i.dispatched :: j < |i.received| && i.received[j] == Input)
      && i.finished <= |i.dispatched| <= i.finished + 1
      && (x.core.admission ==> x.core.state.Open?)
  {
    ReachableOk(l, x);
  }

  /** The queue counters are what is queued, and neither they nor the largest counts reported exceed the
      limits. */
  lemma {:induction false} QueueAccounting(l: Limits, x: Channel)
    requires Reachable(l, x)
    ensures var i := x.inbound;
      && i.messages == Messages(i.queue) <= i.mostMessages <= l.maxQueuedMessages
      && i.bytes == QueueBytes(i.queue) <= i.mostBytes <= l.maxQueuedBytes
  {
    ReachableOk(l, x);
  }

  // ---------------------------------------------------------------- authority

  /** Completion is asked for at most once, and `failClosed` takes effect at most once. */
  lemma {:induction false} CompletesOnce(l: Limits, x: Channel)
    requires Reachable(l, x)
    ensures x.core.completions <= 1 && x.core.fences <= 1
  {
    ReachableOk(l, x);
  }

  /** Every use begun is ended once: the begun and unended uses are those of the running input, the
      frame being sent and the `start()` calls in their use. */
  lemma {:induction false} UsesBalance(l: Limits, x: Channel)
    requires Reachable(l, x)
    ensures x.uses.begun ==
      x.uses.ended + One(x.inbound.running.Dispatching?) + One(x.video.sending.FrameSend?) + x.uses.startUse
  {
    ReachableOk(l, x);
  }

  /** A channel that stopped admitting input while open has something queued that will close it; and
      one that left `open` has given its authority back, or the release was rejected, or it is on the
      way. */
  lemma {:induction false} AuthorityIsGivenBack(l: Limits, x: Channel)
    requires Reachable(l, x)
    ensures x.core.state.Open? && !x.core.admission ==>
      exists k | 0 <= k < |x.inbound.queue| :: !x.inbound.queue[k].Message?
    ensures !x.core.state.Open? && x.inbound.running.Idle? && x.video.sending.NoFrame? && x.core.failing == [] ==>
      Terminal(x.core.state) && (x.core.released || x.core.rejections > 0)
  {
    ReachableOk(l, x);
    if x.core.state.Open? && !x.core.admission {
      var k :| 0 <= k < |x.inbound.queue| && Fencing(x.inbound.queue[k]);
      assert !x.inbound.queue[k].Message?;
    }
  }

  // ---------------------------------------------------------------- frames

  /** Frames are sent in the order pushed, one at a time: the sends not yet answered are at most one. The
      frame in flight is newer than every delivered one, and the pending frame is newer than all given to
      the peer. */
  lemma {:induction false} FramesInOrder(l: Limits, x: Channel)
    requires Reachable(l, x)
    ensures var v := x.video;
      && (forall j, k | 0 <= j < k < |v.delivered| :: v.delivered[j] < v.delivered[k])
      && (forall j, k | 0 <= j < k < |v.handed| :: v.handed[j] < v.handed[k])
      && (forall f | f in v.delivered :: f in v.handed)
      && (forall f | f in v.handed :: f < v.accepted)
      && (v.pending.Some? ==> forall f | f in v.handed :: f < v.pending.value)
      && (v.sending.FrameSend? ==> forall f | f in v.delivered :: f < v.sending.frame)
      && |v.handed| == v.answered + One(v.sending.FrameSend?)
  {
    hide Reachable, StateOk, CountersOk, QueueOrder, Dispatches, FramesOk, UsesOk;
    ReachableOk(l, x);
    UnderTop(x.video.handed);
    UnderTop(x.video.delivered);
    hide Top, Run;
  }

  lemma {:induction false} UnderTop(s: seq<nat>)
    requires Increasing(s)
    ensures forall f | f in s :: f < Top(s)
  {
  }

  /** Every accepted frame was sent or dropped, or is pending or in flight, or was discarded by the
      failure or teardown that closed the channel: none while it is open, at most two ever. */
  lemma {:induction false} FramesAccounted(l: Limits, x: Channel)
    requires Reachable(l, x)
    ensures var v := x.video;
      && v.accepted == v.sentFrames + v.droppedFrames + One(v.pending.Some?) + InFlight(v) + v.lost
      && v.sentFrames == |v.delivered|
      && (x.core.state.Open? ==> v.lost == 0)
      && v.lost <= 2
  {
    ReachableOk(l, x);
    hide StateOk, CountersOk, QueueOrder, Dispatches, UsesOk, Increasing;
  }

  /** A pending frame is never forgotten: the frame loop is running or the drain timer is set. */
  lemma {:induction false} NoLostWakeUp(l: Limits, x: Channel)
    requires Reachable(l, x) && x.video.pending.Some?
    ensures x.core.state.Open? && (!x.video.sending.NoFrame? || x.video.timer)
  {
    ReachableOk(l, x);
    hide StateOk, CountersOk, QueueOrder, Dispatches, FrameOrder, UsesOk;
  }
}
