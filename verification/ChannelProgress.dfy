/** What becomes of every message, frame and call of a channel, over every interleaving. */
module ChannelProgress {
  import opened Options
  import opened Channel
  import opened ChannelRuns

  /** The channel still takes what its peer sends. */
  predicate Admits(x: Channel) {
    x.core.state.Open? && x.core.admission
  }

  // ---------------------------------------------------------------- received inputs

  predicate Queued(i: Inbound, k: nat) {
    exists j | 0 <= j < |i.queue| :: i.queue[j].Message? && i.queue[j].index == k
  }

  /** The message was given to `onInput`, or will have its turn, or awaits the begin of its use. */
  predicate Cared(i: Inbound, k: nat) {
    k in i.dispatched || Queued(i, k) || i.running == BeginInput(k)
  }

  /** There is room for a message beside the ones that are queued. */
  predicate Room(l: Limits, queue: seq<Operation>, bytes: nat) {
    && bytes <= l.maxInboundBytes
    && Messages(queue) + 1 <= l.maxQueuedMessages && QueueBytes(queue) + bytes <= l.maxQueuedBytes
  }

  /** The ways in which an input is not applied: it is refused for want of room, it has its turn or its begin
      is answered when the channel takes nothing more, or its use cannot begin. */
  predicate LostAt(l: Limits, x: Channel, e: Event, k: nat) {
    var i := x.inbound;
    || (e.ReceiveText? && |i.received| == k && !Room(l, i.queue, e.bytes))
    || (e.RunNext? && i.queue != [] && i.queue[0].Message? && i.queue[0].index == k && !Admits(x))
    || (e.QueueBegun? && i.running == BeginInput(k) && (!e.ok || !Admits(x)))
  }

  ghost predicate Lost(l: Limits, x: Channel, events: seq<Event>, k: nat)
    decreases |events|
  {
    && events != [] && Enabled(x, events[0])
    && (LostAt(l, x, events[0], k) || Lost(l, Next(l, x, events[0]), events[1..], k))
  }

  lemma {:induction false} OthersKeepCare(l: Limits, x: Channel, e: Event, k: nat)
    requires Enabled(x, e) && Cared(x.inbound, k) && !e.RunNext? && !e.QueueBegun? && !e.ReceiveText?
    requires !e.CallDisconnect? && !e.CallRevoke?
    ensures Cared(Next(l, x, e).inbound, k)
  {
    if !QueueEvent(e) {
      OthersSpareQueue(l, x, e);
      hide Next, Cared;
    } else {
      OthersKeepQueue(l, x, e);
      hide QueueFails, FailureTold, Farewell;
    }
  }

  lemma {:induction false} CallsKeepCare(i: Inbound, op: Operation, k: nat)
    requires Cared(i, k)
    ensures Cared(Enqueued(i, op), k)
  {
    if Queued(i, k) {
      var j :| 0 <= j < |i.queue| && i.queue[j].Message? && i.queue[j].index == k;
      assert Enqueued(i, op).queue[j] == i.queue[j];
    }
  }

  lemma {:induction false} ReceiveKeepsCare(l: Limits, i: Inbound, bytes: nat, kind: Kind, k: nat)
    requires Cared(i, k)
    ensures Cared(Received(l, i, bytes, kind), k)
  {
    var j := i.(received := i.received + [kind]);
    assert Cared(j, k);
    CallsKeepCare(j, Refused(InvalidMessage), k);
    CallsKeepCare(j, Refused(QueueOverflow), k);
    CallsKeepCare(j, Message(|i.received|, bytes, kind), k);
    hide Enqueued, Fits, Cared;
    CareCounts(Enqueued(j, Message(|i.received|, bytes, kind)), bytes, k);
  }

  lemma {:induction false} CareCounts(i: Inbound, bytes: nat, k: nat)
    requires Cared(i, k)
    ensures Cared(Reserved(i, bytes), k)
    ensures Cared(i.(messages := i.messages + 1, bytes := i.bytes + bytes), k)
  {
  }

  /** A message that is taken when there is room is queued. */
  lemma {:induction false} Arrives(l: Limits, i: Inbound, bytes: nat, kind: Kind)
    requires CountersOk(l, i) && Room(l, i.queue, bytes)
    ensures Cared(Received(l, i, bytes, kind), |i.received|)
  {
    hide Messages, QueueBytes;
    var j := Received(l, i, bytes, kind);
    assert j.queue[|i.queue|] == Message(|i.received|, bytes, kind);
  }

  lemma {:induction false} TurnKeepsCare(l: Limits, x: Channel, k: nat)
    requires InputsOk(x.inbound) && Enabled(x, RunNext) && Cared(x.inbound, k)
    requires k < |x.inbound.received| && x.inbound.received[k] == Input
    ensures Cared(AfterRun(x).inbound, k) || LostAt(l, x, RunNext, k)
  {
    var i, j := x.inbound, AfterRun(x).inbound;
    RunCounters(x);
    assert j.dispatched == i.dispatched by { hide QueueFails, Cleared, Farewell; }
    if Queued(i, k) {
      var n :| 0 <= n < |i.queue| && i.queue[n].Message? && i.queue[n].index == k;
      if n > 0 {
        assert j.queue[n - 1] == i.queue[n];
      }
    }
    hide QueueFails, Farewell, Cleared;
  }

  lemma {:induction false} BeginKeepsCare(l: Limits, x: Channel, ok: bool, k: nat)
    requires Enabled(x, QueueBegun(ok)) && Cared(x.inbound, k)
    ensures Cared(AfterQueueBegin(x, ok).inbound, k) || LostAt(l, x, QueueBegun(ok), k)
  {
    hide QueueFails;
  }

  lemma {:induction false} StepKeepsCare(l: Limits, x: Channel, e: Event, k: nat)
    requires InputsOk(x.inbound) && Enabled(x, e) && Cared(x.inbound, k)
    requires k < |x.inbound.received| && x.inbound.received[k] == Input
    ensures Cared(Next(l, x, e).inbound, k) || LostAt(l, x, e, k)
  {
    hide InputsOk, Cared, LostAt, AfterRun, AfterQueueBegin, Received, Fits;
    match e {
      case RunNext => TurnKeepsCare(l, x, k);
      case QueueBegun(ok) => BeginKeepsCare(l, x, ok, k);
      case ReceiveText(bytes, kind) => ReceiveKeepsCare(l, x.inbound, bytes, kind, k);
      case CallDisconnect => CallsKeepCare(x.inbound, Disconnect, k);
      case CallRevoke => CallsKeepCare(x.inbound, Revoke, k);
      case _ =>
        OthersKeepCare(l, x, e, k);
        hide Next;
    }
  }

  lemma {:induction false} ReceivedGrows(l: Limits, x: Channel, e: Event)
    requires Enabled(x, e)
    ensures var r, r' := x.inbound.received, Next(l, x, e).inbound.received;
      if e.ReceiveText? && x.core.admission then r' == r + [e.kind] else r' == r
  {
    if !QueueEvent(e) {
      OthersSpareQueue(l, x, e);
      hide Next;
    } else {
      hide QueueFails, FailureTold, Farewell, Cleared;
    }
  }

  lemma {:induction false} RunReceives(l: Limits, x: Channel, events: seq<Event>, y: Channel)
    requires Run(l, x, events, y)
    ensures x.inbound.received <= y.inbound.received
    decreases |events|
  {
    if events != [] {
      ReceivedGrows(l, x, events[0]);
      hide Next, Enabled;
      RunReceives(l, Next(l, x, events[0]), events[1..], y);
    }
  }

  /** From a state that cares for its inputs on: none is forgotten but in one of the ways that lose it. */
  lemma {:induction false} RunAccount(l: Limits, x: Channel, events: seq<Event>, y: Channel, k: nat)
    requires ChannelOk(l, x) && Run(l, x, events, y)
    requires k < |y.inbound.received| && y.inbound.received[k] == Input
    requires k < |x.inbound.received| ==> Cared(x.inbound, k)
    ensures Cared(y.inbound, k) || Lost(l, x, events, k)
    decreases |events|
  {
    if events != [] {
      hide Next, Enabled, ChannelOk, InputsOk, Cared, LostAt;
      var e, z := events[0], Next(l, x, events[0]);
      NextOk(l, x, e);
      RunReceives(l, z, events[1..], y);
      ReceivedGrows(l, x, e);
      InputsOfOk(l, x);
      if k < |x.inbound.received| {
        StepKeepsCare(l, x, e, k);
      } else if k < |z.inbound.received| {
        ArrivalCared(l, x, e);
      }
      if !LostAt(l, x, e, k) {
        RunAccount(l, z, events[1..], y, k);
      }
    } else {
      assert x == y;
    }
  }

  lemma {:induction false} InputsOfOk(l: Limits, x: Channel)
    requires ChannelOk(l, x)
    ensures InputsOk(x.inbound) && CountersOk(l, x.inbound) && StateOk(x)
  {
    hide StateOk, CountersOk, QueueOrder, Dispatches, FramesOk, FrameOrder, UsesOk;
  }

  lemma {:induction false} ArrivalCared(l: Limits, x: Channel, e: Event)
    requires ChannelOk(l, x) && e.ReceiveText? && x.core.admission
    ensures Cared(Next(l, x, e).inbound, |x.inbound.received|) || LostAt(l, x, e, |x.inbound.received|)
  {
    InputsOfOk(l, x);
    hide ChannelOk, InputsOk, CountersOk, StateOk, Room, Cared, Received, Fits;
    if Room(l, x.inbound.queue, e.bytes) {
      Arrives(l, x.inbound, e.bytes, e.kind);
    }
  }

  /**
   * The account of all inputs received: each was given to `onInput`, or is queued, or awaits the begin of its use,
   * or was lost: refused for want of room, met by the end of admission, or unable to begin its use.
   */
  lemma {:induction false} InputAccount(l: Limits, events: seq<Event>, x: Channel, k: nat)
    requires Run(l, OPENED, events, x)
    requires k < |x.inbound.received| && x.inbound.received[k] == Input
    ensures Cared(x.inbound, k) || Lost(l, OPENED, events, k)
  {
    hide Run, ChannelOk;
    InitialOk(l);
    RunAccount(l, OPENED, events, x, k);
  }

  lemma {:induction false} LosingCloses(l: Limits, x: Channel, e: Event, k: nat)
    requires ChannelOk(l, x) && Enabled(x, e) && LostAt(l, x, e, k)
    ensures !Next(l, x, e).core.admission
  {
    InputsOfOk(l, x);
    hide ChannelOk, InputsOk, QueueFails, OtherFails, FrameFails, FrameLoop, HasFence, Messages, QueueBytes;
    hide Received, Dequeued, Cleared, FailureTold;
    if e.QueueBegun? && !e.ok {
      FailingCloses(x, StaleGeneration);
    }
  }

  lemma {:induction false} FailingCloses(x: Channel, code: Failure)
    requires StateOk(x)
    ensures !QueueFails(x, code).core.admission
  {
    hide HasFence, FailureTold;
  }

  lemma {:induction false} LostClosed(l: Limits, x: Channel, events: seq<Event>, y: Channel, k: nat)
    requires ChannelOk(l, x) && Run(l, x, events, y) && Lost(l, x, events, k)
    ensures !y.core.admission
    decreases |events|
  {
    hide Next, Enabled, ChannelOk, LostAt;
    NextOk(l, x, events[0]);
    var z := Next(l, x, events[0]);
    if LostAt(l, x, events[0], k) {
      LosingCloses(l, x, events[0], k);
      InputFence(l, z, events[1..], y);
    } else {
      LostClosed(l, z, events[1..], y, k);
    }
  }

  /** As long as the channel admits input, no input is lost. */
  lemma {:induction false} NothingLostWhileAdmitting(l: Limits, x: Channel, k: nat)
    requires Reachable(l, x) && x.core.admission
    requires k < |x.inbound.received| && x.inbound.received[k] == Input
    ensures Cared(x.inbound, k)
  {
    hide Run, ChannelOk, Lost;
    var events :| Run(l, OPENED, events, x);
    InitialOk(l);
    InputAccount(l, events, x, k);
    if Lost(l, OPENED, events, k) {
      LostClosed(l, OPENED, events, x, k);
    }
  }

  // ---------------------------------------------------------------- what each turn leads to

  /** The channel with its first operation taken off the queue, and otherwise as it was. */
  predicate OnlyTaken(x: Channel, y: Channel) {
    && y.core == x.core && y.video == x.video && y.uses == x.uses && y.told == x.told
    && x.inbound.queue != [] && y.inbound.queue == x.inbound.queue[1..]
    && y.inbound.dispatched == x.inbound.dispatched
  }

  /** The channel has failed with this code, and gives its authority back. */
  predicate FailedWith(y: Channel, code: Failure) {
    && y.core.state == Failed && y.core.lastFailure == Some(code) && !y.core.admission
    && y.inbound.running == QueueFailing(code) && y.video.pending.None? && !y.video.timer
  }

  /**
   * What the turn of a message leads to, by the kind it had when it was received. Once the channel takes nothing
   * more it leads to nothing; before, an input and a ping begin their use, the end asks for completion, an error
   * fails the channel with its own code, and the rest is only observed.
   */
  lemma {:induction false} MessageTurn(l: Limits, x: Channel)
    requires Reachable(l, x) && Enabled(x, RunNext) && x.inbound.queue[0].Message?
    ensures var i, y, k := x.inbound, AfterRun(x), x.inbound.queue[0].index;
      && k < |i.received|
      && if !Admits(x) then OnlyTaken(x, y) && y.inbound.running == Idle
         else match i.received[k]
           case Input => OnlyTaken(x, y) && y.inbound.running == BeginInput(k)
           case Ping => OnlyTaken(x, y) && y.inbound.running == BeginPing
           case Diagnostic => OnlyTaken(x, y) && y.inbound.running == Idle
           case Latency => OnlyTaken(x, y) && y.inbound.running == Idle
           case Malformed => FailedWith(y, InvalidMessage)
           case NotAllowed => FailedWith(y, InputNotAllowed)
           case Finished =>
             && y.inbound.running == Completing && y.core.state == Closing && !y.core.admission
             && y.core.completions == 1 && y.told == x.told + [TellClosing]
             && y.video.pending.None? && !y.video.timer
  {
    ReachableOk(l, x);
    ReachableReleased(l, x);
    InputsOfOk(l, x);
    hide Reachable, ChannelOk, CountersOk, HasFence, FailureTold;
  }

  /** A released channel is over. */
  lemma {:induction false} ReleasedIsOver(l: Limits, x: Channel, e: Event)
    requires Enabled(x, e) && (x.core.released ==> Terminal(x.core.state)) && StateOk(x)
    ensures Next(l, x, e).core.released ==> Terminal(Next(l, x, e).core.state)
  {
    hide HasFence, FailureTold, Farewell, Cleared, Received, Fits, Dequeued;
  }

  lemma {:induction false} RunReleased(l: Limits, x: Channel, events: seq<Event>, y: Channel)
    requires ChannelOk(l, x) && Run(l, x, events, y) && (x.core.released ==> Terminal(x.core.state))
    ensures y.core.released ==> Terminal(y.core.state)
    decreases |events|
  {
    if events != [] {
      NextOk(l, x, events[0]);
      InputsOfOk(l, x);
      ReleasedIsOver(l, x, events[0]);
      hide Next, Enabled, ChannelOk;
      RunReleased(l, Next(l, x, events[0]), events[1..], y);
    }
  }

  lemma {:induction false} ReachableReleased(l: Limits, x: Channel)
    requires Reachable(l, x)
    ensures x.core.released ==> Terminal(x.core.state)
  {
    hide Run, ChannelOk;
    var events :| Run(l, OPENED, events, x);
    InitialOk(l);
    RunReleased(l, OPENED, events, x);
  }

  /** The turn of a refusal, of a disconnect and of a revocation. */
  lemma {:induction false} OtherTurn(l: Limits, x: Channel)
    requires Reachable(l, x) && Enabled(x, RunNext) && !x.inbound.queue[0].Message?
    ensures var y, over := AfterRun(x), x.core.released && (x.core.state == Closed || x.core.state == Revoked);
      match x.inbound.queue[0]
      case Refused(code) =>
        if Terminal(x.core.state) then OnlyTaken(x, y) && y.inbound.running == Idle else FailedWith(y, code)
      case Disconnect =>
        if over then OnlyTaken(x, y) && y.inbound.running == Idle
        else
          && y.core == x.core.(state := Closed) && y.video.pending.None? && !y.video.timer && y.told == x.told
          && y.inbound.running == if x.core.released then Idle else Releasing(Closed)
      case Revoke =>
        if over then OnlyTaken(x, y) && y.inbound.running == Idle
        else
          && y.core == x.core.(state := Revoked) && y.video.pending.None? && !y.video.timer
          && (if x.core.released
              then y.inbound.running == Idle && y.told == x.told + [HangUp(1000, ByRevocation)]
              else y.inbound.running == Releasing(Revoked) && y.told == x.told)
  {
    ReachableReleased(l, x);
    hide Reachable, FailureTold;
  }

  /** Arrival: a message is taken when there is room, and one that is not closes admission and has its turn as a
      failure that says why. */
  lemma {:induction false} ArrivalAnswer(l: Limits, x: Channel, bytes: nat, kind: Kind)
    requires Reachable(l, x)
    ensures var y, queue := AfterReceive(l, x, bytes, kind), x.inbound.queue;
      if !x.core.admission then y == x
      else
        && y.inbound.received == x.inbound.received + [kind]
        && if Room(l, queue, bytes)
           then y.core == x.core && y.inbound.queue == queue + [Message(|x.inbound.received|, bytes, kind)]
           else
             && y.core == x.core.(admission := false)
             && var code := if bytes > l.maxInboundBytes then InvalidMessage else QueueOverflow;
                y.inbound.queue == queue + [Refused(code)]
  {
    ReachableOk(l, x);
    InputsOfOk(l, x);
    hide Reachable, ChannelOk, InputsOk, StateOk, Messages, QueueBytes;
  }

  /** An input's own outcome: what can be recovered from leaves the channel as it is, and nothing else does. */
  lemma {:induction false} OutcomeAnswer(l: Limits, x: Channel, ok: bool)
    requires Reachable(l, x) && x.inbound.running.Ending?
    ensures var y := AfterQueueEnd(x, ok);
      if ok && !x.inbound.running.outcome.Fatal? then y == x.(inbound := x.inbound.(running := Idle))
      else if Terminal(x.core.state) then y == x.(inbound := x.inbound.(running := Idle))
      else FailedWith(y, if ok then TransportFailure else StaleGeneration)
  {
    ReachableReleased(l, x);
    hide Reachable, FailureTold;
  }

  /** A use that cannot begin fails the channel; one that begins dispatches its input or answers its ping. */
  lemma {:induction false} BeginAnswer(l: Limits, x: Channel, ok: bool)
    requires Reachable(l, x) && Enabled(x, QueueBegun(ok))
    ensures var i, y := x.inbound, AfterQueueBegin(x, ok);
      if !ok then
        if Terminal(x.core.state) then y == x.(inbound := i.(running := Idle)) else FailedWith(y, StaleGeneration)
      else
        && y.core == x.core && y.video == x.video && y.told == x.told
        && (i.running.BeginInput? && Admits(x) ==>
              y.inbound.running == Dispatching(i.running.index)
              && y.inbound.dispatched == i.dispatched + [i.running.index] && y.inbound.ponged == i.ponged)
        && (i.running.BeginInput? && !Admits(x) ==>
              y.inbound.running == Ending(Fine)
              && y.inbound.dispatched == i.dispatched && y.inbound.ponged == i.ponged)
        && (i.running.BeginPing? ==>
              y.inbound.running == Ending(Fine)
              && y.inbound.dispatched == i.dispatched && y.inbound.ponged == i.ponged + 1)
  {
    ReachableReleased(l, x);
    hide Reachable, FailureTold;
  }

  /** The answer to completion: the channel is closed and released, and its peer told; or it fails as stale. */
  lemma {:induction false} CompletionAnswer(l: Limits, x: Channel, ok: bool)
    requires Reachable(l, x) && x.inbound.running.Completing?
    ensures var y := AfterComplete(x, ok);
      if ok then
        && y.core == x.core.(state := Closed, released := true) && y.inbound.running == Idle
        && y.told == x.told + [TellClosed, HangUp(1000, ByCompletion)]
      else if Terminal(x.core.state) then y == x.(inbound := x.inbound.(running := Idle))
      else FailedWith(y, StaleGeneration)
  {
    ReachableReleased(l, x);
    hide Reachable, FailureTold;
  }

  /** The answer to a termination's release: authority is given back; or the channel has failed, and says so. */
  lemma {:induction false} TerminationAnswer(x: Channel, ok: bool)
    requires x.inbound.running.Releasing?
    ensures var y := AfterQueueRelease(x, ok);
      && y.inbound.running == Idle
      && if ok then
           && y.core == x.core.(released := true)
           && y.told == x.told + if x.inbound.running.final == Revoked then [HangUp(1000, ByRevocation)] else []
         else
           && y.core.state == Failed && !y.core.released && y.core.lastFailure == Some(ReleaseFailed)
           && y.told == x.told + [HangUp(1011, ByFailure(ReleaseFailed))]
  {
  }

  // ---------------------------------------------------------------- frames

  /** The frame is being sent: its use begins, or it was handed over, or its use ends. */
  predicate InHandOf(v: Video, frame: nat) {
    v.sending == FrameBegin(frame) || v.sending == FrameSend(frame) || (v.sending.FrameEnd? && v.sending.frame == frame)
  }

  predicate NewestOk(v: Video, s: State) {
    s.Open? && v.accepted > 0 ==>
      v.accepted - 1 in v.delivered || InHandOf(v, v.accepted - 1) || v.pending == Some(v.accepted - 1)
  }

  lemma {:induction false} LoopNewest(x: Channel, frame: nat, buffer: Buffer)
    requires x.video.accepted > 0
    requires frame == x.video.accepted - 1
    ensures NewestOk(FrameLoop(x, frame, buffer).video, FrameLoop(x, frame, buffer).core.state)
  {
    hide FailureTold;
  }

  lemma {:induction false} NewestPush(x: Channel, valid: bool, first: Buffer, second: Buffer)
    requires NewestOk(x.video, x.core.state)
    ensures var y := AfterPush(x, valid, first, second); NewestOk(y.video, y.core.state)
  {
    hide FrameLoop, FailureTold;
    LoopNewest(x.(video := Overtaken(x.video)), x.video.accepted, second);
  }

  /** A pending frame is the one pushed last. */
  lemma {:induction false} PendingIsNewest(v: Video, s: State)
    requires VideoOk(v, s) && NewestOk(v, s) && v.pending.Some?
    ensures v.accepted > 0 && (v.sending.NoFrame? || v.sending.FrameEnd? ==> v.pending.value == v.accepted - 1)
  {
    hide Increasing;
    if v.accepted - 1 in v.delivered {
      assert v.accepted - 1 in v.handed;
      LastIsTop(v.handed, v.accepted - 1);
    }
  }

  lemma {:induction false} LastIsTop(s: seq<nat>, n: nat)
    requires Increasing(s) && n in s
    ensures n < Top(s)
  {
  }

  lemma {:induction false} NewestTimer(x: Channel, first: Buffer, second: Buffer)
    requires VideoOk(x.video, x.core.state) && NewestOk(x.video, x.core.state) && x.video.timer
    ensures var y := AfterTimer(x, first, second); NewestOk(y.video, y.core.state)
  {
    hide VideoOk, FrameLoop, FailureTold;
    var v := x.video;
    if v.pending.Some? {
      PendingIsNewest(v, x.core.state);
      if v.sending.NoFrame? {
        LoopNewest(x.(video := v.(timer := false, pending := None)), v.pending.value, second);
      }
    }
  }

  lemma {:induction false} NewestEnd(x: Channel, ok: bool, buffer: Buffer)
    requires VideoOk(x.video, x.core.state) && NewestOk(x.video, x.core.state) && x.video.sending.FrameEnd?
    ensures var y := AfterFrameEnd(x, ok, buffer); NewestOk(y.video, y.core.state)
  {
    hide VideoOk, FrameLoop, FailureTold;
    var v := x.video;
    if v.pending.Some? {
      PendingIsNewest(v, x.core.state);
      LoopNewest(x.(video := Delivered(v)), v.pending.value, buffer);
    }
  }

  /** While the channel is open the frame pushed last is never dropped. */
  lemma {:induction false} NewestNext(l: Limits, x: Channel, e: Event)
    requires Enabled(x, e) && StateOk(x) && VideoOk(x.video, x.core.state) && NewestOk(x.video, x.core.state)
    ensures NewestOk(Next(l, x, e).video, Next(l, x, e).core.state)
  {
    hide StateOk, VideoOk;
    if !FrameEvent(e) {
      OthersSpareFrames(l, x, e);
      hide Next;
    } else {
      hide AfterPush, AfterTimer, AfterFrameEnd, NewestOk;
      match e {
        case PushFrame(valid, first, second) => NewestPush(x, valid, first, second);
        case TimerFires(first, second) => NewestTimer(x, first, second);
        case FrameEnded(ok, buffer) => NewestEnd(x, ok, buffer);
        case FrameBegun(_) => NewestAnswer(l, x, e);
        case FrameSent(_) => NewestAnswer(l, x, e);
        case FrameReleased(_) => NewestAnswer(l, x, e);
      }
    }
  }

  lemma {:induction false} NewestAnswer(l: Limits, x: Channel, e: Event)
    requires Enabled(x, e) && (e.FrameBegun? || e.FrameSent? || e.FrameReleased?) && NewestOk(x.video, x.core.state)
    ensures NewestOk(Next(l, x, e).video, Next(l, x, e).core.state)
  {
    hide FailureTold;
  }

  lemma {:induction false} RunNewest(l: Limits, x: Channel, events: seq<Event>, y: Channel)
    requires ChannelOk(l, x) && NewestOk(x.video, x.core.state) && Run(l, x, events, y)
    ensures NewestOk(y.video, y.core.state)
    decreases |events|
  {
    if events != [] {
      NextOk(l, x, events[0]);
      VideoOfOk(l, x);
      NewestNext(l, x, events[0]);
      hide Next, Enabled, ChannelOk, NewestOk;
      RunNewest(l, Next(l, x, events[0]), events[1..], y);
    }
  }

  lemma {:induction false} VideoOfOk(l: Limits, x: Channel)
    requires ChannelOk(l, x)
    ensures StateOk(x) && VideoOk(x.video, x.core.state)
  {
    hide StateOk, CountersOk, QueueOrder, Dispatches, FramesOk, FrameOrder, UsesOk;
  }

  /** A viewer never stays behind: while the channel is open the last frame pushed was delivered, or is being sent,
      or is the one that will be. */
  lemma {:induction false} LastFrameIsKept(l: Limits, x: Channel)
    requires Reachable(l, x) && x.core.state.Open? && x.video.accepted > 0
    ensures var v, last := x.video, x.video.accepted - 1;
      last in v.delivered || InHandOf(v, last) || v.pending == Some(last)
  {
    hide Run, ChannelOk;
    var events :| Run(l, OPENED, events, x);
    InitialOk(l);
    RunNewest(l, OPENED, events, x);
  }

  /** A valid frame that is pushed while the channel is open is taken, if the peer's buffer can be read; and when
      nothing is in the way it goes out at once. An invalid one fails the channel. */
  lemma {:induction false} PushAnswer(l: Limits, x: Channel, valid: bool, first: Buffer, second: Buffer)
    requires Reachable(l, x)
    ensures var v, y := x.video, AfterPush(x, valid, first, second);
      if !x.core.state.Open? then y == x
      else if !valid then
        y.core.state == Failed && y.core.lastFailure == Some(FrameTooLarge) && y.video.accepted == v.accepted
      else if v.sending.NoFrame? && first.Broken? then
        y.core.state == Failed && y.core.lastFailure == Some(TransportFailure) && y.video.accepted == v.accepted
      else
        && y.video.accepted == v.accepted + 1
        && (v.sending.NoFrame? && first.Clear? && second.Clear? ==> y.video.sending == FrameBegin(v.accepted))
        && (!v.sending.NoFrame? || first.Full? || second.Full? ==>
              y.core.state == Open && y.video.sending == v.sending && y.video.pending == Some(v.accepted))
        && (v.sending.NoFrame? && first.Clear? && second.Broken? ==>
              y.core.state == Failed && y.core.lastFailure == Some(TransportFailure))
  {
    ReachableReleased(l, x);
    hide Reachable, FailureTold;
  }

  /** The drain timer sends the pending frame as soon as the buffer has room, and is set again before. */
  lemma {:induction false} TimerAnswer(l: Limits, x: Channel, first: Buffer, second: Buffer)
    requires Reachable(l, x) && x.video.timer && x.video.pending.Some? && x.video.sending.NoFrame?
    ensures var y, frame := AfterTimer(x, first, second), x.video.pending.value;
      && (first.Clear? && second.Clear? ==> y.video.sending == FrameBegin(frame) && y.video.pending.None?)
      && (first.Full? || (first.Clear? && second.Full?) ==>
            y.core.state == Open && y.video.timer && y.video.pending == Some(frame) && y.video.sending.NoFrame?)
      && (first.Broken? || (first.Clear? && second.Broken?) ==>
            y.core.state == Failed && y.core.lastFailure == Some(TransportFailure))
  {
    NoLostWakeUp(l, x);
    ReachableReleased(l, x);
    hide Reachable, FailureTold;
  }

  /** A frame whose use ended well counts, and the one that waited goes out next; a failed send or end fails the
      channel. */
  lemma {:induction false} FrameEndAnswer(l: Limits, x: Channel, ok: bool, buffer: Buffer)
    requires Reachable(l, x) && x.video.sending.FrameEnd?
    ensures var v, y := x.video, AfterFrameEnd(x, ok, buffer);
      if ok && v.sending.sent then
        && y.video.sentFrames == v.sentFrames + 1 && y.video.delivered == v.delivered + [v.sending.frame]
        && (v.pending.None? ==> y.core == x.core && y.video.sending == NoFrame)
        && (v.pending.Some? && buffer.Clear? ==>
              y.core == x.core && y.video.sending == FrameBegin(v.pending.value) && y.video.pending.None?)
      else
        && y.video.sentFrames == v.sentFrames && y.video.delivered == v.delivered
        && (!Terminal(x.core.state) ==>
              && y.core.state == Failed
              && y.core.lastFailure == Some(if ok then TransportFailure else StaleGeneration))
  {
    ReachableReleased(l, x);
    ReachableOk(l, x);
    VideoOfOk(l, x);
    hide Reachable, ChannelOk, FailureTold, HasFence, FrameOrder;
  }

  /** A frame whose use began is handed to the peer; one whose use cannot begin fails the channel. */
  lemma {:induction false} FrameBeginAnswer(l: Limits, x: Channel, ok: bool)
    requires Reachable(l, x) && x.video.sending.FrameBegin?
    ensures var v, y := x.video, AfterFrameBegin(x, ok);
      if ok then
        && y.core == x.core && y.video.handed == v.handed + [v.sending.frame]
        && y.video.sending == FrameSend(v.sending.frame)
      else
        && y.video.handed == v.handed
        && (!Terminal(x.core.state) ==> y.core.state == Failed && y.core.lastFailure == Some(StaleGeneration))
  {
    ReachableReleased(l, x);
    hide Reachable, FailureTold;
  }

  // ---------------------------------------------------------------- `start()`

  /** The steps of a run that have some property. */
  ghost function Count(l: Limits, x: Channel, events: seq<Event>, p: (Channel, Event) -> bool): nat
    decreases |events|
  {
    if events == [] || !Enabled(x, events[0]) then 0
    else One(p(x, events[0])) + Count(l, Next(l, x, events[0]), events[1..], p)
  }

  predicate Called(x: Channel, e: Event) {
    e.Start? && x.core.state.Open?
  }

  predicate Answered(x: Channel, e: Event) {
    e.StartBegun?
  }

  predicate BeganWell(x: Channel, e: Event) {
    e.StartBegun? && e.ok
  }

  predicate ReadySent(x: Channel, e: Event) {
    e.StartSent?
  }

  predicate EndAnswered(x: Channel, e: Event) {
    e.StartEnded?
  }

  lemma {:induction false} StartStep(l: Limits, x: Channel, e: Event)
    requires Enabled(x, e)
    ensures var u, v := x.uses, Next(l, x, e).uses;
      && v.startBegin + One(Answered(x, e)) == u.startBegin + One(Called(x, e))
      && v.startUse + One(ReadySent(x, e)) == u.startUse + One(BeganWell(x, e))
      && v.startEnd + One(EndAnswered(x, e)) == u.startEnd + One(ReadySent(x, e))
  {
    hide QueueFails, OtherFails, FrameFails, FrameLoop, FailureTold, Farewell, Cleared, Received, Fits, Dequeued;
  }

  lemma {:induction false} RunStarts(l: Limits, x: Channel, events: seq<Event>, y: Channel)
    requires Run(l, x, events, y)
    ensures y.uses.startBegin + Count(l, x, events, Answered) == x.uses.startBegin + Count(l, x, events, Called)
    ensures y.uses.startUse + Count(l, x, events, ReadySent) == x.uses.startUse + Count(l, x, events, BeganWell)
    ensures y.uses.startEnd + Count(l, x, events, EndAnswered) == x.uses.startEnd + Count(l, x, events, ReadySent)
    decreases |events|
  {
    if events != [] {
      StartStep(l, x, events[0]);
      hide Next, Enabled;
      RunStarts(l, Next(l, x, events[0]), events[1..], y);
    }
  }

  /** Every call of `start()` while the channel is open asks to begin a use; every use that begins sends the ready
      message once; and every one of those is ended. */
  lemma {:induction false} StartAccount(l: Limits, events: seq<Event>, x: Channel)
    requires Run(l, OPENED, events, x)
    ensures Count(l, OPENED, events, Called) == x.uses.startBegin + Count(l, OPENED, events, Answered)
    ensures Count(l, OPENED, events, BeganWell) == x.uses.startUse + Count(l, OPENED, events, ReadySent)
    ensures Count(l, OPENED, events, ReadySent) == x.uses.startEnd + Count(l, OPENED, events, EndAnswered)
  {
    hide Run, Count;
    RunStarts(l, OPENED, events, x);
  }

  /** What fails a start fails the channel. */
  lemma {:induction false} StartFailure(l: Limits, x: Channel, ok: bool, sent: bool)
    requires Reachable(l, x)
    ensures x.uses.startBegin > 0 && !ok && !Terminal(x.core.state) ==>
      var y := AfterStartBegin(x, ok); y.core.state == Failed && y.core.lastFailure == Some(StaleGeneration)
    ensures x.uses.startEnd > 0 && !(ok && sent) && !Terminal(x.core.state) ==>
      var y := AfterStartEnd(x, ok, sent);
      y.core.state == Failed && y.core.lastFailure == Some(if ok then TransportFailure else StaleGeneration)
    ensures x.uses.startEnd > 0 && ok && sent ==> AfterStartEnd(x, ok, sent).core == x.core
  {
    ReachableReleased(l, x);
    hide Reachable, FailureTold;
  }
}
