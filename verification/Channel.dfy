/**
 * The socket takeover channel: a serial queue of inbound operations, a frame path beside it, and
 * `start()` calls, all sharing one state. Every `await` ends a step; what is awaited answers in a
 * later step, in any order, with any outcome. Messages and frames are named by their position among
 * those received or accepted.
 */
module Channel {
  import opened Options

  datatype State = Open | Closing | Closed | Revoked | Failed

  datatype Failure =
    | InvalidMessage
    | InputNotAllowed
    | StaleGeneration
    | FrameTooLarge
    | QueueOverflow
    | TransportFailure
    | ReleaseFailed

  /** What parsing a message yields; the first two stand for errors. */
  datatype Kind = Malformed | NotAllowed | Diagnostic | Latency | Ping | Finished | Input

  const NORMAL := 1000
  const POLICY := 1008
  const INTERNAL := 1011

  datatype Reason = ByCompletion | ByRevocation | ByFailure(code: Failure)

  /** What the peer is told at the end: messages that nothing waits for, and the close. */
  datatype Notice = TellClosing | TellClosed | TellFailure(code: Failure) | HangUp(status: nat, reason: Reason)

  datatype Operation =
    | Message(index: nat, bytes: nat, kind: Kind)
    | Refused(code: Failure) // on arrival: fails the channel when its turn comes
    | Disconnect
    | Revoke

  datatype Outcome = Fine | Recoverable | Fatal

  /** Where the running operation of the queue awaits. */
  datatype QueuePoint =
    | Idle
    | BeginPing
    | BeginInput(index: nat)
    | Dispatching(index: nat)
    | Ending(outcome: Outcome)
    | Completing
    | Releasing(final: State)
    | QueueFailing(code: Failure)

  /** Where the frame loop awaits; `frameSending` is every point but `NoFrame`. */
  datatype FramePoint =
    | NoFrame
    | FrameBegin(frame: nat)
    | FrameSend(frame: nat)
    | FrameEnd(frame: nat, sent: bool)
    | FrameFailing(code: Failure)

  /** What `bufferedAmount` reports: room, more than the limit, or an error. */
  datatype Buffer = Clear | Full | Broken

  datatype Limits = Limits(maxInboundBytes: nat, maxQueuedMessages: nat, maxQueuedBytes: nat)

  /** In each record the fields below the blank line are history: no step decides by them, they only give
      messages and frames their names. */
  datatype Core = Core(
    state: State,
    admission: bool,
    released: bool,
    doneStarted: bool,
    lastFailure: Option<Failure>,
    failing: seq<Failure>, // `failClosed` calls outside the queue and the frame loop, awaiting the release

    completions: nat, // calls of `lease.complete`
    fences: nat,      // `failClosed` calls that got past their first test
    rejections: nat)  // `lease.release` calls that were rejected

  datatype Inbound = Inbound(
    queue: seq<Operation>,
    running: QueuePoint,
    messages: int,
    bytes: int,
    mostMessages: int, // the largest counts so far
    mostBytes: int,

    received: seq<Kind>,
    taken: nat,           // one more than the index of the last text operation run
    dispatched: seq<nat>, // messages given to `onInput`
    finished: nat,        // `onInput` calls that answered
    ponged: nat)          // answers to pings

  datatype Video = Video(
    sending: FramePoint,
    pending: Option<nat>,
    timer: bool,
    sentFrames: nat,
    droppedFrames: nat,

    accepted: nat,       // frames pushed while open, valid, and kept
    handed: seq<nat>,    // frames given to `peer.sendFrame`
    answered: nat,       // `peer.sendFrame` calls that answered
    delivered: seq<nat>, // frames counted as sent
    lost: nat)           // frames discarded by a failure or a teardown

  /** `start()` calls by what they await, and the uses of the lease. */
  datatype Uses = Uses(
    startBegin: nat,
    startUse: nat,
    startEnd: nat,

    begun: nat, // `beginUse` calls that succeeded
    ended: nat) // `endUse` calls made

  datatype Channel = Channel(core: Core, inbound: Inbound, video: Video, uses: Uses, told: seq<Notice>)

  const OPENED := Channel(
    Core(Open, true, false, false, None, [], 0, 0, 0),
    Inbound([], Idle, 0, 0, 0, 0, [], 0, [], 0, 0),
    Video(NoFrame, None, false, 0, 0, 0, [], 0, [], 0),
    Uses(0, 0, 0, 0, 0),
    [])

  // ---------------------------------------------------------------- shared pieces

  predicate Terminal(s: State) {
    s.Closed? || s.Revoked? || s.Failed?
  }

  function One(b: bool): nat {
    if b then 1 else 0
  }

  function Cleared(v: Video): (c: Video)
    ensures c == v.(timer := false, pending := None, lost := c.lost)
  {
    v.(timer := false, pending := None, lost := v.lost + One(v.pending.Some?))
  }

  function Tell(x: Channel, notices: seq<Notice>): Channel {
    x.(told := x.told + notices)
  }

  /** The end of `failClosed`: the peer is told what failed last, and closed. */
  function FailureTold(x: Channel, code: Failure): (y: Channel)
    ensures y == x.(told := y.told)
  {
    var last := if x.core.lastFailure.Some? then x.core.lastFailure.value else code;
    var internal := code.TransportFailure? || x.core.lastFailure == Some(ReleaseFailed);
    Tell(x, [TellFailure(last), HangUp(if internal then INTERNAL else POLICY, ByFailure(last))])
  }

  /** The fields `failClosed` sets before its release. */
  function Fence(c: Core, code: Failure): (d: Core)
    ensures d.released == c.released && d.failing == c.failing && d.state.Failed? && !d.admission
  {
    c.(state := Failed, admission := false, lastFailure := Some(code), fences := c.fences + 1)
  }

  /** `failClosed` up to its release, or to its end if there is nothing to release. */
  function Fenced(x: Channel, code: Failure): (y: Channel)
    ensures y.inbound == x.inbound && y.uses == x.uses && y.video.sending == x.video.sending
    ensures y.core.admission ==> x.core.admission
  {
    if Terminal(x.core.state) then x
    else
      var y := x.(core := Fence(x.core, code), video := Cleared(x.video));
      if x.core.released then FailureTold(y, code) else y
  }

  predicate Waits(x: Channel) {
    !Terminal(x.core.state) && !x.core.released
  }

  /** `lease.release` answered; a rejection is recorded and leaves the channel failed. */
  function AfterRelease(x: Channel, ok: bool): Channel {
    x.(core := if ok then x.core.(released := true)
               else x.core.(
                 released := false, state := Failed, lastFailure := Some(ReleaseFailed),
                 rejections := x.core.rejections + 1))
  }

  function At(x: Channel, running: QueuePoint): Channel {
    x.(inbound := x.inbound.(running := running))
  }

  function QueueFails(x: Channel, code: Failure): (y: Channel)
    ensures y.inbound == x.inbound.(running := y.inbound.running) && y.uses == x.uses
    ensures y.core.admission ==> x.core.admission
    ensures y.inbound.running.QueueFailing? || y.inbound.running.Idle?
    ensures y.video.sending == x.video.sending
  {
    At(Fenced(x, code), if Waits(x) then QueueFailing(code) else Idle)
  }

  function OtherFails(x: Channel, code: Failure): (y: Channel)
    ensures y.inbound == x.inbound && y.uses == x.uses && y.video.sending == x.video.sending
    ensures y.core.admission ==> x.core.admission
  {
    var y := Fenced(x, code);
    y.(core := y.core.(failing := y.core.failing + if Waits(x) then [code] else []))
  }

  function Begun(x: Channel): Channel {
    x.(uses := x.uses.(begun := x.uses.begun + 1))
  }

  function Ended(x: Channel): Channel {
    x.(uses := x.uses.(ended := x.uses.ended + 1))
  }

  // ---------------------------------------------------------------- the queue

  function Enqueued(i: Inbound, op: Operation): Inbound {
    i.(queue := i.queue + [op])
  }

  predicate Fits(l: Limits, i: Inbound, bytes: nat) {
    bytes <= l.maxInboundBytes && i.messages + 1 <= l.maxQueuedMessages && i.bytes + bytes <= l.maxQueuedBytes
  }

  function Max(a: int, b: int): int {
    if a < b then b else a
  }

  /** A message is counted, and with it the largest counts. */
  function Reserved(i: Inbound, bytes: nat): Inbound {
    i.(messages := i.messages + 1, bytes := i.bytes + bytes,
       mostMessages := Max(i.mostMessages, i.messages + 1), mostBytes := Max(i.mostBytes, i.bytes + bytes))
  }

  function Received(l: Limits, i: Inbound, bytes: nat, kind: Kind): Inbound {
    var j := i.(received := i.received + [kind]);
    if bytes > l.maxInboundBytes then Enqueued(j, Refused(InvalidMessage))
    else if !Fits(l, i, bytes) then Enqueued(j, Refused(QueueOverflow))
    else Reserved(Enqueued(j, Message(|i.received|, bytes, kind)), bytes)
  }

  function AfterReceive(l: Limits, x: Channel, bytes: nat, kind: Kind): Channel {
    if !x.core.admission then x
    else x.(inbound := Received(l, x.inbound, bytes, kind),
            core := if Fits(l, x.inbound, bytes) then x.core else x.core.(admission := false))
  }

  /** `disconnect()` and `revoke()`. */
  function AfterCall(x: Channel, op: Operation): Channel {
    x.(core := x.core.(admission := false), inbound := Enqueued(x.inbound, op))
  }

  /** The first operation leaves the queue; a text gives back what it reserved. */
  function Dequeued(i: Inbound): Inbound
    requires i.queue != []
  {
    var j := i.(queue := i.queue[1..]);
    match i.queue[0]
    case Message(index, bytes, _) => j.(messages := i.messages - 1, bytes := i.bytes - bytes, taken := index + 1)
    case _ => j
  }

  function AfterRun(x: Channel): Channel
    requires x.inbound.running.Idle? && x.inbound.queue != []
  {
    var y := x.(inbound := Dequeued(x.inbound));
    match x.inbound.queue[0]
    case Message(index, _, kind) => TextRuns(y, index, kind)
    case Refused(code) => QueueFails(y, code)
    case Disconnect => Terminated(y, Closed)
    case Revoke => Terminated(y, Revoked)
  }

  function TextRuns(x: Channel, index: nat, kind: Kind): Channel {
    if !x.core.state.Open? || !x.core.admission then x
    else
      match kind
      case Malformed => QueueFails(x, InvalidMessage)
      case NotAllowed => QueueFails(x, InputNotAllowed)
      case Diagnostic => x
      case Latency => x
      case Ping => At(x, BeginPing)
      case Finished => CompletionStarts(x)
      case Input => At(x, BeginInput(index))
  }

  function CompletionStarts(x: Channel): Channel {
    if x.core.doneStarted || !x.core.state.Open? then x
    else
      Tell(At(x, Completing), [TellClosing]).(
        core := x.core.(
          doneStarted := true, admission := false, state := Closing, completions := x.core.completions + 1),
        video := Cleared(x.video))
  }

  function Terminated(x: Channel, s: State): Channel {
    if (x.core.state.Closed? || x.core.state.Revoked?) && x.core.released then x
    else
      var y := x.(core := x.core.(state := s), video := Cleared(x.video));
      if x.core.released then Tell(y, Farewell(s)) else At(y, Releasing(s))
  }

  /** A revoked peer is closed; a disconnected one needs no close. */
  function Farewell(s: State): seq<Notice> {
    if s.Revoked? then [HangUp(NORMAL, ByRevocation)] else []
  }

  function AfterQueueBegin(x: Channel, ok: bool): Channel
    requires x.inbound.running.BeginPing? || x.inbound.running.BeginInput?
  {
    var point := x.inbound.running;
    if !ok then QueueFails(x, StaleGeneration)
    else if point.BeginInput? && x.core.state.Open? && x.core.admission then
      Begun(x).(inbound := x.inbound.(
        running := Dispatching(point.index), dispatched := x.inbound.dispatched + [point.index]))
    else
      Ended(Begun(x)).(inbound := x.inbound.(
        running := Ending(Fine), ponged := x.inbound.ponged + One(point.BeginPing?)))
  }

  function AfterInput(x: Channel, outcome: Outcome): Channel
    requires x.inbound.running.Dispatching?
  {
    Ended(x).(inbound := x.inbound.(running := Ending(outcome), finished := x.inbound.finished + 1))
  }

  function AfterQueueEnd(x: Channel, ok: bool): Channel
    requires x.inbound.running.Ending?
  {
    if !ok then QueueFails(x, StaleGeneration)
    else if x.inbound.running.outcome.Fatal? then QueueFails(x, TransportFailure)
    else At(x, Idle)
  }

  function AfterComplete(x: Channel, ok: bool): Channel
    requires x.inbound.running.Completing?
  {
    if !ok then QueueFails(x, StaleGeneration)
    else
      Tell(At(x, Idle), [TellClosed, HangUp(NORMAL, ByCompletion)]).(core := x.core.(released := true, state := Closed))
  }

  function AfterQueueRelease(x: Channel, ok: bool): Channel
    requires x.inbound.running.Releasing? || x.inbound.running.QueueFailing?
  {
    var y := At(AfterRelease(x, ok), Idle);
    match x.inbound.running
    case QueueFailing(code) => FailureTold(y, code)
    case Releasing(final) => Tell(y, if ok then Farewell(final) else [HangUp(INTERNAL, ByFailure(ReleaseFailed))])
  }

  // ---------------------------------------------------------------- the frame path

  function Sending(x: Channel, sending: FramePoint): Channel {
    x.(video := x.video.(sending := sending))
  }

  function ReplacePending(v: Video, frame: nat): Video {
    v.(pending := Some(frame), droppedFrames := v.droppedFrames + One(v.pending.Some?))
  }

  function ScheduleDrain(v: Video, s: State): Video {
    v.(timer := v.timer || s.Open?)
  }

  function FrameFails(x: Channel, code: Failure): (y: Channel)
    ensures y.inbound == x.inbound && y.uses == x.uses
    ensures y.core.admission ==> x.core.admission
    ensures y.video.sending.NoFrame? || y.video.sending.FrameFailing?
  {
    var y := Fenced(x, code);
    y.(video := y.video.(sending := if Waits(x) then FrameFailing(code) else NoFrame, lost := y.video.lost + 1))
  }

  /** The top of the frame loop with a frame in hand. */
  function FrameLoop(x: Channel, frame: nat, buffer: Buffer): (y: Channel)
    ensures y.inbound == x.inbound && y.uses == x.uses
    ensures y.core.admission ==> x.core.admission
    ensures y.video.sending.NoFrame? || y.video.sending.FrameFailing? || y.video.sending.FrameBegin?
  {
    if !x.core.state.Open? then x.(video := x.video.(sending := NoFrame, lost := x.video.lost + 1))
    else
      match buffer
      case Full => x.(video := ScheduleDrain(ReplacePending(x.video, frame), x.core.state).(sending := NoFrame))
      case Broken => FrameFails(x, TransportFailure)
      case Clear => Sending(x, FrameBegin(frame))
  }

  /** A frame goes into the loop at once: an older pending one is dropped. */
  function Overtaken(v: Video): Video {
    v.(pending := None, droppedFrames := v.droppedFrames + One(v.pending.Some?), accepted := v.accepted + 1)
  }

  function AfterPush(x: Channel, valid: bool, first: Buffer, second: Buffer): Channel {
    var v := x.video;
    if !x.core.state.Open? then x
    else if !valid then OtherFails(x, FrameTooLarge)
    else if v.sending.NoFrame? && first.Broken? then OtherFails(x, TransportFailure)
    else if !v.sending.NoFrame? || first.Full? then
      x.(video := ScheduleDrain(ReplacePending(v, v.accepted), x.core.state).(accepted := v.accepted + 1))
    else FrameLoop(x.(video := Overtaken(v)), v.accepted, second)
  }

  function AfterTimer(x: Channel, first: Buffer, second: Buffer): Channel
    requires x.video.timer
  {
    var v := x.video.(timer := false);
    if !x.core.state.Open? || !v.sending.NoFrame? || v.pending.None? then x.(video := v)
    else
      match first
      case Full => x.(video := ScheduleDrain(v, x.core.state))
      case Broken => OtherFails(x.(video := v), TransportFailure)
      case Clear => FrameLoop(x.(video := v.(pending := None)), v.pending.value, second)
  }

  function AfterFrameBegin(x: Channel, ok: bool): Channel
    requires x.video.sending.FrameBegin?
  {
    var frame := x.video.sending.frame;
    if !ok then FrameFails(x, StaleGeneration)
    else Begun(x).(video := x.video.(sending := FrameSend(frame), handed := x.video.handed + [frame]))
  }

  function AfterFrameSend(x: Channel, ok: bool): Channel
    requires x.video.sending.FrameSend?
  {
    Ended(x).(video := x.video.(sending := FrameEnd(x.video.sending.frame, ok), answered := x.video.answered + 1))
  }

  /** A frame whose use ended well counts as sent. */
  function Delivered(v: Video): Video
    requires v.sending.FrameEnd?
  {
    v.(sentFrames := v.sentFrames + 1, pending := None, sending := NoFrame,
       delivered := v.delivered + [v.sending.frame])
  }

  function AfterFrameEnd(x: Channel, ok: bool, buffer: Buffer): Channel
    requires x.video.sending.FrameEnd?
  {
    if !ok then FrameFails(x, StaleGeneration)
    else if !x.video.sending.sent then FrameFails(x, TransportFailure)
    else
      var y := x.(video := Delivered(x.video));
      if x.video.pending.None? then y else FrameLoop(y, x.video.pending.value, buffer)
  }

  function AfterFrameRelease(x: Channel, ok: bool): Channel
    requires x.video.sending.FrameFailing?
  {
    Sending(FailureTold(AfterRelease(x, ok), x.video.sending.code), NoFrame)
  }

  // ---------------------------------------------------------------- `start()`

  function AfterStart(x: Channel): Channel {
    x.(uses := x.uses.(startBegin := x.uses.startBegin + One(x.core.state.Open?)))
  }

  function AfterStartBegin(x: Channel, ok: bool): Channel
    requires x.uses.startBegin > 0
  {
    var u := x.uses.(startBegin := x.uses.startBegin - 1);
    if ok then x.(uses := u.(startUse := u.startUse + 1, begun := u.begun + 1))
    else OtherFails(x.(uses := u), StaleGeneration)
  }

  function AfterStartSent(x: Channel): Channel
    requires x.uses.startUse > 0
  {
    var u := x.uses;
    x.(uses := u.(startUse := u.startUse - 1, startEnd := u.startEnd + 1, ended := u.ended + 1))
  }

  function AfterStartEnd(x: Channel, ok: bool, sent: bool): Channel
    requires x.uses.startEnd > 0
  {
    var y := x.(uses := x.uses.(startEnd := x.uses.startEnd - 1));
    if !ok then OtherFails(y, StaleGeneration)
    else if !sent then OtherFails(y, TransportFailure)
    else y
  }

  /** Any of the `failClosed` calls that await the release is answered. */
  function AfterOtherRelease(x: Channel, which: nat, ok: bool): Channel
    requires which < |x.core.failing|
  {
    var failing := x.core.failing;
    var y := x.(core := x.core.(failing := failing[..which] + failing[which + 1..]));
    FailureTold(AfterRelease(y, ok), failing[which])
  }

  // ---------------------------------------------------------------- steps

  datatype Event =
    | ReceiveText(bytes: nat, kind: Kind)
    | PushFrame(valid: bool, first: Buffer, second: Buffer)
    | CallDisconnect
    | CallRevoke
    | Start
    | RunNext
    | QueueBegun(ok: bool)
    | InputAnswered(outcome: Outcome)
    | QueueEnded(ok: bool)
    | CompleteAnswered(ok: bool)
    | QueueReleased(ok: bool)
    | FrameBegun(ok: bool)
    | FrameSent(ok: bool)
    | FrameEnded(ok: bool, buffer: Buffer)
    | FrameReleased(ok: bool)
    | TimerFires(first: Buffer, second: Buffer)
    | StartBegun(ok: bool)
    | StartSent
    | StartEnded(ok: bool, sent: bool) // whether the use ended well, and the ready message was sent
    | OtherReleased(which: nat, ok: bool)

  predicate Enabled(x: Channel, e: Event) {
    match e
    case ReceiveText(_, _) => true
    case PushFrame(_, _, _) => true
    case CallDisconnect => true
    case CallRevoke => true
    case Start => true
    case RunNext => x.inbound.running.Idle? && x.inbound.queue != []
    case QueueBegun(_) => x.inbound.running.BeginPing? || x.inbound.running.BeginInput?
    case InputAnswered(_) => x.inbound.running.Dispatching?
    case QueueEnded(_) => x.inbound.running.Ending?
    case CompleteAnswered(_) => x.inbound.running.Completing?
    case QueueReleased(_) => x.inbound.running.Releasing? || x.inbound.running.QueueFailing?
    case FrameBegun(_) => x.video.sending.FrameBegin?
    case FrameSent(_) => x.video.sending.FrameSend?
    case FrameEnded(_, _) => x.video.sending.FrameEnd?
    case FrameReleased(_) => x.video.sending.FrameFailing?
    case TimerFires(_, _) => x.video.timer
    case StartBegun(_) => x.uses.startBegin > 0
    case StartSent => x.uses.startUse > 0
    case StartEnded(_, _) => x.uses.startEnd > 0
    case OtherReleased(which, _) => which < |x.core.failing|
  }

  function Next(l: Limits, x: Channel, e: Event): Channel
    requires Enabled(x, e)
  {
    match e
    case ReceiveText(bytes, kind) => AfterReceive(l, x, bytes, kind)
    case PushFrame(valid, first, second) => AfterPush(x, valid, first, second)
    case CallDisconnect => AfterCall(x, Disconnect)
    case CallRevoke => AfterCall(x, Revoke)
    case Start => AfterStart(x)
    case RunNext => AfterRun(x)
    case QueueBegun(ok) => AfterQueueBegin(x, ok)
    case InputAnswered(outcome) => AfterInput(x, outcome)
    case QueueEnded(ok) => AfterQueueEnd(x, ok)
    case CompleteAnswered(ok) => AfterComplete(x, ok)
    case QueueReleased(ok) => AfterQueueRelease(x, ok)
    case FrameBegun(ok) => AfterFrameBegin(x, ok)
    case FrameSent(ok) => AfterFrameSend(x, ok)
    case FrameEnded(ok, buffer) => AfterFrameEnd(x, ok, buffer)
    case FrameReleased(ok) => AfterFrameRelease(x, ok)
    case TimerFires(first, second) => AfterTimer(x, first, second)
    case StartBegun(ok) => AfterStartBegin(x, ok)
    case StartSent => AfterStartSent(x)
    case StartEnded(ok, sent) => AfterStartEnd(x, ok, sent)
    case OtherReleased(which, ok) => AfterOtherRelease(x, which, ok)
  }
}
