/** What a channel reports about its end: the last failure, and what the peer is told. */
module ChannelNotices {
  import opened Options
  import opened Channel
  import opened ChannelRuns

  function Failures(told: seq<Notice>): nat {
    if told == [] then 0 else One(told[0].TellFailure?) + Failures(told[1..])
  }

  function Closings(told: seq<Notice>): nat {
    if told == [] then 0 else One(told[0].TellClosing?) + Closings(told[1..])
  }

  function Closeds(told: seq<Notice>): nat {
    if told == [] then 0 else One(told[0].TellClosed?) + Closeds(told[1..])
  }

  lemma {:induction false} CountsSnoc(told: seq<Notice>, n: Notice)
    ensures Failures(told + [n]) == Failures(told) + One(n.TellFailure?)
    ensures Closings(told + [n]) == Closings(told) + One(n.TellClosing?)
    ensures Closeds(told + [n]) == Closeds(told) + One(n.TellClosed?)
  {
    if told == [] {
      assert told + [n] == [n];
    } else {
      CountsSnoc(told[1..], n);
      assert (told + [n])[1..] == told[1..] + [n];
    }
  }

  lemma {:induction false} NoFailures(told: seq<Notice>, n: Notice)
    requires n in told && n.TellFailure?
    ensures Failures(told) > 0
  {
    if n != told[0] {
      NoFailures(told[1..], n);
    }
  }

  /** The status a peer is closed with for a reason. */
  function StatusFor(reason: Reason): nat {
    match reason
    case ByFailure(code) => if code.TransportFailure? || code.ReleaseFailed? then INTERNAL else POLICY
    case _ => NORMAL
  }

  /** A failure of this code was the last one, or was followed by a rejected release only. */
  predicate Recorded(last: Option<Failure>, code: Failure) {
    last == Some(code) || last == Some(ReleaseFailed)
  }

  predicate NoticeOk(last: Option<Failure>, n: Notice) {
    && (n.HangUp? ==> n.status == StatusFor(n.reason))
    && (n.TellFailure? ==> Recorded(last, n.code))
  }

  predicate NoticesOk(told: seq<Notice>, last: Option<Failure>) {
    && (forall n | n in told :: NoticeOk(last, n))
    && (forall k | 0 <= k < |told| && told[k].TellFailure? ::
          k + 1 < |told| && told[k + 1].HangUp? && told[k + 1].reason == ByFailure(told[k].code))
  }

  /** The codes with which `failClosed` calls await the release. */
  predicate Awaited(x: Channel, code: Failure) {
    || x.inbound.running == QueueFailing(code)
    || x.video.sending == FrameFailing(code)
    || code in x.core.failing
  }

  predicate FailureOk(x: Channel) {
    var c := x.core;
    && (c.rejections > 0 <==> c.lastFailure == Some(ReleaseFailed))
    && (c.lastFailure.Some? <==> c.fences + c.rejections > 0)
    && (c.lastFailure.Some? ==> Terminal(c.state))
    && (c.state.Failed? ==> c.lastFailure.Some?)
  }

  predicate AwaitedOk(x: Channel) {
    forall code | Awaited(x, code) :: !code.ReleaseFailed? && Recorded(x.core.lastFailure, code)
  }

  predicate CountsOk(x: Channel) {
    && Failures(x.told) + Failing(x) == x.core.fences
    && Closings(x.told) == x.core.completions
    && Closeds(x.told) + One(x.inbound.running.Completing?) <= x.core.completions
  }

  predicate RefusalsOk(queue: seq<Operation>) {
    forall k | 0 <= k < |queue| && queue[k].Refused? :: !queue[k].code.ReleaseFailed?
  }

  predicate ToldOk(x: Channel) {
    FailureOk(x) && AwaitedOk(x) && CountsOk(x) && NoticesOk(x.told, x.core.lastFailure) && RefusalsOk(x.inbound.queue)
  }

  // ---------------------------------------------------------------- what the peer is told

  lemma {:induction false} NoticeTold(told: seq<Notice>, last: Option<Failure>, n: Notice)
    requires NoticesOk(told, last) && !n.TellFailure? && NoticeOk(last, n)
    ensures NoticesOk(told + [n], last)
  {
  }

  /** The two notices with which `failClosed` ends. */
  lemma {:induction false} FailureToldOk(x: Channel, code: Failure)
    requires NoticesOk(x.told, x.core.lastFailure) && Recorded(x.core.lastFailure, code) && !code.ReleaseFailed?
    ensures var y := FailureTold(x, code);
      && NoticesOk(y.told, y.core.lastFailure)
      && Failures(y.told) == Failures(x.told) + 1
      && Closings(y.told) == Closings(x.told) && Closeds(y.told) == Closeds(x.told)
  {
    hide Failures, Closings, Closeds;
    var last := x.core.lastFailure.value;
    var first, second := TellFailure(last), HangUp(StatusFor(ByFailure(last)), ByFailure(last));
    CountsSnoc(x.told, first);
    CountsSnoc(x.told + [first], second);
    assert x.told + [first] + [second] == x.told + [first, second];
    assert FailureTold(x, code).told == x.told + [first, second];
  }

  /** Nothing was told of a failure, so that the first one may be recorded. */
  lemma {:induction false} Recording(told: seq<Notice>, last: Option<Failure>, code: Failure)
    requires NoticesOk(told, last)
    ensures NoticesOk(told, Some(ReleaseFailed))
    ensures Failures(told) == 0 ==> NoticesOk(told, Some(code))
  {
    forall n | n in told && n.TellFailure?
      ensures Failures(told) > 0
    {
      NoFailures(told, n);
    }
    hide Failures;
  }

  // ---------------------------------------------------------------- failing

  lemma {:induction false} NothingAwaited(x: Channel, code: Failure)
    requires Failing(x) == 0
    ensures !Awaited(x, code)
  {
  }

  /** A channel that is not in a terminal state has no failure behind it. */
  lemma {:induction false} FencedTold(x: Channel, code: Failure)
    requires CoreOk(x) && ToldOk(x) && !Terminal(x.core.state) && !code.ReleaseFailed?
    ensures var y := Fenced(x, code);
      && Failing(x) == 0
      && y.core == Fence(x.core, code) && FailureOk(y)
      && NoticesOk(y.told, y.core.lastFailure)
      && Failures(y.told) + One(Waits(x)) == y.core.fences
      && Closings(y.told) == Closings(x.told) && Closeds(y.told) == Closeds(x.told)
  {
    hide HasFence, Failures, Closings, Closeds, NoticesOk, AwaitedOk, RefusalsOk, FailureTold;
    Recording(x.told, x.core.lastFailure, code);
    if x.core.released {
      FailureToldOk(x.(core := Fence(x.core, code), video := Cleared(x.video)), code);
    }
  }

  lemma {:induction false} QueueFailsTold(x: Channel, code: Failure)
    requires CoreOk(x) && ToldOk(x) && !x.inbound.running.QueueFailing? && !code.ReleaseFailed?
    ensures ToldOk(QueueFails(x, code))
  {
    hide HasFence, Failures, Closings, Closeds, NoticesOk, RefusalsOk, FailureTold;
    if !Terminal(x.core.state) {
      FencedTold(x, code);
      hide Fenced;
    }
  }

  lemma {:induction false} FrameFailsTold(x: Channel, code: Failure)
    requires CoreOk(x) && ToldOk(x) && !x.video.sending.FrameFailing? && !code.ReleaseFailed?
    ensures ToldOk(FrameFails(x, code))
  {
    hide HasFence, Failures, Closings, Closeds, NoticesOk, RefusalsOk, FailureTold;
    if !Terminal(x.core.state) {
      FencedTold(x, code);
      hide Fenced;
    }
  }

  lemma {:induction false} OtherFailsTold(x: Channel, code: Failure)
    requires CoreOk(x) && ToldOk(x) && !code.ReleaseFailed?
    ensures ToldOk(OtherFails(x, code))
  {
    hide HasFence, Failures, Closings, Closeds, NoticesOk, RefusalsOk, FailureTold;
    if !Terminal(x.core.state) {
      FencedTold(x, code);
      hide Fenced;
    }
  }

  /** A release that a `failClosed` call awaited: there is no other such call. */
  lemma {:induction false} ReleaseTold(x: Channel, y: Channel, code: Failure, ok: bool)
    requires CoreOk(x) && ToldOk(x) && Awaited(x, code)
    requires y.told == x.told && y.inbound.queue == x.inbound.queue
    requires AfterRelease(x, ok).core == y.core.(failing := x.core.failing)
    requires Failing(y) == Failing(x) - 1 && y.inbound.running.Completing? == x.inbound.running.Completing?
    ensures ToldOk(FailureTold(y, code))
  {
    hide HasFence, Failures, Closings, Closeds, NoticesOk, RefusalsOk, FailureTold;
    Recording(x.told, x.core.lastFailure, code);
    FailureToldOk(y, code);
    forall other
      ensures !Awaited(y, other)
    {
      NothingAwaited(y, other);
    }
  }

  // ---------------------------------------------------------------- every step keeps it

  /** Nothing that is reported changes. */
  predicate Quiet(x: Channel, y: Channel) {
    var before, after := x.inbound.running, y.inbound.running;
    && y.core == x.core.(admission := y.core.admission) && y.told == x.told
    && (after == before || !(before.QueueFailing? || after.QueueFailing? || after.Completing?))
    && (y.video.sending == x.video.sending || !(x.video.sending.FrameFailing? || y.video.sending.FrameFailing?))
  }

  lemma {:induction false} QuietTold(x: Channel, y: Channel)
    requires ToldOk(x) && Quiet(x, y) && RefusalsOk(y.inbound.queue)
    ensures ToldOk(y)
  {
    hide Failures, Closings, Closeds, NoticesOk, RefusalsOk, Recorded;
    forall code | Awaited(y, code)
      ensures Awaited(x, code)
    {
    }
  }

  predicate Steady(x: Channel) {
    CoreOk(x) && ToldOk(x)
  }

  /** The same for both invariants, where the queue and admission stay too. */
  lemma {:induction false} QuietSteady(x: Channel, y: Channel)
    requires Steady(x) && Quiet(x, y) && y.core == x.core && y.inbound == x.inbound
    ensures Steady(y)
  {
    hide HasFence, FailureOk, AwaitedOk, CountsOk, NoticesOk, RefusalsOk;
    QuietTold(x, y);
  }

  // the frame path

  lemma {:induction false} FrameLoopTold(x: Channel, frame: nat, buffer: Buffer)
    requires Steady(x) && !x.video.sending.FrameFailing?
    ensures ToldOk(FrameLoop(x, frame, buffer))
  {
    hide CoreOk, ToldOk, FrameFails;
    FrameFailsTold(x, TransportFailure);
    if !buffer.Broken? || !x.core.state.Open? {
      QuietSteady(x, FrameLoop(x, frame, buffer));
    }
  }

  lemma {:induction false} PushTold(x: Channel, valid: bool, first: Buffer, second: Buffer)
    requires Steady(x)
    ensures ToldOk(AfterPush(x, valid, first, second))
  {
    hide CoreOk, ToldOk, OtherFails, FrameLoop;
    var v := x.video;
    OtherFailsTold(x, if valid then TransportFailure else FrameTooLarge);
    var y := x.(video := ScheduleDrain(ReplacePending(v, v.accepted), x.core.state).(accepted := v.accepted + 1));
    QuietSteady(x, y);
    if v.sending.NoFrame? {
      QuietSteady(x, x.(video := Overtaken(v)));
      FrameLoopTold(x.(video := Overtaken(v)), v.accepted, second);
    }
  }

  lemma {:induction false} TimerTold(x: Channel, first: Buffer, second: Buffer)
    requires Steady(x) && x.video.timer
    ensures ToldOk(AfterTimer(x, first, second))
  {
    hide CoreOk, ToldOk, OtherFails, FrameLoop;
    var v := x.video.(timer := false);
    QuietSteady(x, x.(video := v));
    QuietSteady(x, x.(video := ScheduleDrain(v, x.core.state)));
    OtherFailsTold(x.(video := v), TransportFailure);
    if v.sending.NoFrame? && v.pending.Some? {
      QuietSteady(x, x.(video := v.(pending := None)));
      FrameLoopTold(x.(video := v.(pending := None)), v.pending.value, second);
    }
  }

  lemma {:induction false} FrameEndTold(x: Channel, ok: bool, buffer: Buffer)
    requires Steady(x) && x.video.sending.FrameEnd?
    ensures ToldOk(AfterFrameEnd(x, ok, buffer))
  {
    hide CoreOk, ToldOk, FrameFails, FrameLoop;
    FrameFailsTold(x, if ok then TransportFailure else StaleGeneration);
    var y := x.(video := Delivered(x.video));
    QuietSteady(x, y);
    if x.video.pending.Some? {
      FrameLoopTold(y, x.video.pending.value, buffer);
    }
  }

  lemma {:induction false} FrameAnswerTold(l: Limits, x: Channel, e: Event)
    requires Steady(x) && Enabled(x, e) && (e.FrameBegun? || e.FrameSent?)
    ensures ToldOk(Next(l, x, e))
  {
    hide CoreOk, ToldOk, FrameFails;
    FrameFailsTold(x, StaleGeneration);
    if e.ok || e.FrameSent? {
      QuietSteady(x, Next(l, x, e));
    }
  }

  lemma {:induction false} FrameReleaseTold(x: Channel, ok: bool)
    requires Steady(x) && x.video.sending.FrameFailing?
    ensures ToldOk(AfterFrameRelease(x, ok))
  {
    hide CoreOk, ToldOk;
    var code := x.video.sending.code;
    ReleaseTold(x, Sending(AfterRelease(x, ok), NoFrame), code, ok);
  }

  // the queue

  lemma {:induction false} ArrivalTold(l: Limits, x: Channel, e: Event)
    requires Steady(x) && (e.ReceiveText? || e.CallDisconnect? || e.CallRevoke?)
    ensures ToldOk(Next(l, x, e))
  {
    hide CoreOk, FailureOk, AwaitedOk, CountsOk, NoticesOk, Fits;
    QuietTold(x, Next(l, x, e));
  }

  /** Completion starts, in an open channel. */
  lemma {:induction false} CompletionTold(x: Channel)
    requires Steady(x) && x.inbound.running.Idle?
    ensures ToldOk(CompletionStarts(x))
  {
    hide HasFence, Failures, Closings, Closeds, NoticesOk, RefusalsOk, Recorded;
    CountsSnoc(x.told, TellClosing);
    NoticeTold(x.told, x.core.lastFailure, TellClosing);
  }

  lemma {:induction false} TerminatedTold(x: Channel, s: State)
    requires Steady(x) && x.inbound.running.Idle? && (s.Closed? || s.Revoked?)
    ensures ToldOk(Terminated(x, s))
  {
    hide HasFence, Failures, Closings, Closeds, NoticesOk, RefusalsOk, Recorded;
    CountsSnoc(x.told, HangUp(NORMAL, ByRevocation));
    NoticeTold(x.told, x.core.lastFailure, HangUp(NORMAL, ByRevocation));
    assert x.told + [] == x.told;
  }

  lemma {:induction false} RunTold(x: Channel)
    requires Steady(x) && Enabled(x, RunNext)
    ensures ToldOk(AfterRun(x))
  {
    var y, op := x.(inbound := Dequeued(x.inbound)), x.inbound.queue[0];
    assert CoreOk(y) && RefusalsOk(y.inbound.queue) && (op.Refused? ==> !op.code.ReleaseFailed?) by {
      FenceTaken(x.inbound.queue);
      hide HasFence, FailureOk, AwaitedOk, CountsOk, NoticesOk;
    }
    QuietTold(x, y);
    hide CoreOk, ToldOk, QueueFails, CompletionStarts, Terminated, Dequeued;
    match op {
      case Message(_, _, kind) =>
        QueueFailsTold(y, if kind.NotAllowed? then InputNotAllowed else InvalidMessage);
        CompletionTold(y);
        if y.core.state.Open? && (kind.Ping? || kind.Input?) {
          QuietTold(y, AfterRun(x));
        }
      case Refused(code) => QueueFailsTold(y, code);
      case Disconnect => TerminatedTold(y, Closed);
      case Revoke => TerminatedTold(y, Revoked);
    }
  }

  lemma {:induction false} BeginTold(x: Channel, ok: bool)
    requires Steady(x) && (x.inbound.running.BeginPing? || x.inbound.running.BeginInput?)
    ensures ToldOk(AfterQueueBegin(x, ok))
  {
    hide CoreOk, FailureOk, AwaitedOk, CountsOk, NoticesOk, RefusalsOk, QueueFails;
    if ok {
      QuietTold(x, AfterQueueBegin(x, ok));
    } else {
      QueueFailsTold(x, StaleGeneration);
    }
  }

  lemma {:induction false} InputTold(x: Channel, outcome: Outcome)
    requires Steady(x) && x.inbound.running.Dispatching?
    ensures ToldOk(AfterInput(x, outcome))
  {
    hide CoreOk, FailureOk, AwaitedOk, CountsOk, NoticesOk, RefusalsOk;
    QuietTold(x, AfterInput(x, outcome));
  }

  lemma {:induction false} EndTold(x: Channel, ok: bool)
    requires Steady(x) && x.inbound.running.Ending?
    ensures ToldOk(AfterQueueEnd(x, ok))
  {
    hide CoreOk, FailureOk, AwaitedOk, CountsOk, NoticesOk, RefusalsOk, QueueFails;
    QueueFailsTold(x, if ok then TransportFailure else StaleGeneration);
    if ok && !x.inbound.running.outcome.Fatal? {
      QuietTold(x, AfterQueueEnd(x, ok));
    }
  }

  lemma {:induction false} CompletedTold(x: Channel, ok: bool)
    requires Steady(x) && x.inbound.running.Completing?
    ensures ToldOk(AfterComplete(x, ok))
  {
    QueueFailsTold(x, StaleGeneration);
    var last, end := x.core.lastFailure, HangUp(NORMAL, ByCompletion);
    CountsSnoc(x.told, TellClosed);
    CountsSnoc(x.told + [TellClosed], end);
    NoticeTold(x.told, last, TellClosed);
    NoticeTold(x.told + [TellClosed], last, end);
    assert x.told + [TellClosed] + [end] == x.told + [TellClosed, end];
    hide HasFence, Failures, Closings, Closeds, NoticesOk, RefusalsOk, Recorded, QueueFails;
  }

  lemma {:induction false} QueueReleaseTold(x: Channel, ok: bool)
    requires Steady(x) && (x.inbound.running.Releasing? || x.inbound.running.QueueFailing?)
    ensures ToldOk(AfterQueueRelease(x, ok))
  {
    hide HasFence, Failures, Closings, Closeds, NoticesOk, RefusalsOk, FailureTold;
    if x.inbound.running.QueueFailing? {
      ReleaseTold(x, At(AfterRelease(x, ok), Idle), x.inbound.running.code, ok);
    } else {
      var n := if ok then HangUp(NORMAL, ByRevocation) else HangUp(INTERNAL, ByFailure(ReleaseFailed));
      var last := if ok then x.core.lastFailure else Some(ReleaseFailed);
      Recording(x.told, x.core.lastFailure, ReleaseFailed);
      CountsSnoc(x.told, n);
      NoticeTold(x.told, last, n);
      assert x.told + [] == x.told;
    }
  }

  // `start()`

  lemma {:induction false} StartTold(l: Limits, x: Channel, e: Event)
    requires Steady(x) && Enabled(x, e) && (e.Start? || e.StartBegun? || e.StartSent? || e.StartEnded?)
    ensures ToldOk(Next(l, x, e))
  {
    hide CoreOk, ToldOk, OtherFails;
    match e {
      case StartBegun(ok) =>
        var y := x.(uses := x.uses.(startBegin := x.uses.startBegin - 1));
        QuietSteady(x, y);
        OtherFailsTold(y, StaleGeneration);
        if ok {
          QuietSteady(x, Next(l, x, e));
        }
      case StartEnded(ok, _) =>
        var y := x.(uses := x.uses.(startEnd := x.uses.startEnd - 1));
        QuietSteady(x, y);
        OtherFailsTold(y, if ok then TransportFailure else StaleGeneration);
      case Start => QuietSteady(x, AfterStart(x));
      case StartSent => QuietSteady(x, AfterStartSent(x));
    }
  }

  lemma {:induction false} OtherReleaseTold(x: Channel, which: nat, ok: bool)
    requires Steady(x) && which < |x.core.failing|
    ensures ToldOk(AfterOtherRelease(x, which, ok))
  {
    hide CoreOk, ToldOk;
    var failing := x.core.failing;
    var y := x.(core := x.core.(failing := failing[..which] + failing[which + 1..]));
    ReleaseTold(x, AfterRelease(y, ok), failing[which], ok);
  }

  lemma {:induction false} NextTold(l: Limits, x: Channel, e: Event)
    requires Steady(x) && Enabled(x, e)
    ensures ToldOk(Next(l, x, e))
  {
    hide Steady, ToldOk, AfterPush, AfterTimer, AfterFrameEnd, AfterFrameRelease, AfterRun, AfterComplete;
    hide AfterQueueBegin, AfterInput, AfterQueueEnd, AfterQueueRelease, AfterOtherRelease;
    match e {
      case PushFrame(valid, first, second) => PushTold(x, valid, first, second);
      case TimerFires(first, second) => TimerTold(x, first, second);
      case FrameEnded(ok, buffer) => FrameEndTold(x, ok, buffer);
      case FrameBegun(_) => FrameAnswerTold(l, x, e);
      case FrameSent(_) => FrameAnswerTold(l, x, e);
      case FrameReleased(ok) => FrameReleaseTold(x, ok);
      case RunNext => RunTold(x);
      case ReceiveText(_, _) => ArrivalTold(l, x, e);
      case CallDisconnect => ArrivalTold(l, x, e);
      case CallRevoke => ArrivalTold(l, x, e);
      case QueueBegun(ok) => BeginTold(x, ok);
      case InputAnswered(outcome) => InputTold(x, outcome);
      case QueueEnded(ok) => EndTold(x, ok);
      case CompleteAnswered(ok) => CompletedTold(x, ok);
      case QueueReleased(ok) => QueueReleaseTold(x, ok);
      case OtherReleased(which, ok) => OtherReleaseTold(x, which, ok);
      case Start => StartTold(l, x, e);
      case StartBegun(_) => StartTold(l, x, e);
      case StartSent => StartTold(l, x, e);
      case StartEnded(_, _) => StartTold(l, x, e);
    }
  }

  // ---------------------------------------------------------------- runs

  lemma {:induction false} RunKeepsTold(l: Limits, x: Channel, events: seq<Event>, y: Channel)
    requires ChannelOk(l, x) && ToldOk(x) && Run(l, x, events, y)
    ensures ToldOk(y)
    decreases |events|
  {
    if events != [] {
      hide Next, Enabled, ToldOk, CountersOk, QueueOrder, Dispatches, FramesOk, FrameOrder, UsesOk;
      NextOk(l, x, events[0]);
      NextTold(l, x, events[0]);
      hide ChannelOk;
      RunKeepsTold(l, Next(l, x, events[0]), events[1..], y);
    }
  }

  lemma {:induction false} InitialFailure()
    ensures FailureOk(OPENED) && AwaitedOk(OPENED) && RefusalsOk(OPENED.inbound.queue)
  {
  }

  lemma {:induction false} InitialCounts()
    ensures CountsOk(OPENED)
  {
  }

  lemma {:induction false} InitialNotices()
    ensures NoticesOk(OPENED.told, OPENED.core.lastFailure)
  {
  }

  lemma {:induction false} InitialTold()
    ensures ToldOk(OPENED)
  {
    hide FailureOk, AwaitedOk, CountsOk, NoticesOk, RefusalsOk;
    InitialFailure();
    InitialCounts();
    InitialNotices();
  }

  lemma {:induction false} ReachableTold(l: Limits, x: Channel)
    requires Reachable(l, x)
    ensures CoreOk(x) && ToldOk(x)
  {
    hide Run, ToldOk, CoreOk, CountersOk, QueueOrder, Dispatches, FramesOk, FrameOrder, UsesOk;
    var events :| Run(l, OPENED, events, x);
    InitialOk(l);
    InitialTold();
    RunKeepsTold(l, OPENED, events, x);
    ReachableOk(l, x);
  }

  /** The last failure is set exactly once something failed, and says that a release was rejected exactly
      if one was; a failed channel has one. */
  lemma {:induction false} LastFailureIsRecorded(l: Limits, x: Channel)
    requires Reachable(l, x)
    ensures x.core.lastFailure.Some? <==> x.core.fences > 0 || x.core.rejections > 0
    ensures x.core.lastFailure == Some(ReleaseFailed) <==> x.core.rejections > 0
    ensures x.core.lastFailure.Some? ==> Terminal(x.core.state)
    ensures x.core.state.Failed? ==> x.core.lastFailure.Some?
  {
    ReachableTold(l, x);
    hide CoreOk, AwaitedOk, CountsOk, NoticesOk, RefusalsOk;
  }

  /** The peer is told of a failure at most once, and of each fence once no `failClosed` call is on its way;
      it is told of the closing once completion was asked for, and of the close at most as often. */
  lemma {:induction false} ToldOnce(l: Limits, x: Channel)
    requires Reachable(l, x)
    ensures Failures(x.told) + Failing(x) == x.core.fences <= 1
    ensures Closeds(x.told) <= Closings(x.told) == x.core.completions <= 1
  {
    ReachableTold(l, x);
    hide HasFence, FailureOk, AwaitedOk, NoticesOk, RefusalsOk, Failures, Closings, Closeds;
  }

  /** Every close has the status that belongs to its reason; and the peer that is told a failure is told
      the last one so far and is closed for it at once. */
  lemma {:induction false} CloseMatchesReason(l: Limits, x: Channel)
    requires Reachable(l, x)
    ensures forall n | n in x.told && n.HangUp? :: n.status == StatusFor(n.reason)
    ensures forall k | 0 <= k < |x.told| && x.told[k].TellFailure? ::
      && Recorded(x.core.lastFailure, x.told[k].code)
      && k + 1 < |x.told| && x.told[k + 1] == HangUp(StatusFor(ByFailure(x.told[k].code)), ByFailure(x.told[k].code))
  {
    ReachableTold(l, x);
    hide CoreOk, FailureOk, AwaitedOk, CountsOk, RefusalsOk, Recorded;
    forall k | 0 <= k < |x.told|
      ensures NoticeOk(x.core.lastFailure, x.told[k])
    {
      assert x.told[k] in x.told;
    }
  }
}
