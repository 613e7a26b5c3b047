/**
 * The latest-only video scheduler of a WebRTC session, over suspensions and resumptions. A frame is its
 * position among all arrivals and whether it is a keyframe. Every `await` of the drain loop ends a step.
 */
module VideoScheduler {
  import opened Options

  datatype Frame = Frame(index: nat, key: bool)

  /** A frame taken for sending, with the number of arrivals at that moment. */
  datatype Sent = Sent(frame: Frame, takenAt: nat)

  /** The fields below the blank line are history: no step decides by them. */
  datatype Scheduler = Scheduler(
    closing: bool,
    suspended: bool,
    connected: bool, // the current peer is connected
    sender: bool,    // the current peer has its sender
    preconnect: Option<Frame>,
    awaiting: bool,
    pending: Option<Frame>,
    drainActive: bool,
    outstanding: nat, // drain loops awaiting a send
    arrivals: nat,

    sent: seq<Sent>,
    ended: nat,        // sends that ended
    idrRequests: nat,  // calls of `requestIdr`
    idrBefore: nat)    // those made before the current peer

  const FRESH :=
    Scheduler(false, false, false, false, None, false, None, false, 0, 0, [], 0, 0, 0)

  /** What the drain loop and every enqueue test. */
  predicate Up(x: Scheduler) {
    !x.closing && x.connected && x.sender
  }

  function Asked(x: Scheduler): Scheduler {
    x.(awaiting := true, idrRequests := x.idrRequests + 1)
  }

  /** One turn of the drain loop: the pending frame is taken, or the loop ends. */
  function Turned(x: Scheduler): Scheduler {
    if Up(x) && x.pending.Some? then
      x.(pending := None, outstanding := x.outstanding + 1, sent := x.sent + [Sent(x.pending.value, x.arrivals)])
    else x.(drainActive := false)
  }

  function Drained(x: Scheduler): Scheduler {
    Turned(x.(drainActive := true))
  }

  /** A frame becomes the pending one unless a keyframe is awaited or would be displaced by it. */
  predicate Admits(x: Scheduler, f: Frame) {
    f.key || (!x.awaiting && x.pending.None?)
  }

  function Enqueued(x: Scheduler, f: Frame): Scheduler {
    if !Up(x) then x
    else if !Admits(x, f) then
      if x.awaiting || x.pending.value.key then x else Asked(x.(pending := None))
    else
      // a keyframe that displaces a dependent frame still asks for another one
      var y := if !x.awaiting && x.pending.Some? && !x.pending.value.key then Asked(x) else x;
      var z := y.(awaiting := false, pending := Some(f));
      if x.drainActive then z else Drained(z)
  }

  function AfterWrite(x: Scheduler, key: bool): Scheduler {
    var f, y := Frame(x.arrivals, key), x.(arrivals := x.arrivals + 1);
    if x.closing then y
    else if x.suspended || !x.connected || !x.sender then if key then y.(preconnect := Some(f)) else y
    else Enqueued(y, f)
  }

  /** The current peer connected. */
  function AfterConnect(x: Scheduler): Scheduler {
    var y := x.(connected := true, preconnect := None);
    if x.preconnect.Some? && x.sender then Enqueued(y, x.preconnect.value) else Asked(y)
  }

  /** The current peer failed or closed: the session ends, unless it is suspended. */
  function AfterDown(x: Scheduler): Scheduler {
    if x.suspended then x.(connected := false) else x.(connected := false, closing := true)
  }

  function AfterEnd(x: Scheduler): Scheduler {
    x.(closing := true, suspended := false)
  }

  function AfterSuspend(x: Scheduler): Scheduler {
    if x.closing || x.suspended then x
    else x.(suspended := true, sender := false, pending := None, preconnect := None, awaiting := true)
  }

  /** A new peer takes over, without looking for a send still outstanding. */
  function AfterResume(x: Scheduler): Scheduler {
    x.(suspended := false, connected := false, sender := false, drainActive := false, awaiting := true,
       pending := None, preconnect := None, idrBefore := x.idrRequests)
  }

  /** A send ended. After an error its loop ends, another is started if a frame waits, and the session
      ends. */
  function AfterSend(x: Scheduler, ok: bool): Scheduler
    requires x.outstanding > 0
  {
    var y := x.(outstanding := x.outstanding - 1, ended := x.ended + 1);
    if ok then Turned(y)
    else
      var z := y.(drainActive := false);
      AfterEnd(if Up(z) && z.pending.Some? then Drained(z) else z)
  }

  datatype Event =
    | Write(key: bool)
    | Connect
    | Down
    | End
    | Suspend
    | Resume
    | AddTrack
    | SendEnds(ok: bool)

  predicate Enabled(x: Scheduler, e: Event) {
    match e
    case Write(_) => true
    case Connect => !x.connected
    case Down => true
    case End => true
    case Suspend => true
    case Resume => x.suspended && !x.closing
    case AddTrack => !x.closing && !x.suspended && !x.sender
    case SendEnds(_) => x.outstanding > 0
  }

  function Next(x: Scheduler, e: Event): Scheduler
    requires Enabled(x, e)
  {
    match e
    case Write(key) => AfterWrite(x, key)
    case Connect => AfterConnect(x)
    case Down => AfterDown(x)
    case End => AfterEnd(x)
    case Suspend => AfterSuspend(x)
    case Resume => AfterResume(x)
    case AddTrack => x.(sender := true)
    case SendEnds(ok) => AfterSend(x, ok)
  }

  class FrameScheduler {
    var closing: bool
    var suspended: bool
    var connected: bool
    var sender: bool
    var preconnectKeyframe: Option<Frame>
    var awaitingVideoKeyframe: bool
    var pendingFrame: Option<Frame>
    var videoDrainActive: bool
    var outstanding: nat
    var arrivals: nat
    var sent: seq<Sent>
    var ended: nat
    var idrRequests: nat
    var idrBefore: nat

    function View(): Scheduler
      reads this
    {
      Scheduler(closing, suspended, connected, sender, preconnectKeyframe, awaitingVideoKeyframe, pendingFrame,
                videoDrainActive, outstanding, arrivals, sent, ended, idrRequests, idrBefore)
    }

    constructor ()
      ensures View() == FRESH
    {
      closing, suspended, connected, sender := false, false, false, false;
      preconnectKeyframe, awaitingVideoKeyframe, pendingFrame := None, false, None;
      videoDrainActive, outstanding, arrivals := false, 0, 0;
      sent, ended, idrRequests, idrBefore := [], 0, 0, 0;
    }

    method WriteFrame(key: bool)
      modifies this
      ensures View() == AfterWrite(old(View()), key)
    {
      hide Enqueued;
      var frame := Frame(arrivals, key);
      arrivals := arrivals + 1;
      if closing {
        return;
      }
      if suspended {
        if key {
          preconnectKeyframe := Some(frame);
        }
        return;
      }
      if !connected || !sender {
        if key {
          preconnectKeyframe := Some(frame);
        }
        return;
      }
      EnqueueConnectedFrame(frame);
    }

    method RequestIdr()
      modifies `idrRequests
      ensures idrRequests == old(idrRequests) + 1
    {
      idrRequests := idrRequests + 1;
    }

    method EnqueueConnectedFrame(frame: Frame)
      modifies `awaitingVideoKeyframe, `pendingFrame, `idrRequests, `videoDrainActive, `outstanding, `sent
      ensures View() == Enqueued(old(View()), frame)
    {
      hide Drained;
      if closing || !connected || !sender {
        return;
      }
      if awaitingVideoKeyframe {
        if !frame.key {
          return;
        }
        awaitingVideoKeyframe := false;
        pendingFrame := Some(frame);
      } else if pendingFrame.Some? {
        if pendingFrame.value.key {
          if !frame.key {
            return;
          }
          pendingFrame := Some(frame);
        } else {
          pendingFrame := None;
          awaitingVideoKeyframe := true;
          RequestIdr();
          if !frame.key {
            return;
          }
          awaitingVideoKeyframe := false;
          pendingFrame := Some(frame);
        }
      } else {
        pendingFrame := Some(frame);
      }
      if videoDrainActive {
        return;
      }
      StartDrain();
    }

    method StartDrain()
      modifies `videoDrainActive, `pendingFrame, `outstanding, `sent
      ensures View() == Drained(old(View()))
    {
      videoDrainActive := true;
      DrainTurn();
    }

    /** The drain loop up to its await, or to its end. */
    method DrainTurn()
      modifies `videoDrainActive, `pendingFrame, `outstanding, `sent
      ensures View() == Turned(old(View()))
    {
      if !closing && connected && sender && pendingFrame.Some? {
        sent := sent + [Sent(pendingFrame.value, arrivals)];
        pendingFrame := None;
        outstanding := outstanding + 1;
      } else {
        videoDrainActive := false;
      }
    }

    method SendFinished(ok: bool)
      requires outstanding > 0
      modifies this
      ensures View() == AfterSend(old(View()), ok)
    {
      hide Drained, Turned;
      outstanding, ended := outstanding - 1, ended + 1;
      if ok {
        DrainTurn();
        return;
      }
      videoDrainActive := false;
      if pendingFrame.Some? && !closing && connected && sender {
        StartDrain();
      }
      EndSession();
    }

    method PeerConnected()
      modifies this
      ensures View() == AfterConnect(old(View()))
    {
      hide Enqueued;
      connected := true;
      var keyframe := preconnectKeyframe;
      preconnectKeyframe := None;
      if keyframe.Some? && sender {
        EnqueueConnectedFrame(keyframe.value);
      } else {
        awaitingVideoKeyframe := true;
        RequestIdr();
      }
    }

    method PeerDown()
      modifies `connected, `closing
      ensures View() == AfterDown(old(View()))
    {
      connected := false;
      if suspended {
        return;
      }
      closing := true;
    }

    method EndSession()
      modifies `closing, `suspended
      ensures View() == AfterEnd(old(View()))
    {
      closing := true;
      suspended := false;
    }

    method SuspendSession()
      modifies `suspended, `sender, `pendingFrame, `preconnectKeyframe, `awaitingVideoKeyframe
      ensures View() == AfterSuspend(old(View()))
    {
      if closing || suspended {
        return;
      }
      suspended := true;
      sender := false;
      pendingFrame := None;
      preconnectKeyframe := None;
      awaitingVideoKeyframe := true;
    }

    method ResumeSuspended()
      modifies `connected, `suspended, `sender, `videoDrainActive, `awaitingVideoKeyframe
      modifies `pendingFrame, `preconnectKeyframe, `idrBefore
      ensures View() == AfterResume(old(View()))
    {
      connected, suspended, sender := false, false, false;
      videoDrainActive, awaitingVideoKeyframe := false, true;
      pendingFrame, preconnectKeyframe := None, None;
      idrBefore := idrRequests;
    }
  }

  // ---------------------------------------------------------------- what every run keeps

  /** What of consecutive sends is always so. */
  predicate Linked(a: Sent, b: Sent) {
    && a.frame.index < a.takenAt <= b.frame.index < b.takenAt
    && (!b.frame.key ==> b.frame.index == a.takenAt)
  }

  predicate Chained(sent: seq<Sent>) {
    && (forall i | 0 <= i < |sent| :: sent[i].frame.index < sent[i].takenAt)
    && (forall i | 0 <= i < |sent| :: !sent[i].frame.key ==> sent[i].takenAt == sent[i].frame.index + 1)
    && (forall i | 0 < i < |sent| :: Linked(sent[i - 1], sent[i]))
    && (sent != [] ==> sent[0].frame.key)
  }

  /** How far the sends have got: the arrivals when the last frame was taken. */
  function Reached(x: Scheduler): nat {
    if x.sent == [] then 0 else x.sent[|x.sent| - 1].takenAt
  }

  /** A frame that may be sent next, were it taken now. */
  predicate Fits(x: Scheduler, f: Frame) {
    && Reached(x) <= f.index < x.arrivals
    && (!f.key ==> x.sent != [] && f.index == Reached(x) && x.arrivals == f.index + 1)
  }

  /** The session is up and knows where the stream of frames stands. */
  predicate InStream(x: Scheduler) {
    && (x.awaiting ==> x.pending.None? && x.idrRequests > x.idrBefore)
    && (x.pending.Some? ==> Fits(x, x.pending.value) && x.drainActive)
    && (!x.awaiting && x.pending.None? ==> x.sent != [] && x.arrivals == Reached(x))
  }

  predicate SchedulerOk(x: Scheduler) {
    && Chained(x.sent) && Reached(x) <= x.arrivals
    && |x.sent| == x.ended + x.outstanding && x.idrBefore <= x.idrRequests
    && (x.drainActive ==> x.outstanding > 0)
    && (x.suspended ==> !x.sender && !x.closing)
    && (x.preconnect.Some? ==> x.preconnect.value.key && x.preconnect.value.index < x.arrivals)
    && (x.preconnect.Some? && (!x.connected || x.suspended) && !x.closing ==> Reached(x) <= x.preconnect.value.index)
    && (!x.closing && !Up(x) ==> x.pending.None?)
    && (!x.closing && !x.suspended && x.connected && !x.sender ==> x.awaiting && x.idrRequests > x.idrBefore)
    && (x.suspended ==> x.awaiting)
    && (Up(x) ==> InStream(x))
  }

  /** The guard of the drain holds: one loop at most, and it is known to be there. */
  predicate Single(x: Scheduler) {
    x.outstanding <= 1 && (x.outstanding > 0 ==> x.drainActive)
  }

  lemma {:induction false} ChainedSnoc(sent: seq<Sent>, b: Sent)
    requires Chained(sent) && b.frame.index < b.takenAt && (!b.frame.key ==> b.takenAt == b.frame.index + 1)
    requires if sent == [] then b.frame.key else Linked(sent[|sent| - 1], b)
    ensures Chained(sent + [b])
  {
    forall i | 0 < i < |sent + [b]|
      ensures Linked((sent + [b])[i - 1], (sent + [b])[i])
    {
      if i < |sent| {
        assert Linked(sent[i - 1], sent[i]);
      }
    }
  }

  lemma {:induction false} TurnedOk(x: Scheduler)
    requires Up(x) && !x.awaiting && x.drainActive
    requires Chained(x.sent) && Reached(x) <= x.arrivals && |x.sent| == x.ended + x.outstanding
    requires x.idrBefore <= x.idrRequests && !x.suspended
    requires x.preconnect.Some? ==> x.preconnect.value.key && x.preconnect.value.index < x.arrivals
    requires if x.pending.Some? then Fits(x, x.pending.value) else x.sent != [] && x.arrivals == Reached(x)
    ensures SchedulerOk(Turned(x))
  {
    if x.pending.Some? {
      ChainedSnoc(x.sent, Sent(x.pending.value, x.arrivals));
    }
    hide Chained;
  }

  /** A frame that arrived or waited for the connection, in a session that is up. */
  lemma {:induction false} EnqueuedOk(x: Scheduler, f: Frame)
    requires Up(x) && !x.suspended
    requires Chained(x.sent) && |x.sent| == x.ended + x.outstanding && x.idrBefore <= x.idrRequests
    requires x.drainActive ==> x.outstanding > 0
    requires x.preconnect.Some? ==> x.preconnect.value.key && x.preconnect.value.index < x.arrivals
    requires Reached(x) <= f.index < x.arrivals
    requires x.awaiting ==> x.pending.None? && (f.key || x.idrRequests > x.idrBefore)
    requires x.pending.Some? ==> x.drainActive && Reached(x) <= x.pending.value.index < x.arrivals
    requires !f.key && !x.awaiting && x.pending.None? ==> Fits(x, f)
    ensures SchedulerOk(Enqueued(x, f))
  {
    if Admits(x, f) && !x.drainActive {
      TurnedOk(x.(awaiting := false, pending := Some(f), drainActive := true));
    }
    hide Chained, Turned;
  }

  lemma {:induction false} WriteOk(x: Scheduler, key: bool)
    requires SchedulerOk(x)
    ensures SchedulerOk(AfterWrite(x, key))
  {
    hide Chained, Enqueued;
    if Up(x) {
      EnqueuedOk(x.(arrivals := x.arrivals + 1), Frame(x.arrivals, key));
    }
  }

  lemma {:induction false} ConnectOk(x: Scheduler)
    requires SchedulerOk(x) && !x.connected
    ensures SchedulerOk(AfterConnect(x))
  {
    hide Chained, Enqueued;
    if x.preconnect.Some? && x.sender && !x.closing {
      EnqueuedOk(x.(connected := true, preconnect := None), x.preconnect.value);
    }
    EnqueueWhenDown(x.(connected := true, preconnect := None));
  }

  lemma {:induction false} EnqueueWhenDown(x: Scheduler)
    ensures !Up(x) ==> forall f :: Enqueued(x, f) == x
  {
  }

  lemma {:induction false} SendOk(x: Scheduler, ok: bool)
    requires SchedulerOk(x) && x.outstanding > 0
    ensures SchedulerOk(AfterSend(x, ok))
  {
    hide Chained, Turned;
    var y := x.(outstanding := x.outstanding - 1, ended := x.ended + 1);
    if Up(x) && x.pending.Some? {
      TurnedOk(y.(drainActive := true));
    }
    TurnEnds(y);
  }

  lemma {:induction false} TurnEnds(x: Scheduler)
    ensures !(Up(x) && x.pending.Some?) ==> Turned(x) == x.(drainActive := false)
  {
  }

  lemma {:induction false} NextOk(x: Scheduler, e: Event)
    requires SchedulerOk(x) && Enabled(x, e)
    ensures SchedulerOk(Next(x, e))
  {
    hide Chained, AfterWrite, AfterConnect, AfterSend;
    match e
    case Write(key) => WriteOk(x, key);
    case Connect => ConnectOk(x);
    case SendEnds(ok) => SendOk(x, ok);
    case _ =>
  }

  lemma {:induction false} SingleKept(x: Scheduler, e: Event)
    requires SchedulerOk(x) && Single(x) && Enabled(x, e) && (e.Resume? ==> x.outstanding == 0)
    ensures Single(Next(x, e))
  {
    hide Chained, Linked;
  }

  ghost predicate Run(x: Scheduler, events: seq<Event>, y: Scheduler)
    decreases |events|
  {
    if events == [] then x == y else Enabled(x, events[0]) && Run(Next(x, events[0]), events[1..], y)
  }

  /** A run that resumes only when no send is outstanding. */
  ghost predicate CleanRun(x: Scheduler, events: seq<Event>, y: Scheduler)
    decreases |events|
  {
    if events == [] then x == y
    else
      && Enabled(x, events[0]) && (events[0].Resume? ==> x.outstanding == 0)
      && CleanRun(Next(x, events[0]), events[1..], y)
  }

  ghost predicate Reachable(x: Scheduler) {
    exists events :: Run(FRESH, events, x)
  }

  ghost predicate CleanlyReachable(x: Scheduler) {
    exists events :: CleanRun(FRESH, events, x)
  }

  lemma {:induction false} RunOk(x: Scheduler, events: seq<Event>, y: Scheduler)
    requires SchedulerOk(x) && Run(x, events, y)
    ensures SchedulerOk(y)
    decreases |events|
  {
    if events != [] {
      NextOk(x, events[0]);
      hide SchedulerOk, Next, Enabled;
      RunOk(Next(x, events[0]), events[1..], y);
    }
  }

  lemma {:induction false} CleanRunOk(x: Scheduler, events: seq<Event>, y: Scheduler)
    requires SchedulerOk(x) && Single(x) && CleanRun(x, events, y)
    ensures SchedulerOk(y) && Single(y)
    decreases |events|
  {
    if events != [] {
      NextOk(x, events[0]);
      SingleKept(x, events[0]);
      hide SchedulerOk, Single, Next, Enabled;
      CleanRunOk(Next(x, events[0]), events[1..], y);
    }
  }

  lemma {:induction false} FreshOk()
    ensures SchedulerOk(FRESH) && Single(FRESH)
  {
    hide Chained, Linked, Fits;
    assert Chained(FRESH.sent) by {
      EmptyChained();
    }
  }

  lemma {:induction false} EmptyChained()
    ensures Chained([])
  {
  }

  lemma {:induction false} ReachableOk(x: Scheduler)
    requires Reachable(x)
    ensures SchedulerOk(x)
  {
    hide Run, SchedulerOk;
    var events :| Run(FRESH, events, x);
    FreshOk();
    RunOk(FRESH, events, x);
  }

  lemma {:induction false} CleanlyReachableOk(x: Scheduler)
    requires CleanlyReachable(x)
    ensures SchedulerOk(x) && Single(x)
  {
    hide CleanRun, SchedulerOk, Single;
    var events :| CleanRun(FRESH, events, x);
    FreshOk();
    CleanRunOk(FRESH, events, x);
  }

  // ---------------------------------------------------------------- one frame in flight

  /** As long as every resumption finds no send outstanding, at most one send is: it is the last one
      begun, and the drain is active exactly while it lasts. */
  lemma {:induction false} OneInFlight(x: Scheduler)
    requires CleanlyReachable(x)
    ensures |x.sent| == x.ended + x.outstanding && x.outstanding <= 1
    ensures x.drainActive <==> x.outstanding == 1
  {
    CleanlyReachableOk(x);
  }

  lemma {:induction false} PrependedClean(x: Scheduler, e: Event, rest: seq<Event>, y: Scheduler)
    requires Enabled(x, e) && (e.Resume? ==> x.outstanding == 0) && CleanRun(Next(x, e), rest, y)
    ensures CleanRun(x, [e] + rest, y)
  {
    assert ([e] + rest)[1..] == rest;
  }

  /** A resumption that finds a send outstanding leads to two at once. */
  lemma {:induction false} TwoAfterResume(x: Scheduler) returns (events: seq<Event>, y: Scheduler)
    requires SchedulerOk(x) && x.suspended && x.outstanding > 0
    ensures CleanRun(AfterResume(x), events, y) && y.outstanding == x.outstanding + 1
  {
    hide Chained;
    var a := AfterResume(x);
    var b := Next(a, AddTrack);
    var c := Next(b, Connect);
    y := Next(c, Write(true));
    PrependedClean(c, Write(true), [], y);
    PrependedClean(b, Connect, [Write(true)] + [], y);
    PrependedClean(a, AddTrack, [Connect] + ([Write(true)] + []), y);
    events := [AddTrack] + ([Connect] + ([Write(true)] + []));
  }

  /** The exact condition: a resumption keeps at most one frame in flight, whatever follows it, exactly
      when no send is outstanding at that moment. */
  lemma {:induction false} OneInFlightIff(x: Scheduler)
    requires CleanlyReachable(x) && Enabled(x, Resume)
    ensures x.outstanding == 0 <==>
      forall events, y | CleanRun(AfterResume(x), events, y) :: y.outstanding <= 1
  {
    CleanlyReachableOk(x);
    if x.outstanding == 0 {
      forall events, y | CleanRun(AfterResume(x), events, y)
        ensures y.outstanding <= 1
      {
        NextOk(x, Resume);
        CleanRunOk(AfterResume(x), events, y);
      }
    } else {
      var events, y := TwoAfterResume(x);
    }
  }

  // ---------------------------------------------------------------- every run, resumed cleanly or not

  /** A pending frame of a session that is up is never left without a send whose end will take it up, and
      a session that waits for a keyframe has asked its current peer for one. */
  lemma {:induction false} NothingForgotten(x: Scheduler)
    requires Reachable(x) && Up(x)
    ensures x.pending.Some? ==> x.drainActive && x.outstanding > 0 && !x.awaiting
    ensures x.awaiting ==> x.idrRequests > x.idrBefore
  {
    ReachableOk(x);
  }

  lemma {:induction false} ChainGrows(sent: seq<Sent>, i: nat, j: nat)
    requires Chained(sent) && i < j < |sent|
    ensures sent[i].takenAt <= sent[j].frame.index
    decreases j
  {
    assert Linked(sent[j - 1], sent[j]);
    if i < j - 1 {
      ChainGrows(sent, i, j - 1);
    }
  }

  /** Frames are sent in arrival order, and the first one is a keyframe. */
  lemma {:induction false} SentInArrivalOrder(x: Scheduler)
    requires Reachable(x)
    ensures forall i, j | 0 <= i < j < |x.sent| :: x.sent[i].frame.index < x.sent[j].frame.index
    ensures x.sent != [] ==> x.sent[0].frame.key
  {
    ReachableOk(x);
    forall i, j | 0 <= i < j < |x.sent|
      ensures x.sent[i].frame.index < x.sent[j].frame.index
    {
      ChainGrows(x.sent, i, j);
    }
  }

  /** Only a suspension forgets a pending keyframe: otherwise it waits, is sent, or is displaced by a newer
      keyframe. */
  lemma {:induction false} PendingKeyframeIsKept(x: Scheduler, e: Event)
    requires Reachable(x) && Enabled(x, e) && x.pending.Some? && x.pending.value.key && Up(x)
    ensures var y := Next(x, e);
      || y.pending == x.pending
      || (y.sent != [] && y.sent[|y.sent| - 1].frame == x.pending.value)
      || (y.pending.Some? && y.pending.value.key && y.pending.value.index > x.pending.value.index)
      || e.Suspend?
  {
    ReachableOk(x);
    hide Chained;
  }

  /** A dependent frame sent after another dependent frame is the very next arrival; sent after a
      keyframe it is the first arrival since that keyframe was taken, so that whatever is skipped in
      between arrived while the keyframe was still waiting. */
  lemma {:induction false} DependentFollows(x: Scheduler, i: nat, skipped: nat)
    requires Reachable(x) && i + 1 < |x.sent| && !x.sent[i + 1].frame.key
    ensures var a, b := x.sent[i], x.sent[i + 1];
      && b.frame.index == a.takenAt
      && (!a.frame.key ==> b.frame.index == a.frame.index + 1)
      && (a.frame.index < skipped < b.frame.index ==> a.frame.key && skipped < a.takenAt)
  {
    ReachableOk(x);
    assert Linked(x.sent[i], x.sent[i + 1]);
  }

  /** There is no reference gap before a dependent frame exactly when nothing arrived while the frame
      before it was waiting. */
  lemma {:induction false} NoGapIff(x: Scheduler, i: nat)
    requires Reachable(x) && i + 1 < |x.sent| && !x.sent[i + 1].frame.key
    ensures x.sent[i + 1].frame.index == x.sent[i].frame.index + 1 <==> x.sent[i].takenAt == x.sent[i].frame.index + 1
  {
    DependentFollows(x, i, 0);
  }

  lemma {:induction false} RunSnoc(x: Scheduler, events: seq<Event>, y: Scheduler, e: Event)
    requires Run(x, events, y) && Enabled(y, e)
    ensures Run(x, events + [e], Next(y, e))
    decreases |events|
  {
    hide Next, Enabled;
    if events == [] {
      assert Run(Next(y, e), [], Next(y, e)) && ([] + [e])[1..] == [];
    } else {
      RunSnoc(Next(x, events[0]), events[1..], y, e);
      assert (events + [e])[1..] == events[1..] + [e];
    }
  }

  lemma {:induction false} ReachableNext(x: Scheduler, e: Event)
    requires Reachable(x) && Enabled(x, e)
    ensures Reachable(Next(x, e))
  {
    hide Next, Enabled, Run;
    var events :| Run(FRESH, events, x);
    RunSnoc(FRESH, events, x, e);
  }

  /** A session that is up and in stream. */
  function Streaming(pending: Option<Frame>, arrivals: nat, sent: seq<Sent>): Scheduler
    requires sent != []
  {
    Scheduler(false, false, true, true, None, false, pending, true, 1, arrivals, sent, |sent| - 1, 1, 0)
  }

  lemma {:induction false} FirstKeyframe()
    ensures Reachable(Streaming(None, 1, [Sent(Frame(0, true), 1)]))
  {
    assert Reachable(FRESH) by {
      assert Run(FRESH, [], FRESH);
    }
    hide Reachable, Run;
    var ready := FRESH.(sender := true);
    var waiting := ready.(connected := true, awaiting := true, idrRequests := 1);
    assert Next(FRESH, AddTrack) == ready && Next(ready, Connect) == waiting;
    ReachableNext(FRESH, AddTrack);
    ReachableNext(ready, Connect);
    ReachableNext(waiting, Write(true));
    assert [] + [Sent(Frame(0, true), 1)] == [Sent(Frame(0, true), 1)];
    assert Next(waiting, Write(true)) == Streaming(None, 1, [Sent(Frame(0, true), 1)]);
  }

  /** A frame arrives while a keyframe waits, or while nothing does. */
  lemma {:induction false} StreamingWrite(pending: Option<Frame>, arrivals: nat, sent: seq<Sent>, key: bool)
    requires sent != [] && Reachable(Streaming(pending, arrivals, sent))
    requires pending.Some? ==> pending.value.key && !key
    ensures Reachable(Streaming(if pending.Some? then pending else Some(Frame(arrivals, key)), arrivals + 1, sent))
  {
    hide Reachable;
    ReachableNext(Streaming(pending, arrivals, sent), Write(key));
  }

  lemma {:induction false} StreamingSend(f: Frame, arrivals: nat, sent: seq<Sent>)
    requires sent != [] && Reachable(Streaming(Some(f), arrivals, sent))
    ensures Reachable(Streaming(None, arrivals, sent + [Sent(f, arrivals)]))
  {
    hide Reachable;
    ReachableNext(Streaming(Some(f), arrivals, sent), SendEnds(true));
  }

  /** A gap behind a pending keyframe: a frame that depends on a skipped one is sent. */
  lemma {:induction false} GapBehindKeyframe() returns (x: Scheduler)
    ensures Reachable(x) && |x.sent| == 3
    ensures x.sent[1].frame == Frame(1, true) && x.sent[2].frame == Frame(3, false)
  {
    hide Reachable;
    var first, second, third := Sent(Frame(0, true), 1), Sent(Frame(1, true), 3), Sent(Frame(3, false), 4);
    FirstKeyframe();
    StreamingWrite(None, 1, [first], true);
    StreamingWrite(Some(second.frame), 2, [first], false);
    StreamingSend(second.frame, 3, [first]);
    StreamingWrite(None, 3, [first] + [second], false);
    StreamingSend(third.frame, 4, [first] + [second]);
    x := Streaming(None, 4, [first] + [second] + [third]);
  }

  /** Two sends at once: a frame is in flight when the session is suspended, and still is when the resumed
      one sends its first keyframe. */
  lemma {:induction false} TwoInFlight() returns (x: Scheduler)
    ensures Reachable(x) && x.outstanding == 2
  {
    hide Reachable;
    var a := Streaming(None, 1, [Sent(Frame(0, true), 1)]);
    FirstKeyframe();
    ReachableNext(a, Suspend);
    ReachableNext(AfterSuspend(a), Resume);
    var b := AfterResume(AfterSuspend(a));
    ReachableNext(b, AddTrack);
    var c := b.(sender := true);
    ReachableNext(c, Connect);
    x := Next(AfterConnect(c), Write(true));
    ReachableNext(AfterConnect(c), Write(true));
  }
}
