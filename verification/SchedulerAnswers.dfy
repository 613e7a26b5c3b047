/** What becomes of each frame that is written, and of each event of a video session. */
module SchedulerAnswers {
  import opened Options
  import opened VideoScheduler

  /** A send of this frame has begun, and will be followed by the next pending one. */
  predicate Sends(x: Scheduler, y: Scheduler, f: Frame) {
    && y.sent == x.sent + [Sent(f, y.arrivals)] && y.outstanding == x.outstanding + 1
    && y.drainActive && y.pending.None? && !y.awaiting
  }

  /** The frame is the pending one, behind the send that is under way. */
  predicate Waits(x: Scheduler, y: Scheduler, f: Frame) {
    && y.sent == x.sent && y.outstanding == x.outstanding && y.drainActive
    && y.pending == Some(f) && !y.awaiting
  }

  /** A frame is given up. */
  predicate Drops(x: Scheduler, y: Scheduler) {
    y.sent == x.sent && y.outstanding == x.outstanding && y.drainActive == x.drainActive && y.preconnect == x.preconnect
  }

  /**
   * What becomes of a frame. Outside the connected lifetime the newest keyframe is kept. In it a keyframe is sent,
   * or waits for its turn before anything older; a dependent frame does so if nothing waits and no keyframe is
   * awaited, and otherwise is given up, together with a dependent frame that waits, for which a keyframe is asked.
   */
  lemma {:induction false} WriteAnswer(x: Scheduler, key: bool)
    requires Reachable(x)
    ensures var y, f := AfterWrite(x, key), Frame(x.arrivals, key);
      && y.arrivals == x.arrivals + 1
      && if x.closing then y == x.(arrivals := x.arrivals + 1)
         else if x.suspended || !x.connected || !x.sender then
           y == x.(arrivals := x.arrivals + 1, preconnect := if key then Some(f) else x.preconnect)
         else
           var asks := x.pending.Some? && !x.pending.value.key;
           && y.idrRequests == x.idrRequests + (if asks then 1 else 0)
           && if key then (if x.drainActive then Waits(x, y, f) else Sends(x, y, f))
              else if x.awaiting then Drops(x, y) && y.awaiting && y.pending.None?
              else if x.pending.None? then (if x.drainActive then Waits(x, y, f) else Sends(x, y, f))
              else if asks then Drops(x, y) && y.awaiting && y.pending.None?
              else Drops(x, y) && y.pending == x.pending && !y.awaiting
  {
    ReachableOk(x);
    hide Reachable, Chained, Fits;
  }

  /** A connection: the keyframe kept for it is sent, or waits for its turn; without one, or without a sender, a
      keyframe is asked for. */
  lemma {:induction false} ConnectAnswer(x: Scheduler)
    requires Reachable(x) && !x.connected
    ensures var y := AfterConnect(x);
      && y.connected && y.preconnect.None?
      && if x.preconnect.Some? && x.sender then
           && x.preconnect.value.key && y.idrRequests == x.idrRequests
           && (!x.closing && !x.drainActive ==> Sends(x, y, x.preconnect.value))
           && (!x.closing && x.drainActive ==> Waits(x, y, x.preconnect.value))
           && (x.closing ==> y == x.(connected := true, preconnect := None))
         else y == x.(connected := true, preconnect := None, awaiting := true, idrRequests := x.idrRequests + 1)
  {
    hide Reachable, SchedulerOk;
    ConnectFacts(x);
  }

  lemma {:induction false} ConnectFacts(x: Scheduler)
    requires Reachable(x) && !x.connected
    ensures x.preconnect.Some? ==> x.preconnect.value.key
    ensures !x.closing ==> x.pending.None?
  {
    ReachableOk(x);
    hide Reachable, Chained, InStream;
  }

  /** The end of a send: the frame that waits is sent next; with none, or when the session is not up, the drain is
      over. An error ends the session, but not before the frame that waits is on its way. */
  lemma {:induction false} SendAnswer(x: Scheduler, ok: bool)
    requires Reachable(x) && x.outstanding > 0
    ensures var y, next := AfterSend(x, ok), !x.closing && x.connected && x.sender && x.pending.Some?;
      && y.ended == x.ended + 1 && y.outstanding == x.outstanding - (if next then 0 else 1)
      && y.sent == x.sent + (if next then [Sent(x.pending.value, x.arrivals)] else [])
      && y.pending == (if next then None else x.pending) && y.drainActive == next
      && y.closing == (x.closing || !ok) && y.suspended == (x.suspended && ok)
      && y.connected == x.connected && y.sender == x.sender && y.awaiting == x.awaiting
  {
    ReachableOk(x);
    hide Reachable, Chained, Fits;
  }

  // ---------------------------------------------------------------- resumptions

  /** Whatever is sent from the m-th send on, or waits, is the n-th arrival or a later one. */
  predicate Since(x: Scheduler, n: nat, m: nat) {
    && n <= x.arrivals && m <= |x.sent|
    && (forall i | m <= i < |x.sent| :: n <= x.sent[i].frame.index)
    && (x.pending.Some? ==> n <= x.pending.value.index)
    && (x.preconnect.Some? ==> n <= x.preconnect.value.index)
  }

  lemma {:induction false} SinceTurned(x: Scheduler, n: nat, m: nat)
    requires Since(x, n, m)
    ensures Since(Turned(x), n, m)
  {
  }

  lemma {:induction false} SinceEnqueued(x: Scheduler, f: Frame, n: nat, m: nat)
    requires Since(x, n, m) && n <= f.index
    ensures Since(Enqueued(x, f), n, m)
  {
    hide Turned;
    SinceTurned(x.(awaiting := false, pending := Some(f), drainActive := true), n, m);
    SinceTurned(Asked(x).(awaiting := false, pending := Some(f), drainActive := true), n, m);
  }

  lemma {:induction false} SinceSent(x: Scheduler, ok: bool, n: nat, m: nat)
    requires x.outstanding > 0 && Since(x, n, m)
    ensures Since(AfterSend(x, ok), n, m)
  {
    hide Turned;
    var y := x.(outstanding := x.outstanding - 1, ended := x.ended + 1);
    SinceTurned(y, n, m);
    SinceTurned(y.(drainActive := true), n, m);
  }

  lemma {:induction false} SinceNext(x: Scheduler, e: Event, n: nat, m: nat)
    requires Enabled(x, e) && Since(x, n, m)
    ensures Since(Next(x, e), n, m)
  {
    hide Enqueued, AfterSend;
    match e {
      case Write(key) => SinceEnqueued(x.(arrivals := x.arrivals + 1), Frame(x.arrivals, key), n, m);
      case Connect =>
        if x.preconnect.Some? {
          SinceEnqueued(x.(connected := true, preconnect := None), x.preconnect.value, n, m);
        }
      case SendEnds(ok) => SinceSent(x, ok, n, m);
      case _ =>
    }
  }

  lemma {:induction false} SinceRun(x: Scheduler, events: seq<Event>, y: Scheduler, n: nat, m: nat)
    requires Run(x, events, y) && Since(x, n, m)
    ensures Since(y, n, m)
    decreases |events|
  {
    if events != [] {
      SinceNext(x, events[0], n, m);
      hide Next, Enabled, Since;
      SinceRun(Next(x, events[0]), events[1..], y, n, m);
    }
  }

  /** After a resumption no frame is sent that arrived before it: the new peer starts with what is on the screen
      now. */
  lemma {:induction false} ResumedAfresh(x: Scheduler, events: seq<Event>, y: Scheduler)
    requires Enabled(x, Resume) && Run(AfterResume(x), events, y)
    ensures |x.sent| <= |y.sent| && x.arrivals <= y.arrivals
    ensures forall i | |x.sent| <= i < |y.sent| :: x.arrivals <= y.sent[i].frame.index
  {
    hide Run;
    SinceRun(AfterResume(x), events, y, x.arrivals, |x.sent|);
  }
}
