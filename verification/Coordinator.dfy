/**
 * The managed transport coordinator: a serial queue of transitions over an ordered plan of drivers.
 * Every `await` ends a step; drivers answer in later steps with any outcome.
 */
module Coordinator {
  import opened Options

  datatype Attempt = WebrtcDirect | WebsocketRelay | WebrtcRelay

  datatype Lease = Lease(transport: Attempt, generation: nat)

  datatype Active = Active(index: nat, lease: Lease)

  datatype Request =
    | Start
    | Advance(lease: Lease)
    | Fallback(lease: Lease)
    | Revoke(any: Option<Lease>)

  /** Where the running operation awaits: `driver.start`, the revoke after a failed start, or the
      revoke of the active driver. `staged` marks the loop of a fallback; `from` is the lease that the
      request for a successor held. */
  datatype Point =
    | Idle
    | Starting(index: nat, generation: nat, from: Option<Lease>, staged: bool)
    | Cleaning(index: nat, generation: nat, from: Option<Lease>, staged: bool)
    | Revoking(request: Request)

  /** How `driver.start` ends. `threw` says that the revoke called next throws at once, which skips
      the assignment of the generation. */
  datatype Answer =
    | Located
    | Blank(threw: bool)
    | Refused(threw: bool)

  /** In the synchronous start a promise is refused inside its own `try`: revoke is called twice. */
  datatype SyncAnswer =
    | Now(answer: Answer)
    | Promised(threw: bool, again: bool)

  /** What drivers and callers saw. */
  datatype Event =
    | Starts(index: nat, generation: nat)
    | Activates(index: nat, generation: nat)
    | Revokes(index: nat, threw: bool) // `revoke` is called; after a failed start, whether it threw at once
    | Revoked(index: nat) // the awaited revoke of the active driver finished
    | Succeeds(from: Lease, next: Lease) // a request that held `from` got `next`

  type Plan = p: seq<Attempt> | |p| > 0 witness [WebrtcDirect]

  datatype Coordinator = Coordinator(
    active: Option<Active>,
    started: bool,
    generation: nat,
    transitionCount: nat,
    lastTransport: Option<Attempt>,
    previousTransport: Option<Attempt>,
    fellBack: bool,
    queue: seq<Request>,
    running: Point,
    log: seq<Event>)

  const NEW := Coordinator(None, false, 0, 0, None, None, false, [], Idle, [])

  predicate InPlan(p: Plan, x: Coordinator) {
    && (x.active.Some? ==> x.active.value.index < |p|)
    && (x.running.Starting? || x.running.Cleaning? ==> x.running.index < |p|)
    && (x.running.Revoking? ==> x.active.Some?)
  }

  function StartDriver(x: Coordinator, index: nat, from: Option<Lease>, staged: bool): Coordinator {
    x.(running := Starting(index, x.generation + 1, from, staged), log := x.log + [Starts(index, x.generation + 1)])
  }

  function Activated(p: Plan, x: Coordinator, index: nat, generation: nat, from: Option<Lease>): Coordinator
    requires index < |p|
  {
    var lease := Lease(p[index], generation);
    x.(active := Some(Active(index, lease)), generation := generation, lastTransport := Some(p[index]), running := Idle,
       log := x.log + [Activates(index, generation)] + (if from.Some? then [Succeeds(from.value, lease)] else []))
  }

  /** A start failed: a fallback goes on to the next driver, anything else gives up. */
  function Missed(p: Plan, x: Coordinator, index: nat, from: Option<Lease>, staged: bool): Coordinator {
    if staged && index + 1 < |p| then
      StartDriver(x.(transitionCount := x.transitionCount + 1), index + 1, from, true)
    else x.(running := Idle)
  }

  function RevokeCalled(x: Coordinator, index: nat, threw: bool): Coordinator {
    x.(log := x.log + [Revokes(index, threw)])
  }

  function AfterStart(p: Plan, x: Coordinator, answer: Answer): Coordinator
    requires InPlan(p, x) && x.running.Starting?
  {
    var Starting(index, generation, from, staged) := x.running;
    match answer
    case Located => Activated(p, x, index, generation, from)
    case Blank(threw) =>
      var y := RevokeCalled(x, index, threw);
      Missed(p, if threw then y else y.(generation := generation), index, from, staged)
    case Refused(threw) =>
      var y := RevokeCalled(x, index, threw);
      if threw then Missed(p, y, index, from, staged) else y.(running := Cleaning(index, generation, from, staged))
  }

  function AfterCleanup(p: Plan, x: Coordinator): Coordinator
    requires InPlan(p, x) && x.running.Cleaning?
  {
    var Cleaning(index, generation, from, staged) := x.running;
    Missed(p, x.(generation := generation), index, from, staged)
  }

  predicate Holds(x: Coordinator, lease: Lease) {
    x.active.Some? && x.active.value.lease == lease
  }

  function AfterRun(x: Coordinator): Coordinator
    requires x.running.Idle? && x.queue != []
  {
    var request, y := x.queue[0], x.(queue := x.queue[1..]);
    match request
    case Start => if x.started then y else StartDriver(y.(started := true), 0, None, false)
    case Advance(lease) => if Holds(x, lease) then RevokeActive(y, request) else y
    case Fallback(lease) => if Holds(x, lease) then RevokeActive(y, request) else y
    case Revoke(any) =>
      if x.active.None? || (any.Some? && !Holds(x, any.value)) then y else RevokeActive(y, request)
  }

  function RevokeActive(x: Coordinator, request: Request): Coordinator
    requires x.active.Some?
  {
    RevokeCalled(x, x.active.value.index, false).(running := Revoking(request))
  }

  /** The active driver's revoke answered; a rejection changes nothing. */
  function AfterRevoke(p: Plan, x: Coordinator, ok: bool): Coordinator
    requires x.running.Revoking? && x.active.Some?
  {
    if !ok then x.(running := Idle)
    else
      var Active(index, lease) := x.active.value;
      Transition(
        p, x.(active := None, previousTransport := Some(lease.transport), log := x.log + [Revoked(index)]),
        index, x.running.request)
  }

  /** What follows once driver `index` has been revoked. */
  function Transition(p: Plan, x: Coordinator, index: nat, request: Request): Coordinator {
    var more := index + 1 < |p|;
    match request
    case Advance(lease) =>
      if more then StartDriver(x, index + 1, Some(lease), false)
      else x.(generation := x.generation + 1, running := Idle)
    case Fallback(lease) =>
      var y := x.(fellBack := true, transitionCount := x.transitionCount + 1);
      if more then StartDriver(y, index + 1, Some(lease), true) else y.(generation := y.generation + 1, running := Idle)
    case _ => x.(generation := x.generation + 1, running := Idle)
  }

  /** `startSync`, which does not wait for its turn in the queue. */
  function AfterStartSync(p: Plan, x: Coordinator, answer: SyncAnswer): Coordinator {
    if x.started then x
    else
      var generation := x.generation + 1;
      var y := x.(started := true, log := x.log + [Starts(0, generation)]);
      match answer
      case Now(Located) => Activated(p, y, 0, generation, None).(running := x.running)
      case Now(Blank(threw)) => Fenced(y, generation, threw)
      case Now(Refused(threw)) => Fenced(y, generation, threw)
      case Promised(threw, again) => Fenced(Fenced(y, generation, threw), generation, again)
  }

  /** The revoke after a failed synchronous start, which is not awaited. */
  function Fenced(x: Coordinator, generation: nat, threw: bool): Coordinator {
    var y := RevokeCalled(x, 0, threw);
    if threw then y else y.(generation := generation)
  }

  // ---------------------------------------------------------------- steps

  datatype Step =
    | Call(request: Request)
    | CallStartSync(sync: SyncAnswer)
    | RunNext
    | StartAnswers(answer: Answer)
    | CleanupAnswers
    | RevokeAnswers(ok: bool)

  predicate Enabled(p: Plan, x: Coordinator, s: Step) {
    && InPlan(p, x)
    && match s
       case Call(_) => true
       case CallStartSync(_) => true
       case RunNext => x.running.Idle? && x.queue != []
       case StartAnswers(_) => x.running.Starting?
       case CleanupAnswers => x.running.Cleaning?
       case RevokeAnswers(_) => x.running.Revoking?
  }

  function Next(p: Plan, x: Coordinator, s: Step): Coordinator
    requires Enabled(p, x, s)
  {
    match s
    case Call(request) => x.(queue := x.queue + [request])
    case CallStartSync(answer) => AfterStartSync(p, x, answer)
    case RunNext => AfterRun(x)
    case StartAnswers(answer) => AfterStart(p, x, answer)
    case CleanupAnswers => AfterCleanup(p, x)
    case RevokeAnswers(ok) => AfterRevoke(p, x, ok)
  }

  // ---------------------------------------------------------------- the object

  class TransportCoordinator {
    const drivers: Plan
    var active: Option<Active>
    var started: bool
    var generation: nat
    var transitionCount: nat
    var lastTransport: Option<Attempt>
    var previousTransport: Option<Attempt>
    var fellBack: bool
    var serial: seq<Request>
    var running: Point
    var log: seq<Event>

    function View(): Coordinator
      reads this
    {
      Coordinator(active, started, generation, transitionCount, lastTransport, previousTransport, fellBack,
                  serial, running, log)
    }

    predicate Valid()
      reads this
    {
      InPlan(drivers, View())
    }

    constructor (drivers: Plan)
      ensures Valid() && this.drivers == drivers && View() == NEW
    {
      this.drivers := drivers;
      active, started, generation, transitionCount := None, false, 0, 0;
      lastTransport, previousTransport, fellBack := None, None, false;
      serial, running, log := [], Idle, [];
    }

    method Enqueue(request: Request)
      requires Valid()
      modifies `serial
      ensures Valid() && View() == Next(drivers, old(View()), Call(request))
    {
      serial := serial + [request];
    }

    method BeginStart(index: nat, from: Option<Lease>, staged: bool)
      requires index < |drivers| && InPlan(drivers, View().(running := Idle))
      modifies `running, `log
      ensures Valid() && View() == StartDriver(old(View()), index, from, staged)
    {
      log := log + [Starts(index, generation + 1)];
      running := Starting(index, generation + 1, from, staged);
    }

    method Activate(index: nat, next: nat, from: Option<Lease>)
      requires index < |drivers|
      modifies `active, `generation, `lastTransport, `running, `log
      ensures Valid() && View() == Activated(drivers, old(View()), index, next, from)
    {
      var lease := Lease(drivers[index], next);
      generation := next;
      lastTransport := Some(drivers[index]);
      active := Some(Active(index, lease));
      running := Idle;
      log := log + [Activates(index, next)];
      if from.Some? {
        log := log + [Succeeds(from.value, lease)];
      } else {
        assert log + [] == log;
      }
    }

    method GoOn(index: nat, from: Option<Lease>, staged: bool)
      requires InPlan(drivers, View().(running := Idle))
      modifies `transitionCount, `running, `log
      ensures Valid() && View() == Missed(drivers, old(View()), index, from, staged)
    {
      if staged && index + 1 < |drivers| {
        transitionCount := transitionCount + 1;
        BeginStart(index + 1, from, true);
      } else {
        running := Idle;
      }
    }

    method RunNextRequest()
      requires Valid() && running.Idle? && serial != []
      modifies this
      ensures Valid() && View() == AfterRun(old(View()))
    {
      var request := serial[0];
      serial := serial[1..];
      match request {
        case Start =>
          if !started {
            started := true;
            BeginStart(0, None, false);
          }
        case Advance(lease) =>
          if active.Some? && active.value.lease == lease {
            BeginRevoke(request);
          }
        case Fallback(lease) =>
          if active.Some? && active.value.lease == lease {
            BeginRevoke(request);
          }
        case Revoke(any) =>
          if active.Some? && (any.None? || active.value.lease == any.value) {
            BeginRevoke(request);
          }
      }
    }

    method BeginRevoke(request: Request)
      requires Valid() && active.Some?
      modifies `running, `log
      ensures Valid() && View() == RevokeActive(old(View()), request)
    {
      log := log + [Revokes(active.value.index, false)];
      running := Revoking(request);
    }

    method StartAnswered(answer: Answer)
      requires Valid() && running.Starting?
      modifies this
      ensures Valid() && View() == AfterStart(drivers, old(View()), answer)
    {
      var Starting(index, next, from, staged) := running;
      if answer.Located? {
        Activate(index, next, from);
        return;
      }
      log := log + [Revokes(index, answer.threw)];
      if answer.threw {
        GoOn(index, from, staged);
      } else if answer.Blank? {
        generation := next;
        GoOn(index, from, staged);
      } else {
        running := Cleaning(index, next, from, staged);
      }
    }

    method CleanupAnswered()
      requires Valid() && running.Cleaning?
      modifies this
      ensures Valid() && View() == AfterCleanup(drivers, old(View()))
    {
      generation := running.generation;
      GoOn(running.index, running.from, running.staged);
    }

    method RevokeAnswered(ok: bool)
      requires Valid() && running.Revoking?
      modifies this
      ensures Valid() && View() == AfterRevoke(drivers, old(View()), ok)
    {
      if !ok {
        running := Idle;
        return;
      }
      hide Transition;
      var request, was := running.request, active.value;
      previousTransport := Some(was.lease.transport);
      active := None;
      log := log + [Revoked(was.index)];
      Proceed(was.index, request);
    }

    /** What advance, fallback and revoke do once the active driver has been revoked. */
    method Proceed(index: nat, request: Request)
      requires active.None?
      modifies `fellBack, `transitionCount, `running, `log, `generation
      ensures Valid() && View() == Transition(drivers, old(View()), index, request)
    {
      running := Idle;
      if request.Fallback? {
        fellBack := true;
        transitionCount := transitionCount + 1;
      }
      if (request.Advance? || request.Fallback?) && index + 1 < |drivers| {
        BeginStart(index + 1, Some(request.lease), request.Fallback?);
      } else {
        generation := generation + 1;
      }
    }

    method StartSync(answer: SyncAnswer)
      requires Valid()
      modifies this
      ensures Valid() && View() == AfterStartSync(drivers, old(View()), answer)
    {
      if started {
        return;
      }
      started := true;
      var next := generation + 1;
      log := log + [Starts(0, next)];
      match answer {
        case Now(Located) =>
          var point := running;
          Activate(0, next, None);
          running := point;
        case Now(failed) => Fence(next, failed.threw);
        case Promised(threw, again) =>
          Fence(next, threw);
          Fence(next, again);
      }
    }

    method Fence(next: nat, threw: bool)
      requires Valid()
      modifies `log, `generation
      ensures Valid() && View() == Fenced(old(View()), next, threw)
    {
      log := log + [Revokes(0, threw)];
      if !threw {
        generation := next;
      }
    }
  }
}
