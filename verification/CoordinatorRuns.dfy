/** Every run of the coordinator, for a plan of any length and any behaviour of its drivers. */
module CoordinatorRuns {
  import opened Options
  import opened Coordinator

  // ---------------------------------------------------------------- what a log says

  /** Drivers that became active and whose revoke has not finished. */
  function Held(log: seq<Event>): set<nat> {
    if log == [] then {}
    else
      var before, last := Held(log[..|log| - 1]), log[|log| - 1];
      if last.Activates? then before + {last.index} else if last.Revoked? then before - {last.index} else before
  }

  /** Drivers that were started and not yet asked to revoke. */
  function Unasked(log: seq<Event>): set<nat> {
    if log == [] then {}
    else
      var before, last := Unasked(log[..|log| - 1]), log[|log| - 1];
      if last.Starts? then before + {last.index} else if last.Revokes? then before - {last.index} else before
  }

  /** One more than the last driver started. */
  function Frontier(log: seq<Event>): nat {
    if log == [] then 0
    else if log[|log| - 1].Starts? then log[|log| - 1].index + 1
    else Frontier(log[..|log| - 1])
  }

  /** The generation of the last activation. */
  function TopLease(log: seq<Event>): nat {
    if log == [] then 0
    else if log[|log| - 1].Activates? then log[|log| - 1].generation
    else TopLease(log[..|log| - 1])
  }

  /** One more than the generation of the last lease that got a successor. */
  function TopServed(log: seq<Event>): nat {
    if log == [] then 0
    else if log[|log| - 1].Succeeds? then log[|log| - 1].from.generation + 1
    else TopServed(log[..|log| - 1])
  }

  /** The generation of the last start. */
  function LastStart(log: seq<Event>): nat {
    if log == [] then 0
    else if log[|log| - 1].Starts? then log[|log| - 1].generation
    else LastStart(log[..|log| - 1])
  }

  /** That generation is used up: the driver became active, or a revoke after its failed start did not
      throw at once. */
  predicate Spent(log: seq<Event>) {
    log == [] ||
    var before, last := Spent(log[..|log| - 1]), log[|log| - 1];
    !last.Starts? && (before || last.Activates? || (last.Revokes? && !last.threw))
  }

  function NextGeneration(log: seq<Event>): nat {
    LastStart(log) + if Spent(log) then 1 else 0
  }

  /** When an event may follow a log. */
  predicate MayFollow(log: seq<Event>, e: Event) {
    match e
    case Starts(index, generation) =>
      Held(log) == {} && Unasked(log) == {} && Frontier(log) == index && generation == NextGeneration(log)
    case Activates(_, generation) => TopLease(log) < generation
    case Succeeds(from, next) => TopServed(log) <= from.generation < next.generation
    case _ => true
  }

  predicate LogOk(log: seq<Event>) {
    log == [] || (LogOk(log[..|log| - 1]) && MayFollow(log[..|log| - 1], log[|log| - 1]))
  }

  lemma {:induction false} Snoc(log: seq<Event>, e: Event)
    requires LogOk(log) && MayFollow(log, e)
    ensures LogOk(log + [e])
    ensures Held(log + [e]) ==
      if e.Activates? then Held(log) + {e.index} else if e.Revoked? then Held(log) - {e.index} else Held(log)
    ensures Unasked(log + [e]) ==
      if e.Starts? then Unasked(log) + {e.index} else if e.Revokes? then Unasked(log) - {e.index} else Unasked(log)
    ensures Frontier(log + [e]) == if e.Starts? then e.index + 1 else Frontier(log)
    ensures TopLease(log + [e]) == if e.Activates? then e.generation else TopLease(log)
    ensures TopServed(log + [e]) == if e.Succeeds? then e.from.generation + 1 else TopServed(log)
    ensures LastStart(log + [e]) == if e.Starts? then e.generation else LastStart(log)
    ensures Spent(log + [e]) == (!e.Starts? && (Spent(log) || e.Activates? || (e.Revokes? && !e.threw)))
  {
    assert (log + [e])[..|log|] == log;
  }

  // ---------------------------------------------------------------- the invariant

  predicate Attempting(x: Coordinator) {
    x.running.Starting? || x.running.Cleaning?
  }

  /** Nothing is active or being started, and nothing ever will be. */
  predicate Over(x: Coordinator) {
    x.started && x.active.None? && x.running.Idle?
  }

  predicate LogMatches(x: Coordinator) {
    && LogOk(x.log)
    && Held(x.log) == (if x.active.Some? then {x.active.value.index} else {})
    && Unasked(x.log) <=
         (if x.running.Starting? then {x.running.index}
          else if x.active.Some? && !x.running.Revoking? then {x.active.value.index}
          else {})
    && TopLease(x.log) <= x.generation && TopServed(x.log) <= x.generation
    && (!x.started ==> x.log == [])
    && (x.running.Starting? ==> !Spent(x.log) && LastStart(x.log) == x.running.generation)
    && (x.running.Cleaning? ==> Spent(x.log) && LastStart(x.log) == x.running.generation)
    && (x.active.Some? ==> Spent(x.log) && LastStart(x.log) == x.generation)
    && (x.active.Some? ==> Frontier(x.log) == x.active.value.index + 1)
    && (Attempting(x) ==> Frontier(x.log) == x.running.index + 1)
    && (Attempting(x) && x.running.from.Some? ==> TopServed(x.log) <= x.running.from.value.generation <= x.generation)
  }

  /** The request holds the active lease, or does not care which it is. */
  predicate HoldsFor(x: Coordinator, request: Request) {
    match request
    case Start => false
    case Advance(lease) => Holds(x, lease)
    case Fallback(lease) => Holds(x, lease)
    case Revoke(any) => x.active.Some? && (any.Some? ==> Holds(x, any.value))
  }

  predicate Bounded(p: Plan, x: Coordinator) {
    && InPlan(p, x)
    && (!x.started ==> x.active.None? && x.running.Idle? && x.generation == 0 && x.transitionCount == 0)
    && (x.active.Some? ==>
          && x.active.value.lease == Lease(p[x.active.value.index], x.generation)
          && x.generation <= x.active.value.index + 1 && x.transitionCount <= x.active.value.index
          && !Attempting(x))
    && (x.running.Revoking? ==> HoldsFor(x, x.running.request))
    && (Attempting(x) ==>
          && x.running.generation == x.generation + 1
          && x.generation <= x.running.index && x.transitionCount <= x.running.index)
    && x.generation <= |p| + 1 && x.transitionCount <= |p|
  }

  predicate CoordinatorOk(p: Plan, x: Coordinator) {
    Bounded(p, x) && LogMatches(x)
  }

  lemma {:induction false} StartDriverOk(p: Plan, x: Coordinator, index: nat, from: Option<Lease>, staged: bool)
    requires LogOk(x.log) && Held(x.log) == {} && Unasked(x.log) == {} && Frontier(x.log) == index < |p|
    requires TopLease(x.log) <= x.generation && TopServed(x.log) <= x.generation
    requires from.Some? ==> TopServed(x.log) <= from.value.generation <= x.generation
    requires x.started && x.active.None? && x.generation <= index && x.transitionCount <= index
    requires NextGeneration(x.log) == x.generation + 1
    ensures CoordinatorOk(p, StartDriver(x, index, from, staged))
  {
    hide LogOk, Held, Unasked, Frontier, TopLease, TopServed, LastStart, Spent;
    Snoc(x.log, Starts(index, x.generation + 1));
  }

  lemma {:induction false} ActivatedOk(p: Plan, x: Coordinator, index: nat, generation: nat, from: Option<Lease>)
    requires LogOk(x.log) && Held(x.log) == {} && Unasked(x.log) <= {index} && Frontier(x.log) == index + 1 <= |p|
    requires TopLease(x.log) < generation && TopServed(x.log) < generation
    requires from.Some? ==> TopServed(x.log) <= from.value.generation < generation
    requires x.started && generation <= index + 1 && x.transitionCount <= index
    requires LastStart(x.log) == generation
    ensures CoordinatorOk(p, Activated(p, x, index, generation, from))
  {
    hide LogOk, Held, Unasked, Frontier, TopLease, TopServed, LastStart, Spent;
    var e, lease := Activates(index, generation), Lease(p[index], generation);
    Snoc(x.log, e);
    if from.Some? {
      Snoc(x.log + [e], Succeeds(from.value, lease));
    } else {
      assert x.log + [e] + [] == x.log + [e];
    }
  }

  lemma {:induction false} MissedOk(p: Plan, x: Coordinator, index: nat, from: Option<Lease>, staged: bool)
    requires LogOk(x.log) && Held(x.log) == {} && Unasked(x.log) == {} && Frontier(x.log) == index + 1 <= |p|
    requires TopLease(x.log) <= x.generation && TopServed(x.log) <= x.generation
    requires from.Some? ==> TopServed(x.log) <= from.value.generation <= x.generation
    requires x.started && x.active.None? && x.generation <= index + 1 && x.transitionCount <= index
    requires NextGeneration(x.log) == x.generation + 1
    ensures CoordinatorOk(p, Missed(p, x, index, from, staged))
  {
    hide LogOk, Held, Unasked, Frontier, TopLease, TopServed, LastStart, Spent;
    if staged && index + 1 < |p| {
      StartDriverOk(p, x.(transitionCount := x.transitionCount + 1), index + 1, from, true);
    }
  }

  lemma {:induction false} StartAnswersOk(p: Plan, x: Coordinator, answer: Answer)
    requires CoordinatorOk(p, x) && x.running.Starting?
    ensures CoordinatorOk(p, AfterStart(p, x, answer))
  {
    hide LogOk, Held, Unasked, Frontier, TopLease, TopServed, LastStart, Spent;
    var Starting(index, generation, from, staged) := x.running;
    var threw := !answer.Located? && answer.threw;
    Snoc(x.log, Revokes(index, threw));
    var y := RevokeCalled(x, index, threw);
    match answer
    case Located => ActivatedOk(p, x, index, generation, from);
    case Blank(_) => MissedOk(p, if threw then y else y.(generation := generation), index, from, staged);
    case Refused(_) =>
      if threw {
        MissedOk(p, y, index, from, staged);
      }
  }

  lemma {:induction false} FirstStartOk(p: Plan, x: Coordinator)
    requires LogOk(x.log) && x.log == [] && x.started && x.active.None? && x.generation == x.transitionCount == 0
    ensures CoordinatorOk(p, StartDriver(x, 0, None, false))
  {
    hide LogOk, StartDriver;
    StartDriverOk(p, x, 0, None, false);
  }

  lemma {:induction false} RevokeActiveOk(p: Plan, x: Coordinator, request: Request)
    requires CoordinatorOk(p, x) && x.active.Some? && x.running.Idle? && HoldsFor(x, request)
    ensures CoordinatorOk(p, RevokeActive(x, request))
  {
    hide LogOk, Held, Unasked, Frontier, TopLease, TopServed, LastStart, Spent;
    Snoc(x.log, Revokes(x.active.value.index, false));
  }

  lemma {:induction false} QueueTakenOk(p: Plan, x: Coordinator, queue: seq<Request>)
    requires CoordinatorOk(p, x)
    ensures CoordinatorOk(p, x.(queue := queue))
  {
  }

  lemma {:induction false} RunOk(p: Plan, x: Coordinator)
    requires CoordinatorOk(p, x) && Enabled(p, x, RunNext)
    ensures CoordinatorOk(p, AfterRun(x))
  {
    var y := x.(queue := x.queue[1..]);
    QueueTakenOk(p, x, x.queue[1..]);
    if !x.started {
      FirstStartOk(p, y.(started := true));
    }
    if x.active.Some? && HoldsFor(x, x.queue[0]) {
      RevokeActiveOk(p, y, x.queue[0]);
    }
    hide CoordinatorOk, StartDriver, RevokeActive;
  }

  lemma {:induction false} TransitionOk(p: Plan, x: Coordinator, index: nat, request: Request)
    requires LogOk(x.log) && Held(x.log) == {} && Unasked(x.log) == {} && Frontier(x.log) == index + 1 <= |p|
    requires TopLease(x.log) <= x.generation && TopServed(x.log) <= x.generation
    requires request.Advance? || request.Fallback? ==> request.lease.generation == x.generation
    requires x.started && x.active.None? && x.generation <= index + 1 && x.transitionCount <= index
    requires NextGeneration(x.log) == x.generation + 1
    ensures CoordinatorOk(p, Transition(p, x, index, request))
  {
    hide LogOk, Held, Unasked, Frontier, TopLease, TopServed, LastStart, Spent, StartDriver;
    if index + 1 < |p| && request.Advance? {
      StartDriverOk(p, x, index + 1, Some(request.lease), false);
    } else if index + 1 < |p| && request.Fallback? {
      StartDriverOk(
        p, x.(fellBack := true, transitionCount := x.transitionCount + 1), index + 1, Some(request.lease), true);
    }
  }

  lemma {:induction false} RevokeAnswersOk(p: Plan, x: Coordinator, ok: bool)
    requires CoordinatorOk(p, x) && x.running.Revoking?
    ensures CoordinatorOk(p, AfterRevoke(p, x, ok))
  {
    hide LogOk, Held, Unasked, Frontier, TopLease, TopServed, LastStart, Spent, Transition;
    var Active(index, lease) := x.active.value;
    Snoc(x.log, Revoked(index));
    if ok {
      TransitionOk(
        p, x.(active := None, previousTransport := Some(lease.transport), log := x.log + [Revoked(index)]),
        index, x.running.request);
    }
  }

  /** After a synchronous start that failed, before or after the calls of `revoke`. */
  predicate SyncMissed(x: Coordinator) {
    && x.started && x.active.None? && x.running.Idle? && x.transitionCount == 0
    && LogOk(x.log) && Held(x.log) == {} && Unasked(x.log) <= {0} && Frontier(x.log) == 1
    && TopLease(x.log) == TopServed(x.log) == 0
    && LastStart(x.log) == 1 && x.generation == if Spent(x.log) then 1 else 0
  }

  lemma {:induction false} FencedOk(x: Coordinator, threw: bool)
    requires SyncMissed(x)
    ensures SyncMissed(Fenced(x, 1, threw)) && Unasked(Fenced(x, 1, threw).log) == {}
  {
    hide LogOk, Held, Unasked, Frontier, TopLease, TopServed, LastStart, Spent;
    Snoc(x.log, Revokes(0, threw));
  }

  lemma {:induction false} StartSyncOk(p: Plan, x: Coordinator, answer: SyncAnswer)
    requires CoordinatorOk(p, x)
    ensures CoordinatorOk(p, AfterStartSync(p, x, answer))
  {
    hide LogOk, Held, Unasked, TopLease, TopServed, Fenced;
    if !x.started {
      Snoc(x.log, Starts(0, 1));
      var y := x.(started := true, log := x.log + [Starts(0, 1)]);
      match answer {
        case Now(Located) => ActivatedOk(p, y, 0, 1, None);
        case Now(failed) => FencedOk(y, failed.threw);
        case Promised(threw, again) =>
          FencedOk(y, threw);
          FencedOk(Fenced(y, 1, threw), again);
      }
    }
  }

  lemma {:induction false} NextOk(p: Plan, x: Coordinator, s: Step)
    requires CoordinatorOk(p, x) && Enabled(p, x, s)
    ensures CoordinatorOk(p, Next(p, x, s))
  {
    match s
    case Call(_) =>
    case CallStartSync(answer) => StartSyncOk(p, x, answer); hide *;
    case RunNext => RunOk(p, x); hide *;
    case StartAnswers(answer) => StartAnswersOk(p, x, answer); hide *;
    case CleanupAnswers =>
      var Cleaning(index, generation, from, staged) := x.running;
      MissedOk(p, x.(generation := generation), index, from, staged);
      hide LogOk, Held, Unasked, Frontier, TopLease, TopServed, LastStart, Spent, Missed;
    case RevokeAnswers(ok) => RevokeAnswersOk(p, x, ok); hide *;
  }

  ghost predicate Run(p: Plan, x: Coordinator, steps: seq<Step>, y: Coordinator)
    decreases |steps|
  {
    if steps == [] then x == y else Enabled(p, x, steps[0]) && Run(p, Next(p, x, steps[0]), steps[1..], y)
  }

  ghost predicate Reachable(p: Plan, x: Coordinator) {
    exists steps :: Run(p, NEW, steps, x)
  }

  lemma {:induction false} StepsOk(p: Plan, x: Coordinator, steps: seq<Step>, y: Coordinator)
    requires CoordinatorOk(p, x) && Run(p, x, steps, y)
    ensures CoordinatorOk(p, y)
    decreases |steps|
  {
    if steps != [] {
      NextOk(p, x, steps[0]);
      hide Next, Enabled, CoordinatorOk;
      StepsOk(p, Next(p, x, steps[0]), steps[1..], y);
    }
  }

  lemma {:induction false} ReachableOk(p: Plan, x: Coordinator)
    requires Reachable(p, x)
    ensures CoordinatorOk(p, x)
  {
    var steps :| Run(p, NEW, steps, x);
    assert CoordinatorOk(p, NEW);
    hide CoordinatorOk;
    StepsOk(p, NEW, steps, x);
  }

  // ---------------------------------------------------------------- reading a log

  lemma {:induction false} PrefixOk(log: seq<Event>, k: nat)
    requires LogOk(log) && k < |log|
    ensures LogOk(log[..k]) && MayFollow(log[..k], log[k])
    decreases |log|
  {
    if k == |log| - 1 {
    } else {
      PrefixOk(log[..|log| - 1], k);
      assert log[..|log| - 1][..k] == log[..k];
    }
  }

  lemma {:induction false} StaysHeld(log: seq<Event>, j: nat, k: nat)
    requires j < k <= |log| && log[j].Activates?
    requires forall r | j < r < k :: log[r] != Revoked(log[j].index)
    ensures log[j].index in Held(log[..k])
    decreases k
  {
    assert log[..k][..k - 1] == log[..k - 1];
    if j < k - 1 {
      StaysHeld(log, j, k - 1);
    }
  }

  lemma {:induction false} StaysUnasked(log: seq<Event>, j: nat, k: nat)
    requires j < k <= |log| && log[j].Starts?
    requires forall r | j < r < k :: !(log[r].Revokes? && log[r].index == log[j].index)
    ensures log[j].index in Unasked(log[..k])
    decreases k
  {
    assert log[..k][..k - 1] == log[..k - 1];
    if j < k - 1 {
      StaysUnasked(log, j, k - 1);
    }
  }

  lemma {:induction false} TopsGrow(log: seq<Event>, j: nat, k: nat)
    requires LogOk(log) && j < k <= |log|
    ensures log[j].Starts? ==> log[j].index < Frontier(log[..k])
    ensures log[j].Activates? ==> log[j].generation <= TopLease(log[..k])
    ensures log[j].Succeeds? ==> log[j].from.generation < TopServed(log[..k])
    decreases k
  {
    assert log[..k][..k - 1] == log[..k - 1];
    if j < k - 1 {
      TopsGrow(log, j, k - 1);
      PrefixOk(log, k - 1);
    }
  }

  /** Whether the generation of the start at `j` was used up before `k`. */
  predicate Used(log: seq<Event>, j: nat, k: nat)
    requires j < k <= |log|
  {
    exists r | j < r < k :: log[r].Activates? || (log[r].Revokes? && !log[r].threw)
  }

  lemma {:induction false} UsedSince(log: seq<Event>, j: nat, k: nat)
    requires j < k <= |log| && log[j].Starts? && forall r | j < r < k :: !log[r].Starts?
    ensures LastStart(log[..k]) == log[j].generation && (Spent(log[..k]) <==> Used(log, j, k))
    decreases k
  {
    assert log[..k][..k - 1] == log[..k - 1];
    if j < k - 1 {
      UsedSince(log, j, k - 1);
    }
  }

  // ---------------------------------------------------------------- the theorems

  function StartsIn(log: seq<Event>): nat {
    if log == [] then 0 else StartsIn(log[..|log| - 1]) + if log[|log| - 1].Starts? then 1 else 0
  }

  lemma {:induction false} FrontierCounts(log: seq<Event>)
    requires LogOk(log)
    ensures Frontier(log) == StartsIn(log)
  {
    if log != [] {
      FrontierCounts(log[..|log| - 1]);
    }
  }

  /** Drivers are started in plan order, from the first on, none skipped and none twice: the index of a start
      is the number of starts before it. */
  lemma {:induction false} StartsInPlanOrder(p: Plan, x: Coordinator, k: nat)
    requires Reachable(p, x) && k < |x.log| && x.log[k].Starts?
    ensures x.log[k].index == StartsIn(x.log[..k])
    ensures k == 0 ==> x.log[k].generation == 1
  {
    ReachableOk(p, x);
    PrefixOk(x.log, k);
    FrontierCounts(x.log[..k]);
  }

  /** A driver that became active has finished its revoke before any later driver starts. */
  lemma {:induction false} RevokedBeforeNextStart(p: Plan, x: Coordinator, j: nat, k: nat)
    requires Reachable(p, x) && j < k < |x.log| && x.log[j].Activates? && x.log[k].Starts?
    ensures exists r | j < r < k :: x.log[r] == Revoked(x.log[j].index)
  {
    ReachableOk(p, x);
    PrefixOk(x.log, k);
    if forall r | j < r < k :: x.log[r] != Revoked(x.log[j].index) {
      StaysHeld(x.log, j, k);
    }
  }

  /** Any driver that was started, active or not, has at least been asked to revoke before another one
      starts. */
  lemma {:induction false} AskedBeforeNextStart(p: Plan, x: Coordinator, j: nat, k: nat)
    requires Reachable(p, x) && j < k < |x.log| && x.log[j].Starts? && x.log[k].Starts?
    ensures exists r | j < r < k :: x.log[r].Revokes? && x.log[r].index == x.log[j].index
  {
    ReachableOk(p, x);
    PrefixOk(x.log, k);
    if forall r | j < r < k :: !(x.log[r].Revokes? && x.log[r].index == x.log[j].index) {
      StaysUnasked(x.log, j, k);
    }
  }

  /** The generations of leases strictly increase, even where failed starts share one. */
  lemma {:induction false} LeaseGenerationsIncrease(p: Plan, x: Coordinator, j: nat, k: nat)
    requires Reachable(p, x) && j < k < |x.log| && x.log[j].Activates? && x.log[k].Activates?
    ensures x.log[j].generation < x.log[k].generation
  {
    ReachableOk(p, x);
    PrefixOk(x.log, k);
    TopsGrow(x.log, j, k);
  }

  /** Of all requests that hold one lease at most one gets a successor, and it is a newer lease. */
  lemma {:induction false} OneSuccessor(p: Plan, x: Coordinator, j: nat, k: nat)
    requires Reachable(p, x) && j < k < |x.log| && x.log[j].Succeeds? && x.log[k].Succeeds?
    ensures x.log[j].from != x.log[k].from
    ensures x.log[j].from.generation < x.log[j].next.generation
  {
    ReachableOk(p, x);
    PrefixOk(x.log, k);
    PrefixOk(x.log, j);
    TopsGrow(x.log, j, k);
  }

  /** However transitions fail, the counters stay within the plan, and the active lease is the current
      generation of a driver of the plan. */
  lemma {:induction false} CountersBounded(p: Plan, x: Coordinator)
    requires Reachable(p, x)
    ensures x.generation <= |p| + 1 && x.transitionCount <= |p|
    ensures x.active.Some? ==>
      var a := x.active.value; a.index < |p| && a.lease == Lease(p[a.index], x.generation)
  {
    ReachableOk(p, x);
  }

  /** Once started, with nothing active and nothing running, nothing is started or active ever again. */
  lemma {:induction false} OverIsForEver(p: Plan, x: Coordinator, steps: seq<Step>, y: Coordinator)
    requires Over(x) && Run(p, x, steps, y)
    ensures Over(y) && y.log == x.log && y.generation == x.generation
    decreases |steps|
  {
    if steps != [] {
      OverIsForEver(p, Next(p, x, steps[0]), steps[1..], y);
    }
  }

  /** Of two consecutive starts the later one is given the next generation exactly when the earlier driver
      became active or some revoke after its failed start did not throw at once; otherwise both share
      one generation. */
  lemma {:induction false} GenerationSharedIff(p: Plan, x: Coordinator, j: nat, k: nat)
    requires Reachable(p, x) && j < k < |x.log| && x.log[j].Starts? && x.log[k].Starts?
    requires forall r | j < r < k :: !x.log[r].Starts?
    ensures x.log[k].generation == x.log[j].generation <==>
      forall r | j < r < k :: !x.log[r].Activates? && (x.log[r].Revokes? ==> x.log[r].threw)
    ensures x.log[j].generation <= x.log[k].generation <= x.log[j].generation + 1
  {
    ReachableOk(p, x);
    PrefixOk(x.log, k);
    UsedSince(x.log, j, k);
    hide LogOk, LastStart, Spent, Held, Unasked, Frontier;
  }

  lemma {:induction false} Prepended(p: Plan, x: Coordinator, s: Step, rest: seq<Step>, y: Coordinator)
    requires Enabled(p, x, s) && Run(p, Next(p, x, s), rest, y)
    ensures Run(p, x, [s] + rest, y)
  {
    assert ([s] + rest)[1..] == rest;
  }

  /** Failed starts can share a generation: a revoke that throws at once skips the assignment. */
  lemma {:induction false} FailedStartsMayShareGeneration() returns (p: Plan, x: Coordinator)
    ensures Reachable(p, x) && |x.log| == 7
    ensures x.log[4] == Starts(1, 2) && x.log[6] == Starts(2, 2)
  {
    p := [WebrtcDirect, WebsocketRelay, WebrtcRelay];
    var located, ask := CallStartSync(Now(Located)), Call(Fallback(Lease(WebrtcDirect, 1)));
    var refused := StartAnswers(Refused(true));
    var a := Next(p, NEW, located);
    var b := Next(p, a, ask);
    var c := Next(p, b, RunNext);
    var d := Next(p, c, RevokeAnswers(true));
    x := Next(p, d, refused);
    Prepended(p, d, refused, [], x);
    Prepended(p, c, RevokeAnswers(true), [refused] + [], x);
    Prepended(p, b, RunNext, [RevokeAnswers(true)] + ([refused] + []), x);
    Prepended(p, a, ask, [RunNext] + ([RevokeAnswers(true)] + ([refused] + [])), x);
    Prepended(p, NEW, located, [ask] + ([RunNext] + ([RevokeAnswers(true)] + ([refused] + []))), x);
  }
}
