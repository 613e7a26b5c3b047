/** What becomes of every request to the coordinator. */
module CoordinatorAnswers {
  import opened Options
  import opened Coordinator
  import opened CoordinatorRuns

  /** Nothing but the queue moved. */
  predicate OnlyTaken(x: Coordinator, y: Coordinator) {
    x.queue != [] && y == x.(queue := x.queue[1..])
  }

  /** The active driver is being asked to revoke, for this request, and stays active until it has. */
  predicate Asks(x: Coordinator, y: Coordinator, request: Request)
    requires x.active.Some?
  {
    && x.queue != [] && y.queue == x.queue[1..] && y.running == Revoking(request)
    && y.active == x.active && y.generation == x.generation && y.transitionCount == x.transitionCount
    && y.log == x.log + [Revokes(x.active.value.index, false)]
  }

  /**
   * What the turn of a request does: the first start starts the first driver under generation 1; advance,
   * fallback and revocation ask the active driver to revoke if they hold its lease, and a revocation also if it
   * holds none; a request with any other lease, and a second start, leave everything as it was.
   */
  lemma {:induction false} TurnAnswer(p: Plan, x: Coordinator)
    requires Reachable(p, x) && Enabled(p, x, RunNext)
    ensures var y, request := AfterRun(x), x.queue[0];
      match request
      case Start =>
        if x.started then OnlyTaken(x, y)
        else y.started && y.running == Starting(0, 1, None, false) && y.log == [Starts(0, 1)] && y.active.None?
      case Advance(lease) =>
        if x.active.Some? && x.active.value.lease == lease then Asks(x, y, request) else OnlyTaken(x, y)
      case Fallback(lease) =>
        if x.active.Some? && x.active.value.lease == lease then Asks(x, y, request) else OnlyTaken(x, y)
      case Revoke(any) =>
        if x.active.Some? && (any.None? || any.value == x.active.value.lease) then Asks(x, y, request)
        else OnlyTaken(x, y)
  {
    ReachableOk(p, x);
    hide Reachable, LogOk, Held, Unasked, Frontier, TopLease, TopServed, LastStart, Spent;
  }

  /**
   * What the revoke of the active driver leads to. A rejection leaves the driver active. Otherwise an advance or
   * a fallback starts the very next driver of the plan under the next generation, on behalf of the lease it held;
   * at the end of the plan, and for a revocation, a generation is used up and all is over.
   */
  lemma {:induction false} RevokedAnswer(p: Plan, x: Coordinator, ok: bool)
    requires Reachable(p, x) && x.running.Revoking?
    ensures x.active.Some? && x.active.value.index < |p|
    ensures
      var y, request, index := AfterRevoke(p, x, ok), x.running.request, x.active.value.index;
      if !ok then y == x.(running := Idle)
      else
        && y.active.None? && y.queue == x.queue && y.previousTransport == Some(p[index])
        && y.transitionCount == x.transitionCount + (if request.Fallback? then 1 else 0)
        && (y.fellBack <==> x.fellBack || request.Fallback?)
        && if (request.Advance? || request.Fallback?) && index + 1 < |p| then
             && request.lease == x.active.value.lease && y.generation == x.generation
             && y.running == Starting(index + 1, x.generation + 1, Some(request.lease), request.Fallback?)
             && y.log == x.log + [Revoked(index), Starts(index + 1, x.generation + 1)]
           else y.running == Idle && y.generation == x.generation + 1 && y.log == x.log + [Revoked(index)]
  {
    ReachableOk(p, x);
    hide Reachable, LogOk, Held, Unasked, Frontier, TopLease, TopServed, LastStart, Spent;
    var log, index := x.log, x.active.value.index;
    assert log + [Revoked(index)] + [Starts(index + 1, x.generation + 1)] ==
      log + [Revoked(index), Starts(index + 1, x.generation + 1)];
  }

  /** The driver is active under its generation, and whoever asked for a successor has one. */
  predicate Serves(p: Plan, x: Coordinator, y: Coordinator, index: nat, generation: nat, from: Option<Lease>) {
    && index < |p|
    && var lease := Lease(p[index], generation);
       && y.active == Some(Active(index, lease)) && y.generation == generation && y.running == Idle
       && y.lastTransport == Some(p[index]) && y.queue == x.queue
       && y.log == x.log + if from.Some? then [Activates(index, generation), Succeeds(from.value, lease)]
                           else [Activates(index, generation)]
  }

  /** A start that missed: the loop of a fallback goes on with the very next driver until the plan ends, and
      anything else gives up. */
  predicate GoesOn(p: Plan, x: Coordinator, y: Coordinator, index: nat, from: Option<Lease>, staged: bool) {
    && y.active.None? && y.queue == x.queue && y.lastTransport == x.lastTransport
    && if staged && index + 1 < |p| then
         && y.running == Starting(index + 1, y.generation + 1, from, true)
         && y.transitionCount == x.transitionCount + 1
       else y.running == Idle && y.transitionCount == x.transitionCount
  }

  /** What the answer to a start leads to. */
  lemma {:induction false} StartAnswer(p: Plan, x: Coordinator, answer: Answer)
    requires Reachable(p, x) && x.running.Starting?
    ensures InPlan(p, x)
    ensures
      var y, Starting(index, generation, from, staged) := AfterStart(p, x, answer), x.running;
      match answer
      case Located => Serves(p, x, y, index, generation, from)
      case Blank(threw) =>
        && GoesOn(p, x, y, index, from, staged)
        && y.generation == if threw then x.generation else generation
      case Refused(threw) =>
        if threw then GoesOn(p, x, y, index, from, staged) && y.generation == x.generation
        else
          && y.running == Cleaning(index, generation, from, staged) && y.active.None?
          && y.generation == x.generation && y.log == x.log + [Revokes(index, false)]
  {
    ReachableOk(p, x);
    hide Reachable, LogOk, Held, Unasked, Frontier, TopLease, TopServed, LastStart, Spent;
    var Starting(index, generation, from, staged) := x.running;
    var activates := Activates(index, generation);
    if from.Some? {
      var succeeds := Succeeds(from.value, Lease(p[index], generation));
      assert x.log + [activates] + [succeeds] == x.log + [activates, succeeds];
    } else {
      assert x.log + [activates] + [] == x.log + [activates];
    }
  }

  lemma {:induction false} CleanupAnswer(p: Plan, x: Coordinator)
    requires Reachable(p, x) && x.running.Cleaning?
    ensures InPlan(p, x)
    ensures var y, Cleaning(index, generation, from, staged) := AfterCleanup(p, x), x.running;
      GoesOn(p, x.(generation := generation), y, index, from, staged) && y.generation == generation
  {
    ReachableOk(p, x);
    hide Reachable, LogOk, Held, Unasked, Frontier, TopLease, TopServed, LastStart, Spent;
  }

  /** The synchronous first start does nothing twice, and otherwise serves the first driver or is over. */
  lemma {:induction false} StartSyncAnswer(p: Plan, x: Coordinator, answer: SyncAnswer)
    requires Reachable(p, x)
    ensures var y := AfterStartSync(p, x, answer);
      if x.started then y == x
      else
        && y.started && y.queue == x.queue && y.running == Idle
        && if answer == Now(Located) then
             y.active == Some(Active(0, Lease(p[0], 1))) && y.generation == 1
             && y.log == [Starts(0, 1), Activates(0, 1)]
           else
             && y.active.None?
             && match answer
                case Promised(threw, again) =>
                  && y.log == [Starts(0, 1), Revokes(0, threw), Revokes(0, again)]
                  && y.generation == if threw && again then 0 else 1
                case Now(failed) =>
                  && y.log == [Starts(0, 1), Revokes(0, failed.threw)]
                  && y.generation == if failed.threw then 0 else 1
  {
    ReachableOk(p, x);
    hide Reachable, LogOk, Held, Unasked, Frontier, TopLease, TopServed, LastStart, Spent;
  }

  /** Whoever holds the active lease, and whose transition goes well, gets the next driver of the plan. */
  lemma {:induction false} HolderSucceeds(p: Plan, x: Coordinator, request: Request) returns (y: Coordinator)
    requires Reachable(p, x) && x.running.Idle? && x.queue != [] && x.queue[0] == request && InPlan(p, x)
    requires (request.Advance? || request.Fallback?) && x.active.Some? && request.lease == x.active.value.lease
    requires x.active.value.index + 1 < |p|
    ensures Run(p, x, [RunNext, RevokeAnswers(true), StartAnswers(Located)], y) && Reachable(p, y)
    ensures var index, generation := x.active.value.index + 1, x.generation + 1;
      && y.active == Some(Active(index, Lease(p[index], generation)))
      && y.log == x.log + [Revokes(index - 1, false), Revoked(index - 1), Starts(index, generation),
                           Activates(index, generation), Succeeds(request.lease, Lease(p[index], generation))]
  {
    hide AfterRun, AfterRevoke, AfterStart;
    TurnAnswer(p, x);
    var a := Next(p, x, RunNext);
    ReachableNext(p, x, RunNext);
    RevokedAnswer(p, a, true);
    var b := Next(p, a, RevokeAnswers(true));
    ReachableNext(p, a, RevokeAnswers(true));
    StartAnswer(p, b, Located);
    y := Next(p, b, StartAnswers(Located));
    ReachableNext(p, b, StartAnswers(Located));
    Prepended(p, b, StartAnswers(Located), [], y);
    Prepended(p, a, RevokeAnswers(true), [StartAnswers(Located)] + [], y);
    Prepended(p, x, RunNext, [RevokeAnswers(true)] + ([StartAnswers(Located)] + []), y);
    assert [RunNext] + ([RevokeAnswers(true)] + ([StartAnswers(Located)] + [])) ==
      [RunNext, RevokeAnswers(true), StartAnswers(Located)];
  }

  lemma {:induction false} ReachableNext(p: Plan, x: Coordinator, s: Step)
    requires Reachable(p, x) && Enabled(p, x, s)
    ensures Reachable(p, Next(p, x, s))
  {
    var steps :| Run(p, NEW, steps, x);
    hide Next, Enabled;
    RunSnoc(p, NEW, steps, x, s);
    assert Run(p, NEW, steps + [s], Next(p, x, s));
  }

  lemma {:induction false} RunSnoc(p: Plan, x: Coordinator, steps: seq<Step>, y: Coordinator, s: Step)
    requires Run(p, x, steps, y) && Enabled(p, y, s)
    ensures Run(p, x, steps + [s], Next(p, y, s))
    decreases |steps|
  {
    hide Next, Enabled;
    if steps == [] {
      assert steps + [s] == [s] && [s][1..] == [];
    } else {
      RunSnoc(p, Next(p, x, steps[0]), steps[1..], y, s);
      assert (steps + [s])[1..] == steps[1..] + [s];
    }
  }
}
