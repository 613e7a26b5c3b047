/** What holds over every run of the session manager. */
module SessionTheorems {
  import opened Options
  import opened Fields
  import opened Session
  import opened SessionRuns
  import opened Grants

  ghost predicate ValidRun(c: Config, w: World, steps: seq<Step>)
    decreases |steps|
  {
    steps == [] || (Enabled(w, steps[0]) && ValidRun(c, Next(c, w, steps[0]), steps[1..]))
  }

  ghost function Run(c: Config, w: World, steps: seq<Step>): World
    decreases |steps|
  {
    if steps == [] then w else Run(c, Next(c, w, steps[0]), steps[1..])
  }

  lemma {:induction false} RunOk(c: Config, w: World, steps: seq<Step>)
    requires WorldOk(c, w) && ValidRun(c, w, steps)
    ensures WorldOk(c, Run(c, w, steps))
    decreases |steps|
  {
    if steps != [] {
      NextOk(c, w, steps[0]);
      hide WorldOk;
      RunOk(c, Next(c, w, steps[0]), steps[1..]);
    }
  }

  /** A world some run from the empty manager leads to. */
  ghost predicate Reachable(c: Config, w: World) {
    exists steps :: ValidRun(c, INITIAL, steps) && Run(c, INITIAL, steps) == w
  }

  lemma {:induction false} ReachableOk(c: Config, w: World)
    requires Reachable(c, w)
    ensures WorldOk(c, w)
  {
    var steps :| ValidRun(c, INITIAL, steps) && Run(c, INITIAL, steps) == w;
    RunOk(c, INITIAL, steps);
  }

  // ---------------------------------------------------------------- generations do not overlap

  /** The in-flight count of an active record is the number of its outstanding uses, and every one of
      them belongs to the current client and generation. */
  lemma {:induction false} InFlightIsOutstanding(c: Config, w: World, id: Id, now: nat)
    requires Reachable(c, w) && now >= w.clock && Active(w.store, id, now)
    ensures var r := w.store[id];
      && (forall u | u in w.outstanding && u.id == id ::
            r.client.Some? && u == Ticket(id, r.principal, r.client.value, r.generation))
      && r.inFlight == (if r.client.Some? then w.outstanding[TicketOf(id, r)] else 0)
  {
    ReachableOk(c, w);
    assert RecordOk(c, w, id, w.store[id]);
  }

  /** No use of a generation starts while a use of another one is outstanding, and a reconnect
      succeeds only when none is, released or not. */
  lemma {:induction false} NoGenerationOverlap(c: Config, w: World, s: Step)
    requires Reachable(c, w) && Enabled(w, s)
    ensures s.call.CallBeginBound? ==>
      var use := BeginBoundUse(w.store, s.call.id, s.call.principal, s.call.client, s.call.generation, s.t0, s.t1).1;
      use.Ok? ==> forall u | u in w.outstanding && u.id == s.call.id ::
        u.generation == use.value.generation && u.client == use.value.client
    ensures s.call.CallBegin? ==>
      var use := BeginUse(w.store, s.call.id, s.call.token, s.call.principal, s.call.client, s.t0, s.t1, s.t2).1;
      use.Ok? ==> forall u | u in w.outstanding && u.id == s.call.id ::
        u.generation == use.value.generation && u.client == use.value.client
    ensures s.call.CallReconnect? ==>
      var grant := Reconnect(c, w.store, s.call.id, s.call.principal, s.call.handle, s.call.next, s.t0, s.t1, s.t2).1;
      grant.Ok? ==> forall u | u in w.outstanding :: u.id != s.call.id
  {
    hide Capability, ReconnectHandle;
    if (s.call.CallBeginBound? || s.call.CallBegin? || s.call.CallReconnect?) && Active(w.store, s.call.id, s.t0) {
      InFlightIsOutstanding(c, w, s.call.id, s.t0);
    }
  }

  /** The clamp in `endUse` never acts: an outstanding use of an active record is always counted. */
  lemma {:induction false} ClampNeverFires(c: Config, w: World, t: Ticket, t0: nat, t1: nat)
    requires Reachable(c, w) && t in w.outstanding && t0 >= w.clock && Active(w.store, t.id, t0)
    ensures var r := w.store[t.id];
      && r.inFlight >= 1
      && EndUse(w.store, t.id, t.principal, t.client, t.generation, t0, t1)
           == w.store[t.id := r.(inFlight := r.inFlight - 1, lastSeenAt := Some(t1))]
  {
    InFlightIsOutstanding(c, w, t.id, t0);
  }

  // ---------------------------------------------------------------- how a record changes over a run

  predicate Grown(r: Record, r': Record) {
    && SameBirth(r, r')
    && r.generation <= r'.generation
    && (r.generation == r'.generation ==> r.client == r'.client)
    && (r.revoked ==> r'.revoked)
    && (r.completed ==> r'.completed)
    && (r.completed == r'.completed ==> r.completionExpiresAt == r'.completionExpiresAt)
  }

  /** Records are never recreated, and each only grows. */
  ghost predicate Evolved(w: World, w': World) {
    && w.births.Keys <= w'.births.Keys
    && forall id | id in w.births && id in w'.store :: id in w.store && Grown(w.store[id], w'.store[id])
  }

  /** A store in which every record kept has only grown. */
  ghost predicate GrownStore(s: Store, s': Store) {
    forall id | id in s' :: id in s && Grown(s[id], s'[id])
  }

  /** ... and has kept its client and generation. */
  ghost predicate KeptStore(s: Store, s': Store) {
    forall id | id in s' ::
      id in s && Grown(s[id], s'[id]) && s[id].client == s'[id].client && s[id].generation == s'[id].generation
  }

  lemma {:induction false} ClaimGrows(c: Config, w: World, s: Step)
    requires WorldOk(c, w) && s.call.CallClaim?
    ensures GrownStore(w.store, Next(c, w, s).store) && Next(c, w, s).births == w.births
  {
    hide Capability, ReconnectHandle, LocatorOf, Counted, OneLive;
    if s.call.id in w.store {
      assert RecordOk(c, w, s.call.id, w.store[s.call.id]);
    }
  }

  lemma {:induction false} ReconnectGrows(c: Config, w: World, s: Step)
    requires s.call.CallReconnect?
    ensures GrownStore(w.store, Next(c, w, s).store) && Next(c, w, s).births == w.births
  {
    hide Capability, ReconnectHandle, LocatorOf;
  }

  lemma {:induction false} ReleaseOrVerifyGrow(c: Config, w: World, s: Step)
    requires s.call.CallRelease? || s.call.CallVerify?
    ensures KeptStore(w.store, Next(c, w, s).store) && Next(c, w, s).births == w.births
  {
    hide Capability, LocatorOf;
  }

  lemma {:induction false} BeginGrows(c: Config, w: World, s: Step)
    requires s.call.CallBegin?
    ensures KeptStore(w.store, Next(c, w, s).store) && Next(c, w, s).births == w.births
  {
    BeginUseEffect(w.store, s.call.id, s.call.token, s.call.principal, s.call.client, s.t0, s.t1, s.t2);
    hide BeginUse, LocatorOf, Capability;
  }

  lemma {:induction false} BeginBoundGrows(c: Config, w: World, s: Step)
    requires s.call.CallBeginBound?
    ensures KeptStore(w.store, Next(c, w, s).store) && Next(c, w, s).births == w.births
  {
    hide LocatorOf;
  }

  lemma {:induction false} EndGrows(c: Config, w: World, s: Step)
    requires s.call.CallEnd?
    ensures KeptStore(w.store, Next(c, w, s).store) && Next(c, w, s).births == w.births
  {
  }

  lemma {:induction false} CompleteGrows(s: Store, id: Id, token: Token, principal: string, t0: nat, t1: nat)
    ensures KeptStore(s, Complete(s, id, token, principal, t0, t1).0)
  {
    hide CompletionCapability, LocatorOf;
  }

  lemma {:induction false} CompleteVerifiedGrows(c: Config, s: Store, interventionId: string, epoch: nat,
      t0: nat, t1: nat)
    ensures KeptStore(s, CompleteAfterVerification(c, s, interventionId, epoch, t0, t1).0)
  {
    hide LocatorOf;
  }

  lemma {:induction false} CompletionCallsGrow(c: Config, w: World, s: Step)
    requires s.call.CallComplete? || s.call.CallCompleteVerified?
    ensures KeptStore(w.store, Next(c, w, s).store) && Next(c, w, s).births == w.births
  {
    hide KeptStore, Complete, CompleteAfterVerification;
    match s.call {
      case CallComplete(id, token, principal) => CompleteGrows(w.store, id, token, principal, s.t0, s.t1);
      case CallCompleteVerified(interventionId, epoch) =>
        CompleteVerifiedGrows(c, w.store, interventionId, epoch, s.t0, s.t1);
    }
  }

  lemma {:induction false} RevokeCallsGrow(c: Config, w: World, s: Step)
    requires s.call.CallRevoke? || s.call.CallRevokeIntervention?
    ensures KeptStore(w.store, Next(c, w, s).store) && Next(c, w, s).births == w.births
  {
  }

  lemma {:induction false} EnsureGrows(c: Config, w: World, s: Step)
    requires s.call.CallEnsure? && s.call.createdId !in w.births && w.store.Keys <= w.births.Keys
    ensures var w' := Next(c, w, s);
      && KeptStore(w.store, w'.store - {s.call.createdId})
      && w.births.Keys <= w'.births.Keys
      && (s.call.createdId in w'.store ==> w'.store[s.call.createdId].client.None?)
  {
    var e, p := s.call, Prune(w.store, s.t0);
    assert KeptStore(w.store, p) && KeptStore(w.store, Superseded(p, e.interventionId, s.t1));
    hide LocatorOf, Prune, Superseded, Grown, KeptStore;
    var w' := Next(c, w, s);
    assert w'.store - {e.createdId} == p - {e.createdId}
        || w'.store - {e.createdId} == Superseded(p, e.interventionId, s.t1) - {e.createdId};
    WithoutKept(w.store, p, e.createdId);
    WithoutKept(w.store, Superseded(p, e.interventionId, s.t1), e.createdId);
  }

  lemma {:induction false} WithoutKept(s: Store, s': Store, id: Id)
    requires KeptStore(s, s')
    ensures KeptStore(s, s' - {id})
  {
  }

  lemma {:induction false} NextEvolved(c: Config, w: World, s: Step)
    requires WorldOk(c, w) && Enabled(w, s)
    ensures Evolved(w, Next(c, w, s))
  {
    Known(c, w);
    hide Next, Grown, RecordOk, OneLive;
    match s.call
    case CallEnsure(_, _, _, createdId) =>
      EnsureGrows(c, w, s);
      var kept := Next(c, w, s).store - {createdId};
      assert forall id | id in w.births && id in Next(c, w, s).store :: id in kept;
    case CallClaim(_, _, _) => ClaimGrows(c, w, s);
    case CallReconnect(_, _, _, _) => ReconnectGrows(c, w, s);
    case CallRelease(_, _, _, _) => ReleaseOrVerifyGrow(c, w, s);
    case CallVerify(_, _, _, _) => ReleaseOrVerifyGrow(c, w, s);
    case CallBeginBound(_, _, _, _) => BeginBoundGrows(c, w, s);
    case CallBegin(_, _, _, _) => BeginGrows(c, w, s);
    case CallEnd(_) => EndGrows(c, w, s);
    case CallComplete(_, _, _) => CompletionCallsGrow(c, w, s);
    case CallCompleteVerified(_, _) => CompletionCallsGrow(c, w, s);
    case CallRevoke(_) => RevokeCallsGrow(c, w, s);
    case CallRevokeIntervention(_) => RevokeCallsGrow(c, w, s);
  }

  lemma {:induction false} RunEvolved(c: Config, w: World, steps: seq<Step>)
    requires WorldOk(c, w) && ValidRun(c, w, steps)
    ensures Evolved(w, Run(c, w, steps))
    decreases |steps|
  {
    if steps == [] {
      Known(c, w);
    } else {
      var w1 := Next(c, w, steps[0]);
      NextOk(c, w, steps[0]);
      NextEvolved(c, w, steps[0]);
      hide WorldOk, Enabled;
      RunEvolved(c, w1, steps[1..]);
    }
  }

  // ---------------------------------------------------------------- grants stay fenced

  /** A capability and a reconnect handle of a generation that is no longer current are refused. */
  lemma {:induction false} StaleTokensRefused(c: Config, s: Store, id: Id, r: Record)
    requires r.client.Some? && ClientShape(r.client.value)
    requires id in s ==> SameBirth(r, s[id]) && s[id].generation != r.generation &&
                         (s[id].client.Some? ==> ClientShape(s[id].client.value))
    ensures forall principal, client, t0, t1 :: Verify(s, id, Capability(id, r), principal, client, t0, t1).1.Err?
    ensures forall principal, client, t0, t1, t2 ::
      BeginUse(s, id, Capability(id, r), principal, client, t0, t1, t2).1.Err?
    ensures forall principal, next, t0, t1, t2 ::
      Reconnect(c, s, id, principal, ReconnectHandle(id, r), next, t0, t1, t2).1.Err?
  {
    if id in s && s[id].client.Some? {
      GenerationsSeparate(id, r, s[id]);
    }
    hide Capability, ReconnectHandle;
  }

  /**
   * After a successful reconnect, in every later state of every run, the capability and the reconnect
   * handle that preceded it are refused for any principal and client, while the completion capability
   * is still the record's own until the record completes.
   */
  lemma {:induction false} ReconnectFencesForever(c: Config, w: World, s: Step, later: seq<Step>)
    requires Reachable(c, w) && Enabled(w, s) && s.call.CallReconnect?
    requires Reconnect(c, w.store, s.call.id, s.call.principal, s.call.handle, s.call.next, s.t0, s.t1, s.t2).1.Ok?
    requires ValidRun(c, Next(c, w, s), later)
    ensures var id, r, now := s.call.id, w.store[s.call.id], Run(c, Next(c, w, s), later).store;
      && r.client.Some?
      && (forall principal, client, t0, t1 :: Verify(now, id, Capability(id, r), principal, client, t0, t1).1.Err?)
      && (forall principal, client, t0, t1, t2 ::
            BeginUse(now, id, Capability(id, r), principal, client, t0, t1, t2).1.Err?)
      && (forall principal, next, t0, t1, t2 ::
            Reconnect(c, now, id, principal, ReconnectHandle(id, r), next, t0, t1, t2).1.Err?)
      && (id in now && !now[id].completed ==> CompletionCapability(id, now[id]) == CompletionCapability(id, r))
  {
    var id, r := s.call.id, w.store[s.call.id];
    ReachableOk(c, w);
    assert RecordOk(c, w, id, r);
    var w1 := Next(c, w, s);
    assert w1.store[id].generation == r.generation + 1 && SameBirth(r, w1.store[id]);
    assert !r.completed && !w1.store[id].completed;
    NextOk(c, w, s);
    assert RecordOk(c, w1, id, w1.store[id]);
    RunOk(c, w1, later);
    RunEvolved(c, w1, later);
    var w2 := Run(c, w1, later);
    if id in w2.store {
      assert RecordOk(c, w2, id, w2.store[id]);
      assert Grown(w1.store[id], w2.store[id]);
      DeadlinesSeparate(id, r, w2.store[id]);
    }
    StaleTokensRefused(c, w2.store, id, r);
  }

  // ---------------------------------------------------------------- completion

  /** Over a whole run, each id is reported newly completed at most once, by either method, and it
      has been iff its record, while it exists, says so. */
  lemma {:induction false} CompletedOnce(c: Config, w: World, id: Id)
    requires Reachable(c, w)
    ensures w.firsts[id] <= 1
    ensures id in w.store ==> (w.store[id].completed <==> w.firsts[id] == 1)
  {
    ReachableOk(c, w);
    if id in w.store {
      assert RecordOk(c, w, id, w.store[id]);
    }
  }

  /** A completed record is revoked and released, at once and for ever: no mutable authority is left. */
  lemma {:induction false} CompletedIsFinal(c: Config, w: World, later: seq<Step>, id: Id)
    requires Reachable(c, w) && id in w.store && w.store[id].completed
    requires ValidRun(c, w, later)
    ensures var now := Run(c, w, later).store;
      && (id in now ==> now[id].completed && now[id].revoked && now[id].released)
      && (forall principal, client, t0, t1 :: Claim(now, id, principal, client, t0, t1).1 == Err(NotFound))
      && (forall principal, handle, next, t0, t1, t2 ::
            Reconnect(c, now, id, principal, handle, next, t0, t1, t2).1 == Err(NotFound))
      && (forall token, principal, client, t0, t1 ::
            Verify(now, id, token, principal, client, t0, t1).1 == Err(NotFound))
      && (forall token, principal, client, t0, t1, t2 ::
            BeginUse(now, id, token, principal, client, t0, t1, t2).1 == Err(NotFound))
      && (forall principal, client, generation, t0, t1 ::
            BeginBoundUse(now, id, principal, client, generation, t0, t1).1 == Err(NotFound))
  {
    ReachableOk(c, w);
    assert RecordOk(c, w, id, w.store[id]);
    RunOk(c, w, later);
    RunEvolved(c, w, later);
    var w' := Run(c, w, later);
    if id in w'.store {
      assert RecordOk(c, w', id, w'.store[id]);
      assert Grown(w.store[id], w'.store[id]);
    }
  }

  /** The bound the broker's route retention relies on: counted from the call that created the record,
      its lease ends after ttl, and its completion deadline is never more than two graces later. */
  lemma {:induction false} CompletionDeadline(c: Config, w: World, id: Id)
    requires Reachable(c, w) && id in w.store
    ensures id in w.births
    ensures w.store[id].expiresAt == w.births[id].createdAt + c.ttl
    ensures w.store[id].completionExpiresAt <= w.births[id].createdAt + c.ttl + 2 * c.completionGrace
    ensures !w.store[id].completed ==>
      w.store[id].completionExpiresAt == w.births[id].createdAt + c.ttl + c.completionGrace
  {
    ReachableOk(c, w);
    assert RecordOk(c, w, id, w.store[id]);
  }

  /**
   * A completion capability issued before a verified completion is refused after it: as long as the
   * completed record is still open to repeated completions, the refusal comes exactly when the moment
   * of the verified completion is not the end of the lease.
   */
  lemma {:induction false} CompletionCapabilityLapses(
      c: Config, w: World, id: Id, principal: string, a0: nat, a1: nat, later: seq<Step>,
      t0: nat, t1: nat, u0: nat, u1: nat)
    requires Reachable(c, w) && IssueCompletion(w.store, id, principal, a0, a1).Ok?
    requires ValidRun(c, w, later)
    requires var s := Run(c, w, later).store;
      id in s && !Prunable(s[id], t0) && Completable(s[id], t1)
    ensures var s, token := Run(c, w, later).store, IssueCompletion(w.store, id, principal, a0, a1).value;
      var done := CompleteAfterVerification(c, s, s[id].interventionId, s[id].epoch, t0, t1).0;
      && id in done && done[id].completed
      && (!CompletionClosed(done[id], u0, u1) ==>
            if t1 == s[id].expiresAt then Complete(done, id, token, principal, u0, u1).1.Ok?
            else Complete(done, id, token, principal, u0, u1).1 == Err(Forbidden))
  {
    ReachableOk(c, w);
    assert RecordOk(c, w, id, w.store[id]);
    RunOk(c, w, later);
    RunEvolved(c, w, later);
    var s := Run(c, w, later).store;
    assert RecordOk(c, Run(c, w, later), id, s[id]) && Grown(w.store[id], s[id]);
    hide CompletionCapability, Reachable, ValidRun, Run, WorldOk, Evolved;
    var r := AfterVerification(c, s[id], s[id].interventionId, s[id].epoch, t1);
    DeadlinesSeparate(id, w.store[id], r);
  }

  // ---------------------------------------------------------------- one live record, safe pruning

  /** No reachable state has two unrevoked unexpired records for one intervention. */
  lemma {:induction false} OneLiveRecord(c: Config, w: World, a: Id, b: Id, now: nat)
    requires Reachable(c, w) && now >= w.clock
    requires a in w.store && b in w.store && w.store[a].interventionId == w.store[b].interventionId
    requires Live(w.store[a], now) && Live(w.store[b], now)
    ensures a == b
  {
    ReachableOk(c, w);
  }

  /** Whatever pruning deletes could not have succeeded at anything any more, now or later. */
  lemma {:induction false} PruningIsSafe(c: Config, w: World, id: Id, now: nat)
    requires Reachable(c, w) && id in w.store && now >= w.clock && id !in Prune(w.store, now)
    ensures forall principal, client, t0, t1 | t0 >= now :: Claim(w.store, id, principal, client, t0, t1).1.Err?
    ensures forall principal, handle, next, t0, t1, t2 | t0 >= now ::
      Reconnect(c, w.store, id, principal, handle, next, t0, t1, t2).1.Err?
    ensures forall token, principal, client, t0, t1 | t0 >= now ::
      Verify(w.store, id, token, principal, client, t0, t1).1.Err?
    ensures forall token, principal, client, t0, t1, t2 | t0 >= now ::
      BeginUse(w.store, id, token, principal, client, t0, t1, t2).1.Err?
    ensures forall principal, client, generation, t0, t1 | t0 >= now ::
      BeginBoundUse(w.store, id, principal, client, generation, t0, t1).1.Err?
    ensures forall principal, t0, t1 | now <= t0 <= t1 :: IssueCompletion(w.store, id, principal, t0, t1).Err?
    ensures forall token, principal, t0, t1 | now <= t0 <= t1 ::
      var done := Complete(w.store, id, token, principal, t0, t1).1;
      done.Ok? ==> done.value.alreadyCompleted
    ensures forall interventionId, epoch, t0, t1 | now <= t0 <= t1 ::
      id !in CompleteAfterVerification(c, w.store, interventionId, epoch, t0, t1).1
    ensures Claimed(w.store[id]) ==>
      forall principal, t0 | t0 >= now :: IsCompleted(w.store, id, principal, t0) == Ok(false)
  {
    hide Capability, ReconnectHandle, CompletionCapability, LocatorOf;
    ReachableOk(c, w);
    assert RecordOk(c, w, id, w.store[id]);
  }

  /** The exceptions, exactly: a completion still visible is forgotten iff the record was never claimed
      and its lease has run out; a repeated completion that would be accepted is refused iff the record
      was claimed and its verified-completion grace ends before its lease. */
  lemma {:induction false} PruningForgets(c: Config, w: World, id: Id, now: nat)
    requires Reachable(c, w) && id in w.store && now >= w.clock && w.store[id].completed
    ensures var r := w.store[id];
      && (id !in Prune(w.store, now) && IsCompleted(w.store, id, r.principal, now) == Ok(true) <==>
            !Claimed(r) && r.expiresAt <= now < r.completionExpiresAt)
      && (id !in Prune(w.store, now) &&
            Complete(w.store, id, CompletionCapability(id, r), r.principal, now, now).1.Ok? <==>
            Claimed(r) && r.completionExpiresAt <= now < r.expiresAt)
  {
    ReachableOk(c, w);
    assert RecordOk(c, w, id, w.store[id]);
  }
}
