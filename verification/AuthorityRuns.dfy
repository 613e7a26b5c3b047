/**
 * Runs of the socket authority together with its session manager. Other callers may use the manager
 * as they like, except that only the authority claims and reconnects.
 */
module AuthorityRuns {
  import opened Options
  import opened Fields
  import opened Session
  import opened SessionRuns
  import opened SessionTheorems
  import opened Grants
  import opened Authority

  /** The manager's world, the authority, and every lease handed out so far. */
  datatype AuthWorld = AuthWorld(w: World, a: Auth, leases: set<Lease>)

  datatype AuthStep =
    | OtherCall(step: Step)
    | IssueTicket(id: Id, principal: string, policy: Policy, ticket: string, n0: nat, t0: nat, t1: nat, t2: nat)
    | AcceptSocket(id: Id, ticket: string, client: string, n0: nat, n1: nat, t0: nat, t1: nat, t2: nat)
    | InvalidateTicket(ticket: string)
    | RevokeSession(id: Id)
    | Begin(lease: Lease, t0: nat, t1: nat)
    | End(lease: Lease, t0: nat, t1: nat)
    | Completes(lease: Lease, t0: nat, t1: nat)
    | Release(lease: Lease, t0: nat)

  const AUTH_INITIAL := AuthWorld(INITIAL, NO_SESSIONS, {})

  predicate LeaseKnown(x: AuthWorld, l: Lease) {
    l in x.leases && l.record < |x.a.objects|
  }

  /** The use a lease begins and ends. */
  function LeaseTicket(a: Auth, l: Lease): Ticket
    requires l.record < |a.objects|
  {
    Ticket(a.objects[l.record].sessionId, a.objects[l.record].principal, l.client, l.generation)
  }

  predicate AuthEnabled(x: AuthWorld, s: AuthStep) {
    var now := x.w.clock;
    match s
    case OtherCall(step) => Enabled(x.w, step) && !step.call.CallClaim? && !step.call.CallReconnect?
    case IssueTicket(_, _, _, _, n0, t0, t1, t2) => now <= n0 <= t0 <= t1 <= t2
    case AcceptSocket(_, _, _, n0, n1, t0, t1, t2) => now <= n0 <= n1 <= t0 <= t1 <= t2
    case InvalidateTicket(_) => true
    case RevokeSession(_) => true
    case Begin(l, t0, t1) => LeaseKnown(x, l) && now <= t0 <= t1
    case End(l, t0, t1) => LeaseKnown(x, l) && now <= t0 <= t1 && LeaseTicket(x.a, l) in x.w.outstanding
    case Completes(l, t0, t1) => LeaseKnown(x, l) && now <= t0 <= t1
    case Release(l, t0) => LeaseKnown(x, l) && now <= t0
  }

  /** The manager call an accept makes once its ticket is admitted. */
  function AcceptCall(r: AuthRecord, client: string): Call {
    if r.reconnectHandle.None? then CallClaim(r.sessionId, r.principal, client)
    else CallReconnect(r.sessionId, r.principal, r.reconnectHandle.value, client)
  }

  ghost function AuthNext(c: Config, x: AuthWorld, s: AuthStep): AuthWorld
    requires WellFormed(x.a) && AuthEnabled(x, s)
  {
    match s
    case OtherCall(step) => x.(w := Next(c, x.w, step))
    case IssueTicket(id, principal, policy, ticket, n0, t0, t1, t2) =>
      x.(w := x.w.(clock := t2),
         a := Issue(x.w.store, x.a, id, principal, policy, ticket, n0, t0, t1, t2).0)
    case AcceptSocket(id, ticket, client, n0, n1, t0, t1, t2) =>
      Accepted(c, x.(w := x.w.(clock := n0)), Pruned(x.a, n0), id, ticket, client, n1, t0, t1, t2)
    case InvalidateTicket(ticket) => x.(a := Invalidate(x.a, ticket))
    case RevokeSession(id) =>
      x.(w := Next(c, x.w, Step(CallRevoke(id), x.w.clock, x.w.clock, x.w.clock)),
         a := ForgetSession(x.a, id))
    case Begin(l, t0, t1) =>
      if !Current(x.a, l) then x.(w := x.w.(clock := t1))
      else
        var r := x.a.objects[l.record];
        x.(w := Next(c, x.w, Step(CallBeginBound(r.sessionId, r.principal, l.client, l.generation), t0, t1, t1)))
    case End(l, t0, t1) => x.(w := Next(c, x.w, Step(CallEnd(LeaseTicket(x.a, l)), t0, t1, t1)))
    case Completes(l, t0, t1) =>
      if !Current(x.a, l) then x.(w := x.w.(clock := t1))
      else
        var r := x.a.objects[l.record];
        x.(w := Next(c, x.w, Step(CallComplete(r.sessionId, r.completionCapability, r.principal), t0, t1, t1)),
           a := LeaseComplete(x.w.store, x.a, l, t0, t1).1)
    case Release(l, t0) =>
      if !Current(x.a, l) then x.(w := x.w.(clock := t0))
      else
        var r := x.a.objects[l.record];
        x.(w := Next(c, x.w, Step(CallRelease(r.sessionId, r.principal, l.client, l.generation), t0, t0, t0)))
  }

  ghost function Accepted(c: Config, x: AuthWorld, a: Auth, id: Id, ticket: string, client: string,
                          n1: nat, t0: nat, t1: nat, t2: nat): AuthWorld
    requires WellFormed(a)
  {
    var admitted := Admitted(a, id, ticket, client, n1);
    if admitted.Failed? then AuthWorld(x.w.(clock := t2), a, x.leases)
    else
      var record := admitted.value;
      var r := a.objects[record];
      var w := Next(c, x.w, Step(AcceptCall(r, client), t0, t1, t2));
      var grant := ClaimOrReconnect(c, x.w.store, r, client, t0, t1, t2).1;
      if grant.Err? then AuthWorld(w, a, x.leases)
      else AuthWorld(w, Granted(a, record, grant.value),
                     x.leases + {Lease(record, grant.value.client, grant.value.generation)})
  }

  // ---------------------------------------------------------------- the invariant

  /** The record holds what the manager holds: client, generation and current reconnect handle. */
  predicate Synced(o: AuthRecord, id: Id, r: Record) {
    && o.principal == r.principal && o.expiresAt == r.expiresAt
    && o.currentClient == r.client
    && o.currentGeneration == (if r.client.Some? then Some(r.generation) else None)
    && o.reconnectHandle == (if r.client.Some? then Some(ReconnectHandle(id, r)) else None)
  }

  ghost predicate Registry(a: Auth) {
    && WellFormed(a)
    && (forall j, k | 0 <= j < k < |a.objects| :: a.objects[j].sessionId != a.objects[k].sessionId)
    && (forall id | id in a.byId :: a.objects[a.byId[id]].sessionId == id)
    && (forall t | t in a.byTicket ::
          var o := a.objects[a.byTicket[t]];
          o.ticket == Some(t) && o.sessionId in a.byId && a.byId[o.sessionId] == a.byTicket[t])
  }

  /** Live sessions with a record object are registered, and in step with the manager. */
  ghost predicate InStep(w: World, a: Auth)
    requires WellFormed(a)
  {
    && (forall k | 0 <= k < |a.objects| :: a.objects[k].sessionId in w.births)
    && (forall k | 0 <= k < |a.objects| ::
          var id := a.objects[k].sessionId;
          id in w.store && Live(w.store[id], w.clock) ==> id in a.byId)
    && (forall id | id in w.store && Live(w.store[id], w.clock) ::
          if id in a.byId then Synced(a.objects[a.byId[id]], id, w.store[id]) else w.store[id].client.None?)
  }

  predicate LeaseOk(a: Auth, l: Lease) {
    && l.record < |a.objects|
    && var o := a.objects[l.record];
    && o.currentGeneration.Some? && l.generation <= o.currentGeneration.value
    && (l.generation == o.currentGeneration.value ==> o.currentClient == Some(l.client))
  }

  ghost predicate AuthOk(c: Config, x: AuthWorld) {
    && WorldOk(c, x.w)
    && Registry(x.a)
    && InStep(x.w, x.a)
    && (forall l | l in x.leases :: LeaseOk(x.a, l))
  }

  // ---------------------------------------------------------------- steps that keep clients

  /** The manager moved on without a claim or a reconnect. */
  ghost predicate Kept(w: World, w': World) {
    && w.clock <= w'.clock
    && w.births.Keys <= w'.births.Keys
    && w.store.Keys <= w.births.Keys
    && (forall id | id in w'.store && id in w.births ::
          && id in w.store && Grown(w.store[id], w'.store[id])
          && w.store[id].client == w'.store[id].client && w.store[id].generation == w'.store[id].generation)
    && (forall id | id in w'.store && id !in w.births :: w'.store[id].client.None?)
  }

  lemma {:induction false} NextClock(c: Config, w: World, s: Step)
    ensures Next(c, w, s).clock == s.t2
  {
    hide BeginBoundUse, BeginUse, EndUse, Complete, CompleteAfterVerification, Ensure, Claim, Reconnect, Verify;
  }

  lemma {:induction false} KeptFrom(w: World, w': World)
    requires KeptStore(w.store, w'.store) && w'.births == w.births
    requires w.clock <= w'.clock && w.store.Keys <= w.births.Keys
    ensures Kept(w, w')
  {
  }

  lemma {:induction false} EnsureKept(c: Config, w: World, s: Step)
    requires s.call.CallEnsure? && s.call.createdId !in w.births && w.store.Keys <= w.births.Keys
    requires w.clock <= Next(c, w, s).clock
    ensures Kept(w, Next(c, w, s))
  {
    EnsureGrows(c, w, s);
    hide Next, Grown;
    var created := s.call.createdId;
    var kept := Next(c, w, s).store - {created};
    assert forall id | id in Next(c, w, s).store && id != created :: id in kept;
  }

  lemma {:induction false} NextKept(c: Config, w: World, s: Step)
    requires WorldOk(c, w) && Enabled(w, s) && !s.call.CallClaim? && !s.call.CallReconnect?
    ensures Kept(w, Next(c, w, s)) && WorldOk(c, Next(c, w, s))
  {
    NextOk(c, w, s);
    Known(c, w);
    NextClock(c, w, s);
    hide Next, WorldOk, Kept, KeptStore;
    if s.call.CallEnsure? {
      EnsureKept(c, w, s);
    } else {
      match s.call {
        case CallRelease(_, _, _, _) => ReleaseOrVerifyGrow(c, w, s);
        case CallVerify(_, _, _, _) => ReleaseOrVerifyGrow(c, w, s);
        case CallBeginBound(_, _, _, _) => BeginBoundGrows(c, w, s);
        case CallBegin(_, _, _, _) => BeginGrows(c, w, s);
        case CallEnd(_) => EndGrows(c, w, s);
        case CallComplete(_, _, _) => CompletionCallsGrow(c, w, s);
        case CallCompleteVerified(_, _) => CompletionCallsGrow(c, w, s);
        case CallRevoke(_) => RevokeCallsGrow(c, w, s);
        case CallRevokeIntervention(_) => RevokeCallsGrow(c, w, s);
      }
      KeptFrom(w, Next(c, w, s));
    }
  }

  lemma {:induction false} KeptInStep(w: World, w': World, a: Auth)
    requires Registry(a) && InStep(w, a) && Kept(w, w')
    ensures InStep(w', a)
  {
    hide Capability, CompletionCapability;
    forall id | id in w'.store && Live(w'.store[id], w'.clock)
      ensures id in w.births ==> id in w.store && Live(w.store[id], w.clock)
      ensures if id in a.byId then Synced(a.objects[a.byId[id]], id, w'.store[id]) else w'.store[id].client.None?
    {
      if id in a.byId {
        assert a.objects[a.byId[id]].sessionId == id;
      }
      if id in w.births {
        assert Grown(w.store[id], w'.store[id]);
      }
    }
  }

  /** Only the clock moved. */
  lemma {:induction false} TickKept(c: Config, w: World, clock: nat)
    requires WorldOk(c, w) && w.clock <= clock
    ensures Kept(w, w.(clock := clock)) && WorldOk(c, w.(clock := clock))
  {
    LaterOk(c, w, clock);
    Known(c, w);
  }

  // ---------------------------------------------------------------- the registry

  lemma {:induction false} ForgetOk(w: World, a: Auth, record: nat)
    requires Registry(a) && InStep(w, a) && record < |a.objects|
    requires var id := a.objects[record].sessionId; id in w.store ==> !Live(w.store[id], w.clock)
    ensures Registry(Forget(a, record)) && InStep(w, Forget(a, record))
  {
    hide Synced;
    var a', o := Forget(a, record), a.objects[record];
    forall t | t in a'.byTicket
      ensures var p := a'.objects[a'.byTicket[t]];
        p.ticket == Some(t) && p.sessionId in a'.byId && a'.byId[p.sessionId] == a'.byTicket[t]
    {
      assert a'.byTicket[t] != record;
    }
  }

  /** Pruning keeps the maps in step with each other. */
  lemma {:induction false} PrunedRegistry(a: Auth, now: nat)
    requires Registry(a)
    ensures Registry(Pruned(a, now)) && Pruned(a, now).objects == a.objects
    ensures forall id :: id in Pruned(a, now).byId <==> id in a.byId && a.objects[a.byId[id]].expiresAt > now
    ensures forall id | id in Pruned(a, now).byId :: Pruned(a, now).byId[id] == a.byId[id]
    ensures forall t | t in Pruned(a, now).byTicket :: t in a.byTicket && Pruned(a, now).byTicket[t] == a.byTicket[t]
  {
    var a' := Pruned(a, now);
    forall id
      ensures id in a'.byId <==> id in a.byId && a.objects[a.byId[id]].expiresAt > now
    {
      if id in a.byId {
        assert a.objects[a.byId[id]].sessionId == id;
      }
    }
    forall t | t in a'.byTicket
      ensures var p := a'.objects[a'.byTicket[t]]; p.sessionId in a'.byId && a'.byId[p.sessionId] == a'.byTicket[t]
    {
      var p := a.objects[a.byTicket[t]];
      assert p.sessionId in a.byId;
    }
  }

  /** Pruning at some moment of the past forgets no session that is still live. */
  lemma {:induction false} PrunedOk(w: World, a: Auth, now: nat)
    requires Registry(a) && InStep(w, a) && now <= w.clock
    ensures Registry(Pruned(a, now)) && InStep(w, Pruned(a, now))
    ensures forall id :: id in Pruned(a, now).byId <==> id in a.byId && a.objects[a.byId[id]].expiresAt > now
    ensures Pruned(a, now).objects == a.objects
  {
    hide Pruned;
    PrunedRegistry(a, now);
  }

  /** The record objects as they were, but for tickets. */
  ghost predicate SameButTickets(a: Auth, a': Auth) {
    && a'.byId == a.byId && |a'.objects| == |a.objects|
    && forall k | 0 <= k < |a.objects| :: a'.objects[k] == a.objects[k].(ticket := a'.objects[k].ticket)
  }

  /** The old ticket goes: no ticket leads to the record then. */
  lemma {:induction false} TicketGoes(a: Auth, record: nat)
    requires Registry(a) && record < |a.objects|
    ensures var b := a.(byTicket := Without(a.byTicket, a.objects[record].ticket));
      Registry(b) && forall t | t in b.byTicket :: b.byTicket[t] != record
  {
  }

  lemma {:induction false} TicketComes(a: Auth, record: nat, ticket: string)
    requires Registry(a) && record < |a.objects| && forall t | t in a.byTicket :: a.byTicket[t] != record
    requires a.objects[record].sessionId in a.byId && a.byId[a.objects[record].sessionId] == record
    ensures var o := a.objects[record].(ticket := Some(ticket));
      Registry(a.(objects := a.objects[record := o], byTicket := a.byTicket[ticket := record]))
  {
  }

  lemma {:induction false} RotatedRegistry(a: Auth, record: nat, ticket: string)
    requires Registry(a) && record < |a.objects|
    requires a.objects[record].sessionId in a.byId && a.byId[a.objects[record].sessionId] == record
    ensures var a' := Rotate(a, record, ticket).0; Registry(a') && SameButTickets(a, a')
  {
    hide Shaped, Registry, Without;
    TicketGoes(a, record);
    TicketComes(a.(byTicket := Without(a.byTicket, a.objects[record].ticket)), record, ticket);
  }

  lemma {:induction false} RotateOk(w: World, a: Auth, record: nat, ticket: string)
    requires Registry(a) && InStep(w, a) && record < |a.objects|
    requires a.objects[record].sessionId in a.byId && a.byId[a.objects[record].sessionId] == record
    ensures var a' := Rotate(a, record, ticket).0;
      Registry(a') && InStep(w, a') && SameButTickets(a, a')
  {
    hide Rotate, Registry, InStep, SameButTickets;
    RotatedRegistry(a, record, ticket);
    TicketsUnseen(w, a, Rotate(a, record, ticket).0);
  }

  lemma {:induction false} TicketsUnseen(w: World, a: Auth, a': Auth)
    requires Registry(a) && Registry(a') && InStep(w, a) && SameButTickets(a, a')
    ensures InStep(w, a')
  {
    hide Synced;
    forall id | id in w.store && Live(w.store[id], w.clock) && id in a'.byId
      ensures Synced(a'.objects[a'.byId[id]], id, w.store[id])
    {
      TicketUnseen(a.objects[a.byId[id]], a'.objects[a'.byId[id]].ticket, id, w.store[id]);
    }
    forall k | 0 <= k < |a'.objects|
      ensures a'.objects[k].sessionId == a.objects[k].sessionId
    {
      assert a'.objects[k] == a.objects[k].(ticket := a'.objects[k].ticket);
    }
  }

  lemma {:induction false} TicketUnseen(o: AuthRecord, ticket: Option<string>, id: Id, r: Record)
    requires Synced(o, id, r)
    ensures Synced(o.(ticket := ticket), id, r)
  {
  }

  lemma {:induction false} RegisteredOk(w: World, a: Auth, id: Id, r: Record, policy: Policy, token: Token)
    requires Registry(a) && InStep(w, a) && id !in a.byId && id in w.births
    requires forall k | 0 <= k < |a.objects| :: a.objects[k].sessionId != id
    requires id in w.store ==> w.store[id].principal == r.principal && w.store[id].expiresAt == r.expiresAt
    ensures var a' := Registered(a, id, r.principal, r.expiresAt, policy, token);
      Registry(a') && InStep(w, a')
  {
    hide ReconnectHandle, Live;
    var a' := Registered(a, id, r.principal, r.expiresAt, policy, token);
    forall t | t in a'.byTicket
      ensures var p := a'.objects[a'.byTicket[t]]; p.sessionId in a'.byId && a'.byId[p.sessionId] == a'.byTicket[t]
    {
      assert a.objects[a.byTicket[t]].sessionId != id;
    }
  }

  // ---------------------------------------------------------------- the steps

  lemma {:induction false} IssueOnOk(w: World, a: Auth, leases: set<Lease>, s: AuthStep)
    requires s.IssueTicket? && Registry(a) && InStep(w, a) && forall l | l in leases :: LeaseOk(a, l)
    requires s.id in w.store && Live(w.store[s.id], s.t0) && s.id !in a.byId ==>
      s.id in w.births && forall k | 0 <= k < |a.objects| :: a.objects[k].sessionId != s.id
    ensures var a' := IssueOn(w.store, a, s.id, s.principal, s.policy, s.ticket, s.t0, s.t1, s.t2).0;
      Registry(a') && InStep(w, a') && forall l | l in leases :: LeaseOk(a', l)
  {
    hide InStep, LeaseOk, Rotate, CompletionCapability, SameButTickets;
    var locator := ValidateLocator(w.store, s.id, s.principal, s.t0);
    if locator.Ok? {
      if s.id in a.byId {
        RotateOk(w, a, a.byId[s.id], s.ticket);
        RotatedLeases(leases, a, Rotate(a, a.byId[s.id], s.ticket).0);
      } else {
        var token := IssueCompletion(w.store, s.id, s.principal, s.t1, s.t2);
        if token.Ok? {
          hide Registry;
          RegisteredOk(w, a, s.id, w.store[s.id], s.policy, token.value);
          var b := Registered(a, s.id, s.principal, locator.value.expiresAt, s.policy, token.value);
          RegisteredAt(b, s.id);
          RotateOk(w, b, |a.objects|, s.ticket);
          AddedLeases(leases, a, b);
          RotatedLeases(leases, b, Rotate(b, |a.objects|, s.ticket).0);
        }
      }
    }
  }

  lemma {:induction false} IssueOk(c: Config, x: AuthWorld, s: AuthStep)
    requires AuthOk(c, x) && s.IssueTicket? && AuthEnabled(x, s)
    ensures AuthOk(c, AuthNext(c, x, s))
  {
    hide WorldOk, Pruned, InStep, LeaseOk, IssueOn, Kept;
    var w, a := x.w.(clock := s.t2), Pruned(x.a, s.n0);
    hide Registry;
    TickKept(c, x.w, s.t2);
    KeptInStep(x.w, w, x.a);
    PrunedOk(w, x.a, s.n0);
    LeasesKept(x.leases, x.a, a);
    if s.id in w.store && Live(w.store[s.id], s.t0) && s.id !in a.byId {
      NeverRegistered(c, x, s.id, s.n0, s.t0);
    }
    IssueOnOk(w, a, x.leases, s);
  }

  lemma {:induction false} RegisteredAt(a: Auth, id: Id)
    requires Registry(a) && id in a.byId
    ensures a.byId[id] < |a.objects| && a.objects[a.byId[id]].sessionId == id
  {
  }

  lemma {:induction false} RotatedLeases(leases: set<Lease>, a: Auth, a': Auth)
    requires SameButTickets(a, a') && forall l | l in leases :: LeaseOk(a, l)
    ensures forall l | l in leases :: LeaseOk(a', l)
  {
    LeasesKept(leases, a, a');
  }

  lemma {:induction false} AddedLeases(leases: set<Lease>, a: Auth, a': Auth)
    requires |a.objects| <= |a'.objects| && a'.objects[..|a.objects|] == a.objects
    requires forall l | l in leases :: LeaseOk(a, l)
    ensures forall l | l in leases :: LeaseOk(a', l)
  {
    assert forall k | 0 <= k < |a.objects| :: a'.objects[k] == a'.objects[..|a.objects|][k];
    LeasesKept(leases, a, a');
  }

  /** A live session that is not registered after pruning has never had a record object. */
  lemma {:induction false} NeverRegistered(c: Config, x: AuthWorld, id: Id, n0: nat, t0: nat)
    requires AuthOk(c, x) && x.w.clock <= n0 <= t0
    requires id in x.w.store && Live(x.w.store[id], t0) && id !in Pruned(x.a, n0).byId
    ensures id in x.w.births && forall k | 0 <= k < |x.a.objects| :: x.a.objects[k].sessionId != id
  {
    Known(c, x.w);
    var later := x.w.(clock := t0);
    TickKept(c, x.w, t0);
    KeptInStep(x.w, later, x.a);
    PrunedOk(later, x.a, n0);
  }

  /** Leases depend on clients and generations only. */
  lemma {:induction false} LeasesKept(leases: set<Lease>, a: Auth, a': Auth)
    requires forall l | l in leases :: LeaseOk(a, l)
    requires |a.objects| <= |a'.objects|
    requires forall k | 0 <= k < |a.objects| :: a'.objects[k] == a.objects[k].(ticket := a'.objects[k].ticket)
    ensures forall l | l in leases :: LeaseOk(a', l)
  {
    forall l | l in leases
      ensures LeaseOk(a', l)
    {
      assert LeaseOk(a, l);
      assert a'.objects[l.record] == a.objects[l.record].(ticket := a'.objects[l.record].ticket);
    }
  }

  /** What a claim or reconnect made with the stored handle does, when the record is in step: nothing,
      or one new generation for the fresh client. */
  lemma {:induction false} AcceptEffect(c: Config, w: World, o: AuthRecord, client: string, t0: nat, t1: nat, t2: nat)
    requires WorldOk(c, w) && w.clock <= t0
    requires var id := o.sessionId; id in w.store && Live(w.store[id], w.clock) ==> Synced(o, id, w.store[id])
    ensures var id, (s', grant) := o.sessionId, ClaimOrReconnect(c, w.store, o, client, t0, t1, t2);
      if grant.Err? then s' == w.store
      else
        && id in w.store && id in s' && Live(w.store[id], w.clock)
        && s' == w.store[id := s'[id]]
        && s'[id].client == Some(client) && s'[id].generation == w.store[id].generation + 1
        && SameBirth(w.store[id], s'[id]) && !s'[id].revoked
        && grant.value == GrantOf(id, s'[id])
  {
    hide Capability, ReconnectHandle, ClientShape, OneLive;
    if o.sessionId in w.store {
      assert RecordOk(c, w, o.sessionId, w.store[o.sessionId]);
    }
  }

  lemma {:induction false} GrantedRegistry(a: Auth, record: nat, g: Grant)
    requires Registry(a) && record < |a.objects|
    ensures var a' := Granted(a, record, g);
      && Registry(a') && (forall k | 0 <= k < |a.objects| :: a'.objects[k].sessionId == a.objects[k].sessionId)
      && (forall i | i in a.byId && i != a.objects[record].sessionId :: a.byId[i] != record)
  {
  }

  lemma {:induction false} GrantedInStep(w: World, w': World, a: Auth, record: nat, g: Grant)
    requires Registry(a) && InStep(w, a) && record < |a.objects|
    requires var id := a.objects[record].sessionId;
      && id in a.byId && a.byId[id] == record
      && id in w.store && Live(w.store[id], w.clock) && id in w'.store
      && w'.store == w.store[id := w'.store[id]] && w'.births == w.births && w.clock <= w'.clock
      && SameBirth(w.store[id], w'.store[id]) && w'.store[id].client.Some?
      && g == GrantOf(id, w'.store[id])
    ensures Registry(Granted(a, record, g)) && InStep(w', Granted(a, record, g))
  {
    hide Capability, ReconnectHandle;
    var a', id := Granted(a, record, g), a.objects[record].sessionId;
    GrantedRegistry(a, record, g);
    assert Synced(a'.objects[record], id, w'.store[id]);
    hide Synced, Registry;
    forall i | i in w'.store && Live(w'.store[i], w'.clock)
      ensures if i in a'.byId then Synced(a'.objects[a'.byId[i]], i, w'.store[i]) else w'.store[i].client.None?
    {
      if i != id {
        assert Live(w.store[i], w.clock);
      }
    }
  }

  lemma {:induction false} GrantedLeases(a: Auth, leases: set<Lease>, record: nat, g: Grant)
    requires record < |a.objects| && forall l | l in leases :: LeaseOk(a, l)
    requires a.objects[record].currentGeneration.Some? ==> a.objects[record].currentGeneration.value < g.generation
    ensures forall l | l in leases + {Lease(record, g.client, g.generation)} :: LeaseOk(Granted(a, record, g), l)
  {
    forall l | l in leases
      ensures LeaseOk(Granted(a, record, g), l)
    {
      assert LeaseOk(a, l);
    }
  }

  /** An accept on records already pruned. */
  lemma {:induction false} AcceptedOk(c: Config, x: AuthWorld, a: Auth, s: AuthStep)
    requires s.AcceptSocket? && AuthEnabled(x, s)
    requires AuthOk(c, x.(a := a))
    ensures AuthOk(c, Accepted(c, x, a, s.id, s.ticket, s.client, s.n1, s.t0, s.t1, s.t2))
  {
    var admitted := Admitted(a, s.id, s.ticket, s.client, s.n1);
    if admitted.Failed? {
      TickKept(c, x.w, s.t2);
      KeptInStep(x.w, x.w.(clock := s.t2), a);
    } else {
      var record := admitted.value;
      var o := a.objects[record];
      var step := Step(AcceptCall(o, s.client), s.t0, s.t1, s.t2);
      var w := Next(c, x.w, step);
      var grant := ClaimOrReconnect(c, x.w.store, o, s.client, s.t0, s.t1, s.t2).1;
      assert o.sessionId in a.byId && a.byId[o.sessionId] == record;
      NextOk(c, x.w, step);
      AcceptEffect(c, x.w, o, s.client, s.t0, s.t1, s.t2);
      AcceptStore(c, x.w, o, s.client, s.t0, s.t1, s.t2);
      hide Next, ClaimOrReconnect;
      if grant.Err? {
        TickKept(c, x.w, s.t2);
        KeptInStep(x.w, w, a);
      } else {
        hide WorldOk;
        GrantedInStep(x.w, w, a, record, grant.value);
        GrantedLeases(a, x.leases, record, grant.value);
      }
    }
  }

  lemma {:induction false} AcceptStore(c: Config, w: World, o: AuthRecord, client: string, t0: nat, t1: nat, t2: nat)
    ensures var w' := Next(c, w, Step(AcceptCall(o, client), t0, t1, t2));
      w' == w.(store := ClaimOrReconnect(c, w.store, o, client, t0, t1, t2).0, clock := t2)
  {
    hide Claim, Reconnect;
  }

  lemma {:induction false} AcceptOk(c: Config, x: AuthWorld, s: AuthStep)
    requires AuthOk(c, x) && s.AcceptSocket? && AuthEnabled(x, s)
    ensures AuthOk(c, AuthNext(c, x, s))
  {
    var w, a := x.w.(clock := s.n0), Pruned(x.a, s.n0);
    TickKept(c, x.w, s.n0);
    KeptInStep(x.w, w, x.a);
    PrunedOk(w, x.a, s.n0);
    LeasesKept(x.leases, x.a, a);
    hide Accepted, WorldOk, Registry, InStep, LeaseOk, Pruned;
    AcceptedOk(c, x.(w := w), a, s);
  }

  /** A step of the manager that neither claims nor reconnects, and leaves the authority alone. */
  lemma {:induction false} ManagerOk(c: Config, x: AuthWorld, step: Step)
    requires AuthOk(c, x) && Enabled(x.w, step) && !step.call.CallClaim? && !step.call.CallReconnect?
    ensures AuthOk(c, x.(w := Next(c, x.w, step)))
  {
    NextKept(c, x.w, step);
    KeptInStep(x.w, Next(c, x.w, step), x.a);
  }

  lemma {:induction false} TickOk(c: Config, x: AuthWorld, clock: nat)
    requires AuthOk(c, x) && x.w.clock <= clock
    ensures AuthOk(c, x.(w := x.w.(clock := clock)))
  {
    TickKept(c, x.w, clock);
    KeptInStep(x.w, x.w.(clock := clock), x.a);
  }

  lemma {:induction false} InvalidateOk(c: Config, x: AuthWorld, ticket: string)
    requires AuthOk(c, x)
    ensures AuthOk(c, x.(a := Invalidate(x.a, ticket)))
  {
    hide InStep, WorldOk;
    var a' := Invalidate(x.a, ticket);
    assert SameButTickets(x.a, a') && Registry(a');
    TicketsUnseen(x.w, x.a, a');
    RotatedLeases(x.leases, x.a, a');
  }

  lemma {:induction false} ForgottenOk(c: Config, x: AuthWorld, record: nat)
    requires AuthOk(c, x) && record < |x.a.objects|
    requires var id := x.a.objects[record].sessionId; id in x.w.store ==> x.w.store[id].revoked
    ensures AuthOk(c, x.(a := Forget(x.a, record)))
  {
    ForgetOk(x.w, x.a, record);
    LeasesKept(x.leases, x.a, Forget(x.a, record));
  }

  lemma {:induction false} RevokeSessionOk(c: Config, x: AuthWorld, s: AuthStep)
    requires AuthOk(c, x) && s.RevokeSession?
    ensures AuthOk(c, AuthNext(c, x, s))
  {
    var step := Step(CallRevoke(s.id), x.w.clock, x.w.clock, x.w.clock);
    ManagerOk(c, x, step);
    var y := x.(w := Next(c, x.w, step));
    if s.id in x.a.byId {
      assert x.a.objects[x.a.byId[s.id]].sessionId == s.id;
      hide WorldOk, InStep, Registry;
      ForgottenOk(c, y, x.a.byId[s.id]);
    }
  }

  lemma {:induction false} CompletesOk(c: Config, x: AuthWorld, s: AuthStep)
    requires AuthOk(c, x) && s.Completes? && AuthEnabled(x, s) && Current(x.a, s.lease)
    ensures AuthOk(c, AuthNext(c, x, s))
  {
    hide CompletionCapability, LocatorOf;
    var o := x.a.objects[s.lease.record];
    var step := Step(CallComplete(o.sessionId, o.completionCapability, o.principal), s.t0, s.t1, s.t1);
    ManagerOk(c, x, step);
    var y := x.(w := Next(c, x.w, step));
    hide WorldOk, InStep, Registry, LeaseOk;
    if Complete(x.w.store, o.sessionId, o.completionCapability, o.principal, s.t0, s.t1).1.Ok? {
      ForgottenOk(c, y, s.lease.record);
    }
  }

  lemma {:induction false} AuthNextOk(c: Config, x: AuthWorld, s: AuthStep)
    requires AuthOk(c, x) && AuthEnabled(x, s)
    ensures AuthOk(c, AuthNext(c, x, s))
  {
    hide WorldOk, InStep, LeaseOk;
    match s
    case OtherCall(step) => ManagerOk(c, x, step);
    case IssueTicket(_, _, _, _, _, _, _, _) => IssueOk(c, x, s);
    case AcceptSocket(_, _, _, _, _, _, _, _) => AcceptOk(c, x, s);
    case InvalidateTicket(ticket) => InvalidateOk(c, x, ticket);
    case RevokeSession(_) => RevokeSessionOk(c, x, s);
    case Begin(l, t0, t1) =>
      if Current(x.a, l) {
        var o := x.a.objects[l.record];
        ManagerOk(c, x, Step(CallBeginBound(o.sessionId, o.principal, l.client, l.generation), t0, t1, t1));
      } else {
        TickOk(c, x, t1);
      }
    case End(l, t0, t1) => ManagerOk(c, x, Step(CallEnd(LeaseTicket(x.a, l)), t0, t1, t1));
    case Completes(l, _, t1) =>
      if Current(x.a, l) {
        CompletesOk(c, x, s);
      } else {
        TickOk(c, x, t1);
      }
    case Release(l, t0) =>
      if Current(x.a, l) {
        var o := x.a.objects[l.record];
        ManagerOk(c, x, Step(CallRelease(o.sessionId, o.principal, l.client, l.generation), t0, t0, t0));
      } else {
        TickOk(c, x, t0);
      }
  }

  /** The steps of a run are the authority's operations: same records, same objects and maps. */
  lemma {:induction false} IssueIsTheOperation(c: Config, x: AuthWorld, s: AuthStep)
    requires AuthOk(c, x) && AuthEnabled(x, s) && s.IssueTicket?
    ensures AuthNext(c, x, s).w.store == x.w.store
    ensures AuthNext(c, x, s).a ==
      Issue(x.w.store, x.a, s.id, s.principal, s.policy, s.ticket, s.n0, s.t0, s.t1, s.t2).0
  {
    hide WorldOk, InStep, Issue, Next;
  }

  lemma {:induction false} UseStepsAreTheOperations(c: Config, x: AuthWorld, s: AuthStep)
    requires AuthOk(c, x) && AuthEnabled(x, s) && (s.Begin? || s.End?)
    ensures AuthNext(c, x, s).a == x.a
    ensures s.Begin? ==> AuthNext(c, x, s).w.store == LeaseBegin(x.w.store, x.a, s.lease, s.t0, s.t1).0
    ensures s.End? ==> AuthNext(c, x, s).w.store == LeaseEnd(x.w.store, x.a, s.lease, s.t0, s.t1)
  {
    hide WorldOk, InStep, Registry, BeginBoundUse, EndUse, Current, LeaseOk;
  }

  lemma {:induction false} ReleaseIsTheOperation(c: Config, x: AuthWorld, s: AuthStep)
    requires AuthOk(c, x) && AuthEnabled(x, s) && s.Release?
    ensures AuthNext(c, x, s).a == x.a
    ensures AuthNext(c, x, s).w.store == LeaseRelease(x.w.store, x.a, s.lease, s.t0).0
  {
    hide WorldOk, InStep, Registry, Session.Release, Current, LeaseOk;
  }

  lemma {:induction false} CompletesIsTheOperation(c: Config, x: AuthWorld, s: AuthStep)
    requires AuthOk(c, x) && AuthEnabled(x, s) && s.Completes?
    ensures (AuthNext(c, x, s).w.store, AuthNext(c, x, s).a) ==
      var (store, a, _) := LeaseComplete(x.w.store, x.a, s.lease, s.t0, s.t1); (store, a)
  {
    hide WorldOk, InStep, Registry, Complete, Current, LeaseOk, Forget;
  }

  lemma {:induction false} AcceptIsTheOperation(c: Config, x: AuthWorld, s: AuthStep)
    requires AuthOk(c, x) && AuthEnabled(x, s) && s.AcceptSocket?
    ensures var y := AuthNext(c, x, s);
      var (store, a, socket) := Accept(c, x.w.store, x.a, s.id, s.ticket, s.client, s.n0, s.n1, s.t0, s.t1, s.t2);
      y.w.store == store && y.a == a && y.leases == x.leases + (if socket.Done? then {socket.value.lease} else {})
  {
    hide WorldOk, InStep, Next, ClaimOrReconnect, AcceptCall, LeaseOk;
    var a := Pruned(x.a, s.n0);
    var admitted := Admitted(a, s.id, s.ticket, s.client, s.n1);
    if admitted.Done? {
      AcceptStore(c, x.w.(clock := s.n0), a.objects[admitted.value], s.client, s.t0, s.t1, s.t2);
    }
  }

  // ---------------------------------------------------------------- runs

  ghost predicate AuthRun(c: Config, x: AuthWorld, steps: seq<AuthStep>, y: AuthWorld)
    decreases |steps|
  {
    if steps == [] then x == y
    else WellFormed(x.a) && AuthEnabled(x, steps[0]) && AuthRun(c, AuthNext(c, x, steps[0]), steps[1..], y)
  }

  lemma {:induction false} AuthRunOk(c: Config, x: AuthWorld, steps: seq<AuthStep>, y: AuthWorld)
    requires AuthOk(c, x) && AuthRun(c, x, steps, y)
    ensures AuthOk(c, y)
    decreases |steps|
  {
    if steps != [] {
      AuthNextOk(c, x, steps[0]);
      hide AuthNext, AuthEnabled, WorldOk, Registry, InStep;
      AuthRunOk(c, AuthNext(c, x, steps[0]), steps[1..], y);
    }
  }

  ghost predicate AuthReachable(c: Config, x: AuthWorld) {
    exists steps :: AuthRun(c, AUTH_INITIAL, steps, x)
  }

  lemma {:induction false} AuthReachableOk(c: Config, x: AuthWorld)
    requires AuthReachable(c, x)
    ensures AuthOk(c, x)
  {
    var steps :| AuthRun(c, AUTH_INITIAL, steps, x);
    AuthRunOk(c, AUTH_INITIAL, steps, x);
  }

  // ---------------------------------------------------------------- superseded sockets are harmless

  /** While a session is active its record object holds the manager's current client, generation and
      reconnect handle; a session without a record object has no client. */
  lemma {:induction false} StoredHandleIsCurrent(c: Config, x: AuthWorld, id: Id)
    requires AuthReachable(c, x) && Active(x.w.store, id, x.w.clock)
    ensures var r := x.w.store[id];
      if id in x.a.byId then
        var k := x.a.byId[id];
        && k < |x.a.objects|
        && x.a.objects[k].currentClient == r.client
        && x.a.objects[k].currentGeneration == (if r.client.Some? then Some(r.generation) else None)
        && x.a.objects[k].reconnectHandle == (if r.client.Some? then Some(ReconnectHandle(id, r)) else None)
      else r.client.None?
  {
    AuthReachableOk(c, x);
  }

  /** A lease some newer lease of the same record has superseded can neither begin a use nor complete,
      and its end and release leave the manager exactly as it was, at any time. */
  lemma {:induction false} SupersededLeaseIsHarmless(
      c: Config, x: AuthWorld, older: Lease, newer: Lease, t0: nat, t1: nat)
    requires AuthReachable(c, x) && older in x.leases && newer in x.leases
    requires older.record == newer.record && older.generation < newer.generation
    requires t0 >= x.w.clock
    ensures older.record < |x.a.objects|
    ensures LeaseBegin(x.w.store, x.a, older, t0, t1) == (x.w.store, Err(Forbidden))
    ensures LeaseComplete(x.w.store, x.a, older, t0, t1) == (x.w.store, x.a, Err(Forbidden))
    ensures LeaseEnd(x.w.store, x.a, older, t0, t1) == x.w.store
    ensures LeaseRelease(x.w.store, x.a, older, t0) == (x.w.store, Ok(()))
  {
    hide ReconnectHandle, Capability;
    AuthReachableOk(c, x);
    assert LeaseOk(x.a, older) && LeaseOk(x.a, newer);
    var id := x.a.objects[older.record].sessionId;
    if id in x.w.store && Live(x.w.store[id], x.w.clock) {
      assert x.a.byId[id] == older.record;
      assert Synced(x.a.objects[older.record], id, x.w.store[id]);
    }
  }

  /** At most one ticket maps to a session, and it is the one its record holds. */
  lemma {:induction false} OneTicketPerSession(c: Config, x: AuthWorld, t: string, u: string)
    requires AuthReachable(c, x) && t in x.a.byTicket && u in x.a.byTicket
    requires WellFormed(x.a) && x.a.objects[x.a.byTicket[t]].sessionId == x.a.objects[x.a.byTicket[u]].sessionId
    ensures t == u
  {
    AuthReachableOk(c, x);
  }

  /** An accept for a session succeeds only with the ticket its record holds now. */
  lemma {:induction false} OnlyCurrentTicketAccepted(c: Config, x: AuthWorld, s: AuthStep)
    requires AuthReachable(c, x) && s.AcceptSocket? && AuthEnabled(x, s)
    ensures WellFormed(x.a)
    ensures Accept(c, x.w.store, x.a, s.id, s.ticket, s.client, s.n0, s.n1, s.t0, s.t1, s.t2).2.Done? ==>
      s.id in x.a.byId && x.a.objects[x.a.byId[s.id]].ticket == Some(s.ticket)
  {
    hide ClaimOrReconnect, WorldOk, InStep;
    AuthReachableOk(c, x);
  }

  lemma {:induction false} RotatedOut(a: Auth, record: nat, ticket: string, earlier: string)
    requires record < |a.objects| && earlier != ticket
    requires earlier in a.byTicket ==> a.objects[record].ticket == Some(earlier)
    ensures earlier !in Rotate(a, record, ticket).0.byTicket
  {
    hide Shaped;
  }

  /** Issuing takes the earlier ticket of the session out of use. */
  lemma {:induction false} IssueRotatesOut(s: Store, a: Auth, step: AuthStep, earlier: string)
    requires Registry(a) && step.IssueTicket? && earlier != step.ticket
    requires earlier !in a.byTicket || a.objects[a.byTicket[earlier]].sessionId == step.id
    requires Issue(s, a, step.id, step.principal, step.policy, step.ticket, step.n0, step.t0, step.t1, step.t2).1.Done?
    ensures earlier !in
      Issue(s, a, step.id, step.principal, step.policy, step.ticket, step.n0, step.t0, step.t1, step.t2).0.byTicket
  {
    hide ValidateLocator, IssueCompletion, Pruned, Rotate;
    PrunedRegistry(a, step.n0);
    var b := Pruned(a, step.n0);
    if step.id in b.byId {
      RotatedOut(b, b.byId[step.id], step.ticket, earlier);
    } else {
      assert earlier !in b.byTicket;
      var locator := ValidateLocator(s, step.id, step.principal, step.t0).value;
      var token := IssueCompletion(s, step.id, step.principal, step.t1, step.t2).value;
      var r := Registered(b, step.id, step.principal, locator.expiresAt, step.policy, token);
      RotatedOut(r, |b.objects|, step.ticket, earlier);
    }
  }

  /** Only an issuing step brings a ticket into use. */
  lemma {:induction false} TicketStaysOut(c: Config, x: AuthWorld, s: AuthStep, earlier: string)
    requires WellFormed(x.a) && AuthEnabled(x, s) && earlier !in x.a.byTicket
    requires s.IssueTicket? ==> s.ticket != earlier
    ensures earlier !in AuthNext(c, x, s).a.byTicket
  {
    hide Next, CompletionCapability, Shaped, LocatorOf, IssueCompletion, ValidateLocator, Complete, ClaimOrReconnect;
  }

  lemma {:induction false} TicketStaysOutOfRuns(c: Config, x: AuthWorld, later: seq<AuthStep>, y: AuthWorld,
                                                earlier: string)
    requires AuthRun(c, x, later, y) && earlier !in x.a.byTicket
    requires forall i | 0 <= i < |later| && later[i].IssueTicket? :: later[i].ticket != earlier
    ensures earlier !in y.a.byTicket
    decreases |later|
  {
    hide AuthNext, AuthEnabled;
    if later != [] {
      TicketStaysOut(c, x, later[0], earlier);
      TicketStaysOutOfRuns(c, AuthNext(c, x, later[0]), later[1..], y, earlier);
    }
  }

  /** Rotation fences for ever: once another ticket was issued for its session, a ticket is refused in every
      later state of every run that does not issue that very ticket again. */
  lemma {:induction false} RotationFences(
      c: Config, x: AuthWorld, s: AuthStep, earlier: string, later: seq<AuthStep>, y: AuthWorld, other: AuthStep)
    requires AuthReachable(c, x) && s.IssueTicket? && AuthEnabled(x, s) && WellFormed(x.a)
    requires Issue(x.w.store, x.a, s.id, s.principal, s.policy, s.ticket, s.n0, s.t0, s.t1, s.t2).1.Done?
    requires earlier in x.a.byTicket && x.a.objects[x.a.byTicket[earlier]].sessionId == s.id && earlier != s.ticket
    requires AuthRun(c, AuthNext(c, x, s), later, y)
    requires forall i | 0 <= i < |later| && later[i].IssueTicket? :: later[i].ticket != earlier
    requires other.AcceptSocket? && other.ticket == earlier && AuthEnabled(y, other)
    ensures WellFormed(y.a)
    ensures Accept(
      c, y.w.store, y.a, other.id, earlier, other.client, other.n0, other.n1, other.t0, other.t1, other.t2).2
      == Failed(Refused(Forbidden))
  {
    AuthReachableOk(c, x);
    AuthNextOk(c, x, s);
    IssueIsTheOperation(c, x, s);
    IssueRotatesOut(x.w.store, x.a, s, earlier);
    AuthRunOk(c, AuthNext(c, x, s), later, y);
    TicketStaysOutOfRuns(c, AuthNext(c, x, s), later, y, earlier);
    hide ClaimOrReconnect, WorldOk, InStep, AuthNext, Issue, AuthRun, Pruned;
    PrunedTickets(y.a, other.n0);
  }

  lemma {:induction false} PrunedTickets(a: Auth, now: nat)
    requires WellFormed(a)
    ensures Pruned(a, now).byTicket.Keys <= a.byTicket.Keys
  {
  }

  /** Right after a ticket was issued for a session, that session is open to no other one. */
  lemma {:induction false} RotationReplaces(c: Config, x: AuthWorld, s: AuthStep, other: AuthStep)
    requires AuthReachable(c, x) && s.IssueTicket? && AuthEnabled(x, s) && WellFormed(x.a)
    requires Issue(x.w.store, x.a, s.id, s.principal, s.policy, s.ticket, s.n0, s.t0, s.t1, s.t2).1.Done?
    requires other.AcceptSocket? && other.id == s.id && other.ticket != s.ticket
    requires AuthEnabled(AuthNext(c, x, s), other)
    ensures var y := AuthNext(c, x, s);
      && WellFormed(y.a)
      && Accept(c, y.w.store, y.a, other.id, other.ticket, other.client,
                other.n0, other.n1, other.t0, other.t1, other.t2).2.Failed?
  {
    AuthReachableOk(c, x);
    AuthNextOk(c, x, s);
    var y := AuthNext(c, x, s);
    assert s.id in y.a.byId && y.a.objects[y.a.byId[s.id]].ticket == Some(s.ticket) by {
      IssuedTicket(c, x, s);
    }
    hide ClaimOrReconnect, WorldOk, InStep, AuthNext, Issue;
    assert Registry(y.a);
  }

  lemma {:induction false} IssuedTicket(c: Config, x: AuthWorld, s: AuthStep)
    requires AuthOk(c, x) && s.IssueTicket? && AuthEnabled(x, s)
    requires Issue(x.w.store, x.a, s.id, s.principal, s.policy, s.ticket, s.n0, s.t0, s.t1, s.t2).1.Done?
    ensures var a := AuthNext(c, x, s).a;
      s.id in a.byId && a.byId[s.id] < |a.objects| && a.objects[a.byId[s.id]].ticket == Some(s.ticket)
  {
    hide WorldOk, InStep, CompletionCapability, Shaped;
  }
}
