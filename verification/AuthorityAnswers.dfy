/** What the socket authority answers in every state of every run, and what a ticket and a lease are good for. */
module AuthorityAnswers {
  import opened Options
  import opened Fields
  import opened Session
  import opened SessionRuns
  import opened SessionTheorems
  import opened Authority
  import opened AuthorityRuns
  import Grants

  // ---------------------------------------------------------------- the newest lease

  /** For every record with a client its newest lease was handed out. */
  predicate NewestKnown(x: AuthWorld) {
    forall k | 0 <= k < |x.a.objects| && x.a.objects[k].currentGeneration.Some? ::
      && x.a.objects[k].currentClient.Some?
      && Lease(k, x.a.objects[k].currentClient.value, x.a.objects[k].currentGeneration.value) in x.leases
  }

  /** Records keep their clients, leases are not forgotten. */
  predicate ClientsKept(x: AuthWorld, y: AuthWorld) {
    && x.leases <= y.leases && |x.a.objects| <= |y.a.objects|
    && (forall k | 0 <= k < |x.a.objects| ::
          && y.a.objects[k].currentClient == x.a.objects[k].currentClient
          && y.a.objects[k].currentGeneration == x.a.objects[k].currentGeneration)
    && (forall k | |x.a.objects| <= k < |y.a.objects| :: y.a.objects[k].currentGeneration.None?)
  }

  lemma {:induction false} NewestStays(x: AuthWorld, y: AuthWorld)
    requires NewestKnown(x) && ClientsKept(x, y)
    ensures NewestKnown(y)
  {
  }

  lemma {:induction false} IssueKeepsClients(c: Config, x: AuthWorld, s: AuthStep)
    requires WellFormed(x.a) && AuthEnabled(x, s) && s.IssueTicket?
    ensures ClientsKept(x, AuthNext(c, x, s))
  {
    IssueClients(x.w.store, x.a, s);
    hide Issue;
  }

  lemma {:induction false} IssueClients(st: Store, a: Auth, s: AuthStep)
    requires WellFormed(a) && s.IssueTicket?
    ensures var b := Issue(st, a, s.id, s.principal, s.policy, s.ticket, s.n0, s.t0, s.t1, s.t2).0;
      && |a.objects| <= |b.objects|
      && (forall k | 0 <= k < |a.objects| ::
            && b.objects[k].currentClient == a.objects[k].currentClient
            && b.objects[k].currentGeneration == a.objects[k].currentGeneration)
      && (forall k | |a.objects| <= k < |b.objects| :: b.objects[k].currentGeneration.None?)
  {
    hide Pruned, Shaped, ValidateLocator, IssueCompletion;
    PrunedObjects(a, s.n0);
  }

  lemma {:induction false} OthersKeepClients(c: Config, x: AuthWorld, s: AuthStep)
    requires WellFormed(x.a) && AuthEnabled(x, s) && !s.AcceptSocket? && !s.IssueTicket?
    ensures ClientsKept(x, AuthNext(c, x, s))
  {
    hide Next, Complete, Enabled, Issue;
  }

  lemma {:induction false} NewestNext(c: Config, x: AuthWorld, s: AuthStep)
    requires WellFormed(x.a) && AuthEnabled(x, s) && NewestKnown(x)
    ensures NewestKnown(AuthNext(c, x, s))
  {
    if s.AcceptSocket? {
      hide Next, Admitted, ClaimOrReconnect, AcceptCall;
    } else {
      if s.IssueTicket? {
        IssueKeepsClients(c, x, s);
      } else {
        OthersKeepClients(c, x, s);
      }
      hide AuthNext;
      NewestStays(x, AuthNext(c, x, s));
    }
  }

  lemma {:induction false} RunNewest(c: Config, x: AuthWorld, steps: seq<AuthStep>, y: AuthWorld)
    requires NewestKnown(x) && AuthRun(c, x, steps, y)
    ensures NewestKnown(y)
    decreases |steps|
  {
    if steps != [] {
      NewestNext(c, x, steps[0]);
      hide AuthNext, AuthEnabled, NewestKnown;
      RunNewest(c, AuthNext(c, x, steps[0]), steps[1..], y);
    }
  }

  lemma {:induction false} ReachableNewest(c: Config, x: AuthWorld)
    requires AuthReachable(c, x)
    ensures AuthOk(c, x) && NewestKnown(x)
  {
    hide AuthOk;
    var steps :| AuthRun(c, AUTH_INITIAL, steps, x);
    RunNewest(c, AUTH_INITIAL, steps, x);
    AuthReachableOk(c, x);
  }

  /** No later lease of the same record was handed out. */
  predicate Newest(x: AuthWorld, l: Lease) {
    l in x.leases && forall other | other in x.leases && other.record == l.record :: other.generation <= l.generation
  }

  lemma {:induction false} NewestIsCurrent(c: Config, x: AuthWorld, l: Lease)
    requires AuthOk(c, x) && NewestKnown(x) && l in x.leases
    ensures l.record < |x.a.objects| && (Newest(x, l) <==> Current(x.a, l))
  {
    hide WorldOk, Registry, InStep;
    assert LeaseOk(x.a, l);
    var o := x.a.objects[l.record];
    var newest := Lease(l.record, o.currentClient.value, o.currentGeneration.value);
    assert newest in x.leases;
    if Current(x.a, l) {
      forall other | other in x.leases && other.record == l.record
        ensures other.generation <= l.generation
      {
        assert LeaseOk(x.a, other);
      }
    }
  }

  // ---------------------------------------------------------------- accepting

  /** The ticket in use for a session. */
  predicate InUse(a: Auth, id: Id, ticket: string)
    requires WellFormed(a)
  {
    ticket in a.byTicket && a.objects[a.byTicket[ticket]].sessionId == id
  }

  /** The session is left to a new socket: nothing is in flight, and its client released it or was not heard of
      for long enough. */
  ghost predicate Free(c: Config, w: World, id: Id, now: nat)
    requires id in w.store
  {
    && (forall u | u in w.outstanding :: u.id != id)
    && (w.store[id].released || w.store[id].lastSeenAt.None?
        || now >= w.store[id].lastSeenAt.value + c.reconnectIdle || c.reconnectIdle == 0)
  }

  /** A socket of a session, with the client it brings. */
  predicate SocketFor(r: Record, o: AuthRecord, id: Id, socket: Socket, lease: Lease) {
    socket == Socket(Locator(id, r.interventionId, r.epoch, r.principal, r.expiresAt), o.policy, lease)
  }

  /** What claiming or reconnecting answers on behalf of a record that is in step with the manager. */
  lemma {:induction false} GrantAnswer(
      c: Config, w: World, o: AuthRecord, id: Id, client: string, t0: nat, t1: nat, t2: nat)
    requires WorldOk(c, w) && w.clock <= t0 && o.sessionId == id && Shaped(client, 24, 128)
    requires id in w.store && Live(w.store[id], w.clock) ==> Synced(o, id, w.store[id])
    ensures var answer := ClaimOrReconnect(c, w.store, o, client, t0, t1, t2).1;
      if id !in w.store || w.store[id].revoked then answer == Err(NotFound)
      else
        var r := w.store[id];
        if r.expiresAt <= t0 then answer == Err(Expired)
        else if r.client.None? then
          answer.Ok? && answer.value.locator == LocatorOf(id, r)
          && answer.value.client == client && answer.value.generation == 1
        else if r.lastSeenAt.None? || r.lastSeenAt == Some(0) then answer == Err(Forbidden)
        else if !Free(c, w, id, t1) then answer == Err(ClientActive)
        else
          answer.Ok? && answer.value.locator == LocatorOf(id, r)
          && answer.value.client == client && answer.value.generation == r.generation + 1
  {
    hide Shaped;
    if id in w.store {
      var r := w.store[id];
      assert RecordOk(c, w, id, r);
      if r.client.Some? {
        assert TicketOf(id, r).id == id;
        assert TokenShape(ReconnectHandle(id, r));
      }
    }
    hide WorldOk, Capability, ReconnectHandle;
  }

  /** A record that is being pruned still holds this ticket, so that the ticket goes with it. */
  predicate Dropped(a: Auth, ticket: string, now: nat)
    requires WellFormed(a)
  {
    exists id | id in a.byId :: a.objects[a.byId[id]].ticket == Some(ticket) && a.objects[a.byId[id]].expiresAt <= now
  }

  /**
   * What `accept` answers in every state. With the ticket in use for a session that is active it succeeds for a
   * first client, and again for every later one once the session is free; the lease is for the client that was
   * created, one generation up.
   */
  lemma {:induction false} AcceptAnswer(c: Config, x: AuthWorld, s: AuthStep)
    requires AuthReachable(c, x) && AuthEnabled(x, s) && s.AcceptSocket?
    ensures WellFormed(x.a)
    ensures
      var answer := Accept(c, x.w.store, x.a, s.id, s.ticket, s.client, s.n0, s.n1, s.t0, s.t1, s.t2).2;
      if !InUse(x.a, s.id, s.ticket) || Dropped(x.a, s.ticket, s.n0) then answer == Failed(Refused(Forbidden))
      else
        var k := x.a.byTicket[s.ticket];
        var o := x.a.objects[k];
        if o.expiresAt <= s.n1 then answer == Failed(Refused(Forbidden))
        else if !Shaped(s.client, 24, 128) then answer == Failed(BadBinding)
        else if s.id !in x.w.store || x.w.store[s.id].revoked then answer == Failed(Refused(NotFound))
        else
          var r := x.w.store[s.id];
          if r.expiresAt <= s.t0 then answer == Failed(Refused(Expired))
          else if r.client.None? then
            answer.Done? && SocketFor(r, o, s.id, answer.value, Lease(k, s.client, 1))
          else if r.lastSeenAt.None? || r.lastSeenAt == Some(0) then answer == Failed(Refused(Forbidden))
          else if !Free(c, x.w, s.id, s.t1) then answer == Failed(Refused(ClientActive))
          else answer.Done? && SocketFor(r, o, s.id, answer.value, Lease(k, s.client, r.generation + 1))
  {
    hide AuthReachable, AuthEnabled, Pruned, WorldOk, Registry, InStep, ClaimOrReconnect, Admitted, Dropped, InUse;
    hide Synced, Free, Shaped, Live;
    ReachableParts(c, x);
    var a := Pruned(x.a, s.n0);
    PrunedRegistry(x.a, s.n0);
    PrunedInUse(x.a, s.n0, s.id, s.ticket);
    EnabledAccept(x, s);
    AdmittedAnswer(a, s.id, s.ticket, s.client, s.n1);
    if InUse(x.a, s.id, s.ticket) && Shaped(s.client, 24, 128) {
      UsedInStep(x.w, x.a, s.id, s.ticket);
      var o := x.a.objects[x.a.byTicket[s.ticket]];
      GrantAnswer(c, x.w, o, s.id, s.client, s.t0, s.t1, s.t2);
    }
  }

  lemma {:induction false} ReachableParts(c: Config, x: AuthWorld)
    requires AuthReachable(c, x)
    ensures WorldOk(c, x.w) && Registry(x.a) && WellFormed(x.a) && InStep(x.w, x.a)
  {
    AuthReachableOk(c, x);
  }

  lemma {:induction false} EnabledAccept(x: AuthWorld, s: AuthStep)
    requires AuthEnabled(x, s) && s.AcceptSocket?
    ensures x.w.clock <= s.n0 <= s.n1 <= s.t0 <= s.t1 <= s.t2
  {
  }

  lemma {:induction false} AdmittedAnswer(a: Auth, id: Id, ticket: string, client: string, n1: nat)
    requires Registry(a)
    ensures WellFormed(a)
    ensures Admitted(a, id, ticket, client, n1) ==
      if !InUse(a, id, ticket) || a.objects[a.byTicket[ticket]].expiresAt <= n1 then Failed(Refused(Forbidden))
      else if !Shaped(client, 24, 128) then Failed(BadBinding)
      else Done(a.byTicket[ticket])
  {
  }

  /** The record a ticket leads to is in step with the manager. */
  lemma {:induction false} UsedInStep(w: World, a: Auth, id: Id, ticket: string)
    requires Registry(a) && InStep(w, a) && InUse(a, id, ticket)
    ensures ticket in a.byTicket && a.byTicket[ticket] < |a.objects|
    ensures a.objects[a.byTicket[ticket]].sessionId == id
    ensures id in w.store && Live(w.store[id], w.clock) ==> Synced(a.objects[a.byTicket[ticket]], id, w.store[id])
  {
  }

  lemma {:induction false} PrunedInUse(a: Auth, now: nat, id: Id, ticket: string)
    requires Registry(a)
    ensures WellFormed(Pruned(a, now)) && Pruned(a, now).objects == a.objects
    ensures InUse(Pruned(a, now), id, ticket) <==> InUse(a, id, ticket) && !Dropped(a, ticket, now)
    ensures InUse(Pruned(a, now), id, ticket) ==> Pruned(a, now).byTicket[ticket] == a.byTicket[ticket]
  {
  }

  // ---------------------------------------------------------------- issuing

  /**
   * What `issueHandshakeTicket` answers in every state: a ticket for an active session and its principal, under
   * the policy of the session's first ticket, unless the generated ticket is malformed or taken.
   */
  lemma {:induction false} IssueAnswer(c: Config, x: AuthWorld, s: AuthStep)
    requires AuthReachable(c, x) && AuthEnabled(x, s) && s.IssueTicket?
    ensures WellFormed(x.a)
    ensures
      var (a, answer) :=
        Issue(x.w.store, x.a, s.id, s.principal, s.policy, s.ticket, s.n0, s.t0, s.t1, s.t2);
      if s.policy.Inexact? then answer == Failed(BadPolicy)
      else if s.id !in x.w.store || x.w.store[s.id].revoked then answer == Failed(Refused(NotFound))
      else
        var r, known := x.w.store[s.id], s.id in x.a.byId;
        if r.expiresAt <= s.t0 then answer == Failed(Refused(Expired))
        else if s.principal != r.principal || (known && x.a.objects[x.a.byId[s.id]].policy != s.policy) then
          answer == Failed(Refused(Forbidden))
        else if !known && r.expiresAt <= s.t1 then answer == Failed(Refused(Expired))
        else if !Shaped(s.ticket, 32, 128) || Taken(x.a, s.id, s.ticket, s.n0) then answer == Failed(BadTicket)
        else
          && answer == Done(s.ticket) && WellFormed(a) && InUse(a, s.id, s.ticket)
          && a.objects[a.byTicket[s.ticket]].policy == s.policy
  {
    hide AuthReachable, AuthEnabled, WorldOk, Registry, InStep, Pruned, Shaped, Dropped, IssueOn, Live, RecordOk;
    hide Synced;
    ReachableParts(c, x);
    PrunedTaken(x.a, s.n0, s.id, s.ticket);
    EnabledIssue(x, s);
    if s.id in x.w.store {
      RegisteredInStep(c, x.w, x.a, s.id, s.n0, s.t0);
    }
    IssueOnAnswer(x.w.store, Pruned(x.a, s.n0), s);
  }

  lemma {:induction false} EnabledIssue(x: AuthWorld, s: AuthStep)
    requires AuthEnabled(x, s) && s.IssueTicket?
    ensures x.w.clock <= s.n0 <= s.t0 <= s.t1 <= s.t2
  {
  }

  /** Pruning leaves an active session registered as it was. */
  lemma {:induction false} RegisteredInStep(c: Config, w: World, a: Auth, id: Id, n0: nat, t0: nat)
    requires WorldOk(c, w) && Registry(a) && InStep(w, a) && w.clock <= n0 <= t0 && id in w.store
    ensures var r, b := w.store[id], Pruned(a, n0);
      !r.revoked && t0 < r.expiresAt ==>
        && (id in b.byId <==> id in a.byId) && (id in a.byId ==> b.byId[id] == a.byId[id])
        && (if id in a.byId then a.objects[a.byId[id]].principal == r.principal else r.client.None?)
  {
    PrunedRegistry(a, n0);
    hide Pruned;
  }

  lemma {:induction false} RotateAnswer(a: Auth, record: nat, id: Id, ticket: string)
    requires WellFormed(a) && record < |a.objects| && a.objects[record].sessionId == id
    ensures var (b, answer) := Rotate(a, record, ticket);
      if !Shaped(ticket, 32, 128) || (ticket in a.byTicket && a.objects[record].ticket != Some(ticket))
      then answer == Failed(BadTicket)
      else
        && answer == Done(ticket) && WellFormed(b) && InUse(b, id, ticket)
        && b.objects[b.byTicket[ticket]].policy == a.objects[record].policy
  {
    hide Shaped;
  }

  lemma {:induction false} IssueOnAnswer(st: Store, a: Auth, s: AuthStep)
    requires WellFormed(a) && s.IssueTicket? && s.t0 <= s.t1 <= s.t2
    requires forall id | id in a.byId :: a.objects[a.byId[id]].sessionId == id
    requires s.id in st && !st[s.id].revoked && s.t0 < st[s.id].expiresAt ==>
      if s.id in a.byId then a.objects[a.byId[s.id]].principal == st[s.id].principal else st[s.id].client.None?
    ensures
      var (b, answer) := IssueOn(st, a, s.id, s.principal, s.policy, s.ticket, s.t0, s.t1, s.t2);
      if s.id !in st || st[s.id].revoked then answer == Failed(Refused(NotFound))
      else
        var r, known := st[s.id], s.id in a.byId;
        if r.expiresAt <= s.t0 then answer == Failed(Refused(Expired))
        else if s.principal != r.principal || (known && a.objects[a.byId[s.id]].policy != s.policy) then
          answer == Failed(Refused(Forbidden))
        else if !known && r.expiresAt <= s.t1 then answer == Failed(Refused(Expired))
        else if !Shaped(s.ticket, 32, 128)
          || (s.ticket in a.byTicket && !(known && a.objects[a.byId[s.id]].ticket == Some(s.ticket)))
        then answer == Failed(BadTicket)
        else
          && answer == Done(s.ticket) && WellFormed(b) && InUse(b, s.id, s.ticket)
          && b.objects[b.byTicket[s.ticket]].policy == s.policy
  {
    hide Shaped, Rotate, InUse, CompletionCapability;
    if s.id in a.byId {
      RotateAnswer(a, a.byId[s.id], s.id, s.ticket);
    } else if s.id in st {
      var token := IssueCompletion(st, s.id, s.principal, s.t1, s.t2);
      if token.Ok? {
        var b := Registered(a, s.id, s.principal, st[s.id].expiresAt, s.policy, token.value);
        RotateAnswer(b, |a.objects|, s.id, s.ticket);
      }
    }
  }

  /** A ticket that leads to a record already, and not by being the session's own. */
  predicate Taken(a: Auth, id: Id, ticket: string, now: nat)
    requires WellFormed(a)
  {
    && ticket in a.byTicket && !Dropped(a, ticket, now)
    && !(id in a.byId && a.objects[a.byId[id]].ticket == Some(ticket))
  }

  lemma {:induction false} PrunedTaken(a: Auth, now: nat, id: Id, ticket: string)
    requires Registry(a)
    ensures WellFormed(a) && WellFormed(Pruned(a, now)) && Pruned(a, now).objects == a.objects
    ensures forall i | i in Pruned(a, now).byId :: a.objects[Pruned(a, now).byId[i]].sessionId == i
    ensures ticket in Pruned(a, now).byTicket <==> ticket in a.byTicket && !Dropped(a, ticket, now)
  {
  }

  // ---------------------------------------------------------------- leases

  /** The newest lease of an active session is the manager's current client and generation. */
  lemma {:induction false} LeaseInStep(c: Config, x: AuthWorld, l: Lease, now: nat)
    requires AuthReachable(c, x) && l in x.leases && x.w.clock <= now
    ensures l.record < |x.a.objects| && (Newest(x, l) <==> Current(x.a, l))
    ensures var o := x.a.objects[l.record];
      && (o.sessionId in x.w.store ==>
            && RecordOk(c, x.w, o.sessionId, x.w.store[o.sessionId])
            && (Active(x.w.store, o.sessionId, now) ==> Synced(o, o.sessionId, x.w.store[o.sessionId])))
      && (exists generation :: o.currentGeneration == Some(generation) && l.generation <= generation)
      && (l.generation == o.currentGeneration.value ==> o.currentClient == Some(l.client))
  {
    ReachableNewest(c, x);
    NewestIsCurrent(c, x, l);
    assert LeaseOk(x.a, l);
    var o := x.a.objects[l.record];
    if o.sessionId in x.w.store {
      assert RecordOk(c, x.w, o.sessionId, x.w.store[o.sessionId]);
      if Active(x.w.store, o.sessionId, now) {
        assert Live(x.w.store[o.sessionId], x.w.clock);
        assert x.a.byId[o.sessionId] == l.record;
      }
    }
    hide WorldOk, Synced, RecordOk, AuthReachable, NewestKnown;
  }

  /** A lease begins uses exactly while it is the newest of its session, and the session is active and not
      released. */
  lemma {:induction false} LeaseBeginAnswer(c: Config, x: AuthWorld, l: Lease, t0: nat, t1: nat)
    requires AuthReachable(c, x) && l in x.leases && x.w.clock <= t0
    ensures l.record < |x.a.objects|
    ensures
      var id, answer := x.a.objects[l.record].sessionId, LeaseBegin(x.w.store, x.a, l, t0, t1).1;
      if !Newest(x, l) then answer == Err(Forbidden)
      else if id !in x.w.store || x.w.store[id].revoked then answer == Err(NotFound)
      else if x.w.store[id].expiresAt <= t0 then answer == Err(Expired)
      else if x.w.store[id].released then answer == Err(Forbidden)
      else answer == Ok(Use(LocatorOf(id, x.w.store[id]), l.client, l.generation))
  {
    LeaseInStep(c, x, l, t0);
    hide AuthReachable, Newest, Counted, ReconnectHandle, Shaped;
  }

  /** An end counts for the newest lease of an active session, and for no other. */
  lemma {:induction false} LeaseEndAnswer(c: Config, x: AuthWorld, l: Lease, t0: nat, t1: nat)
    requires AuthReachable(c, x) && l in x.leases && x.w.clock <= t0
    ensures l.record < |x.a.objects|
    ensures
      var id := x.a.objects[l.record].sessionId;
      LeaseEnd(x.w.store, x.a, l, t0, t1) ==
        if Newest(x, l) && id in x.w.store && !x.w.store[id].revoked && t0 < x.w.store[id].expiresAt then
          x.w.store[id := x.w.store[id].(inFlight := Sub(x.w.store[id].inFlight, 1), lastSeenAt := Some(t1))]
        else x.w.store
  {
    LeaseInStep(c, x, l, t0);
    hide AuthReachable, Newest, Counted, ReconnectHandle, Shaped;
  }

  /** A release always succeeds, and takes effect for the newest lease of an active session, and for no other. */
  lemma {:induction false} LeaseReleaseAnswer(c: Config, x: AuthWorld, l: Lease, t0: nat)
    requires AuthReachable(c, x) && l in x.leases && x.w.clock <= t0
    ensures l.record < |x.a.objects|
    ensures
      var id := x.a.objects[l.record].sessionId;
      LeaseRelease(x.w.store, x.a, l, t0) ==
        (if Newest(x, l) && id in x.w.store && !x.w.store[id].revoked && t0 < x.w.store[id].expiresAt
         then x.w.store[id := x.w.store[id].(released := true)] else x.w.store,
         Ok(()))
  {
    LeaseInStep(c, x, l, t0);
    hide AuthReachable, Newest, Counted, ReconnectHandle, Shaped;
  }

  // ---------------------------------------------------------------- completing

  /** A record as it was before any verified completion. */
  function Original(c: Config, r: Record): Record {
    r.(completionExpiresAt := r.expiresAt + c.completionGrace)
  }

  /** Every record object holds its session's principal and the capability that completes it. */
  predicate CapabilitiesHeld(c: Config, s: Store, a: Auth) {
    forall k | 0 <= k < |a.objects| && a.objects[k].sessionId in s ::
      var id := a.objects[k].sessionId;
      && a.objects[k].principal == s[id].principal
      && a.objects[k].completionCapability == CompletionCapability(id, Original(c, s[id]))
  }

  /** Record objects keep what they were made with, and sessions what they were born with. */
  predicate MadeWith(a: Auth, b: Auth) {
    && |a.objects| == |b.objects|
    && forall k | 0 <= k < |a.objects| ::
         && b.objects[k].sessionId == a.objects[k].sessionId && b.objects[k].principal == a.objects[k].principal
         && b.objects[k].completionCapability == a.objects[k].completionCapability
  }

  predicate BornWith(s: Store, s': Store, ids: set<Id>) {
    forall id | id in ids && id in s' :: id in s && Grants.SameBirth(s[id], s'[id])
  }

  lemma {:induction false} SameCapability(c: Config, id: Id, r: Record, r': Record)
    requires Grants.SameBirth(r, r')
    ensures CompletionCapability(id, Original(c, r)) == CompletionCapability(id, Original(c, r'))
  {
  }

  lemma {:induction false} HeldOn(c: Config, s: Store, a: Auth, s': Store, b: Auth, ids: set<Id>)
    requires CapabilitiesHeld(c, s, a) && MadeWith(a, b) && BornWith(s, s', ids)
    requires forall k | 0 <= k < |a.objects| :: a.objects[k].sessionId in ids
    ensures CapabilitiesHeld(c, s', b)
  {
    hide CompletionCapability;
    forall k | 0 <= k < |b.objects| && b.objects[k].sessionId in s'
      ensures var id := b.objects[k].sessionId;
        && b.objects[k].principal == s'[id].principal
        && b.objects[k].completionCapability == CompletionCapability(id, Original(c, s'[id]))
    {
      var id := a.objects[k].sessionId;
      assert id in ids;
      SameCapability(c, id, s[id], s'[id]);
    }
  }

  lemma {:induction false} ManagerBorn(c: Config, w: World, step: Step)
    requires WorldOk(c, w) && Enabled(w, step)
    ensures BornWith(w.store, Next(c, w, step).store, w.births.Keys)
  {
    NextEvolved(c, w, step);
    hide WorldOk, Enabled, Next;
  }

  lemma {:induction false} AcceptBorn(
      c: Config, s: Store, o: AuthRecord, client: string, t0: nat, t1: nat, t2: nat, ids: set<Id>)
    ensures BornWith(s, ClaimOrReconnect(c, s, o, client, t0, t1, t2).0, ids)
  {
    hide Capability, ReconnectHandle, Shaped;
  }

  lemma {:induction false} AcceptMade(c: Config, st: Store, a: Auth, s: AuthStep, ids: set<Id>)
    requires WellFormed(a) && s.AcceptSocket?
    ensures var (st', b, _) := Accept(c, st, a, s.id, s.ticket, s.client, s.n0, s.n1, s.t0, s.t1, s.t2);
      MadeWith(a, b) && BornWith(st, st', ids)
  {
    hide Admitted, ClaimOrReconnect, BornWith, Pruned;
    var b := Pruned(a, s.n0);
    PrunedObjects(a, s.n0);
    var admitted := Admitted(b, s.id, s.ticket, s.client, s.n1);
    if admitted.Done? {
      AdmittedRecord(b, s.id, s.ticket, s.client, s.n1);
      AcceptBorn(c, st, b.objects[admitted.value], s.client, s.t0, s.t1, s.t2, ids);
    } else {
      NothingBorn(st, ids);
    }
  }

  lemma {:induction false} AdmittedRecord(a: Auth, id: Id, ticket: string, client: string, n1: nat)
    requires WellFormed(a)
    ensures Admitted(a, id, ticket, client, n1).Done? ==> Admitted(a, id, ticket, client, n1).value < |a.objects|
  {
  }

  lemma {:induction false} HeldByAccept(c: Config, x: AuthWorld, s: AuthStep)
    requires AuthOk(c, x) && AuthEnabled(x, s) && s.AcceptSocket? && CapabilitiesHeld(c, x.w.store, x.a)
    ensures var y := AuthNext(c, x, s); CapabilitiesHeld(c, y.w.store, y.a)
  {
    AcceptIsTheOperation(c, x, s);
    AcceptMade(c, x.w.store, x.a, s, x.w.births.Keys);
    hide AuthNext, AuthEnabled, WorldOk, Registry, CapabilitiesHeld, MadeWith, BornWith, Accept, LeaseOk;
    HeldOn(c, x.w.store, x.a, AuthNext(c, x, s).w.store, AuthNext(c, x, s).a, x.w.births.Keys);
  }

  lemma {:induction false} PrunedObjects(a: Auth, now: nat)
    requires WellFormed(a)
    ensures WellFormed(Pruned(a, now)) && Pruned(a, now).objects == a.objects
  {
  }

  lemma {:induction false} NothingBorn(s: Store, ids: set<Id>)
    ensures BornWith(s, s, ids)
  {
  }

  /** Issuing makes at most one record object, for a session that is not over. */
  lemma {:induction false} IssueMade(st: Store, a: Auth, s: AuthStep)
    requires WellFormed(a) && s.IssueTicket?
    ensures var b := Issue(st, a, s.id, s.principal, s.policy, s.ticket, s.n0, s.t0, s.t1, s.t2).0;
      && |a.objects| <= |b.objects| && MadeWith(a, b.(objects := b.objects[..|a.objects|]))
      && forall k | |a.objects| <= k < |b.objects| ::
           && b.objects[k].sessionId == s.id && s.id in st && !st[s.id].revoked
           && b.objects[k].principal == st[s.id].principal
           && b.objects[k].completionCapability == CompletionCapability(s.id, st[s.id])
  {
    hide Pruned, Shaped, CompletionCapability;
    PrunedObjects(a, s.n0);
  }

  lemma {:induction false} HeldByIssue(c: Config, x: AuthWorld, s: AuthStep)
    requires AuthOk(c, x) && AuthEnabled(x, s) && s.IssueTicket? && CapabilitiesHeld(c, x.w.store, x.a)
    ensures var y := AuthNext(c, x, s); CapabilitiesHeld(c, y.w.store, y.a)
  {
    IssueIsTheOperation(c, x, s);
    IssueMade(x.w.store, x.a, s);
    if s.id in x.w.store {
      assert RecordOk(c, x.w, s.id, x.w.store[s.id]);
    }
    hide AuthNext, AuthEnabled, WorldOk, Registry, InStep, Issue, CompletionCapability, Counted, LeaseOk;
    var st, a, b := x.w.store, x.a, AuthNext(c, x, s).a;
    forall k | 0 <= k < |b.objects| && b.objects[k].sessionId in st
      ensures var id := b.objects[k].sessionId;
        && b.objects[k].principal == st[id].principal
        && b.objects[k].completionCapability == CompletionCapability(id, Original(c, st[id]))
    {
      if k < |a.objects| {
        assert b.objects[..|a.objects|][k] == b.objects[k];
      } else {
        assert Original(c, st[s.id]) == st[s.id];
      }
    }
  }

  lemma {:induction false} OthersMade(c: Config, x: AuthWorld, s: AuthStep)
    requires AuthOk(c, x) && AuthEnabled(x, s) && !s.AcceptSocket? && !s.IssueTicket?
    ensures MadeWith(x.a, AuthNext(c, x, s).a) && BornWith(x.w.store, AuthNext(c, x, s).w.store, x.w.births.Keys)
  {
    hide WorldOk, InStep, LeaseOk, Complete, BornWith, Next, Enabled;
    NothingBorn(x.w.store, x.w.births.Keys);
    match s {
      case OtherCall(step) => ManagerBorn(c, x.w, step);
      case InvalidateTicket(_) =>
      case RevokeSession(id) =>
        RevokeEnabled(x.w, id);
        ManagerBorn(c, x.w, Step(CallRevoke(id), x.w.clock, x.w.clock, x.w.clock));
      case Begin(l, t0, t1) =>
        var o := x.a.objects[l.record];
        var step := Step(CallBeginBound(o.sessionId, o.principal, l.client, l.generation), t0, t1, t1);
        StepEnabled(x.w, step);
        ManagerBorn(c, x.w, step);
      case End(l, t0, t1) =>
        var step := Step(CallEnd(LeaseTicket(x.a, l)), t0, t1, t1);
        StepEnabled(x.w, step);
        ManagerBorn(c, x.w, step);
      case Completes(l, t0, t1) =>
        var o := x.a.objects[l.record];
        var step := Step(CallComplete(o.sessionId, o.completionCapability, o.principal), t0, t1, t1);
        StepEnabled(x.w, step);
        ManagerBorn(c, x.w, step);
      case Release(l, t0) =>
        var o := x.a.objects[l.record];
        var step := Step(CallRelease(o.sessionId, o.principal, l.client, l.generation), t0, t0, t0);
        StepEnabled(x.w, step);
        ManagerBorn(c, x.w, step);
    }
  }

  lemma {:induction false} RevokeEnabled(w: World, id: Id)
    ensures Enabled(w, Step(CallRevoke(id), w.clock, w.clock, w.clock))
  {
  }

  lemma {:induction false} StepEnabled(w: World, step: Step)
    requires w.clock <= step.t0 <= step.t1 <= step.t2 && !step.call.CallEnsure?
    requires step.call.CallEnd? ==> step.call.ticket in w.outstanding
    ensures Enabled(w, step)
  {
  }

  lemma {:induction false} HeldNext(c: Config, x: AuthWorld, s: AuthStep)
    requires AuthOk(c, x) && AuthEnabled(x, s) && CapabilitiesHeld(c, x.w.store, x.a)
    ensures var y := AuthNext(c, x, s); CapabilitiesHeld(c, y.w.store, y.a)
  {
    if s.AcceptSocket? {
      HeldByAccept(c, x, s);
    } else if s.IssueTicket? {
      HeldByIssue(c, x, s);
    } else {
      OthersMade(c, x, s);
      hide AuthNext, AuthEnabled, CapabilitiesHeld, WorldOk, Registry, MadeWith, BornWith;
      HeldOn(c, x.w.store, x.a, AuthNext(c, x, s).w.store, AuthNext(c, x, s).a, x.w.births.Keys);
    }
    hide AuthNext, AuthEnabled, CapabilitiesHeld, AuthOk;
  }

  lemma {:induction false} RunHeld(c: Config, x: AuthWorld, steps: seq<AuthStep>, y: AuthWorld)
    requires AuthOk(c, x) && CapabilitiesHeld(c, x.w.store, x.a) && AuthRun(c, x, steps, y)
    ensures CapabilitiesHeld(c, y.w.store, y.a)
    decreases |steps|
  {
    if steps != [] {
      AuthNextOk(c, x, steps[0]);
      HeldNext(c, x, steps[0]);
      hide AuthNext, AuthEnabled, CapabilitiesHeld, AuthOk;
      RunHeld(c, AuthNext(c, x, steps[0]), steps[1..], y);
    }
  }

  lemma {:induction false} ReachableHeld(c: Config, x: AuthWorld)
    requires AuthReachable(c, x)
    ensures CapabilitiesHeld(c, x.w.store, x.a)
  {
    var steps :| AuthRun(c, AUTH_INITIAL, steps, x);
    RunHeld(c, AUTH_INITIAL, steps, x);
  }

  /**
   * The newest lease completes its session: newly while it is active or in its completion grace, and again as long
   * as no verified completion has moved the deadline. The session is then registered no more.
   */
  lemma {:induction false} LeaseCompleteAnswer(c: Config, x: AuthWorld, l: Lease, t0: nat, t1: nat)
    requires AuthReachable(c, x) && l in x.leases && x.w.clock <= t0 <= t1
    ensures l.record < |x.a.objects|
    ensures
      var id, (_, a, answer) := x.a.objects[l.record].sessionId, LeaseComplete(x.w.store, x.a, l, t0, t1);
      if !Newest(x, l) then answer == Err(Forbidden)
      else if id !in x.w.store || (x.w.store[id].revoked && !x.w.store[id].completed) then answer == Err(NotFound)
      else
        var r := x.w.store[id];
        if r.expiresAt <= t0 && (!Claimed(r) || r.completionExpiresAt <= t1) then answer == Err(Expired)
        else if r.completionExpiresAt != r.expiresAt + c.completionGrace then answer == Err(Forbidden)
        else
          && answer == Ok(Completion(LocatorOf(id, r), r.completed)) && id !in a.byId
          && forall ticket | ticket in a.byTicket :: a.byTicket[ticket] != l.record
  {
    LeaseInStep(c, x, l, t0);
    ReachableHeld(c, x);
    ReachableParts(c, x);
    var id := x.a.objects[l.record].sessionId;
    if id in x.w.store {
      Grants.DeadlinesSeparate(id, Original(c, x.w.store[id]), x.w.store[id]);
    }
    hide AuthReachable, Newest, Counted, ReconnectHandle, Shaped, CompletionCapability, WorldOk, InStep;
  }

  // ---------------------------------------------------------------- how long a ticket lasts

  /** The step takes the ticket out of use: its record is pruned, invalidated, revoked or completed. */
  ghost predicate Retires(x: AuthWorld, s: AuthStep, ticket: string)
    requires WellFormed(x.a) && AuthEnabled(x, s)
  {
    match s
    case AcceptSocket(_, _, _, n0, _, _, _, _) => Dropped(x.a, ticket, n0)
    case InvalidateTicket(retired) => retired == ticket
    case RevokeSession(id) => id in x.a.byId && x.a.objects[x.a.byId[id]].ticket == Some(ticket)
    case Completes(l, t0, t1) =>
      x.a.objects[l.record].ticket == Some(ticket) && LeaseComplete(x.w.store, x.a, l, t0, t1).2.Ok?
    case _ => false
  }

  /** An invalidated ticket leads nowhere, and its record holds none; everything else stays. */
  lemma {:induction false} InvalidateAnswer(c: Config, x: AuthWorld, ticket: string)
    requires AuthReachable(c, x)
    ensures WellFormed(x.a)
    ensures var a := Invalidate(x.a, ticket);
      && ticket !in a.byTicket && a.byId == x.a.byId && |a.objects| == |x.a.objects|
      && (forall other | other != ticket ::
            && (other in a.byTicket <==> other in x.a.byTicket)
            && (other in a.byTicket ==> a.byTicket[other] == x.a.byTicket[other]))
      && forall k | 0 <= k < |a.objects| ::
           a.objects[k] ==
             if ticket in x.a.byTicket && k == x.a.byTicket[ticket] then x.a.objects[k].(ticket := None)
             else x.a.objects[k]
  {
    AuthReachableOk(c, x);
    ReachableParts(c, x);
    hide AuthReachable, AuthOk, WorldOk, InStep, LeaseOk;
  }

  /** A ticket serves any number of accepts: apart from issuing, it stays in use until a step retires it. */
  lemma {:induction false} TicketLasts(c: Config, x: AuthWorld, s: AuthStep, id: Id, ticket: string)
    requires AuthReachable(c, x) && AuthEnabled(x, s) && !s.IssueTicket?
    ensures WellFormed(x.a) && WellFormed(AuthNext(c, x, s).a)
    ensures InUse(AuthNext(c, x, s).a, id, ticket) <==> InUse(x.a, id, ticket) && !Retires(x, s, ticket)
  {
    AuthReachableOk(c, x);
    ReachableParts(c, x);
    hide AuthReachable, AuthOk, AuthNext, AuthEnabled, Registry, InUse, Retires;
    if s.AcceptSocket? {
      AcceptLasts(c, x, s, id, ticket);
    } else if s.Completes? {
      CompletesLasts(c, x, s, id, ticket);
    } else {
      OtherLasts(c, x, s, id, ticket);
    }
  }

  lemma {:induction false} AcceptLasts(c: Config, x: AuthWorld, s: AuthStep, id: Id, ticket: string)
    requires AuthOk(c, x) && Registry(x.a) && AuthEnabled(x, s) && s.AcceptSocket?
    ensures WellFormed(AuthNext(c, x, s).a)
    ensures InUse(AuthNext(c, x, s).a, id, ticket) <==> InUse(x.a, id, ticket) && !Retires(x, s, ticket)
  {
    AcceptIsTheOperation(c, x, s);
    hide AuthOk, AuthNext, Registry, Dropped, InUse, Accept;
    AcceptUse(c, x.w.store, x.a, s, id, ticket);
  }

  lemma {:induction false} CompletesLasts(c: Config, x: AuthWorld, s: AuthStep, id: Id, ticket: string)
    requires AuthOk(c, x) && Registry(x.a) && AuthEnabled(x, s) && s.Completes?
    ensures WellFormed(AuthNext(c, x, s).a)
    ensures InUse(AuthNext(c, x, s).a, id, ticket) <==> InUse(x.a, id, ticket) && !Retires(x, s, ticket)
  {
    CompletesIsTheOperation(c, x, s);
    hide AuthOk, AuthNext, Registry, InUse, Forget, Complete;
    ForgetUse(x.a, s.lease.record, id, ticket);
  }

  lemma {:induction false} OtherLasts(c: Config, x: AuthWorld, s: AuthStep, id: Id, ticket: string)
    requires Registry(x.a) && AuthEnabled(x, s) && !s.IssueTicket? && !s.AcceptSocket? && !s.Completes?
    ensures WellFormed(AuthNext(c, x, s).a)
    ensures InUse(AuthNext(c, x, s).a, id, ticket) <==> InUse(x.a, id, ticket) && !Retires(x, s, ticket)
  {
    if s.InvalidateTicket? {
      InvalidateUse(x.a, s.ticket, id, ticket);
    } else if s.RevokeSession? && s.id in x.a.byId {
      ForgetUse(x.a, x.a.byId[s.id], id, ticket);
    }
    hide Registry, Next, Enabled, InUse, Forget, Invalidate;
  }

  lemma {:induction false} InvalidateUse(a: Auth, retired: string, id: Id, ticket: string)
    requires Registry(a)
    ensures WellFormed(Invalidate(a, retired))
    ensures InUse(Invalidate(a, retired), id, ticket) <==> InUse(a, id, ticket) && ticket != retired
  {
  }

  lemma {:induction false} ForgetUse(a: Auth, record: nat, id: Id, ticket: string)
    requires Registry(a) && record < |a.objects|
    ensures WellFormed(Forget(a, record))
    ensures InUse(Forget(a, record), id, ticket) <==> InUse(a, id, ticket) && a.objects[record].ticket != Some(ticket)
  {
  }

  lemma {:induction false} AcceptUse(c: Config, st: Store, a: Auth, s: AuthStep, id: Id, ticket: string)
    requires Registry(a) && s.AcceptSocket?
    ensures var b := Accept(c, st, a, s.id, s.ticket, s.client, s.n0, s.n1, s.t0, s.t1, s.t2).1;
      WellFormed(b) && (InUse(b, id, ticket) <==> InUse(a, id, ticket) && !Dropped(a, ticket, s.n0))
  {
    PrunedInUse(a, s.n0, id, ticket);
    AdmittedRecord(Pruned(a, s.n0), s.id, s.ticket, s.client, s.n1);
    hide Registry, Pruned, Dropped, Admitted, ClaimOrReconnect;
  }

  // ---------------------------------------------------------------- a session that is connected to twice

  const SESSION: Id := "s"
  const TICKET := "tttttttttttttttttttttttttttttttt"
  const FIRST := "aaaaaaaaaaaaaaaaaaaaaaaa"
  const SECOND := "bbbbbbbbbbbbbbbbbbbbbbbb"

  lemma {:induction false} ReachableNext(c: Config, x: AuthWorld, s: AuthStep)
    requires AuthReachable(c, x) && WellFormed(x.a) && AuthEnabled(x, s)
    ensures AuthReachable(c, AuthNext(c, x, s))
  {
    var steps :| AuthRun(c, AUTH_INITIAL, steps, x);
    hide AuthNext, AuthEnabled;
    RunSnoc(c, AUTH_INITIAL, steps, x, s);
    assert AuthRun(c, AUTH_INITIAL, steps + [s], AuthNext(c, x, s));
  }

  lemma {:induction false} RunSnoc(c: Config, x: AuthWorld, steps: seq<AuthStep>, y: AuthWorld, s: AuthStep)
    requires AuthRun(c, x, steps, y) && WellFormed(y.a) && AuthEnabled(y, s)
    ensures AuthRun(c, x, steps + [s], AuthNext(c, y, s))
    decreases |steps|
  {
    hide AuthNext, AuthEnabled;
    if steps == [] {
      assert steps + [s] == [s];
      assert [s][1..] == [];
    } else {
      RunSnoc(c, AuthNext(c, x, steps[0]), steps[1..], y, s);
      assert (steps + [s])[1..] == steps[1..] + [s];
    }
  }

  function NewSession(c: Config): Record {
    NewRecord(c, "i", 0, "p", 1)
  }

  /** One session was made at time 1. */
  lemma {:induction false} Made(c: Config) returns (x: AuthWorld)
    requires ValidConfig(c)
    ensures AuthReachable(c, x) && WellFormed(x.a) && x.a == NO_SESSIONS && x.w.clock == 1
    ensures x.w.store == map[SESSION := NewSession(c)] && x.w.outstanding == multiset{}
  {
    var step := Step(CallEnsure("i", 0, "p", SESSION), 1, 1, 1);
    assert AuthRun(c, AUTH_INITIAL, [], AUTH_INITIAL);
    assert NulFree(SESSION);
    x := AuthNext(c, AUTH_INITIAL, OtherCall(step));
    ReachableNext(c, AUTH_INITIAL, OtherCall(step));
    assert Superseded(map[], "i", 1) == map[] && Prune(map[], 1) == map[];
    assert x.w == Next(c, INITIAL, step);
    assert x.w.store == map[][SESSION := NewSession(c)];
  }

  const ALL := Policy(true, true, true, true)

  function FirstObject(c: Config): AuthRecord {
    AuthRecord(SESSION, "p", 1 + c.ttl, ALL, CompletionCapability(SESSION, NewSession(c)), Some(TICKET),
               None, None, None)
  }

  lemma {:induction false} Shapes()
    ensures Shaped(TICKET, 32, 128) && Shaped(FIRST, 24, 128) && Shaped(SECOND, 24, 128)
  {
  }

  /** ... and a ticket issued for it. */
  lemma {:induction false} Ticketed(c: Config) returns (x: AuthWorld)
    requires ValidConfig(c)
    ensures AuthReachable(c, x) && WellFormed(x.a)
    ensures x.a == Auth([FirstObject(c)], map[SESSION := 0], map[TICKET := 0]) && x.w.clock == 1
    ensures x.w.store == map[SESSION := NewSession(c)] && x.w.outstanding == multiset{}
  {
    hide AuthReachable, CompletionCapability, Shaped;
    Shapes();
    var before := Made(c);
    var s := IssueTicket(SESSION, "p", ALL, TICKET, 1, 1, 1, 1);
    x := AuthNext(c, before, s);
    ReachableNext(c, before, s);
    assert Pruned(NO_SESSIONS, 1) == NO_SESSIONS;
    assert x.a.objects == [FirstObject(c)];
  }

  /** ... and a first socket accepted. */
  lemma {:induction false} Connected(c: Config) returns (x: AuthWorld)
    requires ValidConfig(c)
    ensures AuthReachable(c, x) && WellFormed(x.a) && x.w.clock == 1
    ensures InUse(x.a, SESSION, TICKET) && x.a.byTicket[TICKET] == 0
    ensures |x.a.objects| == 1 && x.a.objects[0].expiresAt == 1 + c.ttl && x.a.byId == map[SESSION := 0]
    ensures Lease(0, FIRST, 1) in x.leases && x.w.outstanding == multiset{}
    ensures x.w.store ==
      map[SESSION := NewSession(c).(client := Some(FIRST), generation := 1, lastSeenAt := Some(1))]
  {
    hide AuthReachable, CompletionCapability, Capability, ReconnectHandle, Shaped;
    Shapes();
    var before := Ticketed(c);
    var s := AcceptSocket(SESSION, TICKET, FIRST, 1, 1, 1, 1, 1);
    x := AuthNext(c, before, s);
    ReachableNext(c, before, s);
    assert Pruned(before.a, 1) == before.a;
    assert before.w.store[SESSION := x.w.store[SESSION]] == map[SESSION := x.w.store[SESSION]];
  }

  /** Reconnecting works: the same ticket, once the first client has been idle, gives a second lease of the
      session, and the first one can do nothing any more. */
  lemma {:induction false} ConnectedTwice(c: Config) returns (x: AuthWorld, first: Lease, second: Lease)
    requires ValidConfig(c)
    ensures AuthReachable(c, x) && first in x.leases && second in x.leases
    ensures first.record == second.record && second.generation == first.generation + 1 && second.client != first.client
  {
    hide AuthReachable, AuthOk, AuthNext, Accept, Shaped;
    Shapes();
    var before := Connected(c);
    var now := 1 + c.reconnectIdle;
    var s := AcceptSocket(SESSION, TICKET, SECOND, 1, 1, now, now, now);
    AcceptAnswer(c, before, s);
    AuthReachableOk(c, before);
    AcceptIsTheOperation(c, before, s);
    ReachableNext(c, before, s);
    x, first, second := AuthNext(c, before, s), Lease(0, FIRST, 1), Lease(0, SECOND, 2);
    assert FIRST[0] != SECOND[0];
  }
}
