/**
 * `ExperimentalWebSocketTakeoverSessionAuthority`: handshake tickets, accepted sockets and their
 * leases, on top of the session manager. Record objects are shared by two maps and by the lease
 * closures, so they are kept in a sequence and referred to by position.
 */
module Authority {
  import opened Options
  import opened Fields
  import opened Session

  /** The input policy a ticket is asked for: four switches, or a value that is not exactly those. */
  datatype Policy = Policy(tap: bool, scroll: bool, text: bool, key: bool) | Inexact

  datatype AuthRecord = AuthRecord(
    sessionId: Id,
    principal: string,
    expiresAt: nat,
    policy: Policy,
    completionCapability: Token,
    ticket: Option<string>,
    reconnectHandle: Option<Token>,
    currentClient: Option<string>,
    currentGeneration: Option<nat>)

  datatype Auth = Auth(objects: seq<AuthRecord>, byId: map<Id, nat>, byTicket: map<string, nat>)

  /** What a lease closure has captured: its record and the binding it was made for. */
  datatype Lease = Lease(record: nat, client: string, generation: nat)

  /** What an accepted socket is given: the session it is bound to, the input policy and the lease. */
  datatype Socket = Socket(locator: Locator, policy: Policy, lease: Lease)

  datatype Refusal = Refused(error: Error) | BadTicket | BadBinding | BadPolicy

  datatype Outcome<+T> = Done(value: T) | Failed(refusal: Refusal)

  const NO_SESSIONS := Auth([], map[], map[])

  predicate WellFormed(a: Auth) {
    && (forall id | id in a.byId :: a.byId[id] < |a.objects|)
    && (forall t | t in a.byTicket :: a.byTicket[t] < |a.objects|)
  }

  // ---------------------------------------------------------------- specification

  function Without<K>(m: map<K, nat>, k: Option<K>): map<K, nat> {
    if k.Some? then m - {k.value} else m
  }

  function Forget(a: Auth, record: nat): Auth
    requires record < |a.objects|
  {
    var r := a.objects[record];
    a.(byTicket := Without(a.byTicket, r.ticket), byId := a.byId - {r.sessionId})
  }

  function ForgetSession(a: Auth, id: Id): Auth
    requires WellFormed(a)
  {
    if id in a.byId then Forget(a, a.byId[id]) else a
  }

  function ExpiredIds(a: Auth, now: nat): set<Id>
    requires WellFormed(a)
  {
    set id | id in a.byId && a.objects[a.byId[id]].expiresAt <= now
  }

  /** Every registered record whose lease has run out is forgotten. */
  function Pruned(a: Auth, now: nat): Auth
    requires WellFormed(a)
  {
    var gone := ExpiredIds(a, now);
    var records := set id | id in gone :: a.objects[a.byId[id]];
    a.(byId := a.byId - (set r | r in records :: r.sessionId),
       byTicket := a.byTicket - (set r | r in records && r.ticket.Some? :: r.ticket.value))
  }

  function Registered(a: Auth, id: Id, principal: string, expiresAt: nat, policy: Policy, token: Token): Auth {
    var r := AuthRecord(id, principal, expiresAt, policy, token, None, None, None, None);
    a.(objects := a.objects + [r], byId := a.byId[id := |a.objects|])
  }

  /** The last part of issuing: the old ticket goes, and the new one is recorded if it is usable. */
  function Rotate(a: Auth, record: nat, ticket: string): (Auth, Outcome<string>)
    requires record < |a.objects|
  {
    var r := a.objects[record];
    var a := a.(byTicket := Without(a.byTicket, r.ticket));
    if !Shaped(ticket, 32, 128) || ticket in a.byTicket then (a, Failed(BadTicket))
    else
      (a.(objects := a.objects[record := r.(ticket := Some(ticket))], byTicket := a.byTicket[ticket := record]),
       Done(ticket))
  }

  /** `issueHandshakeTicket`; n0 is the authority's clock reading, the others are the manager's. */
  function Issue(s: Store, a: Auth, id: Id, principal: string, policy: Policy, ticket: string,
                 n0: nat, t0: nat, t1: nat, t2: nat): (Auth, Outcome<string>)
    requires WellFormed(a)
  {
    if policy.Inexact? then (a, Failed(BadPolicy))
    else IssueOn(s, Pruned(a, n0), id, principal, policy, ticket, t0, t1, t2)
  }

  function IssueOn(s: Store, a: Auth, id: Id, principal: string, policy: Policy, ticket: string,
                   t0: nat, t1: nat, t2: nat): (Auth, Outcome<string>)
    requires WellFormed(a)
  {
    var locator := ValidateLocator(s, id, principal, t0);
    if locator.Err? then (a, Failed(Refused(locator.error)))
    else if id in a.byId then
      var r := a.objects[a.byId[id]];
      if r.principal != principal || r.policy != policy then (a, Failed(Refused(Forbidden)))
      else Rotate(a, a.byId[id], ticket)
    else
      var token := IssueCompletion(s, id, principal, t1, t2);
      if token.Err? then (a, Failed(Refused(token.error)))
      else Rotate(Registered(a, id, principal, locator.value.expiresAt, policy, token.value), |a.objects|, ticket)
  }

  /** The checks of `accept` before the manager is asked, on records already pruned. */
  function Admitted(a: Auth, id: Id, ticket: string, client: string, n1: nat): Outcome<nat>
    requires WellFormed(a)
  {
    if ticket !in a.byTicket then Failed(Refused(Forbidden))
    else
      var record := a.byTicket[ticket];
      var r := a.objects[record];
      if r.ticket != Some(ticket) || r.sessionId != id || n1 >= r.expiresAt then Failed(Refused(Forbidden))
      else if !ClientShape(client) then Failed(BadBinding)
      else Done(record)
  }

  /** A first accept claims the session; every later one reconnects with the stored handle. */
  function ClaimOrReconnect(c: Config, s: Store, r: AuthRecord, client: string, t0: nat, t1: nat, t2: nat)
    : (Store, Result<Grant>)
  {
    if r.reconnectHandle.None? then Claim(s, r.sessionId, r.principal, client, t0, t1)
    else Reconnect(c, s, r.sessionId, r.principal, r.reconnectHandle.value, client, t0, t1, t2)
  }

  function Granted(a: Auth, record: nat, g: Grant): Auth
    requires record < |a.objects|
  {
    a.(objects := a.objects[record := a.objects[record].(
      reconnectHandle := Some(g.reconnectHandle),
      currentClient := Some(g.client),
      currentGeneration := Some(g.generation))])
  }

  function Accept(c: Config, s: Store, a: Auth, id: Id, ticket: string, client: string,
                  n0: nat, n1: nat, t0: nat, t1: nat, t2: nat): (Store, Auth, Outcome<Socket>)
    requires WellFormed(a)
  {
    var a := Pruned(a, n0);
    var admitted := Admitted(a, id, ticket, client, n1);
    if admitted.Failed? then (s, a, Failed(admitted.refusal))
    else
      var (s', grant) := ClaimOrReconnect(c, s, a.objects[admitted.value], client, t0, t1, t2);
      if grant.Err? then (s', a, Failed(Refused(grant.error)))
      else (s', Granted(a, admitted.value, grant.value),
            Done(Socket(grant.value.locator, a.objects[admitted.value].policy,
                        Lease(admitted.value, grant.value.client, grant.value.generation))))
  }

  function Invalidate(a: Auth, ticket: string): Auth
    requires WellFormed(a)
  {
    if ticket !in a.byTicket then a
    else
      var record := a.byTicket[ticket];
      var r := a.objects[record];
      Auth(if r.ticket == Some(ticket) then a.objects[record := r.(ticket := None)] else a.objects,
           a.byId, a.byTicket - {ticket})
  }

  predicate Current(a: Auth, l: Lease)
    requires l.record < |a.objects|
  {
    var r := a.objects[l.record];
    r.currentGeneration == Some(l.generation) && r.currentClient == Some(l.client)
  }

  function LeaseBegin(s: Store, a: Auth, l: Lease, t0: nat, t1: nat): (Store, Result<Use>)
    requires l.record < |a.objects|
  {
    var r := a.objects[l.record];
    if !Current(a, l) then (s, Err(Forbidden))
    else BeginBoundUse(s, r.sessionId, r.principal, l.client, l.generation, t0, t1)
  }

  function LeaseEnd(s: Store, a: Auth, l: Lease, t0: nat, t1: nat): Store
    requires l.record < |a.objects|
  {
    var r := a.objects[l.record];
    EndUse(s, r.sessionId, r.principal, l.client, l.generation, t0, t1)
  }

  function LeaseComplete(s: Store, a: Auth, l: Lease, t0: nat, t1: nat): (Store, Auth, Result<Completion>)
    requires l.record < |a.objects|
  {
    var r := a.objects[l.record];
    if !Current(a, l) then (s, a, Err(Forbidden))
    else
      var (s', done) := Complete(s, r.sessionId, r.completionCapability, r.principal, t0, t1);
      (s', if done.Ok? then Forget(a, l.record) else a, done)
  }

  /** An older socket's release is a success without effect; a lost or expired session is too. */
  function LeaseRelease(s: Store, a: Auth, l: Lease, t0: nat): (Store, Result<()>)
    requires l.record < |a.objects|
  {
    var r := a.objects[l.record];
    if !Current(a, l) then (s, Ok(()))
    else
      var (s', released) := Release(s, r.sessionId, r.principal, l.client, l.generation, t0);
      (s', if released.Err? && released.error in {NotFound, Expired} then Ok(()) else released)
  }

  // ---------------------------------------------------------------- the class

  class WebSocketSessionAuthority {
    const sessions: TakeoverSessionManager
    var objects: seq<AuthRecord>
    var byId: map<Id, nat>
    var byTicket: map<string, nat>

    function View(): Auth
      reads this
    {
      Auth(objects, byId, byTicket)
    }

    ghost predicate Valid()
      reads this
    {
      WellFormed(View())
    }

    constructor (sessions: TakeoverSessionManager)
      ensures Valid() && this.sessions == sessions && View() == NO_SESSIONS
    {
      this.sessions := sessions;
      objects, byId, byTicket := [], map[], map[];
    }

    method ForgetRecord(record: nat)
      requires Valid() && record < |objects|
      modifies this
      ensures Valid() && View() == Forget(old(View()), record)
    {
      if objects[record].ticket.Some? {
        byTicket := byTicket - {objects[record].ticket.value};
      }
      byId := byId - {objects[record].sessionId};
    }

    method PruneExpired(now: nat)
      requires Valid()
      modifies this
      ensures Valid() && View() == Pruned(old(View()), now)
    {
      hide ForgottenAll;
      ghost var a := View();
      var values := set id | id in byId :: byId[id];
      var todo := values;
      assert values - todo == {};
      ForgottenNone(a, now);
      while todo != {}
        invariant todo <= values && Valid()
        invariant View() == ForgottenAll(a, values - todo, now)
        decreases todo
      {
        var v :| v in todo;
        ForgottenOne(a, values - todo, v, now);
        if objects[v].expiresAt <= now {
          ForgetRecord(v);
        }
        assert values - (todo - {v}) == values - todo + {v};
        todo := todo - {v};
      }
      assert values - todo == values;
      PrunedByValue(a, now);
    }

    method IssueHandshakeTicket(id: Id, principal: string, policy: Policy, createdTicket: string,
                                n0: nat, t0: nat, t1: nat, t2: nat) returns (r: Outcome<string>)
      requires Valid()
      modifies this
      ensures Valid()
      ensures (View(), r) == Issue(sessions.records, old(View()), id, principal, policy, createdTicket, n0, t0, t1, t2)
    {
      hide Rotate, Pruned;
      if policy.Inexact? {
        return Failed(BadPolicy);
      }
      PruneExpired(n0);
      var locator := ValidateLocator(sessions.records, id, principal, t0);
      if locator.Err? {
        return Failed(Refused(locator.error));
      }
      var record: nat;
      if id in byId {
        record := byId[id];
        if objects[record].principal != principal || objects[record].policy != policy {
          return Failed(Refused(Forbidden));
        }
      } else {
        var token := sessions.IssueCompletionCapability(id, principal, t1, t2);
        if token.Err? {
          return Failed(Refused(token.error));
        }
        record := |objects|;
        objects := objects +
          [AuthRecord(id, principal, locator.value.expiresAt, policy, token.value, None, None, None, None)];
        byId := byId[id := record];
      }
      r := RotateTicket(record, createdTicket);
    }

    method RotateTicket(record: nat, createdTicket: string) returns (r: Outcome<string>)
      requires Valid() && record < |objects|
      modifies this
      ensures Valid()
      ensures (View(), r) == Rotate(old(View()), record, createdTicket)
    {
      if objects[record].ticket.Some? {
        byTicket := byTicket - {objects[record].ticket.value};
      }
      if !Shaped(createdTicket, 32, 128) || createdTicket in byTicket {
        return Failed(BadTicket);
      }
      objects := objects[record := objects[record].(ticket := Some(createdTicket))];
      byTicket := byTicket[createdTicket := record];
      return Done(createdTicket);
    }

    method AcceptSocket(id: Id, ticket: string, createdClient: string, n0: nat, n1: nat, t0: nat, t1: nat, t2: nat)
      returns (r: Outcome<Socket>)
      requires Valid()
      modifies this, sessions`records
      ensures Valid()
      ensures (sessions.records, View(), r) ==
        Accept(sessions.config, old(sessions.records), old(View()), id, ticket, createdClient, n0, n1, t0, t1, t2)
    {
      PruneExpired(n0);
      if ticket !in byTicket {
        return Failed(Refused(Forbidden));
      }
      var record := byTicket[ticket];
      if objects[record].ticket != Some(ticket) || objects[record].sessionId != id || n1 >= objects[record].expiresAt {
        return Failed(Refused(Forbidden));
      }
      if !ClientShape(createdClient) {
        return Failed(BadBinding);
      }
      var grant;
      if objects[record].reconnectHandle.None? {
        grant := sessions.ClaimClient(id, objects[record].principal, createdClient, t0, t1);
      } else {
        grant := sessions.ReconnectClient(
          id, objects[record].principal, objects[record].reconnectHandle.value, createdClient, t0, t1, t2);
      }
      if grant.Err? {
        return Failed(Refused(grant.error));
      }
      var g := grant.value;
      objects := objects[record := objects[record].(
        reconnectHandle := Some(g.reconnectHandle),
        currentClient := Some(g.client),
        currentGeneration := Some(g.generation))];
      return Done(Socket(g.locator, objects[record].policy, Lease(record, g.client, g.generation)));
    }

    method InvalidateTicket(ticket: string)
      requires Valid()
      modifies this
      ensures Valid() && View() == Invalidate(old(View()), ticket)
    {
      if ticket !in byTicket {
        return;
      }
      var record := byTicket[ticket];
      byTicket := byTicket - {ticket};
      if objects[record].ticket == Some(ticket) {
        objects := objects[record := objects[record].(ticket := None)];
      }
    }

    method RevokeSession(id: Id)
      requires Valid()
      modifies this, sessions`records
      ensures Valid() && sessions.records == Revoke(old(sessions.records), id)
      ensures View() == ForgetSession(old(View()), id)
    {
      if id in byId {
        ForgetRecord(byId[id]);
      }
      sessions.RevokeSession(id);
    }

    method BeginLease(l: Lease, t0: nat, t1: nat) returns (r: Result<Use>)
      requires Valid() && l.record < |objects|
      modifies sessions`records
      ensures (sessions.records, r) == LeaseBegin(old(sessions.records), View(), l, t0, t1)
    {
      if objects[l.record].currentGeneration != Some(l.generation)
         || objects[l.record].currentClient != Some(l.client) {
        return Err(Forbidden);
      }
      r := sessions.BeginBound(
        objects[l.record].sessionId, objects[l.record].principal, l.client, l.generation, t0, t1);
    }

    method EndLease(l: Lease, t0: nat, t1: nat)
      requires Valid() && l.record < |objects|
      modifies sessions`records
      ensures sessions.records == LeaseEnd(old(sessions.records), View(), l, t0, t1)
    {
      sessions.End(objects[l.record].sessionId, objects[l.record].principal, l.client, l.generation, t0, t1);
    }

    method CompleteLease(l: Lease, t0: nat, t1: nat) returns (r: Result<Completion>)
      requires Valid() && l.record < |objects|
      modifies this, sessions`records
      ensures Valid()
      ensures (sessions.records, View(), r) == LeaseComplete(old(sessions.records), old(View()), l, t0, t1)
    {
      var record := objects[l.record];
      if record.currentGeneration != Some(l.generation) || record.currentClient != Some(l.client) {
        return Err(Forbidden);
      }
      r := sessions.CompleteSession(record.sessionId, record.completionCapability, record.principal, t0, t1);
      if r.Ok? {
        ForgetRecord(l.record);
      }
    }

    method ReleaseLease(l: Lease, t0: nat) returns (r: Result<()>)
      requires Valid() && l.record < |objects|
      modifies sessions`records
      ensures (sessions.records, r) == LeaseRelease(old(sessions.records), View(), l, t0)
    {
      if objects[l.record].currentGeneration != Some(l.generation)
         || objects[l.record].currentClient != Some(l.client) {
        return Ok(());
      }
      r := sessions.ReleaseClientGeneration(
        objects[l.record].sessionId, objects[l.record].principal, l.client, l.generation, t0);
      if r == Err(NotFound) || r == Err(Expired) {
        return Ok(());
      }
    }
  }

  // ---------------------------------------------------------------- pruning record by record

  function GoneIds(a: Auth, done: set<nat>, now: nat): set<Id>
    requires forall v | v in done :: v < |a.objects|
  {
    set v | v in done && a.objects[v].expiresAt <= now :: a.objects[v].sessionId
  }

  function GoneTickets(a: Auth, done: set<nat>, now: nat): set<string>
    requires forall v | v in done :: v < |a.objects|
  {
    set v | v in done && a.objects[v].expiresAt <= now && a.objects[v].ticket.Some? :: a.objects[v].ticket.value
  }

  /** The expired ones of some records, forgotten one after another. */
  function ForgottenAll(a: Auth, done: set<nat>, now: nat): (b: Auth)
    requires forall v | v in done :: v < |a.objects|
    ensures b.objects == a.objects
  {
    a.(byId := a.byId - GoneIds(a, done, now), byTicket := a.byTicket - GoneTickets(a, done, now))
  }

  lemma {:induction false} ForgottenNone(a: Auth, now: nat)
    ensures ForgottenAll(a, {}, now) == a
  {
  }

  lemma {:induction false} ForgottenOne(a: Auth, done: set<nat>, v: nat, now: nat)
    requires v < |a.objects| && forall v | v in done :: v < |a.objects|
    ensures var b := ForgottenAll(a, done, now);
      ForgottenAll(a, done + {v}, now) == if a.objects[v].expiresAt <= now then Forget(b, v) else b
  {
    var r := a.objects[v];
    var ids, tickets := GoneIds(a, done, now), GoneTickets(a, done, now);
    assert GoneIds(a, done + {v}, now) == if r.expiresAt <= now then ids + {r.sessionId} else ids;
    assert GoneTickets(a, done + {v}, now) ==
      if r.expiresAt <= now && r.ticket.Some? then tickets + {r.ticket.value} else tickets;
    hide GoneIds, GoneTickets;
    assert a.byId - (ids + {r.sessionId}) == (a.byId - ids) - {r.sessionId};
    if r.ticket.Some? {
      assert a.byTicket - (tickets + {r.ticket.value}) == (a.byTicket - tickets) - {r.ticket.value};
    }
  }

  /** Pruning by record object and pruning by session id remove the same entries. */
  lemma {:induction false} PrunedByValue(a: Auth, now: nat)
    requires WellFormed(a)
    ensures ForgottenAll(a, set id | id in a.byId :: a.byId[id], now) == Pruned(a, now)
  {
    var values := set id | id in a.byId :: a.byId[id];
    var records := set id | id in ExpiredIds(a, now) :: a.objects[a.byId[id]];
    var expired := set v | v in values && a.objects[v].expiresAt <= now :: a.objects[v];
    assert records == expired by {
      forall r | r in records
        ensures r in expired
      {
        var id :| id in ExpiredIds(a, now) && r == a.objects[a.byId[id]];
        assert a.byId[id] in values;
      }
    }
    assert (set r | r in records :: r.sessionId) ==
      set v | v in values && a.objects[v].expiresAt <= now :: a.objects[v].sessionId;
    assert (set r | r in records && r.ticket.Some? :: r.ticket.value) ==
      set v | v in values && a.objects[v].expiresAt <= now && a.objects[v].ticket.Some? :: a.objects[v].ticket.value;
  }
}
