/**
 * Runs of the session manager: any sequence of calls under a non-decreasing clock, with fresh
 * NUL-free record ids and every `endUse` matched to a begun use. The history kept beside the records
 * is what the theorems are about.
 */
module SessionRuns {
  import opened Options
  import opened Fields
  import opened Session

  /** A use that was begun and not yet ended, as its caller will name it. */
  datatype Ticket = Ticket(id: Id, principal: string, client: string, generation: nat)

  /** What the call that created a record fixed for ever, and when it was made. */
  datatype Birth = Birth(interventionId: string, epoch: nat, principal: string, createdAt: int)

  datatype World = World(
    store: Store,
    clock: nat,
    births: map<Id, Birth>,
    outstanding: multiset<Ticket>,
    firsts: multiset<Id>) // the ids reported with `alreadyCompleted = false`

  datatype Call =
    | CallEnsure(interventionId: string, epoch: nat, principal: string, createdId: Id)
    | CallClaim(id: Id, principal: string, client: string)
    | CallReconnect(id: Id, principal: string, handle: Token, next: string)
    | CallRelease(id: Id, principal: string, client: string, generation: nat)
    | CallBeginBound(id: Id, principal: string, client: string, generation: nat)
    | CallBegin(id: Id, token: Token, principal: string, client: string)
    | CallEnd(ticket: Ticket)
    | CallVerify(id: Id, token: Token, principal: string, client: string)
    | CallComplete(id: Id, token: Token, principal: string)
    | CallCompleteVerified(interventionId: string, epoch: nat)
    | CallRevoke(id: Id)
    | CallRevokeIntervention(interventionId: string)

  /** A call with the clock readings made during it. */
  datatype Step = Step(call: Call, t0: nat, t1: nat, t2: nat)

  const INITIAL := World(map[], 0, map[], multiset{}, multiset{})

  function BirthOf(c: Config, r: Record): Birth {
    Birth(r.interventionId, r.epoch, r.principal, r.expiresAt - c.ttl)
  }

  function TicketOf(id: Id, r: Record): Ticket
    requires r.client.Some?
  {
    Ticket(id, r.principal, r.client.value, r.generation)
  }

  predicate Enabled(w: World, s: Step) {
    && w.clock <= s.t0 <= s.t1 <= s.t2
    && (s.call.CallEnsure? ==> s.call.createdId !in w.births && NulFree(s.call.createdId))
    && (s.call.CallEnd? ==> s.call.ticket in w.outstanding)
  }

  ghost function Next(c: Config, w: World, s: Step): World {
    var w := w.(clock := s.t2);
    match s.call
    case CallEnsure(interventionId, epoch, principal, createdId) =>
      var (store, _) := Ensure(c, w.store, interventionId, epoch, principal, createdId, s.t0, s.t1);
      w.(store := store,
         births := if createdId !in store then w.births
                   else w.births[createdId := Birth(interventionId, epoch, principal, s.t1)])
    case CallClaim(id, principal, client) =>
      w.(store := Claim(w.store, id, principal, client, s.t0, s.t1).0)
    case CallReconnect(id, principal, handle, next) =>
      w.(store := Reconnect(c, w.store, id, principal, handle, next, s.t0, s.t1, s.t2).0)
    case CallRelease(id, principal, client, generation) =>
      w.(store := Release(w.store, id, principal, client, generation, s.t0).0)
    case CallBeginBound(id, principal, client, generation) =>
      Begun(w, principal, BeginBoundUse(w.store, id, principal, client, generation, s.t0, s.t1))
    case CallBegin(id, token, principal, client) =>
      Begun(w, principal, BeginUse(w.store, id, token, principal, client, s.t0, s.t1, s.t2))
    case CallEnd(t) => Ended(w, t, s.t0, s.t1)
    case CallVerify(id, token, principal, client) =>
      w.(store := Verify(w.store, id, token, principal, client, s.t0, s.t1).0)
    case CallComplete(id, token, principal) =>
      Done(w, id, Complete(w.store, id, token, principal, s.t0, s.t1))
    case CallCompleteVerified(interventionId, epoch) =>
      Verified(w, CompleteAfterVerification(c, w.store, interventionId, epoch, s.t0, s.t1))
    case CallRevoke(id) => w.(store := Revoke(w.store, id))
    case CallRevokeIntervention(interventionId) => w.(store := RevokeForIntervention(w.store, interventionId))
  }

  /** A begun use is outstanding until its end. */
  function Begun(w: World, principal: string, begun: (Store, Result<Use>)): World {
    w.(store := begun.0,
       outstanding :=
         if begun.1.Err? then w.outstanding
         else w.outstanding + multiset{
           Ticket(begun.1.value.locator.id, principal, begun.1.value.client, begun.1.value.generation)})
  }

  function Ended(w: World, t: Ticket, t0: nat, t1: nat): World {
    w.(store := EndUse(w.store, t.id, t.principal, t.client, t.generation, t0, t1),
       outstanding := w.outstanding - multiset{t})
  }

  function Done(w: World, id: Id, done: (Store, Result<Completion>)): World {
    w.(store := done.0,
       firsts := if done.1.Ok? && !done.1.value.alreadyCompleted then w.firsts + multiset{id} else w.firsts)
  }

  function Verified(w: World, done: (Store, map<Id, Completion>)): World {
    w.(store := done.0,
       firsts := w.firsts + multiset(set id | id in done.1 && !done.1[id].alreadyCompleted))
  }

  // ---------------------------------------------------------------- the invariant

  /** Of the outstanding uses of an active record, all are its current client's, and it counts them. */
  predicate Counted(w: World, id: Id, r: Record) {
    && (r.client.None? ==> r.inFlight == 0 && forall u | u in w.outstanding :: u.id != id)
    && (r.client.Some? ==>
          && r.inFlight == w.outstanding[TicketOf(id, r)]
          && forall u | u in w.outstanding && u.id == id :: u == TicketOf(id, r))
  }

  predicate RecordOk(c: Config, w: World, id: Id, r: Record) {
    && id in w.births && w.births[id] == BirthOf(c, r) && NulFree(id)
    && (r.client.None? <==> r.generation == 0)
    && (r.client.Some? ==> ClientShape(r.client.value))
    && (r.completed ==> r.revoked && r.released)
    && (!r.completed ==> r.completionExpiresAt == r.expiresAt + c.completionGrace)
    && r.completionExpiresAt <= r.expiresAt + 2 * c.completionGrace
    && w.firsts[id] == (if r.completed then 1 else 0)
    && (Live(r, w.clock) ==> Counted(w, id, r))
  }

  ghost predicate WorldOk(c: Config, w: World) {
    && (forall id | id in w.store :: RecordOk(c, w, id, w.store[id]))
    && OneLive(w.store, w.clock)
    && (forall id | id in w.firsts :: id in w.births && w.firsts[id] <= 1)
    && (forall u | u in w.outstanding :: u.id in w.births)
  }

  /** Nothing but the record `id` and its own history changed. */
  ghost predicate OnlyAt(w: World, w': World, id: Id) {
    && id in w.store && id in w'.store
    && w'.store == w.store[id := w'.store[id]]
    && w'.births == w.births
    && w.clock <= w'.clock
    && (forall u | u in w.outstanding || u in w'.outstanding ::
          u.id != id ==> w'.outstanding[u] == w.outstanding[u])
    && (forall i | i in w.firsts || i in w'.firsts :: i != id ==> w'.firsts[i] == w.firsts[i])
  }

  lemma {:induction false} OthersOk(c: Config, w: World, w': World, id: Id, i: Id)
    requires OnlyAt(w, w', id) && i in w.store && i != id
    requires RecordOk(c, w, i, w.store[i])
    ensures RecordOk(c, w', i, w'.store[i]) && w'.store[i] == w.store[i]
  {
    var r := w.store[i];
    assert w'.firsts[i] == w.firsts[i];
    if r.client.Some? {
      assert TicketOf(i, r).id == i;
      assert w'.outstanding[TicketOf(i, r)] == w.outstanding[TicketOf(i, r)];
    }
  }

  lemma {:induction false} ChangedOneLive(s: Store, now: nat, s': Store, later: nat, id: Id)
    requires OneLive(s, now) && now <= later && id in s && id in s' && s' == s[id := s'[id]]
    requires s'[id].interventionId == s[id].interventionId && (Live(s'[id], later) ==> Live(s[id], now))
    ensures OneLive(s', later)
  {
  }

  /** A change at one record that gives it no new authority keeps the invariant. */
  lemma {:induction false} ChangedAt(c: Config, w: World, w': World, id: Id)
    requires WorldOk(c, w) && OnlyAt(w, w', id)
    requires RecordOk(c, w', id, w'.store[id])
    requires Live(w'.store[id], w'.clock) ==> Live(w.store[id], w.clock)
    requires w'.firsts[id] <= 1
    ensures WorldOk(c, w')
  {
    assert RecordOk(c, w, id, w.store[id]);
    assert BirthOf(c, w'.store[id]) == BirthOf(c, w.store[id]);
    assert id in w'.births;
    hide RecordOk;
    ChangedOneLive(w.store, w.clock, w'.store, w'.clock, id);
    hide OneLive, Live, BirthOf;
    forall i | i in w'.store
      ensures RecordOk(c, w', i, w'.store[i])
    {
      if i != id {
        OthersOk(c, w, w', id, i);
      }
    }
  }

  /** Records may be dropped and authority withdrawn while time passes. */
  lemma {:induction false} Weakened(c: Config, w: World, w': World)
    requires WorldOk(c, w)
    requires w'.store.Keys <= w.store.Keys
    requires forall id | id in w'.store ::
      var r := w.store[id];
      w'.store[id] == r || w'.store[id] == r.(revoked := true)
    requires w'.births == w.births && w'.outstanding == w.outstanding && w'.firsts == w.firsts
    requires w.clock <= w'.clock
    ensures WorldOk(c, w')
  {
    forall id | id in w'.store
      ensures RecordOk(c, w', id, w'.store[id])
    {
      assert RecordOk(c, w, id, w.store[id]);
    }
    assert forall id | id in w'.store :: BirthOf(c, w'.store[id]) == BirthOf(c, w.store[id]);
  }

  /** A new record joins records that hold no live authority for its intervention. */
  lemma {:induction false} CreatedOk(c: Config, w: World, w': World, id: Id, r: Record)
    requires WorldOk(c, w) && id !in w.births && NulFree(id)
    requires w' == w.(store := w.store[id := r], births := w.births[id := BirthOf(c, r)])
    requires r.client.None? && r.generation == 0 && r.inFlight == 0 && !r.completed
    requires r.completionExpiresAt == r.expiresAt + c.completionGrace
    requires forall a | a in w.store && w.store[a].interventionId == r.interventionId :: !Live(w.store[a], w.clock)
    ensures WorldOk(c, w')
  {
    assert id !in w.store by {
      assert forall i | i in w.store :: RecordOk(c, w, i, w.store[i]);
    }
    forall i | i in w'.store
      ensures RecordOk(c, w', i, w'.store[i])
    {
      if i != id {
        assert RecordOk(c, w, i, w.store[i]);
      }
    }
  }

  /** What ensuring a session does: either nothing but pruning, or a new record beside superseded ones. */
  ghost predicate EnsureEffect(c: Config, w: World, s: Step, w': World)
    requires s.call.CallEnsure?
  {
    var e, p, kept := s.call, Prune(w.store, s.t0), w.(clock := s.t2);
    || w' == kept.(store := p)
    || var r := NewRecord(c, e.interventionId, e.epoch, e.principal, s.t1);
       w' == kept.(store := Superseded(p, e.interventionId, s.t1)[e.createdId := r],
                   births := w.births[e.createdId := BirthOf(c, r)])
  }

  lemma {:induction false} EnsureEffects(c: Config, w: World, s: Step)
    requires s.call.CallEnsure? && s.call.createdId !in w.store
    ensures EnsureEffect(c, w, s, Next(c, w, s))
  {
    hide LocatorOf, Superseded, Live;
  }

  lemma {:induction false} EnsureOk(c: Config, w: World, s: Step)
    requires WorldOk(c, w) && s.call.CallEnsure? && Enabled(w, s)
    ensures WorldOk(c, Next(c, w, s))
  {
    var e, p, w' := s.call, Prune(w.store, s.t0), Next(c, w, s);
    var kept := w.(store := p, clock := s.t2);
    Known(c, w);
    EnsureEffects(c, w, s);
    Weakened(c, w, kept);
    hide Next, RecordOk, OneLive, Prune;
    if w' != kept {
      var r := NewRecord(c, e.interventionId, e.epoch, e.principal, s.t1);
      var before := kept.(store := Superseded(p, e.interventionId, s.t1));
      Weakened(c, kept, before);
      CreatedOk(c, before, w', e.createdId, r);
    }
  }

  lemma {:induction false} Known(c: Config, w: World)
    requires WorldOk(c, w)
    ensures w.store.Keys <= w.births.Keys
  {
    assert forall i | i in w.store :: RecordOk(c, w, i, w.store[i]);
  }

  lemma {:induction false} ClaimOk(c: Config, w: World, s: Step)
    requires WorldOk(c, w) && s.call.CallClaim? && Enabled(w, s)
    ensures WorldOk(c, Next(c, w, s))
  {
    hide Capability, ReconnectHandle, LocatorOf;
    var id := s.call.id;
    var w' := Next(c, w, s);
    if id in w.store && w'.store != w.store {
      assert RecordOk(c, w, id, w.store[id]);
      ChangedAt(c, w, w', id);
    } else {
      Weakened(c, w, w');
    }
  }

  lemma {:induction false} ReconnectOk(c: Config, w: World, s: Step)
    requires WorldOk(c, w) && s.call.CallReconnect? && Enabled(w, s)
    ensures WorldOk(c, Next(c, w, s))
  {
    hide Capability, ReconnectHandle, LocatorOf;
    var id := s.call.id;
    var w' := Next(c, w, s);
    if id in w.store && w'.store != w.store {
      var r, r' := w.store[id], w'.store[id];
      assert RecordOk(c, w, id, r);
      assert w.outstanding[TicketOf(id, r)] == 0;
      assert forall u | u in w.outstanding :: u.id != id;
      assert TicketOf(id, r').id == id;
      ChangedAt(c, w, w', id);
    } else {
      Weakened(c, w, w');
    }
  }

  lemma {:induction false} ReleaseOrVerifyOk(c: Config, w: World, s: Step)
    requires WorldOk(c, w) && (s.call.CallRelease? || s.call.CallVerify?) && Enabled(w, s)
    ensures WorldOk(c, Next(c, w, s))
  {
    hide Capability, LocatorOf;
    var id := s.call.id;
    var w' := Next(c, w, s);
    if id in w.store && w'.store != w.store {
      assert RecordOk(c, w, id, w.store[id]);
      ChangedAt(c, w, w', id);
    } else {
      Weakened(c, w, w');
    }
  }

  /** A use has begun on a record: one more in flight, one more outstanding. */
  lemma {:induction false} BegunOk(c: Config, w: World, w': World, id: Id, seen: Option<nat>)
    requires WorldOk(c, w) && id in w.store && w.clock <= w'.clock
    requires w.store[id].client.Some?
    requires var r := w.store[id];
      w' == w.(
        store := w.store[id := r.(inFlight := r.inFlight + 1, lastSeenAt := seen)],
        clock := w'.clock, outstanding := w.outstanding + multiset{TicketOf(id, r)})
    ensures WorldOk(c, w')
  {
    assert RecordOk(c, w, id, w.store[id]);
    ChangedAt(c, w, w', id);
  }

  /** Only the last-seen time of a record changed. */
  lemma {:induction false} SeenOk(c: Config, w: World, w': World, id: Id, seen: Option<nat>)
    requires WorldOk(c, w) && id in w.store && w.clock <= w'.clock
    requires w' == w.(store := w.store[id := w.store[id].(lastSeenAt := seen)], clock := w'.clock)
    ensures WorldOk(c, w')
  {
    assert RecordOk(c, w, id, w.store[id]);
    ChangedAt(c, w, w', id);
  }

  lemma {:induction false} BeginBoundOk(c: Config, w: World, id: Id, principal: string, client: string,
      generation: nat, s: Step)
    requires WorldOk(c, w)
    ensures WorldOk(c, Begun(w, principal, BeginBoundUse(w.store, id, principal, client, generation, s.t0, s.t1)))
  {
    hide RecordOk, OneLive, ClientShape;
    var begun := BeginBoundUse(w.store, id, principal, client, generation, s.t0, s.t1);
    if begun.1.Ok? {
      BegunOk(c, w, Begun(w, principal, begun), id, Some(s.t1));
    } else {
      assert Begun(w, principal, begun) == w;
    }
  }

  /** `beginUse` either verifies and counts, or only marks the record seen, or does nothing. */
  lemma {:induction false} BeginUseEffect(s: Store, id: Id, token: Token, principal: string, client: string,
      t0: nat, t1: nat, t2: nat)
    ensures var (s', use) := BeginUse(s, id, token, principal, client, t0, t1, t2);
      if use.Ok? then
        && id in s && IsClient(s[id], client) && s[id].principal == principal
        && use.value == UseOf(id, s[id])
        && s' == s[id := s[id].(inFlight := s[id].inFlight + 1, lastSeenAt := Some(t1))]
      else s' == s || (id in s && s' == s[id := s[id].(lastSeenAt := Some(t1))])
  {
    hide Capability, ClientShape;
  }

  lemma {:induction false} BeginOk(c: Config, w: World, id: Id, token: Token, principal: string,
      client: string, s: Step)
    requires WorldOk(c, w)
    ensures WorldOk(c, Begun(w, principal, BeginUse(w.store, id, token, principal, client, s.t0, s.t1, s.t2)))
  {
    var begun := BeginUse(w.store, id, token, principal, client, s.t0, s.t1, s.t2);
    BeginUseEffect(w.store, id, token, principal, client, s.t0, s.t1, s.t2);
    hide WorldOk, BeginUse;
    var w' := Begun(w, principal, begun);
    if begun.1.Ok? {
      BegunOk(c, w, w', id, Some(s.t1));
    } else if begun.0 != w.store {
      SeenOk(c, w, w', id, Some(s.t1));
    } else {
      assert w' == w;
    }
  }

  /** The clock may advance before a call's effect. */
  lemma {:induction false} LaterOk(c: Config, w: World, clock: nat)
    requires WorldOk(c, w) && w.clock <= clock
    ensures WorldOk(c, w.(clock := clock))
  {
    Weakened(c, w, w.(clock := clock));
  }

  lemma {:induction false} EndOk(c: Config, w: World, t: Ticket, t0: nat, t1: nat, clock: nat)
    requires WorldOk(c, w) && t in w.outstanding && w.clock <= t0 <= clock
    ensures WorldOk(c, Ended(w.(clock := clock), t, t0, t1))
  {
    var w' := Ended(w.(clock := clock), t, t0, t1);
    if t.id in w.store {
      assert RecordOk(c, w, t.id, w.store[t.id]);
      ChangedAt(c, w, w', t.id);
    } else {
      hide OneLive, BirthOf;
      forall i | i in w'.store
        ensures RecordOk(c, w', i, w'.store[i])
      {
        assert RecordOk(c, w, i, w.store[i]);
      }
      LaterOk(c, w, clock);
    }
  }

  lemma {:induction false} CompleteOk(c: Config, w: World, id: Id, token: Token, principal: string, t0: nat, t1: nat)
    requires WorldOk(c, w)
    ensures WorldOk(c, Done(w, id, Complete(w.store, id, token, principal, t0, t1)))
  {
    hide CompletionCapability, LocatorOf, OneLive;
    var w' := Done(w, id, Complete(w.store, id, token, principal, t0, t1));
    if w'.store != w.store {
      assert RecordOk(c, w, id, w.store[id]);
      ChangedAt(c, w, w', id);
    } else if id in w.store {
      assert RecordOk(c, w, id, w.store[id]);
      assert w.store[id := w.store[id]] == w.store;
      assert w' == w;
    }
  }

  /** Every completable record of the intervention is completed, in a store already pruned. */
  lemma {:induction false} VerifiedOk(c: Config, w: World, w': World, interventionId: string, epoch: nat, now: nat)
    requires WorldOk(c, w)
    requires w' == w.(store := w'.store, firsts := w'.firsts)
    requires w'.store == map id | id in w.store :: AfterVerification(c, w.store[id], interventionId, epoch, now)
    requires w'.firsts == w.firsts +
      multiset(set id | id in w.store && Concerns(w.store[id], interventionId, epoch) && Completable(w.store[id], now))
    ensures WorldOk(c, w')
  {
    forall id | id in w'.store
      ensures RecordOk(c, w', id, w'.store[id])
      ensures BirthOf(c, w'.store[id]) == BirthOf(c, w.store[id])
      ensures Live(w'.store[id], w'.clock) ==> Live(w.store[id], w.clock)
    {
      assert RecordOk(c, w, id, w.store[id]);
    }
    forall id | id in w'.firsts
      ensures id in w'.births && w'.firsts[id] <= 1
    {
      if id in w.store {
        assert RecordOk(c, w, id, w.store[id]);
      }
    }
  }

  lemma {:induction false} CompleteVerifiedOk(c: Config, w: World, interventionId: string, epoch: nat, t0: nat, t1: nat)
    requires WorldOk(c, w)
    ensures WorldOk(c, Verified(w, CompleteAfterVerification(c, w.store, interventionId, epoch, t0, t1)))
  {
    hide LocatorOf, RecordOk, OneLive, AfterVerification;
    var done := CompleteAfterVerification(c, w.store, interventionId, epoch, t0, t1);
    var kept := w.(store := Prune(w.store, t0));
    Weakened(c, w, kept);
    hide Prune;
    assert (set id | id in done.1 && !done.1[id].alreadyCompleted) ==
      set id | id in kept.store && Concerns(kept.store[id], interventionId, epoch) && Completable(kept.store[id], t1);
    VerifiedOk(c, kept, Verified(w, done), interventionId, epoch, t1);
  }

  lemma {:induction false} RevokeOk(c: Config, w: World, s: Step)
    requires WorldOk(c, w) && (s.call.CallRevoke? || s.call.CallRevokeIntervention?) && Enabled(w, s)
    ensures WorldOk(c, Next(c, w, s))
  {
    Weakened(c, w, Next(c, w, s));
  }

  lemma {:induction false} NextOk(c: Config, w: World, s: Step)
    requires WorldOk(c, w) && Enabled(w, s)
    ensures WorldOk(c, Next(c, w, s))
  {
    hide WorldOk;
    match s.call
    case CallEnsure(_, _, _, _) => EnsureOk(c, w, s);
    case CallClaim(_, _, _) => ClaimOk(c, w, s);
    case CallReconnect(_, _, _, _) => ReconnectOk(c, w, s);
    case CallRelease(_, _, _, _) => ReleaseOrVerifyOk(c, w, s);
    case CallVerify(_, _, _, _) => ReleaseOrVerifyOk(c, w, s);
    case CallBeginBound(id, principal, client, generation) =>
      LaterOk(c, w, s.t2);
      BeginBoundOk(c, w.(clock := s.t2), id, principal, client, generation, s);
    case CallBegin(id, token, principal, client) =>
      LaterOk(c, w, s.t2);
      BeginOk(c, w.(clock := s.t2), id, token, principal, client, s);
    case CallEnd(t) => EndOk(c, w, t, s.t0, s.t1, s.t2);
    case CallComplete(id, token, principal) =>
      LaterOk(c, w, s.t2);
      CompleteOk(c, w.(clock := s.t2), id, token, principal, s.t0, s.t1);
    case CallCompleteVerified(interventionId, epoch) =>
      LaterOk(c, w, s.t2);
      CompleteVerifiedOk(c, w.(clock := s.t2), interventionId, epoch, s.t0, s.t1);
    case CallRevoke(_) => RevokeOk(c, w, s);
    case CallRevokeIntervention(_) => RevokeOk(c, w, s);
  }
}
