/**
 * What the callers of the session manager know: a ledger kept from the answers they were given, without a
 * look at the records. It decides what every later call answers.
 */
module SessionLedger {
  import opened Options
  import opened Fields
  import opened Session
  import opened SessionRuns
  import opened SessionTheorems
  import opened Grants

  datatype Ledger = Ledger(
    over: set<Id>,          // revoked, superseded or completed
    done: map<Id, int>,     // completed, with the end of the completion grace
    grants: map<Id, Grant>, // the last grant given out
    released: set<Id>,      // released since that grant
    seen: map<Id, nat>)     // when the client was last heard of

  const BLANK := Ledger({}, map[], map[], {}, map[])

  /** When the lease of a session ends, and when its completion grace does. */
  function LeaseEnd(c: Config, w: World, id: Id): int
    requires id in w.births
  {
    w.births[id].createdAt + c.ttl
  }

  function Deadline(c: Config, w: World, l: Ledger, id: Id): int
    requires id in w.births
  {
    if id in l.done then l.done[id] else LeaseEnd(c, w, id) + c.completionGrace
  }

  /** The session still carries authority. */
  predicate Open(c: Config, w: World, l: Ledger, id: Id, now: nat) {
    id in w.births && id !in l.over && now < LeaseEnd(c, w, id)
  }

  /** ... for a client that was granted it. */
  predicate Held(c: Config, w: World, l: Ledger, id: Id, principal: string, client: string, now: nat) {
    && Open(c, w, l, id, now) && principal == w.births[id].principal
    && id in l.grants && client == l.grants[id].client
  }

  function Given(l: Ledger, id: Id, answer: Result<Grant>, now: nat): Ledger {
    if answer.Err? then l
    else l.(grants := l.grants[id := answer.value], released := l.released - {id}, seen := l.seen[id := now])
  }

  function Seen(l: Ledger, id: Id, now: nat): Ledger {
    l.(seen := l.seen[id := now])
  }

  /** The sessions of an intervention that a new one takes over from. */
  function Predecessors(c: Config, w: World, interventionId: string, now: nat): set<Id> {
    set id | id in w.births && w.births[id].interventionId == interventionId && now < LeaseEnd(c, w, id)
  }

  function SessionsOf(w: World, interventionId: string): set<Id> {
    set id | id in w.births && w.births[id].interventionId == interventionId
  }

  function SeenAt(l: Ledger, id: Id): nat {
    if id in l.seen then l.seen[id] else 0
  }

  /** The ledger after a call, from its answer. */
  ghost function Heard(c: Config, w: World, l: Ledger, s: Step): Ledger {
    match s.call
    case CallEnsure(interventionId, epoch, principal, createdId) =>
      var locator := Ensure(c, w.store, interventionId, epoch, principal, createdId, s.t0, s.t1).1;
      if locator.id != createdId then l
      else l.(over := l.over + Predecessors(c, w, interventionId, s.t1))
    case CallClaim(id, principal, client) =>
      Given(l, id, Claim(w.store, id, principal, client, s.t0, s.t1).1, s.t1)
    case CallReconnect(id, principal, handle, next) =>
      Given(l, id, Reconnect(c, w.store, id, principal, handle, next, s.t0, s.t1, s.t2).1, s.t2)
    case CallRelease(id, principal, client, generation) =>
      if Release(w.store, id, principal, client, generation, s.t0).1.Err? then l
      else l.(released := l.released + {id})
    case CallBeginBound(id, principal, client, generation) =>
      if BeginBoundUse(w.store, id, principal, client, generation, s.t0, s.t1).1.Err? then l else Seen(l, id, s.t1)
    case CallBegin(id, token, principal, client) =>
      // a begin that meets the end of the lease was heard all the same
      if Verify(w.store, id, token, principal, client, s.t0, s.t1).1.Err? then l else Seen(l, id, s.t1)
    case CallEnd(t) => if Open(c, w, l, t.id, s.t0) then Seen(l, t.id, s.t1) else l
    case CallVerify(id, token, principal, client) =>
      if Verify(w.store, id, token, principal, client, s.t0, s.t1).1.Err? then l else Seen(l, id, s.t1)
    case CallComplete(id, token, principal) =>
      var answer := Complete(w.store, id, token, principal, s.t0, s.t1).1;
      if answer.Err? || answer.value.alreadyCompleted || id !in w.births then l
      else l.(over := l.over + {id}, done := l.done[id := LeaseEnd(c, w, id) + c.completionGrace])
    case CallCompleteVerified(interventionId, epoch) =>
      var ids := Newly(CompleteAfterVerification(c, w.store, interventionId, epoch, s.t0, s.t1).1);
      l.(over := l.over + ids, done := l.done + map id | id in ids :: s.t1 + c.completionGrace)
    case CallRevoke(id) => if id in w.births then l.(over := l.over + {id}) else l
    case CallRevokeIntervention(interventionId) => l.(over := l.over + SessionsOf(w, interventionId))
  }

  // ---------------------------------------------------------------- records and ledger

  predicate RecordKept(c: Config, w: World, l: Ledger, id: Id)
    requires id in w.births && id in w.store
  {
    var r := w.store[id];
    && (r.revoked <==> id in l.over)
    && (r.completed <==> id in l.done)
    && r.completionExpiresAt == Deadline(c, w, l, id)
    && (r.client.Some? <==> id in l.grants)
    && (r.client.Some? ==>
          l.grants[id] == GrantOf(id, r) && id in l.seen && r.lastSeenAt == Some(l.seen[id]))
    && (!r.revoked ==> (r.released <==> id in l.released))
  }

  /** A record is gone only when nothing is left of its authority. */
  predicate EntryKept(c: Config, w: World, l: Ledger, id: Id)
    requires id in w.births
  {
    if id in w.store then RecordKept(c, w, l, id)
    else
      || id in l.over
      || (LeaseEnd(c, w, id) <= w.clock && (id in l.grants ==> LeaseEnd(c, w, id) + c.completionGrace <= w.clock))
  }

  ghost predicate LedgerKept(c: Config, w: World, l: Ledger) {
    && l.over <= w.births.Keys && l.done.Keys <= l.over
    && l.grants.Keys <= w.births.Keys && l.released <= w.births.Keys
    && forall id | id in w.births :: EntryKept(c, w, l, id)
  }

  // ---------------------------------------------------------------- every call keeps them in step

  /** The ledgers agree on all but one id. */
  predicate SameElsewhere(l: Ledger, l': Ledger, i: Id) {
    && (i in l.over <==> i in l'.over)
    && (i in l.done <==> i in l'.done) && (i in l.done ==> l.done[i] == l'.done[i])
    && (i in l.grants <==> i in l'.grants) && (i in l.grants ==> l.grants[i] == l'.grants[i])
    && (i in l.released <==> i in l'.released)
    && (i in l.seen <==> i in l'.seen) && (i in l.seen ==> l.seen[i] == l'.seen[i])
  }

  ghost predicate OnlyEntry(l: Ledger, l': Ledger, id: Id) {
    forall i | i != id :: SameElsewhere(l, l', i)
  }

  lemma {:induction false} ElsewhereKept(c: Config, w: World, l: Ledger, w': World, l': Ledger, i: Id)
    requires i in w.births && EntryKept(c, w, l, i) && SameElsewhere(l, l', i)
    requires i in w'.births && w'.births[i] == w.births[i] && w.clock <= w'.clock
    requires i in w'.store ==> i in w.store && w'.store[i] == w.store[i]
    requires i in w.store ==> i in w'.store
    ensures EntryKept(c, w', l', i)
  {
    hide GrantOf;
  }

  lemma {:induction false} Kept(c: Config, w: World, l: Ledger, id: Id)
    requires LedgerKept(c, w, l)
    ensures id in w.births ==> EntryKept(c, w, l, id)
    ensures id in l.done ==> id in l.over
  {
  }

  /** A call that concerns one record. */
  lemma {:induction false} OneChanged(c: Config, w: World, l: Ledger, w': World, l': Ledger, id: Id)
    requires LedgerKept(c, w, l) && w'.births == w.births && w.clock <= w'.clock
    requires id in w.births && id in w.store && id in w'.store && w'.store == w.store[id := w'.store[id]]
    requires OnlyEntry(l, l', id)
    requires RecordKept(c, w', l', id)
    requires id in l'.done ==> id in l'.over
    ensures LedgerKept(c, w', l')
  {
    hide RecordKept;
    forall i | i in w'.births
      ensures EntryKept(c, w', l', i)
    {
      if i != id {
        ElsewhereKept(c, w, l, w', l', i);
      }
    }
    forall i | i in l'.over || i in l'.done || i in l'.grants || i in l'.released
      ensures i in w'.births && (i in l'.done ==> i in l'.over)
    {
      if i != id {
        assert SameElsewhere(l, l', i);
      }
    }
  }

  /** A call that changed nothing but the clock. */
  lemma {:induction false} OnlyClock(c: Config, w: World, l: Ledger, w': World)
    requires LedgerKept(c, w, l) && w'.births == w.births && w'.store == w.store && w.clock <= w'.clock
    ensures LedgerKept(c, w', l)
  {
    forall i | i in w'.births
      ensures EntryKept(c, w', l, i)
    {
      ElsewhereKept(c, w, l, w', l, i);
    }
  }

  /** The record says what the ledger says of a session that is open. */
  lemma {:induction false} OpenIsActive(c: Config, w: World, l: Ledger, id: Id, now: nat)
    requires WorldOk(c, w) && LedgerKept(c, w, l) && w.clock <= now
    ensures Open(c, w, l, id, now) <==> Active(w.store, id, now)
    ensures id in w.store ==> id in w.births && RecordOk(c, w, id, w.store[id]) && RecordKept(c, w, l, id)
    ensures id in w.store ==> w.store[id].expiresAt == LeaseEnd(c, w, id)
    ensures Open(c, w, l, id, now) ==> id in w.store
  {
    hide GrantOf, OneLive;
    if id in w.store {
      assert RecordOk(c, w, id, w.store[id]);
    }
    if id in w.births {
      assert EntryKept(c, w, l, id);
    }
  }

  // ---------------------------------------------------------------- the steps

  lemma {:induction false} GivenOnly(l: Ledger, id: Id, g: Grant, now: nat)
    ensures OnlyEntry(l, Given(l, id, Ok(g), now), id)
  {
  }

  lemma {:induction false} SeenOnly(l: Ledger, id: Id, now: nat)
    ensures OnlyEntry(l, Seen(l, id, now), id)
  {
  }

  lemma {:induction false} ReleasedOnly(l: Ledger, id: Id)
    ensures OnlyEntry(l, l.(released := l.released + {id}), id)
  {
  }

  lemma {:induction false} OverOnly(l: Ledger, id: Id, end: int)
    ensures OnlyEntry(l, l.(over := l.over + {id}), id)
    ensures OnlyEntry(l, l.(over := l.over + {id}, done := l.done[id := end]), id)
  {
  }

  /** A grant was given out. */
  lemma {:induction false} GivenKept(c: Config, w: World, l: Ledger, w': World, id: Id, g: Grant, now: nat)
    requires LedgerKept(c, w, l) && id in w.births && id in w.store && id in w'.store
    requires w'.births == w.births && w.clock <= w'.clock && w'.store == w.store[id := w'.store[id]]
    requires var r, r' := w.store[id], w'.store[id];
      && r' == r.(client := r'.client, generation := r'.generation, released := false, lastSeenAt := Some(now))
      && r'.client.Some? && g == GrantOf(id, r')
    ensures LedgerKept(c, w', Given(l, id, Ok(g), now))
  {
    Kept(c, w, l, id);
    GivenOnly(l, id, g, now);
    hide LedgerKept, Capability, ReconnectHandle, OnlyEntry, EntryKept;
    OneChanged(c, w, l, w', Given(l, id, Ok(g), now), id);
  }

  /** A client was heard of, and perhaps counted. */
  lemma {:induction false} SeenKept(c: Config, w: World, l: Ledger, w': World, id: Id, inFlight: nat, now: nat)
    requires LedgerKept(c, w, l) && id in w.births && id in w.store && w.store[id].client.Some?
    requires w'.births == w.births && w.clock <= w'.clock
    requires w'.store == w.store[id := w.store[id].(inFlight := inFlight, lastSeenAt := Some(now))]
    ensures LedgerKept(c, w', Seen(l, id, now))
  {
    Kept(c, w, l, id);
    SeenOnly(l, id, now);
    hide LedgerKept, Capability, ReconnectHandle, OnlyEntry, EntryKept;
    OneChanged(c, w, l, w', Seen(l, id, now), id);
  }

  lemma {:induction false} ClaimKept(c: Config, w: World, l: Ledger, s: Step)
    requires WorldOk(c, w) && LedgerKept(c, w, l) && Enabled(w, s) && s.call.CallClaim?
    ensures LedgerKept(c, Next(c, w, s), Heard(c, w, l, s))
  {
    var id, w' := s.call.id, Next(c, w, s);
    var answer := Claim(w.store, id, s.call.principal, s.call.client, s.t0, s.t1).1;
    OpenIsActive(c, w, l, id, s.t0);
    hide WorldOk, Capability, ReconnectHandle, Counted, OneLive, Shaped, LedgerKept, RecordKept, Given;
    if answer.Ok? {
      GivenKept(c, w, l, w', id, answer.value, s.t1);
    } else {
      assert w'.store == w.store;
      OnlyClock(c, w, l, w');
      assert Given(l, id, answer, s.t1) == l by { Refused(l, id, answer, s.t1); }
    }
  }

  lemma {:induction false} Refused(l: Ledger, id: Id, answer: Result<Grant>, now: nat)
    requires answer.Err?
    ensures Given(l, id, answer, now) == l
  {
  }

  lemma {:induction false} ReconnectKept(c: Config, w: World, l: Ledger, s: Step)
    requires WorldOk(c, w) && LedgerKept(c, w, l) && Enabled(w, s) && s.call.CallReconnect?
    ensures LedgerKept(c, Next(c, w, s), Heard(c, w, l, s))
  {
    var id, w' := s.call.id, Next(c, w, s);
    var answer := Reconnect(c, w.store, id, s.call.principal, s.call.handle, s.call.next, s.t0, s.t1, s.t2).1;
    OpenIsActive(c, w, l, id, s.t0);
    hide WorldOk, Capability, ReconnectHandle, Counted, OneLive, Shaped, LedgerKept, RecordKept, Given, RecordOk;
    if answer.Ok? {
      GivenKept(c, w, l, w', id, answer.value, s.t2);
    } else {
      assert w'.store == w.store;
      OnlyClock(c, w, l, w');
      assert Given(l, id, answer, s.t2) == l by { Refused(l, id, answer, s.t2); }
    }
  }

  lemma {:induction false} ReleaseKept(c: Config, w: World, l: Ledger, s: Step)
    requires WorldOk(c, w) && LedgerKept(c, w, l) && Enabled(w, s) && s.call.CallRelease?
    ensures LedgerKept(c, Next(c, w, s), Heard(c, w, l, s))
  {
    hide WorldOk, Counted, OneLive, Shaped, LedgerKept, OnlyEntry, RecordOk;
    var id, w', l' := s.call.id, Next(c, w, s), Heard(c, w, l, s);
    OpenIsActive(c, w, l, id, s.t0);
    Kept(c, w, l, id);
    ReleasedOnly(l, id);
    if Release(w.store, id, s.call.principal, s.call.client, s.call.generation, s.t0).1.Ok? {
      OneChanged(c, w, l, w', l', id);
    } else {
      assert w'.store == w.store;
      OnlyClock(c, w, l, w');
    }
  }

  lemma {:induction false} BeginBoundKept(c: Config, w: World, l: Ledger, s: Step)
    requires WorldOk(c, w) && LedgerKept(c, w, l) && Enabled(w, s) && s.call.CallBeginBound?
    ensures LedgerKept(c, Next(c, w, s), Heard(c, w, l, s))
  {
    var id, w', l' := s.call.id, Next(c, w, s), Heard(c, w, l, s);
    OpenIsActive(c, w, l, id, s.t0);
    hide WorldOk, LedgerKept, RecordKept, Shaped;
    if BeginBoundUse(w.store, id, s.call.principal, s.call.client, s.call.generation, s.t0, s.t1).1.Ok? {
      SeenKept(c, w, l, w', id, w.store[id].inFlight + 1, s.t1);
    } else {
      assert w'.store == w.store;
      OnlyClock(c, w, l, w');
    }
  }

  lemma {:induction false} VerifyKept(c: Config, w: World, l: Ledger, s: Step)
    requires WorldOk(c, w) && LedgerKept(c, w, l) && Enabled(w, s) && s.call.CallVerify?
    ensures LedgerKept(c, Next(c, w, s), Heard(c, w, l, s))
  {
    var id, w', l' := s.call.id, Next(c, w, s), Heard(c, w, l, s);
    OpenIsActive(c, w, l, id, s.t0);
    hide WorldOk, LedgerKept, RecordKept, Capability, Shaped;
    if Verify(w.store, id, s.call.token, s.call.principal, s.call.client, s.t0, s.t1).1.Ok? {
      SeenKept(c, w, l, w', id, w.store[id].inFlight, s.t1);
    } else {
      assert w'.store == w.store;
      OnlyClock(c, w, l, w');
    }
  }

  lemma {:induction false} BeginEffect(
      s: Store, id: Id, token: Token, principal: string, client: string, t0: nat, t1: nat, t2: nat)
    ensures var s' := BeginUse(s, id, token, principal, client, t0, t1, t2).0;
      if Verify(s, id, token, principal, client, t0, t1).1.Err? then s' == s
      else
        && id in s && s[id].client.Some? && id in s'
        && s' == s[id := s[id].(inFlight := s'[id].inFlight, lastSeenAt := Some(t1))]
  {
    hide Capability, Shaped;
  }

  lemma {:induction false} BeginKept(c: Config, w: World, l: Ledger, s: Step)
    requires WorldOk(c, w) && LedgerKept(c, w, l) && Enabled(w, s) && s.call.CallBegin?
    ensures LedgerKept(c, Next(c, w, s), Heard(c, w, l, s))
  {
    var id, w', l' := s.call.id, Next(c, w, s), Heard(c, w, l, s);
    OpenIsActive(c, w, l, id, s.t0);
    BeginEffect(w.store, id, s.call.token, s.call.principal, s.call.client, s.t0, s.t1, s.t2);
    hide WorldOk, LedgerKept, RecordKept, RecordOk, Verify, BeginUse;
    if Verify(w.store, id, s.call.token, s.call.principal, s.call.client, s.t0, s.t1).1.Ok? {
      SeenKept(c, w, l, w', id, w'.store[id].inFlight, s.t1);
    } else {
      assert w'.store == w.store;
      OnlyClock(c, w, l, w');
    }
  }

  lemma {:induction false} EndKept(c: Config, w: World, l: Ledger, s: Step)
    requires WorldOk(c, w) && LedgerKept(c, w, l) && Enabled(w, s) && s.call.CallEnd?
    ensures LedgerKept(c, Next(c, w, s), Heard(c, w, l, s))
  {
    var t, w', l' := s.call.ticket, Next(c, w, s), Heard(c, w, l, s);
    OpenIsActive(c, w, l, t.id, s.t0);
    hide WorldOk, LedgerKept, RecordKept, Shaped;
    if Open(c, w, l, t.id, s.t0) {
      SeenKept(c, w, l, w', t.id, Sub(w.store[t.id].inFlight, 1), s.t1);
    } else {
      assert w'.store == w.store;
      OnlyClock(c, w, l, w');
    }
  }

  lemma {:induction false} GrantSame(id: Id, r: Record, r': Record)
    requires SameBirth(r, r') && r'.client == r.client && r'.generation == r.generation
    ensures r.client.Some? ==> GrantOf(id, r') == GrantOf(id, r)
  {
  }

  /** A record that was not completed yet is. */
  lemma {:induction false} FinishedKept(c: Config, w: World, l: Ledger, w': World, id: Id)
    requires LedgerKept(c, w, l) && id in w.births && id in w.store && !w.store[id].completed
    requires w'.births == w.births && w.clock <= w'.clock && w'.store == w.store[id := Finished(w.store[id])]
    ensures LedgerKept(c, w', l.(over := l.over + {id}, done := l.done[id := LeaseEnd(c, w, id) + c.completionGrace]))
  {
    hide LedgerKept, GrantOf, OnlyEntry;
    Kept(c, w, l, id);
    var end := LeaseEnd(c, w, id) + c.completionGrace;
    OverOnly(l, id, end);
    GrantSame(id, w.store[id], w'.store[id]);
    OneChanged(c, w, l, w', l.(over := l.over + {id}, done := l.done[id := end]), id);
  }

  lemma {:induction false} FinishedAlready(r: Record)
    ensures r.completed && r.revoked && r.released ==> Finished(r) == r
  {
  }

  lemma {:induction false} CompleteKept(c: Config, w: World, l: Ledger, s: Step)
    requires WorldOk(c, w) && LedgerKept(c, w, l) && Enabled(w, s) && s.call.CallComplete?
    ensures LedgerKept(c, Next(c, w, s), Heard(c, w, l, s))
  {
    hide WorldOk, LedgerKept, RecordKept, CompletionCapability, TokenShape, Finished, Counted, OneLive;
    var id, w' := s.call.id, Next(c, w, s);
    OpenIsActive(c, w, l, id, s.t0);
    if id in w.store && w.store[id].completed {
      FinishedAlready(w.store[id]);
    }
    if Complete(w.store, id, s.call.token, s.call.principal, s.t0, s.t1).1.Ok? && !w.store[id].completed {
      FinishedKept(c, w, l, w', id);
    } else {
      assert w'.store == w.store;
      OnlyClock(c, w, l, w');
    }
  }

  lemma {:induction false} RevokeKept(c: Config, w: World, l: Ledger, s: Step)
    requires WorldOk(c, w) && LedgerKept(c, w, l) && Enabled(w, s) && s.call.CallRevoke?
    ensures LedgerKept(c, Next(c, w, s), Heard(c, w, l, s))
  {
    hide WorldOk, GrantOf, Counted, OneLive;
    var id, w', l' := s.call.id, Next(c, w, s), Heard(c, w, l, s);
    OpenIsActive(c, w, l, id, s.t0);
    OverOnly(l, id, 0);
    if id in w.store {
      Kept(c, w, l, id);
      GrantSame(id, w.store[id], w'.store[id]);
      hide LedgerKept, RecordOk, OnlyEntry;
      OneChanged(c, w, l, w', l', id);
    } else {
      hide RecordKept, OnlyEntry;
      forall i | i in w'.births
        ensures EntryKept(c, w', l', i)
      {
        assert EntryKept(c, w, l, i);
        if i != id {
          assert SameElsewhere(l, l', i) by { OnlyElsewhere(l, l', id, i); }
          ElsewhereKept(c, w, l, w', l', i);
        }
      }
    }
  }

  lemma {:induction false} OnlyElsewhere(l: Ledger, l': Ledger, id: Id, i: Id)
    requires OnlyEntry(l, l', id) && i != id
    ensures SameElsewhere(l, l', i)
  {
  }

  // calls that concern many records

  /** Records are pruned, and authority withdrawn from those that the ledger calls over now. */
  lemma {:induction false} WithdrawnKept(c: Config, w: World, l: Ledger, w': World, over: set<Id>, t0: nat)
    requires WorldOk(c, w) && LedgerKept(c, w, l) && w.clock <= t0 <= w'.clock && w'.births == w.births
    requires over <= w.births.Keys
    requires forall id | id in w'.store ::
      && id in w.store
      && w'.store[id] == if id in over then w.store[id].(revoked := true) else w.store[id]
    requires forall id | id in w.store && id !in w'.store :: Prunable(w.store[id], t0)
    ensures LedgerKept(c, w', l.(over := l.over + over))
  {
    var l' := l.(over := l.over + over);
    forall id | id in w'.births
      ensures EntryKept(c, w', l', id)
    {
      assert EntryKept(c, w, l, id);
      if id in w'.store {
        OpenIsActive(c, w, l, id, t0);
        StillKept(c, w, l, w', l', id);
      } else if id in w.store {
        OpenIsActive(c, w, l, id, t0);
        GoneKept(c, w, l, w', l', id, t0);
      }
    }
  }

  lemma {:induction false} StillKept(c: Config, w: World, l: Ledger, w': World, l': Ledger, id: Id)
    requires id in w.births && id in w.store && id in w'.store && RecordKept(c, w, l, id) && w'.births == w.births
    requires l' == l.(over := l'.over)
    requires w'.store[id] == if id in l'.over && id !in l.over then w.store[id].(revoked := true) else w.store[id]
    requires id in l.over ==> id in l'.over
    ensures RecordKept(c, w', l', id)
  {
  }

  lemma {:induction false} GoneKept(c: Config, w: World, l: Ledger, w': World, l': Ledger, id: Id, t0: nat)
    requires id in w.births && id in w.store && RecordKept(c, w, l, id) && RecordOk(c, w, id, w.store[id])
    requires l' == l.(over := l'.over) && l.over <= l'.over && l.done.Keys <= l.over
    requires w'.births == w.births && id !in w'.store && Prunable(w.store[id], t0) && t0 <= w'.clock
    ensures EntryKept(c, w', l', id)
  {
    hide GrantOf, Counted;
  }

  lemma {:induction false} RevokeInterventionKept(c: Config, w: World, l: Ledger, s: Step)
    requires WorldOk(c, w) && LedgerKept(c, w, l) && Enabled(w, s) && s.call.CallRevokeIntervention?
    ensures LedgerKept(c, Next(c, w, s), Heard(c, w, l, s))
  {
    var over := SessionsOf(w, s.call.interventionId);
    forall id | id in w.store
      ensures id in w.births && (id in over <==> w.store[id].interventionId == s.call.interventionId)
    {
      OpenIsActive(c, w, l, id, s.t0);
    }
    hide WorldOk, LedgerKept;
    WithdrawnKept(c, w, l, Next(c, w, s), over, s.t0);
  }

  /** One record, through a verified completion at t1 after pruning at t0. */
  predicate VerifiedEntry(c: Config, w: World, l: Ledger, w': World, l': Ledger, id: Id, t0: nat, t1: nat)
    requires id in w.store
  {
    var r := w.store[id];
    var newly := (id in l'.done) && id !in l.done;
    && (id in l.over ==> id in l'.over) && (id in l'.over <==> id in l.over || newly)
    && (id in l.done ==> id in l'.done && l'.done[id] == l.done[id])
    && (newly ==> l'.done[id] == t1 + c.completionGrace && id in w'.store)
    && (id !in w'.store ==> Prunable(r, t0))
    && (id in w'.store ==>
          w'.store[id] == if newly then Finished(r).(completionExpiresAt := t1 + c.completionGrace) else r)
  }

  lemma {:induction false} VerifiedEntryKept(
      c: Config, w: World, l: Ledger, w': World, l': Ledger, id: Id, t0: nat, t1: nat)
    requires id in w.births && id in w.store && RecordKept(c, w, l, id) && RecordOk(c, w, id, w.store[id])
    requires VerifiedEntry(c, w, l, w', l', id, t0, t1) && l' == l.(over := l'.over, done := l'.done)
    requires w'.births == w.births && t0 <= w'.clock && (id in l.done ==> id in l.over)
    ensures EntryKept(c, w', l', id)
  {
    hide Counted;
  }

  /** The sessions a verified completion reports as newly completed. */
  function Newly(reports: map<Id, Completion>): set<Id> {
    set id | id in reports && !reports[id].alreadyCompleted
  }

  lemma {:induction false} VerifiedEffect(
      c: Config, s: Store, interventionId: string, epoch: nat, t0: nat, t1: nat, id: Id)
    ensures var (s', reports) := CompleteAfterVerification(c, s, interventionId, epoch, t0, t1);
      && (id in s' <==> id in s && !Prunable(s[id], t0))
      && (id in Newly(reports) ==> id in s' && !s[id].completed && !s[id].revoked)
      && (id in s' ==>
            s'[id] == if id !in Newly(reports) then s[id]
                      else Finished(s[id]).(completionExpiresAt := t1 + c.completionGrace))
  {
    hide LocatorOf;
  }

  lemma {:induction false} VerifiedEntries(
      c: Config, w: World, l: Ledger, w': World, ids: set<Id>, id: Id, t0: nat, t1: nat)
    requires id in w.store && (id in l.done ==> id in l.over)
    requires id in w.births && RecordKept(c, w, l, id) && RecordOk(c, w, id, w.store[id])
    requires id in w'.store <==> !Prunable(w.store[id], t0)
    requires id in ids ==> id in w'.store && !w.store[id].completed && !w.store[id].revoked
    requires id in w'.store ==>
      w'.store[id] == if id !in ids then w.store[id]
                      else Finished(w.store[id]).(completionExpiresAt := t1 + c.completionGrace)
    ensures VerifiedEntry(c, w, l, w',
      l.(over := l.over + ids, done := l.done + map id | id in ids :: t1 + c.completionGrace), id, t0, t1)
  {
    hide GrantOf, Counted, Prunable;
  }

  lemma {:induction false} VerifiedStep(c: Config, w: World, l: Ledger, s: Step)
    requires s.call.CallCompleteVerified?
    ensures var done := CompleteAfterVerification(c, w.store, s.call.interventionId, s.call.epoch, s.t0, s.t1);
      && Next(c, w, s) == w.(store := done.0, clock := s.t2, firsts := Next(c, w, s).firsts)
      && Heard(c, w, l, s) == l.(over := l.over + Newly(done.1),
                                 done := l.done + map id | id in Newly(done.1) :: s.t1 + c.completionGrace)
  {
    hide CompleteAfterVerification, Newly;
  }

  lemma {:induction false} VerifiedKept(
      c: Config, w: World, l: Ledger, s: Step, w': World, l': Ledger, ids: set<Id>, id: Id)
    requires WorldOk(c, w) && LedgerKept(c, w, l) && Enabled(w, s) && s.call.CallCompleteVerified?
    requires var done := CompleteAfterVerification(c, w.store, s.call.interventionId, s.call.epoch, s.t0, s.t1);
      && w' == w.(store := done.0, clock := s.t2, firsts := w'.firsts) && ids == Newly(done.1)
      && l' == l.(over := l.over + ids, done := l.done + map id | id in ids :: s.t1 + c.completionGrace)
    ensures id in w.births ==> EntryKept(c, w', l', id)
    ensures id in ids ==> id in w.births
  {
    hide WorldOk, LedgerKept, Newly, VerifiedEntry, CompleteAfterVerification, RecordKept, RecordOk, Prunable;
    VerifiedEffect(c, w.store, s.call.interventionId, s.call.epoch, s.t0, s.t1, id);
    OpenIsActive(c, w, l, id, s.t0);
    Kept(c, w, l, id);
    if id in w.store {
      VerifiedEntries(c, w, l, w', ids, id, s.t0, s.t1);
      VerifiedEntryKept(c, w, l, w', l', id, s.t0, s.t1);
    }
  }

  lemma {:induction false} CompleteVerifiedKept(c: Config, w: World, l: Ledger, s: Step)
    requires WorldOk(c, w) && LedgerKept(c, w, l) && Enabled(w, s) && s.call.CallCompleteVerified?
    ensures LedgerKept(c, Next(c, w, s), Heard(c, w, l, s))
  {
    VerifiedStep(c, w, l, s);
    hide CompleteAfterVerification, Next, Heard, WorldOk, Newly, EntryKept;
    var w', l' := Next(c, w, s), Heard(c, w, l, s);
    var ids := Newly(CompleteAfterVerification(c, w.store, s.call.interventionId, s.call.epoch, s.t0, s.t1).1);
    forall id
      ensures id in w.births ==> EntryKept(c, w', l', id)
      ensures id in ids ==> id in w.births
    {
      VerifiedKept(c, w, l, s, w', l', ids, id);
    }
  }

  lemma {:induction false} PredecessorRecord(
      c: Config, w: World, l: Ledger, interventionId: string, t0: nat, t1: nat, id: Id)
    requires WorldOk(c, w) && LedgerKept(c, w, l) && w.clock <= t0 && id in w.store
    ensures id in w.births
    ensures id in Predecessors(c, w, interventionId, t1) <==>
      w.store[id].interventionId == interventionId && w.store[id].expiresAt > t1
  {
    OpenIsActive(c, w, l, id, t0);
    hide WorldOk, LedgerKept, RecordKept, Counted;
  }

  lemma {:induction false} EnsureKept(c: Config, w: World, l: Ledger, s: Step)
    requires WorldOk(c, w) && LedgerKept(c, w, l) && Enabled(w, s) && s.call.CallEnsure?
    ensures LedgerKept(c, Next(c, w, s), Heard(c, w, l, s))
  {
    var e, w', l' := s.call, Next(c, w, s), Heard(c, w, l, s);
    var p := Prune(w.store, s.t0);
    hide Ensure, RecordKept, RecordOk, OneLive, EntryKept, LedgerKept;
    Known(c, w);
    EnsureAnswers(c, w, s);
    hide Next;
    if w'.births == w.births {
      assert l' == l;
      WithdrawnKept(c, w, l, w', {}, s.t0);
      assert l.over + {} == l.over;
    } else {
      var over := Predecessors(c, w, e.interventionId, s.t1);
      var between := w.(store := Superseded(p, e.interventionId, s.t1), clock := s.t2);
      forall id | id in p
        ensures id in w.births && (id in over <==> p[id].interventionId == e.interventionId && p[id].expiresAt > s.t1)
      {
        PredecessorRecord(c, w, l, e.interventionId, s.t0, s.t1, id);
      }
      WithdrawnKept(c, w, l, between, over, s.t0);
      hide WorldOk, Heard, Superseded, Prune, Predecessors;
      CreatedKept(c, between, l', w', e.createdId, NewRecord(c, e.interventionId, e.epoch, e.principal, s.t1));
    }
  }

  /** Ensuring gives an older session and prunes, or makes the new one beside those it takes over from. */
  lemma {:induction false} EnsureAnswers(c: Config, w: World, s: Step)
    requires s.call.CallEnsure? && s.call.createdId !in w.store
    ensures var e, p, w' := s.call, Prune(w.store, s.t0), Next(c, w, s);
      var locator := Ensure(c, w.store, e.interventionId, e.epoch, e.principal, e.createdId, s.t0, s.t1).1;
      if locator.id != e.createdId then w' == w.(store := p, clock := s.t2)
      else
        var r := NewRecord(c, e.interventionId, e.epoch, e.principal, s.t1);
        w' == World(Superseded(p, e.interventionId, s.t1)[e.createdId := r], s.t2,
                    w.births[e.createdId := BirthOf(c, r)], w.outstanding, w.firsts)
  {
    hide Superseded, Live;
  }

  lemma {:induction false} CreatedKept(c: Config, w: World, l: Ledger, w': World, id: Id, r: Record)
    requires LedgerKept(c, w, l) && id !in w.births && id !in w.store && r.client.None?
    requires !r.revoked && !r.completed && !r.released && r.completionExpiresAt == r.expiresAt + c.completionGrace
    requires w' == w.(store := w.store[id := r], births := w.births[id := BirthOf(c, r)])
    ensures LedgerKept(c, w', l)
  {
    forall i | i in w'.births
      ensures EntryKept(c, w', l, i)
    {
      if i != id {
        ElsewhereKept(c, w, l, w', l, i);
      }
    }
  }

  /** Every call leaves the records in step with what its callers were told. */
  lemma {:induction false} NextKept(c: Config, w: World, l: Ledger, s: Step)
    requires WorldOk(c, w) && LedgerKept(c, w, l) && Enabled(w, s)
    ensures LedgerKept(c, Next(c, w, s), Heard(c, w, l, s))
  {
    hide WorldOk, LedgerKept, Next, Heard, Enabled;
    match s.call
    case CallEnsure(_, _, _, _) => EnsureKept(c, w, l, s);
    case CallClaim(_, _, _) => ClaimKept(c, w, l, s);
    case CallReconnect(_, _, _, _) => ReconnectKept(c, w, l, s);
    case CallRelease(_, _, _, _) => ReleaseKept(c, w, l, s);
    case CallVerify(_, _, _, _) => VerifyKept(c, w, l, s);
    case CallBeginBound(_, _, _, _) => BeginBoundKept(c, w, l, s);
    case CallBegin(_, _, _, _) => BeginKept(c, w, l, s);
    case CallEnd(_) => EndKept(c, w, l, s);
    case CallComplete(_, _, _) => CompleteKept(c, w, l, s);
    case CallCompleteVerified(_, _) => CompleteVerifiedKept(c, w, l, s);
    case CallRevoke(_) => RevokeKept(c, w, l, s);
    case CallRevokeIntervention(_) => RevokeInterventionKept(c, w, l, s);
  }

  // ---------------------------------------------------------------- runs

  ghost function HeardAll(c: Config, w: World, l: Ledger, steps: seq<Step>): Ledger
    decreases |steps|
  {
    if steps == [] then l else HeardAll(c, Next(c, w, steps[0]), Heard(c, w, l, steps[0]), steps[1..])
  }

  /** The manager after some run, and what its callers were told in it. */
  ghost predicate Informed(c: Config, w: World, l: Ledger) {
    exists steps ::
      ValidRun(c, INITIAL, steps) && Run(c, INITIAL, steps) == w && HeardAll(c, INITIAL, BLANK, steps) == l
  }

  lemma {:induction false} RunKept(c: Config, w: World, l: Ledger, steps: seq<Step>)
    requires WorldOk(c, w) && LedgerKept(c, w, l) && ValidRun(c, w, steps)
    ensures LedgerKept(c, Run(c, w, steps), HeardAll(c, w, l, steps))
    decreases |steps|
  {
    if steps != [] {
      NextOk(c, w, steps[0]);
      NextKept(c, w, l, steps[0]);
      hide WorldOk, LedgerKept, Enabled, Next, Heard;
      RunKept(c, Next(c, w, steps[0]), Heard(c, w, l, steps[0]), steps[1..]);
    }
  }

  lemma {:induction false} InformedOk(c: Config, w: World, l: Ledger)
    requires Informed(c, w, l)
    ensures WorldOk(c, w) && LedgerKept(c, w, l)
  {
    var steps :|
      ValidRun(c, INITIAL, steps) && Run(c, INITIAL, steps) == w && HeardAll(c, INITIAL, BLANK, steps) == l;
    RunOk(c, INITIAL, steps);
    RunKept(c, INITIAL, BLANK, steps);
  }

  /** Every state of every run has its ledger. */
  lemma {:induction false} LedgerExists(c: Config, w: World) returns (l: Ledger)
    requires Reachable(c, w)
    ensures Informed(c, w, l)
  {
    var steps :| ValidRun(c, INITIAL, steps) && Run(c, INITIAL, steps) == w;
    l := HeardAll(c, INITIAL, BLANK, steps);
  }

  // ---------------------------------------------------------------- what each call answers

  lemma {:induction false} InformedAt(c: Config, w: World, l: Ledger, id: Id, now: nat)
    requires Informed(c, w, l) && w.clock <= now
    ensures Open(c, w, l, id, now) <==> Active(w.store, id, now)
    ensures id in w.store ==> id in w.births && RecordOk(c, w, id, w.store[id]) && RecordKept(c, w, l, id)
    ensures id in w.store ==> w.store[id].expiresAt == LeaseEnd(c, w, id)
    ensures Open(c, w, l, id, now) ==> id in w.store
    ensures id in w.births ==> EntryKept(c, w, l, id)
    ensures id in l.done ==> id in l.over && id in w.births
    ensures id in l.over ==> id in w.births
  {
    hide RecordOk, RecordKept, EntryKept;
    InformedOk(c, w, l);
    OpenIsActive(c, w, l, id, now);
  }

  /** Why a session that is not open refuses: it is over or forgotten, or its lease has ended. */
  function Closed(w: World, l: Ledger, id: Id): Error {
    if id in w.store && id !in l.over then Expired else NotFound
  }

  function LocatorFor(c: Config, w: World, id: Id, locator: Locator): bool
    requires id in w.births
  {
    && locator.id == id && locator.interventionId == w.births[id].interventionId
    && locator.epoch == w.births[id].epoch && locator.principal == w.births[id].principal
    && locator.expiresAt == LeaseEnd(c, w, id)
  }

  /** A locator is given of an open session to its principal. */
  lemma {:induction false} LocatorAnswer(c: Config, w: World, l: Ledger, id: Id, principal: string, t0: nat)
    requires Informed(c, w, l) && w.clock <= t0
    ensures var answer := ValidateLocator(w.store, id, principal, t0);
      if !Open(c, w, l, id, t0) then answer == Err(Closed(w, l, id))
      else if principal != w.births[id].principal then answer == Err(Forbidden)
      else answer.Ok? && LocatorFor(c, w, id, answer.value)
  {
    hide Informed;
    InformedAt(c, w, l, id, t0);
    hide GrantOf;
  }

  /** A first claim gets generation 1, a claim again by the current client what it was given; nobody else gets
      anything. */
  lemma {:induction false} ClaimAnswer(
      c: Config, w: World, l: Ledger, id: Id, principal: string, client: string, t0: nat, t1: nat)
    requires Informed(c, w, l) && w.clock <= t0
    ensures var answer := Claim(w.store, id, principal, client, t0, t1).1;
      if !Open(c, w, l, id, t0) then answer == Err(Closed(w, l, id))
      else if principal != w.births[id].principal || !Shaped(client, 24, 128) then answer == Err(Forbidden)
      else if id !in l.grants then
        && answer.Ok? && answer.value.client == client && answer.value.generation == 1
        && LocatorFor(c, w, id, answer.value.locator)
      else if client == l.grants[id].client && id !in l.released then answer == Ok(l.grants[id])
      else answer == Err(Forbidden)
  {
    hide Informed;
    InformedAt(c, w, l, id, t0);
    hide Capability, ReconnectHandle, Counted;
  }

  /** The handle of the last grant, and no other, gives the next generation once nothing is in flight and the
      client has released the session or was not heard of for long enough. */
  lemma {:induction false} ReconnectAnswer(
      c: Config, w: World, l: Ledger, id: Id, principal: string, handle: Token, next: string,
      t0: nat, t1: nat, t2: nat)
    requires Informed(c, w, l) && w.clock <= t0
    ensures var answer := Reconnect(c, w.store, id, principal, handle, next, t0, t1, t2).1;
      if !Open(c, w, l, id, t0) then answer == Err(Closed(w, l, id))
      else if principal != w.births[id].principal || !Shaped(next, 24, 128) || id !in l.grants
        || SeenAt(l, id) == 0 || handle != l.grants[id].reconnectHandle
      then answer == Err(Forbidden)
      else if (exists u :: u in w.outstanding && u.id == id)
        || (id !in l.released && t1 < SeenAt(l, id) + c.reconnectIdle && c.reconnectIdle > 0)
      then answer == Err(ClientActive)
      else
        && answer.Ok? && answer.value.client == next && answer.value.generation == l.grants[id].generation + 1
        && LocatorFor(c, w, id, answer.value.locator)
  {
    hide Informed;
    InformedAt(c, w, l, id, t0);
    if Open(c, w, l, id, t0) && id in l.grants {
      var r := w.store[id];
      assert TokenShape(ReconnectHandle(id, r));
      assert TicketOf(id, r).id == id;
    }
    hide Capability, ReconnectHandle, GrantOf, Shaped;
  }

  /** The last grant is released by its client. */
  lemma {:induction false} ReleaseAnswer(
      c: Config, w: World, l: Ledger, id: Id, principal: string, client: string, generation: nat, t0: nat)
    requires Informed(c, w, l) && w.clock <= t0
    ensures var answer := Release(w.store, id, principal, client, generation, t0).1;
      if !Open(c, w, l, id, t0) then answer == Err(Closed(w, l, id))
      else if Held(c, w, l, id, principal, client, t0) && generation == l.grants[id].generation then answer.Ok?
      else answer == Err(Forbidden)
  {
    hide Informed;
    InformedAt(c, w, l, id, t0);
    hide Capability, ReconnectHandle, Counted, OneLive;
  }

  /** The use that is begun is one of the last grant. */
  predicate UseFor(l: Ledger, id: Id, use: Use)
    requires id in l.grants
  {
    use == Use(l.grants[id].locator, l.grants[id].client, l.grants[id].generation)
  }

  /** A use begins for the client and the generation of the last grant, until it is released. */
  lemma {:induction false} BeginBoundAnswer(
      c: Config, w: World, l: Ledger, id: Id, principal: string, client: string, generation: nat, t0: nat, t1: nat)
    requires Informed(c, w, l) && w.clock <= t0
    ensures var answer := BeginBoundUse(w.store, id, principal, client, generation, t0, t1).1;
      if !Open(c, w, l, id, t0) then answer == Err(Closed(w, l, id))
      else if Held(c, w, l, id, principal, client, t0) && id !in l.released && generation == l.grants[id].generation
      then answer.Ok? && UseFor(l, id, answer.value)
      else answer == Err(Forbidden)
  {
    hide Informed;
    InformedAt(c, w, l, id, t0);
    hide Capability, ReconnectHandle, Counted, OneLive;
  }

  /** A capability is accepted exactly if it is the one of the last grant, presented by its client while the
      session is open and not released. */
  lemma {:induction false} VerifyAnswer(
      c: Config, w: World, l: Ledger, id: Id, token: Token, principal: string, client: string, t0: nat, t1: nat)
    requires Informed(c, w, l) && w.clock <= t0
    ensures var answer := Verify(w.store, id, token, principal, client, t0, t1).1;
      if !Open(c, w, l, id, t0) then answer == Err(Closed(w, l, id))
      else if Held(c, w, l, id, principal, client, t0) && id !in l.released && token == l.grants[id].capability
      then answer.Ok? && UseFor(l, id, answer.value)
      else answer == Err(Forbidden)
  {
    hide Informed;
    InformedAt(c, w, l, id, t0);
    hide Capability, ReconnectHandle, Counted, OneLive;
  }

  /** ... and, by its capability, if the session is still open when the use is counted. */
  lemma {:induction false} BeginAnswer(
      c: Config, w: World, l: Ledger, id: Id, token: Token, principal: string, client: string,
      t0: nat, t1: nat, t2: nat)
    requires Informed(c, w, l) && w.clock <= t0 <= t1 <= t2
    ensures var answer := BeginUse(w.store, id, token, principal, client, t0, t1, t2).1;
      if !Open(c, w, l, id, t0) then answer == Err(Closed(w, l, id))
      else if Held(c, w, l, id, principal, client, t0) && id !in l.released && token == l.grants[id].capability
      then if Open(c, w, l, id, t2) then answer.Ok? && UseFor(l, id, answer.value) else answer == Err(Expired)
      else answer == Err(Forbidden)
  {
    hide Informed;
    VerifyAnswer(c, w, l, id, token, principal, client, t0, t1);
    InformedAt(c, w, l, id, t0);
    InformedAt(c, w, l, id, t2);
    hide Capability, ReconnectHandle, GrantOf, Counted, OneLive;
  }

  /** The completion grace of a claimed session, or the lease of any. */
  predicate Completing(c: Config, w: World, l: Ledger, id: Id, t0: nat, t1: nat) {
    id in w.births && (t0 < LeaseEnd(c, w, id) || (id in l.grants && t1 < Deadline(c, w, l, id)))
  }

  /** A completion capability is issued to the principal of a session that is not over, in its lease or grace. */
  lemma {:induction false} IssueAnswer(c: Config, w: World, l: Ledger, id: Id, principal: string, t0: nat, t1: nat)
    requires Informed(c, w, l) && w.clock <= t0 <= t1
    ensures var answer := IssueCompletion(w.store, id, principal, t0, t1);
      answer.Ok? <==>
        && id in w.births && id !in l.over && principal == w.births[id].principal && Completing(c, w, l, id, t0, t1)
  {
    hide Informed;
    InformedAt(c, w, l, id, t0);
    hide GrantOf, CompletionCapability, Counted, OneLive;
  }

  /** While a session is not over, it is completed by exactly the capability that would be issued for it;
      and once it is completed, by exactly one token until it is forgotten or its grace ends. */
  lemma {:induction false} CompleteAnswer(
      c: Config, w: World, l: Ledger, id: Id, token: Token, principal: string, t0: nat, t1: nat)
    requires Informed(c, w, l) && w.clock <= t0 <= t1
    ensures var answer := Complete(w.store, id, token, principal, t0, t1).1;
      && (id in w.births && id !in l.over ==>
            && (answer.Ok? <==> IssueCompletion(w.store, id, principal, t0, t1) == Ok(token))
            && (answer.Ok? ==> !answer.value.alreadyCompleted && LocatorFor(c, w, id, answer.value.locator)))
      && (id in l.over && id !in l.done ==> answer == Err(NotFound))
      && (id in l.done && answer.Ok? ==>
            && id in w.births && id in w.store && principal == w.births[id].principal
            && answer.value.alreadyCompleted && LocatorFor(c, w, id, answer.value.locator)
            && Completing(c, w, l, id, t0, t1)
            && forall other | other != token :: Complete(w.store, id, other, principal, t0, t1).1 == Err(Forbidden))
      && (id in l.done && id in w.store && Completing(c, w, l, id, t0, t1) ==>
            exists right :: Complete(w.store, id, right, w.births[id].principal, t0, t1).1.Ok?)
  {
    hide Informed;
    InformedAt(c, w, l, id, t0);
    if id in w.store {
      var right := CompletionCapability(id, w.store[id]);
      assert TokenShape(right);
      if id in l.done && Completing(c, w, l, id, t0, t1) {
        assert Complete(w.store, id, right, w.births[id].principal, t0, t1).1.Ok?;
      }
    }
    hide GrantOf, CompletionCapability, Counted, OneLive, Shaped;
  }

  /** A session is reported completed, to its principal, until it is forgotten or its grace ends. */
  lemma {:induction false} IsCompletedAnswer(c: Config, w: World, l: Ledger, id: Id, principal: string, t0: nat)
    requires Informed(c, w, l) && w.clock <= t0
    ensures IsCompleted(w.store, id, principal, t0) ==
      if id !in w.births || id !in w.store || id !in l.done || l.done[id] <= t0 then Ok(false)
      else if principal != w.births[id].principal then Err(Forbidden) else Ok(true)
  {
    hide Informed;
    InformedAt(c, w, l, id, t0);
    hide GrantOf, Counted, OneLive;
  }

  /** A verified completion is for the sessions of the intervention and epoch. It completes those that are not
      over and whose grace has not ended, unless they were never claimed and their lease has. */
  predicate Verifiable(c: Config, w: World, l: Ledger, id: Id, interventionId: string, epoch: nat, t0: nat, t1: nat) {
    && id in w.births && w.births[id].interventionId == interventionId && w.births[id].epoch == epoch
    && id !in l.over && t1 < LeaseEnd(c, w, id) + c.completionGrace && (t0 < LeaseEnd(c, w, id) || id in l.grants)
  }

  lemma {:induction false} VerifiedAnswer(
      c: Config, w: World, l: Ledger, id: Id, interventionId: string, epoch: nat, t0: nat, t1: nat)
    requires Informed(c, w, l) && w.clock <= t0 <= t1
    ensures var reports := CompleteAfterVerification(c, w.store, interventionId, epoch, t0, t1).1;
      && (id in reports && !reports[id].alreadyCompleted <==> Verifiable(c, w, l, id, interventionId, epoch, t0, t1))
      && (id in reports && reports[id].alreadyCompleted <==>
            && id in w.births && id in w.store && id in l.done
            && w.births[id].interventionId == interventionId && w.births[id].epoch == epoch
            && (if id in l.grants then t0 < l.done[id] else t0 < LeaseEnd(c, w, id)))
      && (id in reports ==> id in w.births && LocatorFor(c, w, id, reports[id].locator))
  {
    hide Informed;
    InformedAt(c, w, l, id, t0);
    hide GrantOf, Counted, OneLive;
  }

  /** The session is open for exactly this. */
  predicate Fits(
      c: Config, w: World, l: Ledger, id: Id, interventionId: string, epoch: nat, principal: string, now: nat) {
    Open(c, w, l, id, now) && w.births[id] == Birth(interventionId, epoch, principal, w.births[id].createdAt)
  }

  lemma {:induction false} OneMatches(
      c: Config, w: World, interventionId: string, epoch: nat, principal: string, t0: nat, t1: nat, a: Id, b: Id)
    requires WorldOk(c, w) && w.clock <= t0 <= t1
    requires var p := Prune(w.store, t0);
      && a in p && Matches(p[a], interventionId, epoch, principal, t1)
      && b in p && Matches(p[b], interventionId, epoch, principal, t1)
    ensures a == b
  {
    hide RecordOk;
    assert Live(w.store[a], w.clock) && Live(w.store[b], w.clock);
  }

  /** The session that fits is given again; otherwise a new one is made, with a whole lease. */
  lemma {:induction false} EnsureAnswer(
      c: Config, w: World, l: Ledger, interventionId: string, epoch: nat, principal: string, createdId: Id,
      t0: nat, t1: nat)
    requires Informed(c, w, l) && w.clock <= t0 <= t1 && createdId !in w.births
    ensures var locator := Ensure(c, w.store, interventionId, epoch, principal, createdId, t0, t1).1;
      && (forall id | Fits(c, w, l, id, interventionId, epoch, principal, t1) ::
            locator == Locator(id, interventionId, epoch, principal, LeaseEnd(c, w, id)))
      && ((forall id :: !Fits(c, w, l, id, interventionId, epoch, principal, t1)) ==>
            locator == Locator(createdId, interventionId, epoch, principal, t1 + c.ttl))
  {
    InformedOk(c, w, l);
    hide Informed, WorldOk, LedgerKept, Prune, Matches, Fits, Superseded;
    var p := Prune(w.store, t0);
    forall id
      ensures Fits(c, w, l, id, interventionId, epoch, principal, t1) <==>
              id in p && Matches(p[id], interventionId, epoch, principal, t1)
      ensures id in p ==> id in w.births && p[id].expiresAt == LeaseEnd(c, w, id)
    {
      FitsMatches(c, w, l, id, interventionId, epoch, principal, t0, t1);
    }
    forall a, b | a in p && b in p && Matches(p[a], interventionId, epoch, principal, t1)
      && Matches(p[b], interventionId, epoch, principal, t1)
      ensures a == b
    {
      OneMatches(c, w, interventionId, epoch, principal, t0, t1, a, b);
    }
  }

  lemma {:induction false} FitsMatches(
      c: Config, w: World, l: Ledger, id: Id, interventionId: string, epoch: nat, principal: string, t0: nat, t1: nat)
    requires Informed(c, w, l) && w.clock <= t0 <= t1
    ensures var p := Prune(w.store, t0);
      && (Fits(c, w, l, id, interventionId, epoch, principal, t1) <==>
            id in p && Matches(p[id], interventionId, epoch, principal, t1))
      && (id in p ==> id in w.births && p[id].expiresAt == LeaseEnd(c, w, id))
  {
    hide Informed;
    InformedAt(c, w, l, id, t1);
    hide GrantOf, Counted, OneLive;
  }

  /** Pruning keeps nothing that is of no more use: a session that is not over can still be completed, and one
      that was completed is still reported so, or would still be found completed. */
  lemma {:induction false} KeptIsOfUse(c: Config, w: World, l: Ledger, id: Id, now: nat)
    requires Informed(c, w, l) && w.clock <= now && id in Prune(w.store, now)
    ensures id in w.births
    ensures id !in l.over ==> IssueCompletion(w.store, id, w.births[id].principal, now, now).Ok?
    ensures id in l.over ==>
      || IsCompleted(w.store, id, w.births[id].principal, now) == Ok(true)
      || exists token :: Complete(w.store, id, token, w.births[id].principal, now, now).1.Ok?
  {
    hide Informed;
    InformedAt(c, w, l, id, now);
    IssueAnswer(c, w, l, id, w.births[id].principal, now, now);
    CompleteAnswer(c, w, l, id, Other(""), w.births[id].principal, now, now);
    IsCompletedAnswer(c, w, l, id, w.births[id].principal, now);
    hide Complete, IssueCompletion, IsCompleted, GrantOf, Counted, OneLive;
  }
}
