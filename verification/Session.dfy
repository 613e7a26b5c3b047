/**
 * `TakeoverSessionManager`: the records of the Human-authority lease and every operation on them.
 * Clock readings are arguments, in the order in which the source reads its clock.
 */
module Session {
  import opened Options
  import opened Fields

  type Id = string

  datatype Error = NotFound | Expired | Forbidden | ClientActive

  datatype Result<+T> = Ok(value: T) | Err(error: Error)

  datatype Config = Config(ttl: nat, reconnectIdle: nat, completionGrace: nat)

  /** What the constructor accepts. */
  predicate ValidConfig(c: Config) {
    c.ttl >= 1000 && 250 <= c.reconnectIdle < c.ttl && 1000 <= c.completionGrace <= 30 * 60000
  }

  datatype Record = Record(
    interventionId: string,
    epoch: nat,
    principal: string,
    expiresAt: nat,
    completionExpiresAt: nat,
    revoked: bool,
    completed: bool,
    client: Option<string>,
    generation: nat,
    lastSeenAt: Option<nat>,
    inFlight: nat,
    released: bool)

  type Store = map<Id, Record>

  /** A supplied token: the MAC of some message under the manager's key, or any other string. */
  datatype Token = Mac(message: string) | Other(text: string)

  datatype Locator = Locator(id: Id, interventionId: string, epoch: nat, principal: string, expiresAt: nat)

  datatype Grant = Grant(locator: Locator, capability: Token, reconnectHandle: Token, client: string, generation: nat)

  datatype Use = Use(locator: Locator, client: string, generation: nat)

  datatype Completion = Completion(locator: Locator, alreadyCompleted: bool)

  // ---------------------------------------------------------------- shapes and tokens

  predicate ClientShape(client: string) {
    Shaped(client, 24, 128)
  }

  /** 32 to 128 token characters; a base64url SHA-256 digest has 43. */
  predicate TokenShape(t: Token) {
    t.Mac? || Shaped(t.text, 32, 128)
  }

  const TAKEOVER_LABEL := "mcp-execution-handoff/takeover/v2"
  const COMPLETION_LABEL := "mcp-execution-handoff/takeover-completion/v1"
  const RECONNECT_LABEL := "mcp-execution-handoff/takeover-reconnect/v1"

  function Join(first: string, rest: string): string {
    first + [NUL] + rest
  }

  /** The fields every message carries after its label. */
  function Common(id: Id, r: Record, rest: string): string {
    Join(id, Join(r.interventionId, Join(Decimal(r.epoch), Join(r.principal, rest))))
  }

  function ClientPart(client: string, generation: nat, expiresAt: nat): string {
    Join(client, Join(Decimal(generation), Decimal(expiresAt)))
  }

  function Capability(id: Id, r: Record): Token
    requires r.client.Some?
  {
    Mac(Join(TAKEOVER_LABEL, Common(id, r, ClientPart(r.client.value, r.generation, r.expiresAt))))
  }

  function ReconnectHandle(id: Id, r: Record): Token
    requires r.client.Some?
  {
    Mac(Join(RECONNECT_LABEL, Common(id, r, ClientPart(r.client.value, r.generation, r.expiresAt))))
  }

  function CompletionCapability(id: Id, r: Record): Token {
    Mac(Join(COMPLETION_LABEL, Common(id, r, Join(Decimal(r.expiresAt), Decimal(r.completionExpiresAt)))))
  }

  function LocatorOf(id: Id, r: Record): Locator {
    Locator(id, r.interventionId, r.epoch, r.principal, r.expiresAt)
  }

  function GrantOf(id: Id, r: Record): Grant
    requires r.client.Some?
  {
    Grant(LocatorOf(id, r), Capability(id, r), ReconnectHandle(id, r), r.client.value, r.generation)
  }

  function UseOf(id: Id, r: Record): Use
    requires r.client.Some?
  {
    Use(LocatorOf(id, r), r.client.value, r.generation)
  }

  // ---------------------------------------------------------------- one record

  predicate Claimed(r: Record) {
    r.client.Some? && r.generation > 0
  }

  /** `requireActive` for a principal. */
  predicate Active(s: Store, id: Id, now: nat) {
    id in s && !s[id].revoked && s[id].expiresAt > now
  }

  function InactiveError(s: Store, id: Id): Error {
    if id !in s || s[id].revoked then NotFound else Expired
  }

  predicate IsClient(r: Record, client: string) {
    ClientShape(client) && r.client == Some(client)
  }

  /** `!record.lastSeenAt`: never set, or zero. */
  predicate NeverSeen(r: Record) {
    r.lastSeenAt.None? || r.lastSeenAt.value == 0
  }

  function Sub(a: nat, b: nat): nat {
    if a < b then 0 else a - b
  }

  // ---------------------------------------------------------------- operations, as functions

  function ValidateLocator(s: Store, id: Id, principal: string, t0: nat): Result<Locator> {
    if !Active(s, id, t0) then Err(InactiveError(s, id))
    else if s[id].principal != principal then Err(Forbidden)
    else Ok(LocatorOf(id, s[id]))
  }

  /** Past the media lease, only a claimed record inside its completion grace is open to completion. */
  predicate CompletionClosed(r: Record, t0: nat, t1: nat) {
    r.expiresAt <= t0 && (!Claimed(r) || r.completionExpiresAt <= t1)
  }

  function IssueCompletion(s: Store, id: Id, principal: string, t0: nat, t1: nat): Result<Token> {
    if id !in s || s[id].revoked then Err(NotFound)
    else if s[id].principal != principal then Err(Forbidden)
    else if CompletionClosed(s[id], t0, t1) then Err(Expired)
    else Ok(CompletionCapability(id, s[id]))
  }

  function Finished(r: Record): Record {
    r.(completed := true, revoked := true, released := true)
  }

  function Complete(s: Store, id: Id, token: Token, principal: string, t0: nat, t1: nat): (Store, Result<Completion>) {
    if id !in s || (s[id].revoked && !s[id].completed) then (s, Err(NotFound))
    else if CompletionClosed(s[id], t0, t1) then (s, Err(Expired))
    else if s[id].principal != principal || !TokenShape(token) || token != CompletionCapability(id, s[id])
    then (s, Err(Forbidden))
    else (s[id := Finished(s[id])], Ok(Completion(LocatorOf(id, s[id]), s[id].completed)))
  }

  function Claim(s: Store, id: Id, principal: string, client: string, t0: nat, t1: nat): (Store, Result<Grant>) {
    if !Active(s, id, t0) then (s, Err(InactiveError(s, id)))
    else if s[id].principal != principal || !ClientShape(client) then (s, Err(Forbidden))
    else if s[id].client.None? then
      var r := s[id].(client := Some(client), generation := 1, released := false, lastSeenAt := Some(t1));
      (s[id := r], Ok(GrantOf(id, r)))
    else if s[id].released || s[id].client.value != client then (s, Err(Forbidden))
    else
      var r := s[id].(lastSeenAt := Some(t1));
      (s[id := r], if r.generation < 1 then Err(Forbidden) else Ok(GrantOf(id, r)))
  }

  function Reconnect(c: Config, s: Store, id: Id, principal: string, handle: Token, next: string,
                     t0: nat, t1: nat, t2: nat): (Store, Result<Grant>) {
    if !Active(s, id, t0) then (s, Err(InactiveError(s, id)))
    else
      var r := s[id];
      if r.principal != principal || !ClientShape(next) || !TokenShape(handle) then (s, Err(Forbidden))
      else if !Claimed(r) || NeverSeen(r) then (s, Err(Forbidden))
      else if handle != ReconnectHandle(id, r) then (s, Err(Forbidden))
      else if r.inFlight > 0 || (!r.released && Sub(t1, r.lastSeenAt.value) < c.reconnectIdle)
      then (s, Err(ClientActive))
      else
        var r' := r.(client := Some(next), generation := r.generation + 1, lastSeenAt := Some(t2), released := false);
        (s[id := r'], Ok(GrantOf(id, r')))
  }

  function Release(s: Store, id: Id, principal: string, client: string, generation: nat, t0: nat): (Store, Result<()>) {
    if !Active(s, id, t0) then (s, Err(InactiveError(s, id)))
    else if s[id].principal != principal || !IsClient(s[id], client) || s[id].generation != generation
    then (s, Err(Forbidden))
    else (s[id := s[id].(released := true)], Ok(()))
  }

  function BeginBoundUse(s: Store, id: Id, principal: string, client: string, generation: nat,
                         t0: nat, t1: nat): (Store, Result<Use>) {
    if !Active(s, id, t0) then (s, Err(InactiveError(s, id)))
    else if s[id].principal != principal || !IsClient(s[id], client)
      || s[id].released || s[id].generation != generation
    then (s, Err(Forbidden))
    else
      var r := s[id].(inFlight := s[id].inFlight + 1, lastSeenAt := Some(t1));
      (s[id := r], Ok(UseOf(id, r)))
  }

  function Verify(s: Store, id: Id, token: Token, principal: string, client: string, t0: nat, t1: nat)
    : (Store, Result<Use>)
  {
    if !Active(s, id, t0) then (s, Err(InactiveError(s, id)))
    else if s[id].principal != principal || !IsClient(s[id], client) || s[id].released then (s, Err(Forbidden))
    else if s[id].generation < 1 || token != Capability(id, s[id]) then (s, Err(Forbidden))
    else
      var r := s[id].(lastSeenAt := Some(t1));
      (s[id := r], Ok(UseOf(id, r)))
  }

  function BeginUse(s: Store, id: Id, token: Token, principal: string, client: string,
                    t0: nat, t1: nat, t2: nat): (Store, Result<Use>) {
    var (s', use) := Verify(s, id, token, principal, client, t0, t1);
    if use.Err? then (s', use)
    else if !Active(s', id, t2) then (s', Err(InactiveError(s', id)))
    else (s'[id := s'[id].(inFlight := s'[id].inFlight + 1)], use)
  }

  function EndUse(s: Store, id: Id, principal: string, client: string, generation: nat, t0: nat, t1: nat): Store {
    if !Active(s, id, t0) then s
    else if s[id].principal != principal || s[id].client != Some(client) || s[id].generation != generation then s
    else s[id := s[id].(inFlight := Sub(s[id].inFlight, 1), lastSeenAt := Some(t1))]
  }

  predicate Prunable(r: Record, now: nat) {
    || (r.revoked && !r.completed)
    || (!Claimed(r) && r.expiresAt <= now)
    || (Claimed(r) && r.completionExpiresAt <= now)
  }

  function Prune(s: Store, now: nat): Store {
    map id | id in s && !Prunable(s[id], now) :: s[id]
  }

  predicate Completable(r: Record, now: nat) {
    !r.completed && !r.revoked && r.completionExpiresAt > now
  }

  predicate Concerns(r: Record, interventionId: string, epoch: nat) {
    r.interventionId == interventionId && r.epoch == epoch
  }

  function AfterVerification(c: Config, r: Record, interventionId: string, epoch: nat, now: nat): Record {
    if Concerns(r, interventionId, epoch) && Completable(r, now)
    then Finished(r).(completionExpiresAt := now + c.completionGrace)
    else r
  }

  predicate Reported(r: Record, interventionId: string, epoch: nat, now: nat) {
    Concerns(r, interventionId, epoch) && (r.completed || Completable(r, now))
  }

  /** The records kept after pruning at t0, with the completable ones completed at t1. */
  function CompleteAfterVerification(c: Config, s: Store, interventionId: string, epoch: nat, t0: nat, t1: nat)
    : (Store, map<Id, Completion>)
  {
    var p := Prune(s, t0);
    (map id | id in p :: AfterVerification(c, p[id], interventionId, epoch, t1),
     map id | id in p && Reported(p[id], interventionId, epoch, t1) ::
       Completion(LocatorOf(id, p[id]), p[id].completed))
  }

  function IsCompleted(s: Store, id: Id, principal: string, t0: nat): Result<bool> {
    if id !in s || !s[id].completed || s[id].completionExpiresAt <= t0 then Ok(false)
    else if s[id].principal != principal then Err(Forbidden)
    else Ok(true)
  }

  function Revoke(s: Store, id: Id): Store {
    if id in s then s[id := s[id].(revoked := true)] else s
  }

  function RevokeForIntervention(s: Store, interventionId: string): Store {
    map id | id in s :: if s[id].interventionId == interventionId then s[id].(revoked := true) else s[id]
  }

  predicate Live(r: Record, now: nat) {
    !r.revoked && r.expiresAt > now
  }

  predicate Matches(r: Record, interventionId: string, epoch: nat, principal: string, now: nat) {
    Live(r, now) && r.interventionId == interventionId && r.epoch == epoch && r.principal == principal
  }

  function NewRecord(c: Config, interventionId: string, epoch: nat, principal: string, now: nat): Record {
    Record(interventionId, epoch, principal, now + c.ttl, now + c.ttl + c.completionGrace,
           false, false, None, 0, None, 0, false)
  }

  /** The still unexpired records of an intervention lose their authority to the new one. */
  function AfterSuccessor(r: Record, interventionId: string, now: nat): Record {
    if r.interventionId == interventionId && r.expiresAt > now then r.(revoked := true) else r
  }

  function Superseded(s: Store, interventionId: string, now: nat): Store {
    map id | id in s :: AfterSuccessor(s[id], interventionId, now)
  }

  ghost function Ensure(c: Config, s: Store, interventionId: string, epoch: nat, principal: string,
                        newId: Id, t0: nat, t1: nat): (Store, Locator) {
    var p := Prune(s, t0);
    if exists id :: id in p && Matches(p[id], interventionId, epoch, principal, t1) then
      var id :| id in p && Matches(p[id], interventionId, epoch, principal, t1);
      (p, LocatorOf(id, p[id]))
    else
      var r := NewRecord(c, interventionId, epoch, principal, t1);
      (Superseded(p, interventionId, t1)[newId := r], LocatorOf(newId, r))
  }

  /** At most one record of an intervention carries unrevoked, unexpired authority. */
  ghost predicate OneLive(s: Store, now: nat) {
    forall a, b | a in s && b in s && a != b && s[a].interventionId == s[b].interventionId ::
      !(Live(s[a], now) && Live(s[b], now))
  }

  lemma {:induction false} PrunedOneLive(s: Store, t0: nat, t1: nat)
    requires OneLive(s, t1)
    ensures OneLive(Prune(s, t0), t1)
  {
  }

  // ---------------------------------------------------------------- the class

  class TakeoverSessionManager {
    const config: Config
    var records: Store

    constructor (config: Config)
      requires ValidConfig(config)
      ensures this.config == config && records == map[]
    {
      this.config := config;
      records := map[];
    }

    /** `ensure`; `createdId` is what `createId` returns. That two records of one intervention are
        never live together is what makes the first match the only one. */
    method EnsureSession(interventionId: string, epoch: nat, principal: string, createdId: Id, t0: nat, t1: nat)
      returns (locator: Locator)
      requires t0 <= t1 && OneLive(records, t1)
      modifies this`records
      ensures (records, locator) == Ensure(config, old(records), interventionId, epoch, principal, createdId, t0, t1)
    {
      hide Prune, LocatorOf;
      PrunedOneLive(records, t0, t1);
      PruneExpired(t0);
      ghost var p := records;
      var todo := records.Keys;
      while todo != {}
        invariant records == p && todo <= p.Keys
        invariant forall id | id in p && id !in todo :: !Matches(p[id], interventionId, epoch, principal, t1)
        decreases todo
      {
        var id :| id in todo;
        var record := records[id];
        if !record.revoked && record.expiresAt > t1 && record.interventionId == interventionId
          && record.epoch == epoch && record.principal == principal
        {
          assert Live(record, t1);
          assert forall other | other in p && Matches(p[other], interventionId, epoch, principal, t1) :: other == id;
          return LocatorOf(id, record);
        }
        todo := todo - {id};
      }
      todo := records.Keys;
      while todo != {}
        invariant todo <= p.Keys
        invariant records == map id | id in p :: if id in todo then p[id] else AfterSuccessor(p[id], interventionId, t1)
        decreases todo
      {
        var id :| id in todo;
        if records[id].interventionId == interventionId && records[id].expiresAt > t1 {
          records := records[id := records[id].(revoked := true)];
        }
        todo := todo - {id};
      }
      assert records == Superseded(p, interventionId, t1);
      var record := Record(interventionId, epoch, principal, t1 + config.ttl,
                           t1 + config.ttl + config.completionGrace,
                           false, false, None, 0, None, 0, false);
      records := records[createdId := record];
      locator := LocatorOf(createdId, record);
    }

    method RequireActive(id: Id, now: nat) returns (r: Result<Record>)
      ensures r == if Active(records, id, now) then Ok(records[id]) else Err(InactiveError(records, id))
    {
      if id !in records || records[id].revoked {
        return Err(NotFound);
      }
      if records[id].expiresAt <= now {
        return Err(Expired);
      }
      return Ok(records[id]);
    }

    method IssueCompletionCapability(id: Id, principal: string, t0: nat, t1: nat) returns (r: Result<Token>)
      ensures r == IssueCompletion(records, id, principal, t0, t1)
    {
      if id !in records || records[id].revoked {
        return Err(NotFound);
      }
      var record := records[id];
      if record.principal != principal {
        return Err(Forbidden);
      }
      if record.expiresAt <= t0 {
        if record.client.None? || record.generation < 1 || record.completionExpiresAt <= t1 {
          return Err(Expired);
        }
      }
      return Ok(CompletionCapability(id, record));
    }

    method CompleteSession(id: Id, token: Token, principal: string, t0: nat, t1: nat) returns (r: Result<Completion>)
      modifies this`records
      ensures (records, r) == Complete(old(records), id, token, principal, t0, t1)
    {
      if id !in records {
        return Err(NotFound);
      }
      var record := records[id];
      if record.revoked && !record.completed {
        return Err(NotFound);
      }
      if record.expiresAt <= t0
        && (record.client.None? || record.generation < 1 || record.completionExpiresAt <= t1)
      {
        return Err(Expired);
      }
      if record.principal != principal {
        return Err(Forbidden);
      }
      if !TokenShape(token) {
        return Err(Forbidden);
      }
      if token != CompletionCapability(id, record) {
        return Err(Forbidden);
      }
      var alreadyCompleted := record.completed;
      record := record.(completed := true);
      record := record.(revoked := true);
      record := record.(released := true);
      records := records[id := record];
      return Ok(Completion(LocatorOf(id, record), alreadyCompleted));
    }

    method ClaimClient(id: Id, principal: string, client: string, t0: nat, t1: nat) returns (r: Result<Grant>)
      modifies this`records
      ensures (records, r) == Claim(old(records), id, principal, client, t0, t1)
    {
      var active := RequireActive(id, t0);
      if active.Err? {
        return Err(active.error);
      }
      var record := active.value;
      if record.principal != principal || !ClientShape(client) {
        return Err(Forbidden);
      }
      if record.client.None? {
        record := record.(client := Some(client), generation := 1, released := false);
      } else if record.released || record.client.value != client {
        return Err(Forbidden);
      }
      record := record.(lastSeenAt := Some(t1));
      records := records[id := record];
      if record.generation < 1 {
        return Err(Forbidden);
      }
      return Ok(GrantOf(id, record));
    }

    method ReconnectClient(id: Id, principal: string, handle: Token, next: string, t0: nat, t1: nat, t2: nat)
      returns (r: Result<Grant>)
      modifies this`records
      ensures (records, r) == Reconnect(config, old(records), id, principal, handle, next, t0, t1, t2)
    {
      var active := RequireActive(id, t0);
      if active.Err? {
        return Err(active.error);
      }
      var record := active.value;
      if record.principal != principal || !ClientShape(next) || !TokenShape(handle) {
        return Err(Forbidden);
      }
      if record.client.None? || NeverSeen(record) || record.generation < 1 {
        return Err(Forbidden);
      }
      if handle != ReconnectHandle(id, record) {
        return Err(Forbidden);
      }
      var idle := Sub(t1, record.lastSeenAt.value);
      if record.inFlight > 0 || (!record.released && idle < config.reconnectIdle) {
        return Err(ClientActive);
      }
      record := record.(client := Some(next));
      record := record.(generation := record.generation + 1);
      record := record.(lastSeenAt := Some(t2));
      record := record.(released := false);
      records := records[id := record];
      return Ok(GrantOf(id, record));
    }

    method ReleaseClientGeneration(id: Id, principal: string, client: string, generation: nat, t0: nat)
      returns (r: Result<()>)
      modifies this`records
      ensures (records, r) == Release(old(records), id, principal, client, generation, t0)
    {
      var active := RequireActive(id, t0);
      if active.Err? {
        return Err(active.error);
      }
      var record := active.value;
      if record.principal != principal || !IsClient(record, client) || record.generation != generation {
        return Err(Forbidden);
      }
      records := records[id := record.(released := true)];
      return Ok(());
    }

    method BeginBound(id: Id, principal: string, client: string, generation: nat, t0: nat, t1: nat)
      returns (r: Result<Use>)
      modifies this`records
      ensures (records, r) == BeginBoundUse(old(records), id, principal, client, generation, t0, t1)
    {
      var active := RequireActive(id, t0);
      if active.Err? {
        return Err(active.error);
      }
      var record := active.value;
      if record.principal != principal || !IsClient(record, client) {
        return Err(Forbidden);
      }
      if record.released || record.generation != generation {
        return Err(Forbidden);
      }
      record := record.(inFlight := record.inFlight + 1);
      record := record.(lastSeenAt := Some(t1));
      records := records[id := record];
      return Ok(UseOf(id, record));
    }

    method VerifyCapability(id: Id, token: Token, principal: string, client: string, t0: nat, t1: nat)
      returns (r: Result<Use>)
      modifies this`records
      ensures (records, r) == Verify(old(records), id, token, principal, client, t0, t1)
    {
      var active := RequireActive(id, t0);
      if active.Err? {
        return Err(active.error);
      }
      var record := active.value;
      if record.principal != principal || !IsClient(record, client) || record.released {
        return Err(Forbidden);
      }
      if record.generation < 1 || token != Capability(id, record) {
        return Err(Forbidden);
      }
      record := record.(lastSeenAt := Some(t1));
      records := records[id := record];
      return Ok(UseOf(id, record));
    }

    method Begin(id: Id, token: Token, principal: string, client: string, t0: nat, t1: nat, t2: nat)
      returns (r: Result<Use>)
      modifies this`records
      ensures (records, r) == BeginUse(old(records), id, token, principal, client, t0, t1, t2)
    {
      r := VerifyCapability(id, token, principal, client, t0, t1);
      if r.Err? {
        return;
      }
      var active := RequireActive(id, t2);
      if active.Err? {
        return Err(active.error);
      }
      records := records[id := active.value.(inFlight := active.value.inFlight + 1)];
    }

    method End(id: Id, principal: string, client: string, generation: nat, t0: nat, t1: nat)
      modifies this`records
      ensures records == EndUse(old(records), id, principal, client, generation, t0, t1)
    {
      if id !in records || records[id].revoked {
        return;
      }
      var record := records[id];
      if record.expiresAt <= t0 {
        return;
      }
      if record.principal != principal || record.client != Some(client) || record.generation != generation {
        return;
      }
      record := record.(inFlight := Sub(record.inFlight, 1));
      record := record.(lastSeenAt := Some(t1));
      records := records[id := record];
    }

    method CompleteVerified(interventionId: string, epoch: nat, t0: nat, t1: nat)
      returns (completed: map<Id, Completion>)
      modifies this`records
      ensures (records, completed) == CompleteAfterVerification(config, old(records), interventionId, epoch, t0, t1)
    {
      hide Prune;
      PruneExpired(t0);
      ghost var p := records;
      completed := map[];
      var todo := records.Keys;
      while todo != {}
        invariant todo <= p.Keys
        invariant records ==
          map id | id in p :: if id in todo then p[id] else AfterVerification(config, p[id], interventionId, epoch, t1)
        invariant completed ==
          map id | id in p && id !in todo && Reported(p[id], interventionId, epoch, t1)
            :: Completion(LocatorOf(id, p[id]), p[id].completed)
        decreases todo
      {
        var id :| id in todo;
        todo := todo - {id};
        var record := records[id];
        if record.interventionId != interventionId || record.epoch != epoch {
          continue;
        }
        if record.completed {
          completed := completed[id := Completion(LocatorOf(id, record), true)];
          continue;
        }
        if record.revoked || record.completionExpiresAt <= t1 {
          continue;
        }
        record := record.(completed := true, revoked := true, released := true);
        record := record.(completionExpiresAt := t1 + config.completionGrace);
        records := records[id := record];
        completed := completed[id := Completion(LocatorOf(id, record), false)];
      }
      ghost var done := CompleteAfterVerification(config, old(records), interventionId, epoch, t0, t1);
      assert records == done.0;
      assert completed == done.1;
    }

    method RevokeSession(id: Id)
      modifies this`records
      ensures records == Revoke(old(records), id)
    {
      if id in records {
        records := records[id := records[id].(revoked := true)];
      }
    }

    method RevokeIntervention(interventionId: string)
      modifies this`records
      ensures records == RevokeForIntervention(old(records), interventionId)
    {
      ghost var p := records;
      var todo := records.Keys;
      while todo != {}
        invariant todo <= p.Keys && records.Keys == p.Keys
        invariant forall id | id in p ::
          records[id] == if id in todo then p[id] else RevokeForIntervention(p, interventionId)[id]
        decreases todo
      {
        var id :| id in todo;
        if records[id].interventionId == interventionId {
          records := records[id := records[id].(revoked := true)];
        }
        todo := todo - {id};
      }
    }

    method PruneExpired(now: nat)
      modifies this`records
      ensures records == Prune(old(records), now)
    {
      var todo := records.Keys;
      while todo != {}
        invariant todo <= old(records).Keys
        invariant records ==
          map id | id in old(records) && (id in todo || !Prunable(old(records)[id], now)) :: old(records)[id]
        decreases todo
      {
        var id :| id in todo;
        var record := records[id];
        var claimed := record.client.Some? && record.generation > 0;
        if (record.revoked && !record.completed)
          || (!claimed && record.expiresAt <= now)
          || (claimed && record.completionExpiresAt <= now)
        {
          records := records - {id};
        }
        todo := todo - {id};
      }
    }
  }
}
