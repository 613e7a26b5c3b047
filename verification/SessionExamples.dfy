/** Runs of the session manager in which its promises end, for every configuration that allows them. */
module SessionExamples {
  import opened Options
  import opened Fields
  import opened Session
  import opened SessionRuns
  import opened Grants
  import opened SessionTheorems

  lemma {:induction false} RunSnoc(c: Config, w: World, steps: seq<Step>, s: Step)
    requires ValidRun(c, w, steps) && Enabled(Run(c, w, steps), s)
    ensures ValidRun(c, w, steps + [s]) && Run(c, w, steps + [s]) == Next(c, Run(c, w, steps), s)
    decreases |steps|
  {
    hide Next, Enabled;
    if steps == [] {
      assert ([] + [s])[1..] == [];
    } else {
      RunSnoc(c, Next(c, w, steps[0]), steps[1..], s);
      assert (steps + [s])[1..] == steps[1..] + [s];
    }
  }

  lemma {:induction false} ReachableNext(c: Config, w: World, s: Step)
    requires Reachable(c, w) && Enabled(w, s)
    ensures Reachable(c, Next(c, w, s))
  {
    hide Next, Enabled, Run, ValidRun;
    var steps :| ValidRun(c, INITIAL, steps) && Run(c, INITIAL, steps) == w;
    RunSnoc(c, INITIAL, steps, s);
  }

  const ID: Id := "a"

  function FirstRecord(c: Config): Record {
    NewRecord(c, "i", 0, "p", 0)
  }

  /** The manager after its first record was created at time 0. */
  lemma {:induction false} Created(c: Config) returns (w: World)
    ensures Reachable(c, w) && w.clock == 0 && w.store == map[ID := FirstRecord(c)]
  {
    assert Reachable(c, INITIAL) by {
      assert ValidRun(c, INITIAL, []) && Run(c, INITIAL, []) == INITIAL;
    }
    hide Reachable;
    var s := Step(CallEnsure("i", 0, "p", ID), 0, 0, 0);
    w := Next(c, INITIAL, s);
    ReachableNext(c, INITIAL, s);
    assert Prune(INITIAL.store, 0) == map[];
    assert Superseded(map[], "i", 0) == map[];
  }

  /** A record completed without a claim: pruning forgets it while it is still reported as completed. */
  lemma {:induction false} UnclaimedCompletionForgotten(c: Config) returns (w: World, now: nat)
    requires ValidConfig(c)
    ensures Reachable(c, w) && now >= w.clock && ID in w.store && w.store[ID].completed
    ensures ID !in Prune(w.store, now) && IsCompleted(w.store, ID, "p", now) == Ok(true)
  {
    hide Reachable, CompletionCapability;
    var v := Created(c);
    var r := FirstRecord(c);
    var s := Step(CallComplete(ID, CompletionCapability(ID, r), "p"), 0, 0, 0);
    w, now := Next(c, v, s), c.ttl;
    ReachableNext(c, v, s);
    assert TokenShape(CompletionCapability(ID, r)) by {
      CapabilityIsMac(ID, r);
    }
    assert w.store == map[ID := Finished(r)];
  }

  lemma {:induction false} CapabilityIsMac(id: Id, r: Record)
    ensures CompletionCapability(id, r).Mac?
  {
  }

  const CLIENT := "abcdefghijklmnopqrstuvwx"

  lemma {:induction false} ClientShaped()
    ensures ClientShape(CLIENT)
  {
    assert |CLIENT| == 24;
  }

  function ClaimedOnce(c: Config): Record {
    FirstRecord(c).(client := Some(CLIENT), generation := 1, lastSeenAt := Some(0))
  }

  lemma {:induction false} Claims(c: Config)
    requires ValidConfig(c)
    ensures Claim(map[ID := FirstRecord(c)], ID, "p", CLIENT, 0, 0).0 == map[ID := ClaimedOnce(c)]
  {
    ClientShaped();
    hide ClientShape, Capability, ReconnectHandle, LocatorOf;
  }

  lemma {:induction false} ClaimedRecord(c: Config) returns (w: World)
    requires ValidConfig(c)
    ensures Reachable(c, w) && w.clock == 0 && w.store == map[ID := ClaimedOnce(c)]
  {
    hide Reachable, Claim, FirstRecord, ClaimedOnce;
    var v := Created(c);
    Claims(c);
    var s := Step(CallClaim(ID, "p", CLIENT), 0, 0, 0);
    w := Next(c, v, s);
    ReachableNext(c, v, s);
  }

  /** A claimed record whose grace after a verified completion ends before its lease: pruning forgets it
      while a repeated completion would still be accepted. */
  lemma {:induction false} RepeatedCompletionForgotten(c: Config) returns (w: World, now: nat)
    requires ValidConfig(c) && c.completionGrace < c.ttl
    ensures Reachable(c, w) && now >= w.clock && ID in w.store && w.store[ID].completed
    ensures ID !in Prune(w.store, now)
    ensures Complete(w.store, ID, CompletionCapability(ID, w.store[ID]), "p", now, now).1.Ok?
  {
    hide Reachable, CompletionCapability, ClientShape;
    var v := ClaimedRecord(c);
    var s := Step(CallCompleteVerified("i", 0), 0, 0, 0);
    w, now := Next(c, v, s), c.completionGrace;
    ReachableNext(c, v, s);
    assert ID in Prune(v.store, 0) && ID in w.store;
    CapabilityIsMac(ID, w.store[ID]);
  }

  /** A capability is issued, a verified completion follows, and the capability is refused. */
  lemma {:induction false} CapabilityRefused(c: Config) returns (w: World, token: Token, s: Step)
    requires ValidConfig(c)
    ensures Reachable(c, w) && Enabled(w, s) && s.call.CallCompleteVerified?
    ensures IssueCompletion(w.store, ID, "p", 0, 0) == Ok(token)
    ensures Complete(Next(c, w, s).store, ID, token, "p", 0, 0).1 == Err(Forbidden)
  {
    hide Reachable, CompletionCapability;
    w := Created(c);
    s := Step(CallCompleteVerified("i", 0), 0, 0, 0);
    var r := FirstRecord(c);
    token := CompletionCapability(ID, r);
    var done := Next(c, w, s).store;
    assert ID in Prune(w.store, 0) && ID in done;
    DeadlinesSeparate(ID, r, done[ID]);
  }
}
