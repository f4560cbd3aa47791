/**
 One hosted tool execution as the vault sees it (cloud/hosted_connector_execution.py): a claim, the
 work under its lease, and the cleanup that gives the lease up. Any vault call may fail to answer,
 whether or not it was committed, and other clients act at every point in between.
 */
module Executor {
  import opened Common
  import opened Vault
  import opened VaultLaws

  const RECONNECT_REQUIRED := "reconnect_required"
  const REFRESH_CONFLICT := "credential_refresh_conflict"
  const VAULT_UNAVAILABLE := "vault_unavailable"
  const TERMINAL_AUTH_ERRORS := {"credential_expired", "credential_invalid", "credential_refresh_failed",
                                 "provider_authentication_failed"}

  /** A call that raises or times out leaves its caller in the dark about the commit. */
  datatype Call = Answered | Lost(committed: bool)

  function Try(e: Option<Entry>, op: Op, call: Call): Option<Entry> {
    if call == Lost(false) then e else Apply(e, op).0
  }

  /**
   One execution: its claim; what happened to the record until the work ended, its own rotations
   included; how the work failed, if it did; the quarantine, the release, and what others did between.
   */
  datatype Execution = Execution(
    grant: Op, claim: Call, work: seq<Op>, failure: Option<string>,
    quarantine: Op, demotion: Call, pause: seq<Op>, release: Call)

  predicate WellShaped(x: Execution) {
    x.grant.ClaimExecution? && x.quarantine.Quarantine? && x.quarantine.lease == x.grant.mint
  }

  /** The executor was told that its claim took effect: only then does it know a lease to give up. */
  predicate Holding(e: Option<Entry>, x: Execution) { x.claim == Answered && Apply(e, x.grant).1 == Effect }

  function Worked(e: Option<Entry>, x: Execution): Option<Entry> { Run(Try(e, x.grant, x.claim), x.work) }

  /** The work failed in a way that asks for a new connection, so the record is to be quarantined. */
  predicate Reconnects(e: Option<Entry>, x: Execution) {
    Holding(e, x) && x.failure.Some? && x.failure.value in TERMINAL_AUTH_ERRORS
  }

  predicate Quarantined(e: Option<Entry>, x: Execution) {
    Reconnects(e, x) && x.demotion == Answered && Apply(Worked(e, x), x.quarantine).1 == Effect
  }

  function Paused(e: Option<Entry>, x: Execution): Option<Entry> {
    Run(if Reconnects(e, x) then Try(Worked(e, x), x.quarantine, x.demotion) else Worked(e, x), x.pause)
  }

  predicate Releases(e: Option<Entry>, x: Execution) { Holding(e, x) && !Quarantined(e, x) }

  /** The record when `execute` is done with the vault. */
  function Final(e: Option<Entry>, x: Execution): Option<Entry>
    requires WellShaped(x)
  {
    if Releases(e, x) then Try(Paused(e, x), ReleaseExecution(x.grant.mint), x.release) else Paused(e, x)
  }

  /** The failure after the attempt to quarantine. */
  function FailureSoFar(e: Option<Entry>, x: Execution): Option<string> {
    if !Reconnects(e, x) then x.failure
    else if x.demotion.Lost? then Some(VAULT_UNAVAILABLE)
    else if Quarantined(e, x) then Some(RECONNECT_REQUIRED)
    else Some(REFRESH_CONFLICT)
  }

  /** The failure reported under a claim that was answered with a lease; None: the call is allowed. */
  function Reported(e: Option<Entry>, x: Execution): Option<string>
    requires WellShaped(x) && Holding(e, x)
  {
    if !Releases(e, x) then FailureSoFar(e, x)
    else if x.release.Lost? then Some(VAULT_UNAVAILABLE)
    else if Apply(Paused(e, x), ReleaseExecution(x.grant.mint)).1 != Effect then Some(REFRESH_CONFLICT)
    else FailureSoFar(e, x)
  }

  // ---------------------------------------------------------------------------------------
  // What an allowed execution knows
  // ---------------------------------------------------------------------------------------

  /** The tokens of the operations around an execution: its lease is new, and so is every later token. */
  ghost predicate FreshAround(used: set<Token>, x: Execution, after: seq<Op>)
    requires WellShaped(x)
  {
    x.grant.mint !in used && Fresh(used + {x.grant.mint}, x.work + x.pause + after)
  }

  lemma FreshParts(used: set<Token>, x: Execution, after: seq<Op>)
    requires WellShaped(x) && FreshAround(used, x, after)
    ensures var used1 := used + {x.grant.mint};
            var used2 := Issued(used1, x.work);
            var used3 := Issued(used2, x.pause);
            && Fresh(used1, x.work) && Fresh(used2, x.pause) && Fresh(used3, after)
            && x.grant.mint in used1 && x.grant.mint in used2 && x.grant.mint in used3
  {
    var used1 := used + {x.grant.mint};
    assert x.work + x.pause + after == x.work + (x.pause + after);
    FreshSplit(used1, x.work, x.pause + after);
    FreshSplit(Issued(used1, x.work), x.pause, after);
  }

  /**
   A tool call is reported as allowed only if the record stayed in the executor's hands from the
   claim to the release: nobody disconnected, verified, marked, claimed or deleted it meanwhile.
   */
  lemma AllowedMeansUndisturbed(e: Option<Entry>, x: Execution, used: set<Token>)
    requires WellShaped(x) && FreshAround(used, x, []) && Holding(e, x) && Reported(e, x) == None
    ensures Undisturbed(Apply(e, x.grant).0, x.work, x.grant.mint) && Undisturbed(Worked(e, x), x.pause, x.grant.mint)
    ensures Paused(e, x).value.record.status == Ready
  {
    FreshParts(used, x, []);
    var lease, start := x.grant.mint, Apply(e, x.grant).0;
    var used1 := used + {lease};
    assert !Reconnects(e, x) && Stores(Paused(e, x), lease);
    if !Stores(Worked(e, x), lease) {
      LostLeaseStaysLost(Worked(e, x), x.pause, lease, Issued(used1, x.work));
    }
    StoredLeaseMeansUndisturbed(start, x.work, lease, used1);
    StoredLeaseMeansUndisturbed(Worked(e, x), x.pause, lease, Issued(used1, x.work));
  }

  // ---------------------------------------------------------------------------------------
  // The lease is given up
  // ---------------------------------------------------------------------------------------

  /** The claim was committed though its answer never came, or the release never reached the vault. */
  predicate MayLeaveLease(e: Option<Entry>, x: Execution) {
    if x.claim == Answered then Releases(e, x) && x.release == Lost(false) else x.claim == Lost(true)
  }

  lemma QuarantineDropsLease(e: Option<Entry>, op: Op, lease: Token)
    requires op.Quarantine? && Apply(e, op).1 == Effect
    ensures !Stores(Apply(e, op).0, lease)
  {
  }

  lemma UnclaimedHasNoLease(e: Option<Entry>, x: Execution)
    requires WellShaped(x) && !Stores(e, x.grant.mint) && !Holding(e, x) && x.claim != Lost(true)
    ensures !Stores(Try(e, x.grant, x.claim), x.grant.mint)
  {
  }

  /**
   An execution leaves its lease stored exactly when one of those two calls was lost and nobody else
   took the lease away: success, failure, timeout, cancellation, conflict and reconnect all drop it.
   */
  lemma LeaseLeftExactlyWhen(e: Option<Entry>, x: Execution, used: set<Token>)
    requires WellShaped(x) && FreshAround(used, x, []) && !Stores(e, x.grant.mint)
    ensures Stores(Final(e, x), x.grant.mint) <==> MayLeaveLease(e, x) && Stores(Paused(e, x), x.grant.mint)
  {
    FreshParts(used, x, []);
    var lease, used1 := x.grant.mint, used + {x.grant.mint};
    if Quarantined(e, x) {
      QuarantineDropsLease(Worked(e, x), x.quarantine, lease);
      LostLeaseStaysLost(Apply(Worked(e, x), x.quarantine).0, x.pause, lease, Issued(used1, x.work));
    } else if !Holding(e, x) && x.claim != Lost(true) {
      UnclaimedHasNoLease(e, x);
      LostLeaseStaysLost(Try(e, x.grant, x.claim), x.work, lease, used1);
      LostLeaseStaysLost(Worked(e, x), x.pause, lease, Issued(used1, x.work));
    }
  }

  /** Once given up, the lease is never stored again, so nothing guarded by it can still take effect. */
  lemma GivenUpForGood(e: Option<Entry>, x: Execution, after: seq<Op>, op: Op, used: set<Token>)
    requires WellShaped(x) && FreshAround(used, x, after) && !Stores(e, x.grant.mint)
    requires !MayLeaveLease(e, x) && Guard(op) == Some(x.grant.mint)
    ensures Apply(Run(Final(e, x), after), op).1 != Effect
  {
    FreshParts(used, x, after);
    assert x.work + x.pause + after == (x.work + x.pause) + after && x.work + x.pause + [] == x.work + x.pause;
    FreshSplit(used + {x.grant.mint}, x.work + x.pause, after);
    LeaseLeftExactlyWhen(e, x, used);
    LostLeaseStaysLost(Final(e, x), after, x.grant.mint, Issued(Issued(used + {x.grant.mint}, x.work), x.pause));
  }

  // ---------------------------------------------------------------------------------------
  // A lease left behind runs out
  // ---------------------------------------------------------------------------------------

  lemma StepKeepsExpiry(e: Option<Entry>, op: Op, lease: Token)
    requires Stores(e, lease) && Stores(Apply(e, op).0, lease) && lease !in Minted(op)
    ensures Apply(e, op).0.value.record.leaseExpiry == e.value.record.leaseExpiry
  {
  }

  /** While the lease is stored, so is the expiry it was granted with. */
  lemma {:induction false} ExpiryIsKept(e: Option<Entry>, ops: seq<Op>, lease: Token, used: set<Token>)
    requires lease in used && Fresh(used, ops) && Stores(e, lease) && Stores(Run(e, ops), lease)
    ensures Run(e, ops).value.record.leaseExpiry == e.value.record.leaseExpiry
    decreases |ops|
  {
    if ops != [] {
      var next, used1 := Apply(e, ops[0]).0, used + Minted(ops[0]);
      assert Run(e, ops) == Run(next, ops[1..]);
      if !Stores(next, lease) {
        LostLeaseStaysLost(next, ops[1..], lease, used1);
        assert false;
      }
      StepKeepsExpiry(e, ops[0], lease);
      ExpiryIsKept(next, ops[1..], lease, used1);
    }
  }

  /** Whatever became of the calls, from ninety seconds after the claim its lease keeps nobody out. */
  lemma LeaseRunsOut(e: Option<Entry>, grant: Op, ops: seq<Op>, used: set<Token>, now: Time)
    requires grant.ClaimExecution? && Apply(e, grant).1 == Effect
    requires grant.mint !in used && Fresh(used + {grant.mint}, ops)
    requires now >= grant.now + EXECUTION_LEASE_SECONDS
    ensures var r := Run(Apply(e, grant).0, ops);
            Stores(r, grant.mint) ==> !LeaseIsActive(r.value.record, now)
  {
    var start, r := Apply(e, grant).0, Run(Apply(e, grant).0, ops);
    if Stores(r, grant.mint) { ExpiryIsKept(start, ops, grant.mint, used + {grant.mint}); }
  }
}
