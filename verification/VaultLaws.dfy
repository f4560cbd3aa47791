/** Certification, lease fencing and the disconnect latch, over every interleaving of clients. */
module VaultLaws {
  import opened Common
  import opened Vault

  // ---------------------------------------------------------------------------------------
  // Certification
  // ---------------------------------------------------------------------------------------

  ghost predicate Certified(r: Record) {
    && 1 <= r.toolCount == |r.tools|
    && r.canary.Some? && r.schemaSha.Some? && r.canary.value in r.tools && r.tools[r.canary.value] == r.schemaSha.value
    && r.manifest == Some(ManifestSha(r.tools))
    && r.proof == Some(CERTIFICATION_SCHEMA) && r.verifiedAt.Some?
    && IsToolName(r.canary.value) && IsSha(r.schemaSha.value)
  }

  ghost predicate Uncertified(r: Record) {
    && r.toolCount == 0 && r.verifiedAt == None && r.canary == None && r.schemaSha == None && r.proof == None
    && r.tools == map[] && r.manifest == None
  }

  /** What every reachable record satisfies; `used` holds all tokens issued so far. */
  ghost predicate Sound(e: Option<Entry>, used: set<Token>) {
    e.Some? ==>
      var r := e.value.record;
      && (if r.status == Ready then Certified(r) else Uncertified(r))
      && !r.status.OtherStatus?
      && r.generation.Some? && r.generation.value in used
      && r.kind == e.value.secret.kind
      && (r.lease.Some? <==> r.leaseExpiry.Some?)
      && (r.lease.Some? ==> r.lease.value in used && r.status in {Ready, Verifying})
  }

  /** A verdict that passes validation leaves a certified record, or an uncertified one. */
  lemma JudgedIsSound(r: Record, status: Status, c: Claim, tools: map<string, string>, now: Time)
    requires Validate(status, c) == Some(tools)
    ensures var j := Judged(r, status, c, tools, now);
            && j.status == status && (if status == Ready then Certified(j) else Uncertified(j))
            && j.lease == None && j.leaseExpiry == None && j.generation == r.generation && j.kind == r.kind
  {
  }

  lemma StepIsSound(e: Option<Entry>, op: Op, used: set<Token>)
    requires Sound(e, used)
    ensures Sound(Apply(e, op).0, used + Minted(op))
  {
    if op.FinishVerification? || op.Mark? {
      VerdictIsSound(e, op, used);
    } else if IsDemotion(op) {
      DemotionIsSound(e, op, used);
    } else if op.Put? || op.Rotate? {
      SecretStepIsSound(e, op, used);
    } else {
      QuietStepIsSound(e, op, used);
    }
  }

  lemma VerdictIsSound(e: Option<Entry>, op: Op, used: set<Token>)
    requires Sound(e, used) && (op.FinishVerification? || op.Mark?)
    ensures Sound(Apply(e, op).0, used + Minted(op))
  {
    if Apply(e, op).1 == Effect {
      var tools := Validate(op.status, op.claim).value;
      JudgedIsSound(e.value.record, op.status, op.claim, tools, op.now);
      assert Apply(e, op).0 == Some(e.value.(record := Judged(e.value.record, op.status, op.claim, tools, op.now)));
    } else {
      assert Apply(e, op).0 == e;
    }
  }

  lemma QuietStepIsSound(e: Option<Entry>, op: Op, used: set<Token>)
    requires Sound(e, used) && (op.ClaimExecution? || op.ReleaseExecution? || op.Delete?)
    ensures Sound(Apply(e, op).0, used + Minted(op))
  {
  }

  lemma SecretStepIsSound(e: Option<Entry>, op: Op, used: set<Token>)
    requires Sound(e, used) && (op.Put? || op.Rotate?)
    ensures Sound(Apply(e, op).0, used + Minted(op))
  {
  }

  predicate IsDemotion(op: Op) { op.Quarantine? || op.BeginVerification? || op.BeginDisconnect? }

  lemma DemotionIsSound(e: Option<Entry>, op: Op, used: set<Token>)
    requires Sound(e, used) && IsDemotion(op)
    ensures Sound(Apply(e, op).0, used + Minted(op))
  {
  }

  /** In every reachable state, ready means a consistent certification and anything else means none. */
  lemma {:induction false} EveryRecordIsSound(e: Option<Entry>, ops: seq<Op>, used: set<Token>)
    requires Sound(e, used)
    ensures Sound(Run(e, ops), Issued(used, ops))
    decreases |ops|
  {
    if ops != [] {
      StepIsSound(e, ops[0], used);
      EveryRecordIsSound(Apply(e, ops[0]).0, ops[1..], used + Minted(ops[0]));
    }
  }

  /** The recheck of `public_connection`, which downgrades a ready record that fails it. */
  predicate PublicCheck(r: Record) {
    && r.status == Ready && r.proof == Some(CERTIFICATION_SCHEMA)
    && r.canary.Some? && r.canary.value != "" && r.schemaSha.Some? && r.schemaSha.value != ""
    && r.generation.Some? && r.toolCount == |r.tools| && r.manifest == Some(ManifestSha(r.tools))
    && r.canary.value in r.tools && r.tools[r.canary.value] == r.schemaSha.value
  }

  function PublicStatus(r: Record): Status {
    if PublicCheck(r) || r.status != Ready then r.status else NeedsAttention
  }

  /** The readiness recheck of the executor after its claim. */
  predicate ExecutorCheck(r: Record) {
    && r.status == Ready && r.proof == Some(CERTIFICATION_SCHEMA)
    && r.canary.Some? && r.canary.value != "" && r.schemaSha.Some? && r.schemaSha.value != ""
    && r.generation.Some? && r.lease.Some? && r.toolCount == |r.tools| && r.manifest == Some(ManifestSha(r.tools))
  }

  /**
   From an empty vault, after any operations: the console shows the stored status, "verified" exactly
   when it is ready, and a claim that takes effect always passes the executor's own recheck.
   */
  lemma RechecksNeverFire(ops: seq<Op>, mint: Token, now: Time)
    ensures var e := Run(None, ops);
            && (e.Some? ==> PublicStatus(e.value.record) == e.value.record.status
                            && (PublicCheck(e.value.record) <==> e.value.record.status == Ready))
            && (Apply(e, ClaimExecution(mint, now)).1 == Effect ==>
                  ExecutorCheck(Apply(e, ClaimExecution(mint, now)).0.value.record))
  {
    EveryRecordIsSound(None, ops, {});
  }

  // ---------------------------------------------------------------------------------------
  // Lease fencing
  // ---------------------------------------------------------------------------------------

  predicate Stores(e: Option<Entry>, lease: Token) { e.Some? && e.value.record.lease == Some(lease) }

  /** The operation changes nothing, or is the lease holder rotating its own secret. */
  ghost predicate Harmless(e: Option<Entry>, op: Op, lease: Token) {
    || Apply(e, op).0 == e
    || (&& op.Rotate? && op.lease == lease && Apply(e, op).1 == Effect
        && Stores(Apply(e, op).0, lease) && Apply(e, op).0.value.record.status == e.value.record.status == Ready)
  }

  /** Through the whole sequence the lease stays stored and nobody but its holder changes the record. */
  ghost predicate Undisturbed(e: Option<Entry>, ops: seq<Op>, lease: Token)
    decreases |ops|
  {
    Stores(e, lease) && (ops == [] || (Harmless(e, ops[0], lease) && Undisturbed(Apply(e, ops[0]).0, ops[1..], lease)))
  }

  lemma {:induction false} LostLeaseStaysLost(e: Option<Entry>, ops: seq<Op>, lease: Token, used: set<Token>)
    requires lease in used && Fresh(used, ops) && !Stores(e, lease)
    ensures !Stores(Run(e, ops), lease)
    decreases |ops|
  {
    if ops != [] { LostLeaseStaysLost(Apply(e, ops[0]).0, ops[1..], lease, used + Minted(ops[0])); }
  }

  lemma StoringStepIsHarmless(e: Option<Entry>, op: Op, lease: Token)
    requires Stores(e, lease) && Stores(Apply(e, op).0, lease) && lease !in Minted(op)
    ensures Harmless(e, op, lease) && Apply(e, op).0.value.record.status == e.value.record.status
  {
  }

  /**
   Fencing: if a lease granted in the past is still stored, then since the grant no other claim, no
   begin-verification, disconnect, mark, release, quarantine, verdict or deletion took effect.
   */
  lemma {:induction false} StoredLeaseMeansUndisturbed(e: Option<Entry>, ops: seq<Op>, lease: Token, used: set<Token>)
    requires lease in used && Fresh(used, ops)
    requires Stores(e, lease) && Stores(Run(e, ops), lease)
    ensures Undisturbed(e, ops, lease)
    ensures Run(e, ops).value.record.status == e.value.record.status
    decreases |ops|
  {
    if ops != [] {
      var next, used1 := Apply(e, ops[0]).0, used + Minted(ops[0]);
      assert Run(e, ops) == Run(next, ops[1..]);
      if !Stores(next, lease) {
        LostLeaseStaysLost(next, ops[1..], lease, used1);
        assert false;
      }
      StoringStepIsHarmless(e, ops[0], lease);
      StoredLeaseMeansUndisturbed(next, ops[1..], lease, used1);
    }
  }

  /** The lease an operation presents as its guard. */
  function Guard(op: Op): Option<Token> {
    match op
    case Rotate(_, lease, _, _, _) => Some(lease)
    case Quarantine(_, lease, _, _) => Some(lease)
    case FinishVerification(_, lease, _, _, _) => Some(lease)
    case ReleaseExecution(lease) => Some(lease)
    case _ => None
  }

  /**
   A lease is granted by a claim or by begin-verification. Any later operation guarded by it takes
   effect only if nobody else changed the record since the grant, whatever the interleaving.
   */
  lemma GuardedEffectIsFenced(e: Option<Entry>, grant: Op, ops: seq<Op>, op: Op, used: set<Token>)
    requires grant.ClaimExecution? || grant.BeginVerification?
    requires Apply(e, grant).1 == Effect && Minted(grant) !! used
    requires Fresh(used + Minted(grant), ops)
    requires Guard(op) == Some(grant.mint)
    requires Apply(Run(Apply(e, grant).0, ops), op).1 == Effect
    ensures Undisturbed(Apply(e, grant).0, ops, grant.mint)
  {
    StoredLeaseMeansUndisturbed(Apply(e, grant).0, ops, grant.mint, used + Minted(grant));
  }

  // ---------------------------------------------------------------------------------------
  // The executor as the holder of a lease
  // ---------------------------------------------------------------------------------------

  /** What the executor believes is stored. */
  datatype Belief = Belief(generation: Token, secret: Secret)

  /** The executor's belief after one step of the system; only its own rotation changes it. */
  function Learn(e: Option<Entry>, op: Op, lease: Token, b: Belief): Belief {
    if op.Rotate? && op.lease == lease && Apply(e, op).1 == Effect then Belief(op.mint, op.secret) else b
  }

  /** Every rotation under `lease` presents what its holder believed at that moment. */
  ghost predicate HolderActs(e: Option<Entry>, ops: seq<Op>, lease: Token, b: Belief)
    decreases |ops|
  {
    ops == [] ||
    (&& (ops[0].Rotate? && ops[0].lease == lease ==> ops[0].generation == b.generation && ops[0].expected == b.secret)
     && HolderActs(Apply(e, ops[0]).0, ops[1..], lease, Learn(e, ops[0], lease, b)))
  }

  function Learned(e: Option<Entry>, ops: seq<Op>, lease: Token, b: Belief): Belief
    decreases |ops|
  {
    if ops == [] then b else Learned(Apply(e, ops[0]).0, ops[1..], lease, Learn(e, ops[0], lease, b))
  }

  ghost predicate Believes(e: Option<Entry>, b: Belief) {
    e.Some? && e.value.record.generation == Some(b.generation) && e.value.secret == b.secret
  }

  /** While its lease is stored, the executor knows the stored generation and secret. */
  lemma {:induction false} HolderKnows(e: Option<Entry>, ops: seq<Op>, lease: Token, b: Belief, used: set<Token>)
    requires lease in used && Fresh(used, ops) && Stores(e, lease) && Believes(e, b)
    requires HolderActs(e, ops, lease, b) && Stores(Run(e, ops), lease)
    ensures Believes(Run(e, ops), Learned(e, ops, lease, b))
    decreases |ops|
  {
    StoredLeaseMeansUndisturbed(e, ops, lease, used);
    if ops != [] {
      HolderKnows(Apply(e, ops[0]).0, ops[1..], lease, Learn(e, ops[0], lease, b), used + Minted(ops[0]));
    }
  }

  /** The test by which the executor would adopt another request's rotation after losing its own. */
  predicate WinnerFound(e: Option<Entry>, lease: Token, b: Belief) {
    && e.Some? && e.value.record.status == Ready && e.value.record.lease == Some(lease)
    && e.value.record.generation != Some(b.generation) && e.value.secret != b.secret
    && e.value.secret.kind == b.secret.kind
  }

  /**
   The executor's fallback for a lost compare-and-swap is unreachable: after its claim, if its rotation
   to a secret of the same kind does not match, then its lease is gone for good and the later lookup,
   at whatever moment it runs, never finds a winner to adopt.
   */
  lemma LostRotationHasNoWinner(e: Option<Entry>, grant: Op, before: seq<Op>, rotate: Op, after: seq<Op>, used: set<Token>)
    requires grant.ClaimExecution? && Apply(e, grant).1 == Effect && Minted(grant) !! used
    requires Sound(e, used)
    requires Fresh(used + Minted(grant), before + [rotate] + after)
    requires var start := Apply(e, grant).0;
             var b0 := Belief(start.value.record.generation.value, start.value.secret);
             var b := Learned(start, before, grant.mint, b0);
             && HolderActs(start, before, grant.mint, b0)
             && rotate.Rotate? && rotate.lease == grant.mint
             && rotate.generation == b.generation && rotate.expected == b.secret && rotate.secret.kind == b.secret.kind
             && Apply(Run(start, before), rotate).1 == NoMatch
    ensures var start := Apply(e, grant).0;
            var b0 := Belief(start.value.record.generation.value, start.value.secret);
            !WinnerFound(Run(Run(start, before), after), grant.mint, Learned(start, before, grant.mint, b0))
  {
    var start, lease, used1 := Apply(e, grant).0, grant.mint, used + Minted(grant);
    var b0 := Belief(start.value.record.generation.value, start.value.secret);
    assert before + [rotate] + after == before + ([rotate] + after);
    FreshSplit(used1, before, [rotate] + after);
    assert ([rotate] + after)[1..] == after;
    if Stores(Run(start, before), lease) {
      HolderKnows(start, before, lease, b0, used1);
      StoredLeaseMeansUndisturbed(start, before, lease, used1);
      assert false;
    }
    LostLeaseStaysLost(Run(start, before), after, lease, Issued(used1, before) + Minted(rotate));
  }

  lemma {:induction false} FreshSplit(used: set<Token>, a: seq<Op>, b: seq<Op>)
    requires Fresh(used, a + b)
    ensures Fresh(used, a) && Fresh(Issued(used, a), b) && used <= Issued(used, a)
    decreases |a|
  {
    if a == [] { assert a + b == b; }
    else {
      assert (a + b)[1..] == a[1..] + b;
      FreshSplit(used + Minted(a[0]), a[1..], b);
    }
  }

  // ---------------------------------------------------------------------------------------
  // The disconnect latch
  // ---------------------------------------------------------------------------------------

  /** A connection being disconnected: demoted, marked pending and without a lease. */
  ghost predicate Latched(e: Option<Entry>) {
    e.Some? && e.value.record.status == NeedsAttention && e.value.record.error == Some(DISCONNECT_PENDING)
    && e.value.record.lease == None && e.value.record.leaseExpiry == None && e.value.record.generation.Some?
    && Uncertified(e.value.record)
  }

  lemma LatchHolds(e: Option<Entry>, op: Op)
    requires Latched(e) && !op.Mark?
    ensures Apply(e, op).0 == e || (op.Delete? && Apply(e, op) == (None, Effect))
  {
  }

  /** No sequence of operations without `mark` moves a latched record, except the deletion that ends it. */
  lemma {:induction false} LatchOnlyYieldsToDelete(e: Option<Entry>, ops: seq<Op>)
    requires Latched(e) && forall op | op in ops :: !op.Mark?
    ensures Run(e, ops) == e || exists k :: 0 <= k < |ops| && ops[k].Delete? && Run(e, ops[..k]) == e && Apply(e, ops[k]).0 == None
    decreases |ops|
  {
    if ops != [] {
      LatchHolds(e, ops[0]);
      if Apply(e, ops[0]).0 == e {
        LatchOnlyYieldsToDelete(e, ops[1..]);
        if Run(e, ops[1..]) != e {
          var k :| 0 <= k < |ops| - 1 && ops[1..][k].Delete? && Run(e, ops[1..][..k]) == e && Apply(e, ops[1..][k]).0 == None;
          assert ops[..k + 1][0] == ops[0] && ops[..k + 1][1..] == ops[1..][..k];
          assert ops[k + 1] == ops[1..][k];
        }
      } else {
        assert ops[..0] == [];
      }
    }
  }

  /** A disconnect that takes effect latches the record. */
  lemma DisconnectLatches(e: Option<Entry>, mint: Token, now: Time)
    requires Apply(e, BeginDisconnect(mint, now)).1 == Effect
    ensures Latched(Apply(e, BeginDisconnect(mint, now)).0)
  {
  }
}
