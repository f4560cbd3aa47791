/**
 What the connector vault accepts, said of the claim and the record themselves: which verdicts take
 effect, who is let in, and that a holder whose lease is stored always gets through.
 */
module VaultProgress {
  import opened Common
  import opened Vault
  import opened VaultLaws
  import opened GoogleVault
  import opened Executor

  // ---------------------------------------------------------------------------------------
  // Claims
  // ---------------------------------------------------------------------------------------

  const CAPITALS: string := "ABCDEFGHIJKLMNOPQRSTUVWXYZ"
  const LETTERS: string := "abcdefghijklmnopqrstuvwxyz"

  predicate IsNameCharacter(c: char) { c in CAPITALS || c in LETTERS || c in "0123456789" || c in "_.:/-" }

  /** A tool name: 1 to 160 of those characters. */
  predicate IsName(s: string) { 1 <= |s| <= 160 && forall i | 0 <= i < |s| :: IsNameCharacter(s[i]) }

  /** A digest: 64 lower-case hexadecimal digits. */
  predicate IsHexDigest(s: string) { |s| == 64 && forall i | 0 <= i < |s| :: s[i] in "0123456789abcdef" }

  lemma Capitals(c: char)
    ensures c in CAPITALS <==> 'A' <= c <= 'Z'
  {
    if 'A' <= c <= 'Z' { assert CAPITALS[c as int - 'A' as int] == c; }
  }

  lemma Letters(c: char)
    ensures c in LETTERS <==> 'a' <= c <= 'z'
  {
    if 'a' <= c <= 'z' { assert LETTERS[c as int - 'a' as int] == c; }
  }

  lemma Digits(c: char)
    ensures c in "0123456789" <==> '0' <= c <= '9'
  {
    var digits := "0123456789";
    if '0' <= c <= '9' { assert digits[c as int - '0' as int] == c; }
  }

  lemma NamesAndDigests(s: string)
    ensures IsToolName(s) <==> IsName(s)
    ensures IsSha(s) <==> IsHexDigest(s)
  {
    forall i | 0 <= i < |s|
      ensures IsNameCharacter(s[i]) <==> 'A' <= s[i] <= 'Z' || 'a' <= s[i] <= 'z' || '0' <= s[i] <= '9' || s[i] in "_.:/-"
      ensures s[i] in "0123456789abcdef" <==> 'a' <= s[i] <= 'f' || '0' <= s[i] <= '9'
    {
      Capitals(s[i]);
      Letters(s[i]);
      Digits(s[i]);
      HexCharacters(s[i]);
    }
  }

  lemma HexCharacters(c: char)
    ensures c in "0123456789abcdef" <==> 'a' <= c <= 'f' || '0' <= c <= '9'
  {
    var hex := "0123456789abcdef";
    if '0' <= c <= '9' { assert hex[c as int - '0' as int] == c; }
    if 'a' <= c <= 'f' { assert hex[10 + (c as int - 'a' as int)] == c; }
  }

  /** Tools a verifier may list: each well formed, and no name twice. */
  ghost predicate WellListed(tools: seq<(string, string)>) {
    && (forall i | 0 <= i < |tools| :: IsName(tools[i].0) && IsHexDigest(tools[i].1))
    && forall i, j | 0 <= i < j < |tools| :: tools[i].0 != tools[j].0
  }

  /** The map holds the listed pairs and nothing else. */
  ghost predicate HoldsExactly(m: map<string, string>, tools: seq<(string, string)>) {
    && (forall i | 0 <= i < |tools| :: tools[i].0 in m && m[tools[i].0] == tools[i].1)
    && forall name | name in m :: exists i :: 0 <= i < |tools| && tools[i].0 == name
  }

  /** A list of tools is accepted if and only if it is well listed, and then none is lost or made up. */
  lemma {:induction false} NormalizeExactly(tools: seq<(string, string)>)
    ensures Normalize(tools).Some? <==> WellListed(tools)
    ensures Normalize(tools).Some? ==> HoldsExactly(Normalize(tools).value, tools)
  {
    if tools != [] {
      var front, last := tools[..|tools| - 1], tools[|tools| - 1];
      NormalizeExactly(front);
      WellListedSnoc(front, last);
      NamesAndDigests(last.0);
      NamesAndDigests(last.1);
      assert tools == front + [last];
      if WellListed(front) {
        HeldOnce(Normalize(front).value, front, last.0);
        if WellListed(tools) { HeldSnoc(Normalize(front).value, front, last); }
      }
    }
  }

  ghost predicate IsListed(tools: seq<(string, string)>, name: string) { exists i :: 0 <= i < |tools| && tools[i].0 == name }

  lemma WellListedSnoc(front: seq<(string, string)>, last: (string, string))
    ensures WellListed(front + [last]) <==>
              WellListed(front) && IsName(last.0) && IsHexDigest(last.1) && !IsListed(front, last.0)
  {
    var tools := front + [last];
    assert tools[|front|] == last && forall i | 0 <= i < |front| :: tools[i] == front[i];
  }

  lemma HeldOnce(m: map<string, string>, tools: seq<(string, string)>, name: string)
    requires HoldsExactly(m, tools)
    ensures name in m <==> IsListed(tools, name)
  {
  }

  lemma HeldSnoc(m: map<string, string>, front: seq<(string, string)>, last: (string, string))
    requires HoldsExactly(m, front) && !IsListed(front, last.0)
    ensures HoldsExactly(m[last.0 := last.1], front + [last])
  {
    var tools := front + [last];
    assert tools[|front|] == last && forall i | 0 <= i < |front| :: tools[i] == front[i];
    var more := m[last.0 := last.1];
    forall name | name in more ensures exists i :: 0 <= i < |tools| && tools[i].0 == name {
      if name == last.0 {
        assert tools[|front|].0 == name;
      } else {
        var i :| 0 <= i < |front| && front[i].0 == name;
        assert tools[i].0 == name;
      }
    }
  }

  /**
   A claim that certifies: 1 to 128 well-listed tools, all counted, the canary one of them under the
   digest claimed for it, this schema, and the digest of exactly these tools.
   */
  ghost predicate IsConsistent(c: Claim) {
    && 1 <= |c.tools| <= 128 && WellListed(c.tools) && c.toolCount == |c.tools|
    && c.canary.Some? && c.schemaSha.Some? && (c.canary.value, c.schemaSha.value) in c.tools
    && c.proof == Some("rally.connection-certification/v1")
    && c.manifest.Some? && c.manifest.value.ManifestSha? && HoldsExactly(c.manifest.value.tools, c.tools)
  }

  lemma HeldMapsAreEqual(m: map<string, string>, n: map<string, string>, tools: seq<(string, string)>)
    requires HoldsExactly(m, tools) && HoldsExactly(n, tools)
    ensures m == n
  {
    forall name ensures name in m <==> name in n {
      HeldOnce(m, tools, name);
      HeldOnce(n, tools, name);
    }
    forall name | name in m ensures m[name] == n[name] {
      var i :| 0 <= i < |tools| && tools[i].0 == name;
    }
  }

  /** Validation lets a claim of readiness through if and only if it is consistent. */
  lemma ReadyIsValidExactlyWhen(c: Claim)
    ensures Validate(Ready, c).Some? <==> IsConsistent(c)
    ensures IsConsistent(c) ==> c.manifest == Some(ManifestSha(Validate(Ready, c).value))
  {
    NormalizeExactly(c.tools);
    if Normalize(c.tools).Some? && c.manifest.Some? && c.manifest.value.ManifestSha?
       && HoldsExactly(c.manifest.value.tools, c.tools) {
      HeldMapsAreEqual(c.manifest.value.tools, Normalize(c.tools).value, c.tools);
    }
    if Normalize(c.tools).Some? && c.canary.Some? && c.schemaSha.Some? {
      CanaryIsListed(Normalize(c.tools).value, c.tools, c.canary.value, c.schemaSha.value);
    }
  }

  lemma CanaryIsListed(m: map<string, string>, tools: seq<(string, string)>, name: string, sha: string)
    requires HoldsExactly(m, tools) && WellListed(tools)
    ensures name in m && m[name] == sha <==> (name, sha) in tools
    ensures (name, sha) in tools ==> IsToolName(name) && IsSha(sha)
  {
    if name in m && m[name] == sha {
      var i :| 0 <= i < |tools| && tools[i].0 == name;
      assert tools[i] == (name, sha);
    }
    NamesAndDigests(name);
    NamesAndDigests(sha);
  }

  /** The verdict may be stored: a consistent claim, or the news that attention is needed. */
  ghost predicate MayBeStored(status: Status, c: Claim) {
    if status == Ready then IsConsistent(c) else |c.tools| <= 128 && WellListed(c.tools)
  }

  lemma ValidExactlyWhen(status: Status, c: Claim)
    ensures Validate(status, c).Some? <==> MayBeStored(status, c)
  {
    ReadyIsValidExactlyWhen(c);
    NormalizeExactly(c.tools);
  }

  /** The record of a connection just certified by this claim. */
  ghost predicate CertifiedBy(r: Record, c: Claim, now: Time) {
    && r.status == Ready && r.toolCount == |c.tools| && HoldsExactly(r.tools, c.tools) && r.verifiedAt == Some(now)
    && r.error == c.error && r.canary == c.canary && r.schemaSha == c.schemaSha && r.proof == c.proof
    && r.manifest == c.manifest && r.lease == None && r.leaseExpiry == None
  }

  /** A verifying record under this generation and lease. */
  predicate IsVerifying(e: Option<Entry>, generation: Token, lease: Token) {
    && e.Some? && e.value.record.status == Verifying
    && e.value.record.generation == Some(generation) && e.value.record.lease == Some(lease)
  }

  /**
   A verdict takes effect if and only if it is ready or needs attention, its claim may be stored and the
   record is still being verified under its generation and lease; then the record says what it claims.
   */
  lemma FinishTakesEffectExactlyWhen(e: Option<Entry>, generation: Token, lease: Token, status: Status, c: Claim, now: Time)
    ensures var (t, outcome) := Apply(e, FinishVerification(generation, lease, status, c, now));
            && (outcome == Effect <==>
                  status in {Ready, NeedsAttention} && MayBeStored(status, c) && IsVerifying(e, generation, lease))
            && (outcome == Invalid <==> !(status in {Ready, NeedsAttention} && MayBeStored(status, c)))
            && (outcome != Effect ==> t == e)
            && (outcome == Effect ==> t.Some? && t.value.secret == e.value.secret)
            && (outcome == Effect && status == Ready ==> CertifiedBy(t.value.record, c, now))
            && (outcome == Effect && status != Ready ==>
                  t.value.record.status == NeedsAttention && t.value.record.error == c.error && Uncertified(t.value.record))
  {
    ValidExactlyWhen(status, c);
    FinishIsJudged(e, generation, lease, status, c, now);
    if status == Ready && IsConsistent(c) && e.Some? { JudgedIsCertified(e.value.record, c, now); }
  }

  lemma FinishIsJudged(e: Option<Entry>, generation: Token, lease: Token, status: Status, c: Claim, now: Time)
    ensures var (t, outcome) := Apply(e, FinishVerification(generation, lease, status, c, now));
            var ok := status in {Ready, NeedsAttention} && Validate(status, c).Some?;
            && (outcome == Effect <==> ok && IsVerifying(e, generation, lease))
            && (outcome == Invalid <==> !ok)
            && t == if outcome != Effect then e
                    else Some(Entry(e.value.secret, Judged(e.value.record, status, c, Validate(status, c).value, now)))
  {
  }

  lemma JudgedIsCertified(r: Record, c: Claim, now: Time)
    requires IsConsistent(c) && Validate(Ready, c).Some?
    ensures CertifiedBy(Judged(r, Ready, c, Validate(Ready, c).value, now), c, now)
  {
    NormalizeExactly(c.tools);
    assert Validate(Ready, c) == Normalize(c.tools);
  }

  /** The same of the Firestore vault. */
  lemma DocumentFinishesExactlyWhen(d: Option<Document>, generation: Token, lease: Token, status: Status, c: Claim, now: Time)
    ensures var (t, outcome) := Transact(d, FinishVerification(generation, lease, status, c, now));
            && (outcome == Effect <==>
                  status in {Ready, NeedsAttention} && MayBeStored(status, c) && IsVerifying(AsEntry(d), generation, lease))
            && (outcome == Effect && status == Ready ==> CertifiedBy(PublicRecord(t.value), c, now))
  {
    var op := FinishVerification(generation, lease, status, c, now);
    StepSeenAlike(d, op);
    StepKeepsAlike(d, AsEntry(d), op);
    FinishTakesEffectExactlyWhen(AsEntry(d), generation, lease, status, c, now);
  }

  /** A mark takes effect on any stored connection, for a known status, a count in range and a claim that may be stored. */
  lemma MarkTakesEffectExactlyWhen(e: Option<Entry>, status: Status, c: Claim, now: Time)
    ensures Apply(e, Mark(status, c, now)).1 == Effect <==>
              e.Some? && !status.OtherStatus? && 0 <= c.toolCount <= 128 && MayBeStored(status, c)
  {
    ValidExactlyWhen(status, c);
  }

  // ---------------------------------------------------------------------------------------
  // Leases
  // ---------------------------------------------------------------------------------------

  /** No lease, or one that has run out at `now`. */
  predicate IsFree(r: Record, now: Time) { r.lease == None || r.leaseExpiry == None || r.leaseExpiry.value <= now }

  /** An execution is let in exactly if the connection is ready and free, and told to wait exactly if it is ready and taken. */
  lemma ClaimTakesEffectExactlyWhen(e: Option<Entry>, mint: Token, now: Time)
    ensures var (t, outcome) := Apply(e, ClaimExecution(mint, now));
            && (outcome == Effect <==> e.Some? && e.value.record.status == Ready && IsFree(e.value.record, now))
            && (outcome == Busy <==> e.Some? && e.value.record.status == Ready && !IsFree(e.value.record, now))
            && (outcome == Effect ==> t == Some(e.value.(record := e.value.record.(lease := Some(mint), leaseExpiry := Some(now + 90)))))
  {
  }

  /** A verification begins exactly on its generation, unless the connection is ready, disconnecting or taken. */
  lemma BeginTakesEffectExactlyWhen(e: Option<Entry>, generation: Token, mint: Token, now: Time)
    ensures var (t, outcome) := Apply(e, BeginVerification(generation, mint, now));
            && (outcome == Effect <==>
                  && e.Some? && e.value.record.generation == Some(generation) && e.value.record.status != Ready
                  && e.value.record.error != Some("disconnect_pending") && IsFree(e.value.record, now))
            && (outcome == Effect ==>
                  && IsVerifying(t, generation, mint) && t.value.record.leaseExpiry == Some(now + 90)
                  && t.value.secret == e.value.secret && t.value.record.error == None && Uncertified(t.value.record))
  {
  }

  /**
   A running execution has the connection to itself: for ninety seconds from its claim, as long as its
   lease is stored, every other claim and every disconnect is told to wait and no verification begins.
   */
  lemma LeaseExcludesOthers(e: Option<Entry>, grant: Op, ops: seq<Op>, used: set<Token>,
                            mint: Token, generation: Token, now: Time)
    requires grant.ClaimExecution? && Apply(e, grant).1 == Effect
    requires grant.mint !in used && Fresh(used + {grant.mint}, ops)
    requires Stores(Run(Apply(e, grant).0, ops), grant.mint) && now < grant.now + 90
    ensures var r := Run(Apply(e, grant).0, ops);
            && Apply(r, ClaimExecution(mint, now)).1 == Busy
            && Apply(r, BeginDisconnect(mint, now)).1 == Busy
            && Apply(r, BeginVerification(generation, mint, now)).1 == NoMatch
  {
    ExpiryIsKept(Apply(e, grant).0, ops, grant.mint, used + {grant.mint});
    StoredLeaseMeansUndisturbed(Apply(e, grant).0, ops, grant.mint, used + {grant.mint});
  }

  // ---------------------------------------------------------------------------------------
  // The holder gets through
  // ---------------------------------------------------------------------------------------

  /** Whatever others do meanwhile, the executor's rotation takes effect exactly if its lease is still stored. */
  lemma RotationTakesEffectExactlyWhen(e: Option<Entry>, grant: Op, before: seq<Op>, rotate: Op, used: set<Token>)
    requires grant.ClaimExecution? && Apply(e, grant).1 == Effect && grant.mint !in used && Sound(e, used)
    requires Fresh(used + {grant.mint}, before)
    requires var start := Apply(e, grant).0;
             var b0 := Belief(start.value.record.generation.value, start.value.secret);
             var b := Learned(start, before, grant.mint, b0);
             && HolderActs(start, before, grant.mint, b0)
             && rotate.Rotate? && rotate.lease == grant.mint
             && rotate.generation == b.generation && rotate.expected == b.secret && rotate.secret.kind == b.secret.kind
    ensures var r := Run(Apply(e, grant).0, before);
            var (t, outcome) := Apply(r, rotate);
            && (outcome == Effect <==> Stores(r, grant.mint))
            && (outcome == Effect ==>
                  && t.value.secret == rotate.secret && t.value.record.generation == Some(rotate.mint)
                  && t.value.record == r.value.record.(generation := Some(rotate.mint), kind := rotate.secret.kind))
  {
    var start, lease, used1 := Apply(e, grant).0, grant.mint, used + {grant.mint};
    var b0 := Belief(start.value.record.generation.value, start.value.secret);
    if Stores(Run(start, before), lease) {
      HolderKnows(start, before, lease, b0, used1);
      StoredLeaseMeansUndisturbed(start, before, lease, used1);
    }
  }

  /** A verifier whose lease is still stored gets its consistent verdict in, whatever others tried meanwhile. */
  lemma VerdictTakesEffectExactlyWhen(e: Option<Entry>, begin: Op, ops: seq<Op>, c: Claim, now: Time, used: set<Token>)
    requires begin.BeginVerification? && Apply(e, begin).1 == Effect && begin.mint !in used
    requires Fresh(used + {begin.mint}, ops) && IsConsistent(c)
    ensures var r := Run(Apply(e, begin).0, ops);
            Apply(r, FinishVerification(begin.generation, begin.mint, Ready, c, now)).1 == Effect <==> Stores(r, begin.mint)
  {
    var start, r := Apply(e, begin).0, Run(Apply(e, begin).0, ops);
    FinishTakesEffectExactlyWhen(r, begin.generation, begin.mint, Ready, c, now);
    if Stores(r, begin.mint) {
      StoredLeaseMeansUndisturbed(start, ops, begin.mint, used + {begin.mint});
      VerifyingKeepsGeneration(start, ops, begin.mint);
    }
  }

  lemma {:induction false} VerifyingKeepsGeneration(e: Option<Entry>, ops: seq<Op>, lease: Token)
    requires Undisturbed(e, ops, lease) && e.value.record.status == Verifying
    ensures Run(e, ops) == e
    decreases |ops|
  {
    if ops != [] {
      assert Apply(e, ops[0]).0 == e;
      VerifyingKeepsGeneration(Apply(e, ops[0]).0, ops[1..], lease);
    }
  }

  /** The whole way: a stored credential, verified with a consistent claim, lets the first execution in. */
  lemma ConnectionBecomesReady(secret: Secret, generation: Token, lease: Token, c: Claim, mint: Token, now: Time)
    requires IsConsistent(c)
    ensures var ops := [Put(secret, generation), BeginVerification(generation, lease, now),
                        FinishVerification(generation, lease, Ready, c, now)];
            var r := Run(None, ops);
            && r.Some? && r.value.secret == secret && CertifiedBy(r.value.record, c, now)
            && Apply(r, ClaimExecution(mint, now)).1 == Effect
  {
    var e1 := Apply(None, Op.Put(secret, generation)).0;
    var begin, finish := BeginVerification(generation, lease, now), FinishVerification(generation, lease, Ready, c, now);
    var e2 := Apply(e1, begin).0;
    BeginTakesEffectExactlyWhen(e1, generation, lease, now);
    assert Apply(e1, begin).1 == Effect;
    FinishTakesEffectExactlyWhen(e2, generation, lease, Ready, c, now);
    ClaimTakesEffectExactlyWhen(Apply(e2, finish).0, mint, now);
    RunThree(None, Op.Put(secret, generation), begin, finish);
  }

  lemma RunThree(e: Option<Entry>, a: Op, b: Op, c: Op)
    ensures Run(e, [a, b, c]) == Apply(Apply(Apply(e, a).0, b).0, c).0
  {
    assert [a, b, c][1..] == [b, c] && [b, c][1..] == [c] && [c][1..] == [];
    assert Run(Apply(Apply(e, a).0, b).0, [c]) == Apply(Apply(Apply(e, a).0, b).0, c).0;
    assert Run(Apply(e, a).0, [b, c]) == Run(Apply(Apply(e, a).0, b).0, [c]);
  }

  /** A call is reported as allowed exactly if its work did not fail and its release found its lease still stored. */
  lemma AllowedExactlyWhen(e: Option<Entry>, x: Execution)
    requires WellShaped(x) && Holding(e, x)
    ensures Reported(e, x) == None <==>
              x.failure == None && x.release == Answered && Stores(Run(Run(Apply(e, x.grant).0, x.work), x.pause), x.grant.mint)
  {
  }

  /** What the stored fields must say before anyone calls a connection ready. */
  predicate HoldsTogether(r: Record) {
    && r.status == Ready && r.proof == Some("rally.connection-certification/v1") && r.generation.Some?
    && r.canary.Some? && r.canary.value != "" && r.schemaSha.Some? && r.schemaSha.value != ""
    && r.toolCount == |r.tools| && r.manifest == Some(ManifestSha(r.tools))
  }

  /** However a record came about, it is shown as ready, and executed upon, only if its proof holds together. */
  lemma DamagedRecordsAreNotReady(r: Record)
    ensures PublicStatus(r) == Ready <==>
              HoldsTogether(r) && r.canary.value in r.tools && r.tools[r.canary.value] == r.schemaSha.value
    ensures PublicStatus(r) != Ready ==> PublicStatus(r) == if r.status == Ready then NeedsAttention else r.status
    ensures ExecutorCheck(r) <==> HoldsTogether(r) && r.lease.Some?
  {
  }

  /** The executor's quarantine takes effect exactly if its lease is still stored, and leaves no certificate behind. */
  lemma QuarantineTakesEffectExactlyWhen(e: Option<Entry>, grant: Op, before: seq<Op>, quarantine: Op, used: set<Token>)
    requires grant.ClaimExecution? && Apply(e, grant).1 == Effect && grant.mint !in used && Sound(e, used)
    requires Fresh(used + {grant.mint}, before)
    requires var start := Apply(e, grant).0;
             var b0 := Belief(start.value.record.generation.value, start.value.secret);
             var b := Learned(start, before, grant.mint, b0);
             && HolderActs(start, before, grant.mint, b0)
             && quarantine.Quarantine? && quarantine.lease == grant.mint
             && quarantine.generation == b.generation && quarantine.expected == b.secret
    ensures var r := Run(Apply(e, grant).0, before);
            var (t, outcome) := Apply(r, quarantine);
            && (outcome == Effect <==> Stores(r, grant.mint))
            && (outcome == Effect ==>
                  && t.value.secret == r.value.secret && t.value.record.status == NeedsAttention
                  && t.value.record.error == Some(quarantine.error) && Uncertified(t.value.record)
                  && t.value.record.lease == None && t.value.record.generation == r.value.record.generation)
  {
    var start, lease, used1 := Apply(e, grant).0, grant.mint, used + {grant.mint};
    var b0 := Belief(start.value.record.generation.value, start.value.secret);
    if Stores(Run(start, before), lease) {
      HolderKnows(start, before, lease, b0, used1);
      StoredLeaseMeansUndisturbed(start, before, lease, used1);
    }
  }

  /** The failures after which the human has to connect again. */
  predicate AsksToReconnect(failure: string) {
    failure in ["credential_expired", "credential_invalid", "credential_refresh_failed", "provider_authentication_failed"]
  }

  /**
   What an execution under a lease reports: its own failure while its cleanup goes well; that the human
   has to connect again, when such a failure was quarantined; a conflict when the lease was gone; and
   that the vault is unavailable when the last call to it was lost.
   */
  lemma ReportedExactly(e: Option<Entry>, x: Execution)
    requires WellShaped(x) && Holding(e, x)
    ensures var asks := x.failure.Some? && AsksToReconnect(x.failure.value);
            var quarantined := asks && x.demotion == Answered && Apply(Worked(e, x), x.quarantine).1 == Effect;
            Reported(e, x) ==
              if quarantined then Some("reconnect_required")
              else if x.release != Answered then Some("vault_unavailable")
              else if !Stores(Paused(e, x), x.grant.mint) then Some("credential_refresh_conflict")
              else if !asks then x.failure
              else if x.demotion != Answered then Some("vault_unavailable") else Some("credential_refresh_conflict")
  {
  }
}
