/**
 The Firestore vault: one document per tenant and connector, changed by transactions. Sealing the
 secret and opening it again is taken to give the same secret back.
 */
module GoogleVault {
  import opened Common
  import opened Vault
  import opened VaultLaws
  import MemoryVault

  type Key = MemoryVault.Key

  /** A stored document: `put` writes no tool count and no tools, and reading supplies 0 and none. */
  datatype Document = Document(
    secret: Secret, kind: string, status: Status, toolCount: Option<int>, verifiedAt: Option<Time>,
    error: Option<string>, canary: Option<string>, schemaSha: Option<string>, proof: Option<string>,
    generation: Option<Token>, tools: Option<map<string, string>>, manifest: Option<Sha>,
    lease: Option<Token>, leaseExpiry: Option<Time>)

  function PublicRecord(d: Document): Record {
    Record(d.kind, d.status, if d.toolCount.Some? then d.toolCount.value else 0, d.verifiedAt, d.error, d.canary,
           d.schemaSha, d.proof, d.generation, if d.tools.Some? then d.tools.value else map[], d.manifest,
           d.lease, d.leaseExpiry)
  }

  function AsEntry(d: Option<Document>): Option<Entry> {
    if d == None then None else Some(Entry(d.value.secret, PublicRecord(d.value)))
  }

  predicate IsBusy(d: Document, now: Time) {
    d.lease.Some? && d.leaseExpiry.Some? && d.leaseExpiry.value > now
  }

  /** The fields every demotion overwrites. */
  function Wiped(d: Document, status: Status, toolCount: int, error: Option<string>): Document {
    d.(status := status, toolCount := Some(toolCount), verifiedAt := None, error := error, canary := None,
       schemaSha := None, proof := None, tools := Some(map[]), manifest := None, lease := None, leaseExpiry := None)
  }

  function Proven(d: Document, c: Claim, tools: map<string, string>, now: Time): Document {
    d.(status := Ready, toolCount := Some(c.toolCount), verifiedAt := Some(now), error := c.error,
       canary := c.canary, schemaSha := c.schemaSha, proof := c.proof, tools := Some(tools),
       manifest := c.manifest, lease := None, leaseExpiry := None)
  }

  predicate IsCurrent(d: Document, generation: Token, lease: Token) {
    d.status == Ready && d.generation == Some(generation) && d.lease == Some(lease)
  }

  /** One committed transaction on a document. */
  function Transact(d: Option<Document>, op: Op): (Option<Document>, Outcome) {
    match op
    case Put(secret, mint) =>
      if d.Some? then (d, Invalid)
      else (Some(Document(secret, secret.kind, StoredUnverified, None, None, None, None, None, None, Some(mint),
                          None, None, None, None)), Effect)
    case Rotate(generation, lease, expected, secret, mint) =>
      if d == None || !IsCurrent(d.value, generation, lease)
         || secret.kind != expected.kind || d.value.secret != expected then (d, NoMatch)
      else (Some(d.value.(secret := secret, kind := secret.kind, generation := Some(mint))), Effect)
    case Quarantine(generation, lease, expected, error) =>
      if d == None || !IsCurrent(d.value, generation, lease) || d.value.secret != expected then (d, NoMatch)
      else (Some(Wiped(d.value, NeedsAttention, 0, Some(error))), Effect)
    case BeginVerification(generation, mint, now) =>
      if d == None || d.value.generation != Some(generation) || d.value.status == Ready
         || d.value.error == Some(DISCONNECT_PENDING) || IsBusy(d.value, now) then (d, NoMatch)
      else (Some(Wiped(d.value, Verifying, 0, None).(
                   lease := Some(mint), leaseExpiry := Some(now + EXECUTION_LEASE_SECONDS))), Effect)
    case FinishVerification(generation, lease, status, claim, now) =>
      var tools := Validate(status, claim);
      if status !in {Ready, NeedsAttention} || tools == None then (d, Invalid)
      else if d == None || d.value.generation != Some(generation) || d.value.status != Verifying
              || d.value.lease != Some(lease) then (d, NoMatch)
      else if status == Ready then (Some(Proven(d.value, claim, tools.value, now)), Effect)
      else (Some(Wiped(d.value, status, 0, claim.error)), Effect)
    case ClaimExecution(mint, now) =>
      if d == None || d.value.status != Ready then (d, NoMatch)
      else if IsBusy(d.value, now) then (d, Busy)
      else (Some(d.value.(lease := Some(mint), leaseExpiry := Some(now + EXECUTION_LEASE_SECONDS))), Effect)
    case ReleaseExecution(lease) =>
      if d == None || d.value.lease != Some(lease) then (d, NoMatch)
      else (Some(d.value.(lease := None, leaseExpiry := None)), Effect)
    case BeginDisconnect(mint, now) =>
      if d == None then (d, NoMatch)
      else if d.value.status != Verifying && IsBusy(d.value, now) then (d, Busy)
      else
        var generation := if d.value.generation == None then Some(mint) else d.value.generation;
        (Some(Wiped(d.value, NeedsAttention, 0, Some(DISCONNECT_PENDING)).(generation := generation)), Effect)
    case Mark(status, claim, now) =>
      var tools := Validate(status, claim);
      if status.OtherStatus? || !(0 <= claim.toolCount <= 128) || tools == None || d == None then (d, Invalid)
      else if status == Ready then (Some(Proven(d.value, claim, tools.value, now)), Effect)
      else (Some(Wiped(d.value, status, claim.toolCount, claim.error)), Effect)
    case Delete(onlyGeneration, requireDisconnect) =>
      if d == None || (onlyGeneration.Some? && d.value.generation != onlyGeneration)
         || (requireDisconnect && d.value.error != Some(DISCONNECT_PENDING)) then (d, NoMatch)
      else (None, Effect)
  }

  function TransactAll(d: Option<Document>, ops: seq<Op>): Option<Document>
    decreases |ops|
  {
    if ops == [] then d else TransactAll(Transact(d, ops[0]).0, ops[1..])
  }

  /** What the callers are answered, in order, by either vault. */
  function DocumentAnswers(d: Option<Document>, ops: seq<Op>): seq<Outcome>
    decreases |ops|
  {
    if ops == [] then [] else [Transact(d, ops[0]).1] + DocumentAnswers(Transact(d, ops[0]).0, ops[1..])
  }

  function Answers(e: Option<Entry>, ops: seq<Op>): seq<Outcome>
    decreases |ops|
  {
    if ops == [] then [] else [Apply(e, ops[0]).1] + Answers(Apply(e, ops[0]).0, ops[1..])
  }

  // ---------------------------------------------------------------------------------------
  // The two vaults against each other
  // ---------------------------------------------------------------------------------------

  /** Alike but for the tool count of a record that is not ready. */
  ghost predicate Alike(d: Option<Document>, e: Option<Entry>) {
    && (d.Some? <==> e.Some?)
    && (d.Some? ==>
          var r := PublicRecord(d.value);
          && d.value.secret == e.value.secret && r == e.value.record.(toolCount := r.toolCount)
          && (r.status == Ready ==> r.toolCount == e.value.record.toolCount))
  }

  predicate IsVerdict(op: Op) { op.FinishVerification? || op.Mark? }

  lemma VerdictKeepsAlike(d: Option<Document>, e: Option<Entry>, op: Op)
    requires Alike(d, e) && IsVerdict(op)
    ensures Transact(d, op).1 == Apply(e, op).1 && Alike(Transact(d, op).0, Apply(e, op).0)
  {
  }

  lemma DemotionKeepsAlike(d: Option<Document>, e: Option<Entry>, op: Op)
    requires Alike(d, e) && IsDemotion(op)
    ensures Transact(d, op).1 == Apply(e, op).1 && Alike(Transact(d, op).0, Apply(e, op).0)
  {
  }

  lemma StepKeepsAlike(d: Option<Document>, e: Option<Entry>, op: Op)
    requires Alike(d, e)
    ensures Transact(d, op).1 == Apply(e, op).1 && Alike(Transact(d, op).0, Apply(e, op).0)
  {
    if IsVerdict(op) { VerdictKeepsAlike(d, e, op); }
    else if IsDemotion(op) { DemotionKeepsAlike(d, e, op); }
  }

  /** On every sequence of operations both vaults answer the same and stay alike. */
  lemma {:induction false} VaultsAgree(d: Option<Document>, e: Option<Entry>, ops: seq<Op>)
    requires Alike(d, e)
    ensures DocumentAnswers(d, ops) == Answers(e, ops) && Alike(TransactAll(d, ops), Run(e, ops))
    decreases |ops|
  {
    if ops != [] {
      StepKeepsAlike(d, e, ops[0]);
      VaultsAgree(Transact(d, ops[0]).0, Apply(e, ops[0]).0, ops[1..]);
    }
  }

  /** A mark that takes effect, not to ready, yet with a tool count: only the document keeps the count. */
  predicate MarksIdleCount(e: Option<Entry>, op: Op) {
    op.Mark? && op.status != Ready && op.claim.toolCount != 0 && Apply(e, op).1 == Effect
  }

  predicate EverMarksIdleCount(e: Option<Entry>, ops: seq<Op>)
    decreases |ops|
  {
    ops != [] && (MarksIdleCount(e, ops[0]) || EverMarksIdleCount(Apply(e, ops[0]).0, ops[1..]))
  }

  /** At every moment of the run a reader sees the same record in both vaults. */
  predicate SeenAlikeThroughout(d: Option<Document>, e: Option<Entry>, ops: seq<Op>)
    decreases |ops|
  {
    AsEntry(d) == e && (ops == [] || SeenAlikeThroughout(Transact(d, ops[0]).0, Apply(e, ops[0]).0, ops[1..]))
  }

  lemma StepSeenAlike(d: Option<Document>, op: Op)
    ensures AsEntry(Transact(d, op).0) == Apply(AsEntry(d), op).0 <==> !MarksIdleCount(AsEntry(d), op)
  {
    StepKeepsAlike(d, AsEntry(d), op);
  }

  /** Readers tell the vaults apart exactly when some effective mark carries such an idle count. */
  lemma {:induction false} ReadersSeeTheSame(d: Option<Document>, ops: seq<Op>)
    ensures SeenAlikeThroughout(d, AsEntry(d), ops) <==> !EverMarksIdleCount(AsEntry(d), ops)
    decreases |ops|
  {
    if ops != [] {
      StepSeenAlike(d, ops[0]);
      if !MarksIdleCount(AsEntry(d), ops[0]) { ReadersSeeTheSame(Transact(d, ops[0]).0, ops[1..]); }
    }
  }

  const MARK := Mark(NeedsAttention, Claim(1, None, None, None, None, [], None), 0)

  /** A new connection, marked as needing attention with one tool: only the document still counts it. */
  lemma IdleCountSplitsReaders(secret: Secret, mint: Token)
    ensures var d := TransactAll(None, [Put(secret, mint), MARK]);
            var e := Run(None, [Put(secret, mint), MARK]);
            d.Some? && e.Some? && PublicRecord(d.value).toolCount == 1 && e.value.record.toolCount == 0
  {
    var ops := [Op.Put(secret, mint), MARK];
    assert ops[1..] == [MARK] && [MARK][1..] == [];
    assert Validate(NeedsAttention, MARK.claim) == Some(map[]);
    assert Run(None, ops) == Run(Apply(None, ops[0]).0, [MARK]);
    assert TransactAll(None, ops) == TransactAll(Transact(None, ops[0]).0, [MARK]);
  }

  /** From an empty collection a ready document is certified, and the console's recheck never fires. */
  lemma ReadyDocumentsAreCertified(ops: seq<Op>)
    ensures var d := TransactAll(None, ops);
            d.Some? ==>
              && (d.value.status == Ready ==> Certified(PublicRecord(d.value)) && d.value.generation.Some?)
              && PublicStatus(PublicRecord(d.value)) == d.value.status
  {
    VaultsAgree(None, None, ops);
    EveryRecordIsSound(None, ops, {});
  }

  // ---------------------------------------------------------------------------------------
  // The vault
  // ---------------------------------------------------------------------------------------

  function Lookup(documents: map<Key, Document>, key: Key): Option<Document> {
    if key in documents then Some(documents[key]) else None
  }

  /** The collection after one transaction; every other document is untouched. */
  function Committed(documents: map<Key, Document>, key: Key, op: Op): map<Key, Document> {
    var d := Transact(Lookup(documents, key), op).0;
    if d.Some? then documents[key := d.value] else documents - {key}
  }

  function Did(documents: map<Key, Document>, key: Key, op: Op): Outcome { Transact(Lookup(documents, key), op).1 }

  class GoogleConnectorVault {
    var documents: map<Key, Document>

    constructor ()
      ensures documents == map[]
    {
      documents := map[];
    }

    /** None: the document already exists. */
    method Put(key: Key, secret: Secret, mint: Token) returns (r: Option<Record>)
      modifies this
      ensures var op := Op.Put(secret, mint);
              documents == Committed(old(documents), key, op) && (r.Some? <==> Did(old(documents), key, op) == Effect)
      ensures r.Some? ==> r.value == PublicRecord(documents[key])
    {
      if key in documents { return None; }
      documents := documents[key := Document(secret, secret.kind, StoredUnverified, None, None, None, None, None, None,
                                             Some(mint), None, None, None, None)];
      return Some(PublicRecord(documents[key]));
    }

    method Rotate(key: Key, generation: Token, lease: Token, expected: Secret, secret: Secret, mint: Token)
      returns (r: Option<Record>)
      modifies this
      ensures var op := Op.Rotate(generation, lease, expected, secret, mint);
              documents == Committed(old(documents), key, op) && (r.Some? <==> Did(old(documents), key, op) == Effect)
      ensures r.Some? ==> r.value == PublicRecord(documents[key])
    {
      if key !in documents { return None; }
      var current := documents[key];
      if current.status != Ready || current.generation != Some(generation) || current.lease != Some(lease) { return None; }
      if secret.kind != expected.kind || current.secret != expected { return None; }
      documents := documents[key := current.(secret := secret, kind := secret.kind, generation := Some(mint))];
      return Some(PublicRecord(documents[key]));
    }

    method Quarantine(key: Key, generation: Token, lease: Token, expected: Secret, error: string) returns (done: bool)
      modifies this
      ensures var op := Op.Quarantine(generation, lease, expected, error);
              documents == Committed(old(documents), key, op) && (done <==> Did(old(documents), key, op) == Effect)
    {
      if key !in documents { return false; }
      var current := documents[key];
      if current.status != Ready || current.generation != Some(generation) || current.lease != Some(lease) { return false; }
      if current.secret != expected { return false; }
      documents := documents[key := Wiped(current, NeedsAttention, 0, Some(error))];
      return true;
    }

    method BeginVerification(key: Key, generation: Token, mint: Token, now: Time) returns (r: Option<Record>)
      modifies this
      ensures var op := Op.BeginVerification(generation, mint, now);
              documents == Committed(old(documents), key, op) && (r.Some? <==> Did(old(documents), key, op) == Effect)
      ensures r.Some? ==> r.value == PublicRecord(documents[key])
    {
      if key !in documents { return None; }
      var current := documents[key];
      if current.generation != Some(generation) || current.status == Ready
         || current.error == Some(DISCONNECT_PENDING) || IsBusy(current, now) {
        return None;
      }
      documents := documents[key := Wiped(current, Verifying, 0, None).(
        lease := Some(mint), leaseExpiry := Some(now + EXECUTION_LEASE_SECONDS))];
      return Some(PublicRecord(documents[key]));
    }

    method FinishVerification(key: Key, generation: Token, lease: Token, status: Status, claim: Claim, now: Time)
      returns (outcome: Outcome)
      modifies this
      ensures var op := Op.FinishVerification(generation, lease, status, claim, now);
              documents == Committed(old(documents), key, op) && outcome == Did(old(documents), key, op)
    {
      if status !in {Ready, NeedsAttention} { return Invalid; }
      var tools := Validate(status, claim);
      if tools == None { return Invalid; }
      if key !in documents { return NoMatch; }
      var current := documents[key];
      if current.generation != Some(generation) || current.status != Verifying || current.lease != Some(lease) {
        return NoMatch;
      }
      documents := documents[key := if status == Ready then Proven(current, claim, tools.value, now)
                                    else Wiped(current, status, 0, claim.error)];
      return Effect;
    }

    method ClaimExecution(key: Key, mint: Token, now: Time) returns (outcome: Outcome, claimed: Option<Entry>)
      modifies this
      ensures var op := Op.ClaimExecution(mint, now);
              documents == Committed(old(documents), key, op) && outcome == Did(old(documents), key, op)
      ensures claimed == if outcome == Effect then AsEntry(Some(documents[key])) else None
    {
      if key !in documents || documents[key].status != Ready { return NoMatch, None; }
      var current := documents[key];
      if IsBusy(current, now) { return Busy, None; }
      documents := documents[key := current.(
        lease := Some(mint), leaseExpiry := Some(now + EXECUTION_LEASE_SECONDS))];
      return Effect, AsEntry(Some(documents[key]));
    }

    method ReleaseExecution(key: Key, lease: Token) returns (done: bool)
      modifies this
      ensures var op := Op.ReleaseExecution(lease);
              documents == Committed(old(documents), key, op) && (done <==> Did(old(documents), key, op) == Effect)
    {
      if key !in documents || documents[key].lease != Some(lease) { return false; }
      documents := documents[key := documents[key].(lease := None, leaseExpiry := None)];
      return true;
    }

    method BeginDisconnect(key: Key, mint: Token, now: Time) returns (outcome: Outcome, stored: Option<Entry>)
      modifies this
      ensures var op := Op.BeginDisconnect(mint, now);
              documents == Committed(old(documents), key, op) && outcome == Did(old(documents), key, op)
      ensures stored == if outcome == Effect then AsEntry(Some(documents[key])) else None
    {
      if key !in documents { return NoMatch, None; }
      var current := documents[key];
      if current.status != Verifying && IsBusy(current, now) { return Busy, None; }
      var generation := if current.generation == None then Some(mint) else current.generation;
      documents := documents[key := Wiped(current, NeedsAttention, 0, Some(DISCONNECT_PENDING)).(
        generation := generation)];
      return Effect, AsEntry(Some(documents[key]));
    }

    method Mark(key: Key, status: Status, claim: Claim, now: Time) returns (outcome: Outcome)
      modifies this
      ensures var op := Op.Mark(status, claim, now);
              documents == Committed(old(documents), key, op) && outcome == Did(old(documents), key, op)
    {
      if status.OtherStatus? || !(0 <= claim.toolCount <= 128) { return Invalid; }
      var tools := Validate(status, claim);
      if tools == None || key !in documents { return Invalid; }
      var current := documents[key];
      documents := documents[key := if status == Ready then Proven(current, claim, tools.value, now)
                                    else Wiped(current, status, claim.toolCount, claim.error)];
      return Effect;
    }

    method Delete(key: Key, onlyGeneration: Option<Token>, requireDisconnect: bool) returns (done: bool)
      modifies this
      ensures var op := Op.Delete(onlyGeneration, requireDisconnect);
              documents == Committed(old(documents), key, op) && (done <==> Did(old(documents), key, op) == Effect)
    {
      if key !in documents { return false; }
      var current := documents[key];
      if onlyGeneration.Some? && current.generation != onlyGeneration { return false; }
      if requireDisconnect && current.error != Some(DISCONNECT_PENDING) { return false; }
      documents := documents - {key};
      return true;
    }
  }
}
