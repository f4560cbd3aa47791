/**
 The connector vault of cloud/credential_vault.py: one credential record per tenant and connector,
 changed by compare-and-swap on its generation and its execution lease.

 Generations and leases are fresh 128-bit tokens, modelled as numbers never issued before. SHA-256
 is modelled as an injective constructor. A certified manifest, which the source keeps as a list
 sorted by distinct tool names, is the map from those names to their schema hashes.
 */
module Vault {
  import opened Common

  type Token = nat
  type Time = int

  const EXECUTION_LEASE_SECONDS: Time := 90
  const CERTIFICATION_SCHEMA := "rally.connection-certification/v1"
  const DISCONNECT_PENDING := "disconnect_pending"

  datatype Status = StoredUnverified | Verifying | Ready | NeedsAttention | OtherStatus(name: string)

  datatype Sha = ManifestSha(tools: map<string, string>) | OtherSha(text: string)

  datatype Secret = Secret(value: string, kind: string)

  datatype Record = Record(
    kind: string, status: Status, toolCount: int, verifiedAt: Option<Time>, error: Option<string>,
    canary: Option<string>, schemaSha: Option<string>, proof: Option<string>, generation: Option<Token>,
    tools: map<string, string>, manifest: Option<Sha>, lease: Option<Token>, leaseExpiry: Option<Time>)

  datatype Entry = Entry(secret: Secret, record: Record)

  /** The proof fields a verifier hands to `finish_verification` or `mark`. */
  datatype Claim = Claim(
    toolCount: int, error: Option<string>, canary: Option<string>, schemaSha: Option<string>,
    proof: Option<string>, tools: seq<(string, string)>, manifest: Option<Sha>)

  datatype Outcome = Effect | NoMatch | Busy | Invalid

  // ---------------------------------------------------------------------------------------
  // Certification
  // ---------------------------------------------------------------------------------------

  predicate IsToolName(s: string) {
    1 <= |s| <= 160 && forall i | 0 <= i < |s| ::
      'A' <= s[i] <= 'Z' || 'a' <= s[i] <= 'z' || '0' <= s[i] <= '9' || s[i] in "_.:/-"
  }

  predicate IsSha(s: string) {
    |s| == 64 && forall i | 0 <= i < |s| :: 'a' <= s[i] <= 'f' || '0' <= s[i] <= '9'
  }

  /** `_normalize_certified_tools`: refuses a malformed entry or a repeated name. */
  function Normalize(tools: seq<(string, string)>): (m: Option<map<string, string>>)
    ensures m.Some? ==> |m.value| == |tools| && forall name | name in m.value :: IsToolName(name) && IsSha(m.value[name])
  {
    if tools == [] then Some(map[])
    else
      var (name, sha) := tools[|tools| - 1];
      var rest := Normalize(tools[..|tools| - 1]);
      if rest == None || name in rest.value || !IsToolName(name) || !IsSha(sha) then None
      else Some(rest.value[name := sha])
  }

  /** `_validate_certification`: the tools to store, or None where the source raises. */
  function Validate(status: Status, c: Claim): Option<map<string, string>> {
    var tools := if |c.tools| > 128 then None else Normalize(c.tools);
    if tools == None then None
    else if status != Ready then Some(map[])
    else if c.toolCount < 1 || c.toolCount != |tools.value|
            || c.canary == None || !IsToolName(c.canary.value)
            || c.schemaSha == None || !IsSha(c.schemaSha.value)
            || c.canary.value !in tools.value || tools.value[c.canary.value] != c.schemaSha.value
            || c.proof != Some(CERTIFICATION_SCHEMA)
            || c.manifest != Some(ManifestSha(tools.value)) then None
    else tools
  }

  predicate LeaseIsActive(r: Record, now: Time) {
    r.lease.Some? && r.leaseExpiry.Some? && r.leaseExpiry.value > now
  }

  /** All proof fields wiped and the lease dropped, as every demotion does. */
  function Demoted(r: Record, status: Status, error: Option<string>): Record {
    r.(status := status, toolCount := 0, verifiedAt := None, error := error, canary := None, schemaSha := None,
       proof := None, tools := map[], manifest := None, lease := None, leaseExpiry := None)
  }

  /** The record after a verifier's verdict, shared by `finish_verification` and `mark`. */
  function Judged(r: Record, status: Status, c: Claim, tools: map<string, string>, now: Time): Record {
    if status != Ready then Demoted(r, status, c.error)
    else r.(status := Ready, toolCount := c.toolCount, verifiedAt := Some(now), error := c.error,
            canary := c.canary, schemaSha := c.schemaSha, proof := c.proof, tools := tools,
            manifest := c.manifest, lease := None, leaseExpiry := None)
  }

  // ---------------------------------------------------------------------------------------
  // The operations on one record, each one atomic step
  // ---------------------------------------------------------------------------------------

  datatype Op =
    | Put(secret: Secret, mint: Token)
    | Rotate(generation: Token, lease: Token, expected: Secret, secret: Secret, mint: Token)
    | Quarantine(generation: Token, lease: Token, expected: Secret, error: string)
    | BeginVerification(generation: Token, mint: Token, now: Time)
    | FinishVerification(generation: Token, lease: Token, status: Status, claim: Claim, now: Time)
    | ClaimExecution(mint: Token, now: Time)
    | ReleaseExecution(lease: Token)
    | BeginDisconnect(mint: Token, now: Time)
    | Mark(status: Status, claim: Claim, now: Time)
    | Delete(onlyGeneration: Option<Token>, requireDisconnect: bool)

  /** The compare-and-swap guard shared by `rotate` and `quarantine`. */
  predicate Holds(e: Option<Entry>, generation: Token, lease: Token, expected: Secret) {
    && e.Some? && e.value.record.status == Ready
    && e.value.record.generation == Some(generation) && e.value.record.lease == Some(lease)
    && e.value.secret == expected
  }

  function Apply(e: Option<Entry>, op: Op): (Option<Entry>, Outcome) {
    match op
    case Put(secret, mint) =>
      if e.Some? then (e, Invalid)
      else (Some(Entry(secret, Record(secret.kind, StoredUnverified, 0, None, None, None, None, None, Some(mint),
                                      map[], None, None, None))), Effect)
    case Rotate(generation, lease, expected, secret, mint) =>
      if secret.kind != expected.kind || !Holds(e, generation, lease, expected) then (e, NoMatch)
      else (Some(Entry(secret, e.value.record.(kind := secret.kind, generation := Some(mint)))), Effect)
    case Quarantine(generation, lease, expected, error) =>
      if !Holds(e, generation, lease, expected) then (e, NoMatch)
      else (Some(e.value.(record := Demoted(e.value.record, NeedsAttention, Some(error)))), Effect)
    case BeginVerification(generation, mint, now) =>
      if e == None || e.value.record.generation != Some(generation) || e.value.record.status == Ready
         || e.value.record.error == Some(DISCONNECT_PENDING) || LeaseIsActive(e.value.record, now) then (e, NoMatch)
      else (Some(e.value.(record := Demoted(e.value.record, Verifying, None).(
                            lease := Some(mint), leaseExpiry := Some(now + EXECUTION_LEASE_SECONDS)))), Effect)
    case FinishVerification(generation, lease, status, claim, now) =>
      var tools := Validate(status, claim);
      if tools == None || status !in {Ready, NeedsAttention} then (e, Invalid)
      else if e == None || e.value.record.generation != Some(generation) || e.value.record.status != Verifying
              || e.value.record.lease != Some(lease) then (e, NoMatch)
      else (Some(e.value.(record := Judged(e.value.record, status, claim, tools.value, now))), Effect)
    case ClaimExecution(mint, now) =>
      if e == None || e.value.record.status != Ready then (e, NoMatch)
      else if LeaseIsActive(e.value.record, now) then (e, Busy)
      else (Some(e.value.(record := e.value.record.(
                            lease := Some(mint), leaseExpiry := Some(now + EXECUTION_LEASE_SECONDS)))), Effect)
    case ReleaseExecution(lease) =>
      if e == None || e.value.record.lease != Some(lease) then (e, NoMatch)
      else (Some(e.value.(record := e.value.record.(lease := None, leaseExpiry := None))), Effect)
    case BeginDisconnect(mint, now) =>
      if e == None then (e, NoMatch)
      else if e.value.record.status != Verifying && LeaseIsActive(e.value.record, now) then (e, Busy)
      else
        var r := Demoted(e.value.record, NeedsAttention, Some(DISCONNECT_PENDING));
        (Some(e.value.(record := r.(generation := if r.generation == None then Some(mint) else r.generation))), Effect)
    case Mark(status, claim, now) =>
      var tools := Validate(status, claim);
      if status.OtherStatus? || !(0 <= claim.toolCount <= 128) || tools == None || e == None then (e, Invalid)
      else (Some(e.value.(record := Judged(e.value.record, status, claim, tools.value, now))), Effect)
    case Delete(onlyGeneration, requireDisconnect) =>
      if e == None || (onlyGeneration.Some? && e.value.record.generation != onlyGeneration)
         || (requireDisconnect && e.value.record.error != Some(DISCONNECT_PENDING)) then (e, NoMatch)
      else (None, Effect)
  }

  /** The tokens an operation would issue. */
  function Minted(op: Op): set<Token> {
    match op
    case Put(_, mint) => {mint}
    case Rotate(_, _, _, _, mint) => {mint}
    case BeginVerification(_, mint, _) => {mint}
    case ClaimExecution(mint, _) => {mint}
    case BeginDisconnect(mint, _) => {mint}
    case _ => {}
  }

  /** The record after a sequence of atomic operations by any number of clients. */
  function Run(e: Option<Entry>, ops: seq<Op>): Option<Entry>
    decreases |ops|
  {
    if ops == [] then e else Run(Apply(e, ops[0]).0, ops[1..])
  }

  /** Random tokens: none was issued before and none is issued twice. */
  ghost predicate Fresh(used: set<Token>, ops: seq<Op>)
    decreases |ops|
  {
    ops == [] || (Minted(ops[0]) !! used && Fresh(used + Minted(ops[0]), ops[1..]))
  }

  function Issued(used: set<Token>, ops: seq<Op>): set<Token>
    decreases |ops|
  {
    if ops == [] then used else Issued(used + Minted(ops[0]), ops[1..])
  }
}
