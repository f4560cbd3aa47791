/** The in-memory vault: a dictionary of sealed entries changed in place under one lock. */
module MemoryVault {
  import opened Common
  import opened Vault

  datatype Key = Key(uid: string, connectorId: string)

  function Lookup(items: map<Key, Entry>, key: Key): Option<Entry> {
    if key in items then Some(items[key]) else None
  }

  /** The dictionary after one record took a step; every other tenant and connector is untouched. */
  function Stepped(items: map<Key, Entry>, key: Key, op: Op): map<Key, Entry> {
    var e := Apply(Lookup(items, key), op).0;
    if e.Some? then items[key := e.value] else items - {key}
  }

  function Did(items: map<Key, Entry>, key: Key, op: Op): Outcome { Apply(Lookup(items, key), op).1 }

  class MemoryConnectorVault {
    var items: map<Key, Entry>

    constructor ()
      ensures items == map[]
    {
      items := map[];
    }

    /** None: the credential already exists. */
    method Put(key: Key, secret: Secret, mint: Token) returns (r: Option<Record>)
      modifies this
      ensures var op := Op.Put(secret, mint);
              items == Stepped(old(items), key, op) && (r.Some? <==> Did(old(items), key, op) == Effect)
      ensures r.Some? ==> r.value == items[key].record
    {
      if key in items { return None; }
      var record := Record(secret.kind, StoredUnverified, 0, None, None, None, None, None, Some(mint),
                           map[], None, None, None);
      items := items[key := Entry(secret, record)];
      return Some(record);
    }

    method Rotate(key: Key, generation: Token, lease: Token, expected: Secret, secret: Secret, mint: Token)
      returns (r: Option<Record>)
      modifies this
      ensures var op := Op.Rotate(generation, lease, expected, secret, mint);
              items == Stepped(old(items), key, op) && (r.Some? <==> Did(old(items), key, op) == Effect)
      ensures r.Some? ==> r.value == items[key].record
    {
      if secret.kind != expected.kind || key !in items { return None; }
      var current := items[key];
      if current.record.status != Ready || current.record.generation != Some(generation)
         || current.record.lease != Some(lease) || current.secret != expected {
        return None;
      }
      var record := current.record.(kind := secret.kind, generation := Some(mint));
      items := items[key := Entry(secret, record)];
      return Some(record);
    }

    method Quarantine(key: Key, generation: Token, lease: Token, expected: Secret, error: string) returns (done: bool)
      modifies this
      ensures var op := Op.Quarantine(generation, lease, expected, error);
              items == Stepped(old(items), key, op) && (done <==> Did(old(items), key, op) == Effect)
    {
      if key !in items { return false; }
      var current := items[key];
      if current.record.status != Ready || current.record.generation != Some(generation)
         || current.record.lease != Some(lease) || current.secret != expected {
        return false;
      }
      items := items[key := current.(record := Demoted(current.record, NeedsAttention, Some(error)))];
      return true;
    }

    method BeginVerification(key: Key, generation: Token, mint: Token, now: Time) returns (r: Option<Record>)
      modifies this
      ensures var op := Op.BeginVerification(generation, mint, now);
              items == Stepped(old(items), key, op) && (r.Some? <==> Did(old(items), key, op) == Effect)
      ensures r.Some? ==> r.value == items[key].record
    {
      if key !in items { return None; }
      var current := items[key].record;
      if current.generation != Some(generation) || current.status == Ready
         || current.error == Some(DISCONNECT_PENDING) || LeaseIsActive(current, now) {
        return None;
      }
      var record := Demoted(current, Verifying, None).(
        lease := Some(mint), leaseExpiry := Some(now + EXECUTION_LEASE_SECONDS));
      items := items[key := items[key].(record := record)];
      return Some(record);
    }

    method FinishVerification(key: Key, generation: Token, lease: Token, status: Status, claim: Claim, now: Time)
      returns (outcome: Outcome)
      modifies this
      ensures var op := Op.FinishVerification(generation, lease, status, claim, now);
              items == Stepped(old(items), key, op) && outcome == Did(old(items), key, op)
    {
      var tools := Validate(status, claim);
      if tools == None || status !in {Ready, NeedsAttention} { return Invalid; }
      if key !in items { return NoMatch; }
      var current := items[key].record;
      if current.generation != Some(generation) || current.status != Verifying || current.lease != Some(lease) {
        return NoMatch;
      }
      items := items[key := items[key].(record := Judged(current, status, claim, tools.value, now))];
      return Effect;
    }

    method ClaimExecution(key: Key, mint: Token, now: Time) returns (outcome: Outcome, claimed: Option<Entry>)
      modifies this
      ensures var op := Op.ClaimExecution(mint, now);
              items == Stepped(old(items), key, op) && outcome == Did(old(items), key, op)
      ensures claimed == if outcome == Effect then Some(items[key]) else None
    {
      if key !in items || items[key].record.status != Ready { return NoMatch, None; }
      var current := items[key];
      if LeaseIsActive(current.record, now) { return Busy, None; }
      var entry := current.(record := current.record.(
        lease := Some(mint), leaseExpiry := Some(now + EXECUTION_LEASE_SECONDS)));
      items := items[key := entry];
      return Effect, Some(entry);
    }

    method ReleaseExecution(key: Key, lease: Token) returns (done: bool)
      modifies this
      ensures var op := Op.ReleaseExecution(lease);
              items == Stepped(old(items), key, op) && (done <==> Did(old(items), key, op) == Effect)
    {
      if key !in items || items[key].record.lease != Some(lease) { return false; }
      items := items[key := items[key].(record := items[key].record.(lease := None, leaseExpiry := None))];
      return true;
    }

    method BeginDisconnect(key: Key, mint: Token, now: Time) returns (outcome: Outcome, stored: Option<Entry>)
      modifies this
      ensures var op := Op.BeginDisconnect(mint, now);
              items == Stepped(old(items), key, op) && outcome == Did(old(items), key, op)
      ensures stored == if outcome == Effect then Some(items[key]) else None
    {
      if key !in items { return NoMatch, None; }
      var current := items[key];
      if current.record.status != Verifying && LeaseIsActive(current.record, now) { return Busy, None; }
      var generation := if current.record.generation == None then Some(mint) else current.record.generation;
      var entry := current.(record := Demoted(current.record, NeedsAttention, Some(DISCONNECT_PENDING)).(
        generation := generation));
      items := items[key := entry];
      return Effect, Some(entry);
    }

    method Mark(key: Key, status: Status, claim: Claim, now: Time) returns (outcome: Outcome)
      modifies this
      ensures var op := Op.Mark(status, claim, now);
              items == Stepped(old(items), key, op) && outcome == Did(old(items), key, op)
    {
      if status.OtherStatus? || !(0 <= claim.toolCount <= 128) { return Invalid; }
      var tools := Validate(status, claim);
      if tools == None || key !in items { return Invalid; }
      items := items[key := items[key].(record := Judged(items[key].record, status, claim, tools.value, now))];
      return Effect;
    }

    method Delete(key: Key, onlyGeneration: Option<Token>, requireDisconnect: bool) returns (done: bool)
      modifies this
      ensures var op := Op.Delete(onlyGeneration, requireDisconnect);
              items == Stepped(old(items), key, op) && (done <==> Did(old(items), key, op) == Effect)
    {
      if key !in items { return false; }
      var current := items[key].record;
      if onlyGeneration.Some? && current.generation != onlyGeneration { return false; }
      if requireDisconnect && current.error != Some(DISCONNECT_PENDING) { return false; }
      items := items - {key};
      return true;
    }
  }
}
