/**
 The durable commission records of cloud/store.py: an in-memory store with two indexes and a
 Firestore store with two documents per commission, each call being one atomic step.
 */
module CommissionStore {
  import opened Common

  type Time = int

  datatype Status = Coordinating | ReadyForRally | CoordinatorFailed

  /** SHA-256 of the task, as an injective constructor. */
  datatype Digest = Sha256(task: string)

  datatype Record = Record(
    runId: string, requestKey: string, digest: Digest, status: Status, attempts: nat,
    leaseExpiresAt: Option<Time>, coordinatorRecord: Option<string>, error: Option<string>)

  /** `reclaim` resumes a failed attempt, or one whose lease has run out. */
  predicate Reclaimable(r: Record, now: Time) {
    || r.status == CoordinatorFailed
    || (r.status == Coordinating && (r.leaseExpiresAt == None || r.leaseExpiresAt.value <= now))
  }

  function Resumed(r: Record, lease: Time): Record {
    r.(status := Coordinating, attempts := r.attempts + 1, leaseExpiresAt := Some(lease), error := None)
  }

  // ---------------------------------------------------------------------------------------
  // The memory store
  // ---------------------------------------------------------------------------------------

  datatype Memory = Memory(records: map<string, Record>, keys: map<string, string>)

  function MemCreate(m: Memory, r: Record): (Memory, bool) {
    if r.requestKey in m.keys then (m, false)
    else (Memory(m.records[r.runId := r], m.keys[r.requestKey := r.runId]), true)
  }

  function MemUpdate(m: Memory, runId: string, r: Record, expected: Option<nat>): (Memory, bool) {
    if expected.Some? && runId in m.records && m.records[runId].attempts != expected.value then (m, false)
    else (Memory(m.records[runId := r], m.keys[r.requestKey := runId]), true)
  }

  function MemGet(m: Memory, runId: string): Option<Record> {
    if runId in m.records then Some(m.records[runId]) else None
  }

  function MemGetByKey(m: Memory, key: string): Option<Record> {
    if key in m.keys then MemGet(m, m.keys[key]) else None
  }

  function MemReclaim(m: Memory, key: string, lease: Time, now: Time): (Memory, Option<Record>) {
    var current := MemGetByKey(m, key);
    if current == None || !Reclaimable(current.value, now) then (m, None)
    else
      var r := Resumed(current.value, lease);
      (Memory(m.records[m.keys[key] := r], m.keys), Some(r))
  }

  class MemoryRunStore {
    var records: map<string, Record>
    var requestKeys: map<string, string>

    ghost function State(): Memory reads this { Memory(records, requestKeys) }

    constructor ()
      ensures State() == Memory(map[], map[])
    {
      records, requestKeys := map[], map[];
    }

    method Create(r: Record) returns (ok: bool)
      modifies this
      ensures (State(), ok) == MemCreate(old(State()), r)
    {
      if r.requestKey in requestKeys { return false; }
      records := records[r.runId := r];
      requestKeys := requestKeys[r.requestKey := r.runId];
      return true;
    }

    method Update(runId: string, r: Record, expected: Option<nat>) returns (ok: bool)
      modifies this
      ensures (State(), ok) == MemUpdate(old(State()), runId, r, expected)
    {
      if expected.Some? && runId in records && records[runId].attempts != expected.value { return false; }
      records := records[runId := r];
      requestKeys := requestKeys[r.requestKey := runId];
      return true;
    }

    method Reclaim(key: string, lease: Time, now: Time) returns (resumed: Option<Record>)
      modifies this
      ensures (State(), resumed) == MemReclaim(old(State()), key, lease, now)
    {
      if key !in requestKeys || requestKeys[key] !in records { return None; }
      var runId := requestKeys[key];
      if !Reclaimable(records[runId], now) { return None; }
      records := records[runId := Resumed(records[runId], lease)];
      requestKeys := requestKeys[key := runId];
      assert requestKeys == old(requestKeys);
      return Some(records[runId]);
    }
  }

  // ---------------------------------------------------------------------------------------
  // The Firestore store
  // ---------------------------------------------------------------------------------------

  /** `requests` is keyed by the hash of the request key, which is injective. */
  datatype Firestore = Firestore(runs: map<string, Record>, requests: map<string, Record>)

  function FireCreate(f: Firestore, r: Record): (Firestore, bool) {
    if r.requestKey in f.requests then (f, false)
    else (Firestore(f.runs[r.runId := r], f.requests[r.requestKey := r]), true)
  }

  function FireUpdate(f: Firestore, runId: string, r: Record, expected: Option<nat>): (Firestore, bool) {
    if expected.Some? && runId in f.runs && f.runs[runId].attempts != expected.value then (f, false)
    else (Firestore(f.runs[runId := r], f.requests[r.requestKey := r]), true)
  }

  function FireGet(f: Firestore, runId: string): Option<Record> {
    if runId in f.runs then Some(f.runs[runId]) else None
  }

  function FireGetByKey(f: Firestore, key: string): Option<Record> {
    if key in f.requests then Some(f.requests[key]) else None
  }

  function FireReclaim(f: Firestore, key: string, lease: Time, now: Time): (Firestore, Option<Record>) {
    if key !in f.requests || !Reclaimable(f.requests[key], now) then (f, None)
    else
      var r := Resumed(f.requests[key], lease);
      (Firestore(f.runs[r.runId := r], f.requests[key := r]), Some(r))
  }

  class FirestoreRunStore {
    var runs: map<string, Record>
    var requests: map<string, Record>

    ghost function State(): Firestore reads this { Firestore(runs, requests) }

    constructor ()
      ensures State() == Firestore(map[], map[])
    {
      runs, requests := map[], map[];
    }

    method Create(r: Record) returns (ok: bool)
      modifies this
      ensures (State(), ok) == FireCreate(old(State()), r)
    {
      if r.requestKey in requests { return false; }
      requests := requests[r.requestKey := r];
      runs := runs[r.runId := r];
      return true;
    }

    method Update(runId: string, r: Record, expected: Option<nat>) returns (ok: bool)
      modifies this
      ensures (State(), ok) == FireUpdate(old(State()), runId, r, expected)
    {
      if expected.Some? && runId in runs && runs[runId].attempts != expected.value { return false; }
      runs := runs[runId := r];
      requests := requests[r.requestKey := r];
      return true;
    }

    method Reclaim(key: string, lease: Time, now: Time) returns (resumed: Option<Record>)
      modifies this
      ensures (State(), resumed) == FireReclaim(old(State()), key, lease, now)
    {
      if key !in requests || !Reclaimable(requests[key], now) { return None; }
      var r := Resumed(requests[key], lease);
      runs := runs[r.runId := r];
      requests := requests[key := r];
      return Some(r);
    }
  }

  // ---------------------------------------------------------------------------------------
  // The two backends agree
  // ---------------------------------------------------------------------------------------

  datatype Call =
    | Create(record: Record)
    | Update(runId: string, record: Record, expected: Option<nat>)
    | Reclaim(key: string, lease: Time, now: Time)
    | Get(runId: string)
    | GetByKey(key: string)

  datatype Answer = Yes | No | Found(record: Record) | Missing

  function AsAnswer(r: Option<Record>): Answer { if r.Some? then Found(r.value) else Missing }

  function MemCall(m: Memory, c: Call): (Memory, Answer) {
    match c
    case Create(r) => var (m', ok) := MemCreate(m, r); (m', if ok then Yes else No)
    case Update(runId, r, expected) => var (m', ok) := MemUpdate(m, runId, r, expected); (m', if ok then Yes else No)
    case Reclaim(key, lease, now) => var (m', r) := MemReclaim(m, key, lease, now); (m', AsAnswer(r))
    case Get(runId) => (m, AsAnswer(MemGet(m, runId)))
    case GetByKey(key) => (m, AsAnswer(MemGetByKey(m, key)))
  }

  function FireCall(f: Firestore, c: Call): (Firestore, Answer) {
    match c
    case Create(r) => var (f', ok) := FireCreate(f, r); (f', if ok then Yes else No)
    case Update(runId, r, expected) => var (f', ok) := FireUpdate(f, runId, r, expected); (f', if ok then Yes else No)
    case Reclaim(key, lease, now) => var (f', r) := FireReclaim(f, key, lease, now); (f', AsAnswer(r))
    case Get(runId) => (f, AsAnswer(FireGet(f, runId)))
    case GetByKey(key) => (f, AsAnswer(FireGetByKey(f, key)))
  }

  function MemAnswers(m: Memory, calls: seq<Call>): seq<Answer>
    decreases |calls|
  {
    if calls == [] then [] else [MemCall(m, calls[0]).1] + MemAnswers(MemCall(m, calls[0]).0, calls[1..])
  }

  function FireAnswers(f: Firestore, calls: seq<Call>): seq<Answer>
    decreases |calls|
  {
    if calls == [] then [] else [FireCall(f, calls[0]).1] + FireAnswers(FireCall(f, calls[0]).0, calls[1..])
  }

  function MemAfter(m: Memory, calls: seq<Call>): Memory
    decreases |calls|
  {
    if calls == [] then m else MemAfter(MemCall(m, calls[0]).0, calls[1..])
  }

  function FireAfter(f: Firestore, calls: seq<Call>): Firestore
    decreases |calls|
  {
    if calls == [] then f else FireAfter(FireCall(f, calls[0]).0, calls[1..])
  }

  /** Request keys and run ids pair off one-to-one, and both indexes agree on every record. */
  ghost predicate WellIndexed(m: Memory) {
    && (forall k | k in m.keys :: m.keys[k] in m.records && m.records[m.keys[k]].requestKey == k)
    && (forall r | r in m.records ::
          m.records[r].runId == r && m.records[r].requestKey in m.keys && m.keys[m.records[r].requestKey] == r)
  }

  /** The caller does not reuse a run id for another request key. */
  ghost predicate Pairs(m: Memory, c: Call) {
    match c
    case Create(r) => r.runId in m.records ==> m.records[r.runId].requestKey == r.requestKey
    case Update(runId, r, _) =>
      && r.runId == runId
      && (runId in m.records ==> m.records[runId].requestKey == r.requestKey)
      && (r.requestKey in m.keys ==> m.keys[r.requestKey] == runId)
    case _ => true
  }

  ghost predicate PairsThroughout(m: Memory, calls: seq<Call>)
    decreases |calls|
  {
    calls == [] || (Pairs(m, calls[0]) && PairsThroughout(MemCall(m, calls[0]).0, calls[1..]))
  }

  /** The same commissions: both documents of each are the memory store's one record. */
  ghost predicate Represents(m: Memory, f: Firestore) {
    && f.runs == m.records
    && f.requests.Keys == m.keys.Keys
    && forall k | k in m.keys :: m.keys[k] in m.records && f.requests[k] == m.records[m.keys[k]]
  }

  /** `get` and `get_by_request_key` read the same record. */
  ghost predicate DocumentsAgree(f: Firestore) {
    forall k | k in f.requests :: FireGet(f, f.requests[k].runId) == FireGetByKey(f, k)
  }

  lemma CallKeepsPairs(m: Memory, c: Call)
    requires WellIndexed(m) && Pairs(m, c)
    ensures WellIndexed(MemCall(m, c).0)
  {
  }

  lemma CallAgrees(m: Memory, f: Firestore, c: Call)
    requires WellIndexed(m) && Represents(m, f) && Pairs(m, c)
    ensures MemCall(m, c).1 == FireCall(f, c).1 && Represents(MemCall(m, c).0, FireCall(f, c).0)
  {
  }

  /**
   Refinement: on every sequence of calls that never reuses a run id for another request key, the
   Firestore store answers exactly as the memory store does, and after every transaction the two
   documents of a commission are equal, so `get` and `get_by_request_key` agree.
   */
  lemma {:induction false} BackendsAgree(m: Memory, f: Firestore, calls: seq<Call>)
    requires WellIndexed(m) && Represents(m, f) && PairsThroughout(m, calls)
    ensures MemAnswers(m, calls) == FireAnswers(f, calls)
    ensures Represents(MemAfter(m, calls), FireAfter(f, calls))
    ensures WellIndexed(MemAfter(m, calls)) && DocumentsAgree(FireAfter(f, calls))
    decreases |calls|
  {
    if calls != [] {
      CallKeepsPairs(m, calls[0]);
      CallAgrees(m, f, calls[0]);
      BackendsAgree(MemCall(m, calls[0]).0, FireCall(f, calls[0]).0, calls[1..]);
    } else {
      assert MemAfter(m, calls) == m && FireAfter(f, calls) == f;
    }
  }

  /** Without that condition the backends differ: a second key on a used run id overwrites one index only. */
  lemma ReusedRunIdSplitsBackends(first: Record, second: Record)
    requires first.runId == second.runId && first.requestKey != second.requestKey
    ensures var calls := [Create(first), Create(second), GetByKey(first.requestKey)];
            MemAnswers(Memory(map[], map[]), calls) == [Yes, Yes, Found(second)]
            && FireAnswers(Firestore(map[], map[]), calls) == [Yes, Yes, Found(first)]
  {
    var calls := [Create(first), Create(second), GetByKey(first.requestKey)];
    assert calls[1..] == [Create(second), GetByKey(first.requestKey)];
    assert calls[1..][1..] == [GetByKey(first.requestKey)] && [GetByKey(first.requestKey)][1..] == [];
    var m1, f1 := MemCall(Memory(map[], map[]), calls[0]).0, FireCall(Firestore(map[], map[]), calls[0]).0;
    var m2, f2 := MemCall(m1, calls[1]).0, FireCall(f1, calls[1]).0;
    assert MemAnswers(m2, [calls[2]]) == [Found(second)] && FireAnswers(f2, [calls[2]]) == [Found(first)];
    assert MemAnswers(m1, calls[1..]) == [Yes, Found(second)] && FireAnswers(f1, calls[1..]) == [Yes, Found(first)];
  }
}
