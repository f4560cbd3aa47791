/**
 The one-use OAuth flow stores of cloud/connector_oauth.py. Both keep two indexes: flows by the hash
 of their random state, and the state reserved by each tenant and connector. The Firestore store leaves
 an expired flow behind when its reservation is replaced; the two are proved observably equal.

 State and binding hashes are injective, so states and bindings stand for their hashes.
 */
module OAuthFlows {
  import opened Common

  type Hash = nat
  type Time = int

  datatype Tenant = Tenant(uid: string, connectorId: string)

  datatype Flow = Flow(tenant: Tenant, issuer: string, binding: Hash, expiresAt: Time, payload: string)

  datatype Op =
    | Put(state: Hash, flow: Flow)
    | Consume(state: Hash, binding: Hash, issuer: Option<string>)
    | Cancel(tenant: Tenant)

  datatype Answer = Stored | InProgress | Unavailable | Yields(flow: Flow) | Nothing | Cancelled | NotCancelled

  // ---------------------------------------------------------------------------------------
  // The memory store
  // ---------------------------------------------------------------------------------------

  datatype Memory = Memory(flows: map<Hash, Flow>, active: map<Tenant, Hash>)

  predicate Matches(f: Flow, binding: Hash, issuer: Option<string>) {
    f.binding == binding && (issuer == None || issuer.value == f.issuer)
  }

  function MemStep(m: Memory, op: Op, now: Time): (Memory, Answer) {
    match op
    case Put(state, flow) =>
      var held := flow.tenant in m.active;
      var previous := if held then m.active[flow.tenant] else 0;
      if held && previous in m.flows && m.flows[previous].expiresAt > now then (m, InProgress)
      else
        var flows := if held then m.flows - {previous} else m.flows;
        (Memory(flows[state := flow], m.active[flow.tenant := state]), Stored)
    case Consume(state, binding, issuer) =>
      if state !in m.flows || !Matches(m.flows[state], binding, issuer) then (m, Nothing)
      else
        var flow := m.flows[state];
        (Memory(m.flows - {state}, m.active - {flow.tenant}), if flow.expiresAt <= now then Nothing else Yields(flow))
    case Cancel(tenant) =>
      if tenant !in m.active then (m, NotCancelled)
      else
        var state := m.active[tenant];
        if state in m.flows && m.flows[state].tenant != tenant then (m, Unavailable)
        else (Memory(m.flows - {state}, m.active - {tenant}), Cancelled)
  }

  class MemoryOAuthFlowStore {
    var flows: map<Hash, Flow>
    var active: map<Tenant, Hash>

    ghost function State(): Memory reads this { Memory(flows, active) }

    constructor ()
      ensures State() == Memory(map[], map[])
    {
      flows, active := map[], map[];
    }

    method PutFlow(state: Hash, flow: Flow, now: Time) returns (a: Answer)
      modifies this
      ensures (State(), a) == MemStep(old(State()), Put(state, flow), now)
    {
      if flow.tenant in active {
        var previous := active[flow.tenant];
        if previous in flows && flows[previous].expiresAt > now { return InProgress; }
        flows := flows - {previous};
      }
      flows := flows[state := flow];
      active := active[flow.tenant := state];
      return Stored;
    }

    method ConsumeFlow(state: Hash, binding: Hash, issuer: Option<string>, now: Time) returns (a: Answer)
      modifies this
      ensures (State(), a) == MemStep(old(State()), Consume(state, binding, issuer), now)
    {
      if state !in flows || flows[state].binding != binding { return Nothing; }
      if issuer.Some? && flows[state].issuer != issuer.value { return Nothing; }
      var flow := flows[state];
      flows := flows - {state};
      active := active - {flow.tenant};
      if flow.expiresAt <= now { return Nothing; }
      return Yields(flow);
    }

    method CancelFlow(tenant: Tenant, now: Time) returns (a: Answer)
      modifies this
      ensures (State(), a) == MemStep(old(State()), Cancel(tenant), now)
    {
      if tenant !in active { return NotCancelled; }
      var state := active[tenant];
      active := active - {tenant};
      if state in flows && flows[state].tenant != tenant {
        active := active[tenant := state];
        assert active == old(active);
        return Unavailable;
      }
      flows := flows - {state};
      return Cancelled;
    }
  }

  // ---------------------------------------------------------------------------------------
  // The Firestore store
  // ---------------------------------------------------------------------------------------

  /** The reservation document of a tenant and connector. */
  datatype Reservation = Reservation(state: Hash, expiresAt: Time)

  datatype Firestore = Firestore(docs: map<Hash, Flow>, reservations: map<Tenant, Reservation>)

  function FireStep(f: Firestore, op: Op, now: Time): (Firestore, Answer) {
    match op
    case Put(state, flow) =>
      if flow.tenant in f.reservations && f.reservations[flow.tenant].expiresAt > now then (f, InProgress)
      else if state in f.docs then (f, Unavailable)
      else (Firestore(f.docs[state := flow], f.reservations[flow.tenant := Reservation(state, flow.expiresAt)]), Stored)
    case Consume(state, binding, issuer) =>
      if state !in f.docs || !Matches(f.docs[state], binding, issuer) then (f, Nothing)
      else
        var flow := f.docs[state];
        var owned := flow.tenant in f.reservations && f.reservations[flow.tenant].state == state;
        (Firestore(f.docs - {state}, if owned then f.reservations - {flow.tenant} else f.reservations),
         if flow.expiresAt <= now then Nothing else Yields(flow))
    case Cancel(tenant) =>
      if tenant !in f.reservations then (f, NotCancelled)
      else
        var state := f.reservations[tenant].state;
        if state in f.docs && f.docs[state].tenant != tenant then (f, Unavailable)
        else (Firestore(f.docs - {state}, f.reservations - {tenant}), Cancelled)
  }

  class FirestoreOAuthFlowStore {
    var docs: map<Hash, Flow>
    var reservations: map<Tenant, Reservation>

    ghost function State(): Firestore reads this { Firestore(docs, reservations) }

    constructor ()
      ensures State() == Firestore(map[], map[])
    {
      docs, reservations := map[], map[];
    }

    method PutFlow(state: Hash, flow: Flow, now: Time) returns (a: Answer)
      modifies this
      ensures (State(), a) == FireStep(old(State()), Put(state, flow), now)
    {
      if flow.tenant in reservations && reservations[flow.tenant].expiresAt > now { return InProgress; }
      if state in docs { return Unavailable; }   // the whole transaction is rolled back
      docs := docs[state := flow];
      reservations := reservations[flow.tenant := Reservation(state, flow.expiresAt)];
      return Stored;
    }

    method ConsumeFlow(state: Hash, binding: Hash, issuer: Option<string>, now: Time) returns (a: Answer)
      modifies this
      ensures (State(), a) == FireStep(old(State()), Consume(state, binding, issuer), now)
    {
      if state !in docs || !Matches(docs[state], binding, issuer) { return Nothing; }
      var flow := docs[state];
      docs := docs - {state};
      if flow.tenant in reservations && reservations[flow.tenant].state == state {
        reservations := reservations - {flow.tenant};
      }
      if flow.expiresAt <= now { return Nothing; }
      return Yields(flow);
    }

    method CancelFlow(tenant: Tenant, now: Time) returns (a: Answer)
      modifies this
      ensures (State(), a) == FireStep(old(State()), Cancel(tenant), now)
    {
      if tenant !in reservations { return NotCancelled; }
      var state := reservations[tenant].state;
      if state in docs && docs[state].tenant != tenant { return Unavailable; }
      docs := docs - {state};
      reservations := reservations - {tenant};
      return Cancelled;
    }
  }

  // ---------------------------------------------------------------------------------------
  // Call sequences
  // ---------------------------------------------------------------------------------------

  datatype Call = Call(op: Op, now: Time)

  /** The clock never runs backwards, and every stored state is random: never used before. */
  ghost predicate Plausible(calls: seq<Call>, used: set<Hash>, clock: Time)
    decreases |calls|
  {
    calls == [] ||
    (&& clock <= calls[0].now
     && (calls[0].op.Put? ==> calls[0].op.state !in used)
     && Plausible(calls[1..], used + States(calls[0].op), calls[0].now))
  }

  function States(op: Op): set<Hash> { if op.Put? then {op.state} else {} }

  function MemAnswers(m: Memory, calls: seq<Call>): seq<Answer>
    decreases |calls|
  {
    if calls == [] then []
    else
      var (m', a) := MemStep(m, calls[0].op, calls[0].now);
      [a] + MemAnswers(m', calls[1..])
  }

  function FireAnswers(f: Firestore, calls: seq<Call>): seq<Answer>
    decreases |calls|
  {
    if calls == [] then []
    else
      var (f', a) := FireStep(f, calls[0].op, calls[0].now);
      [a] + FireAnswers(f', calls[1..])
  }

  function MemAfter(m: Memory, calls: seq<Call>): Memory
    decreases |calls|
  {
    if calls == [] then m else MemAfter(MemStep(m, calls[0].op, calls[0].now).0, calls[1..])
  }

  // ---------------------------------------------------------------------------------------
  // The two indexes
  // ---------------------------------------------------------------------------------------

  /** Flows and reservations are in bijection, through the flow's own tenant. */
  ghost predicate Paired(m: Memory, used: set<Hash>) {
    && (forall t | t in m.active :: m.active[t] in m.flows && m.flows[m.active[t]].tenant == t)
    && (forall s | s in m.flows :: s in used && m.flows[s].tenant in m.active && m.active[m.flows[s].tenant] == s)
  }

  lemma StepKeepsPaired(m: Memory, c: Call, used: set<Hash>)
    requires Paired(m, used) && (c.op.Put? ==> c.op.state !in used)
    ensures Paired(MemStep(m, c.op, c.now).0, used + States(c.op))
    ensures MemStep(m, c.op, c.now).1 != Unavailable
  {
  }

  ghost predicate OneFlowEach(m: Memory) {
    forall r, s | r in m.flows && s in m.flows && m.flows[r].tenant == m.flows[s].tenant :: r == s
  }

  lemma PairedIsOneEach(m: Memory, used: set<Hash>)
    requires Paired(m, used)
    ensures OneFlowEach(m)
  {
  }

  /** At most one stored flow per tenant and connector, and the store never finds itself inconsistent. */
  lemma {:induction false} IndexesStayPaired(m: Memory, calls: seq<Call>, used: set<Hash>, clock: Time)
    requires Paired(m, used) && Plausible(calls, used, clock)
    ensures OneFlowEach(MemAfter(m, calls))
    ensures Unavailable !in MemAnswers(m, calls)
    decreases |calls|
  {
    if calls != [] {
      StepKeepsPaired(m, calls[0], used);
      IndexesStayPaired(MemStep(m, calls[0].op, calls[0].now).0, calls[1..], used + States(calls[0].op), calls[0].now);
    } else {
      PairedIsOneEach(m, used);
    }
  }

  // ---------------------------------------------------------------------------------------
  // One use
  // ---------------------------------------------------------------------------------------

  /** How often a state has yielded its flow. */
  function Uses(calls: seq<Call>, answers: seq<Answer>, state: Hash): nat
    requires |calls| == |answers|
    decreases |calls|
  {
    if calls == [] then 0
    else
      (if calls[0].op.Consume? && calls[0].op.state == state && answers[0].Yields? then 1 else 0)
      + Uses(calls[1..], answers[1..], state)
  }

  lemma {:induction false} AnswerPerCall(m: Memory, calls: seq<Call>)
    ensures |MemAnswers(m, calls)| == |calls|
    decreases |calls|
  {
    if calls != [] { AnswerPerCall(MemStep(m, calls[0].op, calls[0].now).0, calls[1..]); }
  }

  lemma {:induction false} SpentStateYieldsNothing(m: Memory, calls: seq<Call>, used: set<Hash>, clock: Time, state: Hash)
    requires Plausible(calls, used, clock) && state in used && state !in m.flows
    requires |MemAnswers(m, calls)| == |calls|
    ensures Uses(calls, MemAnswers(m, calls), state) == 0
    decreases |calls|
  {
    if calls != [] {
      var m' := MemStep(m, calls[0].op, calls[0].now).0;
      AnswerPerCall(m', calls[1..]);
      SpentStateYieldsNothing(m', calls[1..], used + States(calls[0].op), calls[0].now, state);
      assert MemAnswers(m, calls)[1..] == MemAnswers(m', calls[1..]);
    }
  }

  /** However calls interleave, each state yields its flow at most once. */
  lemma {:induction false} EachStateYieldsOnce(m: Memory, calls: seq<Call>, used: set<Hash>, clock: Time, state: Hash)
    requires Paired(m, used) && Plausible(calls, used, clock)
    requires |MemAnswers(m, calls)| == |calls|
    ensures Uses(calls, MemAnswers(m, calls), state) <= 1
    decreases |calls|
  {
    if calls != [] {
      var (m', a) := MemStep(m, calls[0].op, calls[0].now);
      var used' := used + States(calls[0].op);
      AnswerPerCall(m', calls[1..]);
      StepKeepsPaired(m, calls[0], used);
      assert MemAnswers(m, calls)[1..] == MemAnswers(m', calls[1..]);
      if calls[0].op.Consume? && calls[0].op.state == state && a.Yields? {
        SpentStateYieldsNothing(m', calls[1..], used', calls[0].now, state);
      } else {
        EachStateYieldsOnce(m', calls[1..], used', calls[0].now, state);
      }
    }
  }

  // ---------------------------------------------------------------------------------------
  // Refinement
  // ---------------------------------------------------------------------------------------

  /** The Firestore store holds the memory store's flows, plus expired ones nobody has reserved. */
  ghost predicate Represents(m: Memory, f: Firestore, used: set<Hash>, clock: Time) {
    && Paired(m, used)
    && (forall s | s in m.flows :: s in f.docs && f.docs[s] == m.flows[s])
    && (forall s | s in f.docs && s !in m.flows :: s in used && f.docs[s].expiresAt <= clock)
    && f.reservations.Keys == m.active.Keys
    && (forall t | t in m.active :: f.reservations[t] == Reservation(m.active[t], m.flows[m.active[t]].expiresAt))
  }

  ghost predicate Refines(m: Memory, f: Firestore, c: Call, used: set<Hash>) {
    && MemStep(m, c.op, c.now).1 == FireStep(f, c.op, c.now).1
    && Represents(MemStep(m, c.op, c.now).0, FireStep(f, c.op, c.now).0, used + States(c.op), c.now)
  }

  lemma PutRefines(m: Memory, f: Firestore, c: Call, used: set<Hash>, clock: Time)
    requires Represents(m, f, used, clock) && clock <= c.now && c.op.Put? && c.op.state !in used
    ensures Refines(m, f, c, used)
  {
    StepKeepsPaired(m, c, used);
    PutAnswersAlike(m, f, c, used, clock);
  }

  lemma PutAnswersAlike(m: Memory, f: Firestore, c: Call, used: set<Hash>, clock: Time)
    requires Represents(m, f, used, clock) && clock <= c.now && c.op.Put? && c.op.state !in used
    ensures MemStep(m, c.op, c.now).1 == FireStep(f, c.op, c.now).1 && c.op.state !in f.docs
  {
    var t := c.op.flow.tenant;
    if t in m.active { assert f.reservations[t].expiresAt == m.flows[m.active[t]].expiresAt; }
  }

  lemma ConsumeRefines(m: Memory, f: Firestore, c: Call, used: set<Hash>, clock: Time)
    requires Represents(m, f, used, clock) && clock <= c.now && c.op.Consume?
    ensures Refines(m, f, c, used)
  {
    if c.op.state in f.docs && c.op.state !in m.flows {
      ConsumeOrphanRefines(m, f, c, used, clock);
    } else {
      StepKeepsPaired(m, c, used);
    }
  }

  /** An expired orphan yields nothing, and no reservation is its own. */
  lemma ConsumeOrphanRefines(m: Memory, f: Firestore, c: Call, used: set<Hash>, clock: Time)
    requires Represents(m, f, used, clock) && clock <= c.now && c.op.Consume?
    requires c.op.state in f.docs && c.op.state !in m.flows
    ensures Refines(m, f, c, used)
  {
    var t := f.docs[c.op.state].tenant;
    assert t in f.reservations ==> f.reservations[t].state in m.flows;
    assert MemStep(m, c.op, c.now) == (m, Nothing);
  }

  lemma CancelRefines(m: Memory, f: Firestore, c: Call, used: set<Hash>, clock: Time)
    requires Represents(m, f, used, clock) && clock <= c.now && c.op.Cancel?
    ensures Refines(m, f, c, used)
  {
    StepKeepsPaired(m, c, used);
  }

  lemma StepRefines(m: Memory, f: Firestore, c: Call, used: set<Hash>, clock: Time)
    requires Represents(m, f, used, clock) && clock <= c.now && (c.op.Put? ==> c.op.state !in used)
    ensures Refines(m, f, c, used)
  {
    match c.op
    case Put(_, _) => PutRefines(m, f, c, used, clock);
    case Consume(_, _, _) => ConsumeRefines(m, f, c, used, clock);
    case Cancel(_) => CancelRefines(m, f, c, used, clock);
  }

  /** The two backends give the same answers on every call sequence, orphans notwithstanding. */
  lemma {:induction false} BackendsAgree(m: Memory, f: Firestore, calls: seq<Call>, used: set<Hash>, clock: Time)
    requires Represents(m, f, used, clock) && Plausible(calls, used, clock)
    ensures MemAnswers(m, calls) == FireAnswers(f, calls)
    decreases |calls|
  {
    if calls != [] {
      var c := calls[0];
      StepRefines(m, f, c, used, clock);
      BackendsAgree(MemStep(m, c.op, c.now).0, FireStep(f, c.op, c.now).0, calls[1..], used + States(c.op), c.now);
    }
  }

  /** From empty stores. */
  lemma FreshBackendsAgree(calls: seq<Call>, clock: Time)
    requires Plausible(calls, {}, clock)
    ensures MemAnswers(Memory(map[], map[]), calls) == FireAnswers(Firestore(map[], map[]), calls)
  {
    BackendsAgree(Memory(map[], map[]), Firestore(map[], map[]), calls, {}, clock);
  }

  // ---------------------------------------------------------------------------------------
  // What this means for Firestore
  // ---------------------------------------------------------------------------------------

  function FireAfter(f: Firestore, calls: seq<Call>): Firestore
    decreases |calls|
  {
    if calls == [] then f else FireAfter(FireStep(f, calls[0].op, calls[0].now).0, calls[1..])
  }

  function LastTime(calls: seq<Call>, clock: Time): Time {
    if calls == [] then clock else calls[|calls| - 1].now
  }

  /** Expired orphans aside, a tenant and connector have one flow. */
  ghost predicate OneUnexpiredEach(f: Firestore, now: Time) {
    forall r, s | r in f.docs && s in f.docs && f.docs[r].tenant == f.docs[s].tenant
                  && f.docs[r].expiresAt > now && f.docs[s].expiresAt > now :: r == s
  }

  lemma RepresentedIsOneEach(m: Memory, f: Firestore, used: set<Hash>, clock: Time)
    requires Represents(m, f, used, clock)
    ensures OneUnexpiredEach(f, clock)
  {
  }

  /** In Firestore each tenant and connector has at most one unexpired flow, after any calls. */
  lemma {:induction false} FirestoreKeepsOneEach(m: Memory, f: Firestore, calls: seq<Call>, used: set<Hash>, clock: Time)
    requires Represents(m, f, used, clock) && Plausible(calls, used, clock)
    ensures OneUnexpiredEach(FireAfter(f, calls), LastTime(calls, clock))
    decreases |calls|
  {
    if calls == [] {
      RepresentedIsOneEach(m, f, used, clock);
    } else {
      var c := calls[0];
      StepRefines(m, f, c, used, clock);
      FirestoreKeepsOneEach(MemStep(m, c.op, c.now).0, FireStep(f, c.op, c.now).0, calls[1..], used + States(c.op), c.now);
      assert LastTime(calls[1..], c.now) == LastTime(calls, clock);
    }
  }

  /** From an empty Firestore store: one unexpired flow each, and each state yields its flow at most once. */
  lemma FirestoreIsOneUse(calls: seq<Call>, clock: Time, state: Hash)
    requires Plausible(calls, {}, clock)
    ensures var f := Firestore(map[], map[]);
            && OneUnexpiredEach(FireAfter(f, calls), LastTime(calls, clock))
            && |FireAnswers(f, calls)| == |calls| && Uses(calls, FireAnswers(f, calls), state) <= 1
  {
    var m, f := Memory(map[], map[]), Firestore(map[], map[]);
    FirestoreKeepsOneEach(m, f, calls, {}, clock);
    FreshBackendsAgree(calls, clock);
    AnswerPerCall(m, calls);
    EachStateYieldsOnce(m, calls, {}, clock, state);
  }
}
