/** To whom a stored OAuth flow is given out: exactly to its own browser and issuer, and in time. */
module OAuthLaws {
  import opened Common
  import opened OAuthFlows

  /** The caller came back with the browser binding of the flow, and with its issuer if it names one. */
  predicate ComesBack(flow: Flow, binding: Hash, issuer: Option<string>) {
    binding == flow.binding && (match issuer case None => true case Some(name) => name == flow.issuer)
  }

  /** The call ends the flow: it comes back for it, cancels its tenant, or replaces it once it has expired. */
  predicate Takes(c: Call, state: Hash, flow: Flow) {
    match c.op
    case Put(_, other) => other.tenant == flow.tenant && flow.expiresAt <= c.now
    case Consume(s, binding, issuer) => s == state && ComesBack(flow, binding, issuer)
    case Cancel(tenant) => tenant == flow.tenant
  }

  predicate IsStored(m: Memory, state: Hash, flow: Flow) { state in m.flows && m.flows[state] == flow }

  /** A stored flow stays, unchanged, exactly until a call takes it. */
  lemma StaysUntilTaken(m: Memory, c: Call, used: set<Hash>, state: Hash, flow: Flow)
    requires Paired(m, used) && IsStored(m, state, flow) && (c.op.Put? ==> c.op.state !in used)
    ensures IsStored(MemStep(m, c.op, c.now).0, state, flow) <==> !Takes(c, state, flow)
  {
  }

  predicate NoneTakes(calls: seq<Call>, state: Hash, flow: Flow) { forall c | c in calls :: !Takes(c, state, flow) }

  lemma {:induction false} FlowWaits(m: Memory, calls: seq<Call>, used: set<Hash>, clock: Time, state: Hash, flow: Flow)
    requires Paired(m, used) && Plausible(calls, used, clock) && IsStored(m, state, flow) && NoneTakes(calls, state, flow)
    ensures IsStored(MemAfter(m, calls), state, flow)
    decreases |calls|
  {
    if calls != [] {
      var c := calls[0];
      StaysUntilTaken(m, c, used, state, flow);
      StepKeepsPaired(m, c, used);
      FlowWaits(MemStep(m, c.op, c.now).0, calls[1..], used + States(c.op), c.now, state, flow);
    }
  }

  /** A flow is stored exactly if its tenant has no unexpired one. */
  lemma PutIsStoredExactlyWhen(m: Memory, used: set<Hash>, state: Hash, flow: Flow, now: Time)
    requires Paired(m, used)
    ensures var (t, a) := MemStep(m, Put(state, flow), now);
            && (a == Stored <==> forall s | s in m.flows && m.flows[s].tenant == flow.tenant :: m.flows[s].expiresAt <= now)
            && (a == Stored ==> IsStored(t, state, flow))
            && (a != Stored ==> a == InProgress && t == m)
  {
    if flow.tenant in m.active { assert m.flows[m.active[flow.tenant]].tenant == flow.tenant; }
  }

  /** The answer to whoever consumes a stored flow. */
  function Due(flow: Flow, binding: Hash, issuer: Option<string>, now: Time): Answer {
    if ComesBack(flow, binding, issuer) && now < flow.expiresAt then Yields(flow) else Nothing
  }

  lemma ConsumeGivesDue(m: Memory, state: Hash, flow: Flow, binding: Hash, issuer: Option<string>, now: Time)
    requires IsStored(m, state, flow)
    ensures MemStep(m, Consume(state, binding, issuer), now).1 == Due(flow, binding, issuer, now)
  {
  }

  lemma {:induction false} AnswerAt(m: Memory, calls: seq<Call>, c: Call)
    ensures |MemAnswers(m, calls + [c])| == |calls| + 1
    ensures MemAnswers(m, calls + [c])[|calls|] == MemStep(MemAfter(m, calls), c.op, c.now).1
    decreases |calls|
  {
    if calls == [] {
      assert calls + [c] == [c] && [c][1..] == [];
    } else {
      assert (calls + [c])[1..] == calls[1..] + [c];
      AnswerAt(MemStep(m, calls[0].op, calls[0].now).0, calls[1..], c);
    }
  }

  lemma {:induction false} PlausibleSplit(a: seq<Call>, b: seq<Call>, used: set<Hash>, clock: Time) returns (used': set<Hash>, clock': Time)
    requires Plausible(a + b, used, clock)
    ensures Plausible(a, used, clock) && Plausible(b, used', clock')
    ensures forall m | Paired(m, used) :: Paired(MemAfter(m, a), used')
    decreases |a|
  {
    if a == [] {
      assert a + b == b;
      used', clock' := used, clock;
    } else {
      assert (a + b)[1..] == a[1..] + b;
      used', clock' := PlausibleSplit(a[1..], b, used + States(a[0].op), a[0].now);
      forall m | Paired(m, used) ensures Paired(MemAfter(m, a), used') {
        StepKeepsPaired(m, a[0], used);
        assert MemAfter(m, a) == MemAfter(MemStep(m, a[0].op, a[0].now).0, a[1..]);
      }
    }
  }

  /**
   In either store, from empty: a flow that was stored and that no call took since is given to the
   browser binding and issuer it was stored for, if they come before it expires, and to nobody else.
   */
  lemma FlowGoesToItsBrowser(before: seq<Call>, put: Call, between: seq<Call>, consume: Call, clock: Time)
    requires put.op.Put? && consume.op.Consume? && consume.op.state == put.op.state
    requires Plausible(before + [put] + between + [consume], {}, clock)
    requires MemStep(MemAfter(Memory(map[], map[]), before), put.op, put.now).1 == Stored
    requires NoneTakes(between, put.op.state, put.op.flow)
    ensures var calls := before + [put] + between + [consume];
            var due := Due(put.op.flow, consume.op.binding, consume.op.issuer, consume.now);
            && |MemAnswers(Memory(map[], map[]), calls)| == |calls| && MemAnswers(Memory(map[], map[]), calls)[|calls| - 1] == due
            && |FireAnswers(Firestore(map[], map[]), calls)| == |calls|
            && FireAnswers(Firestore(map[], map[]), calls)[|calls| - 1] == due
  {
    var empty := Memory(map[], map[]);
    var calls := before + [put] + between + [consume];
    FreshBackendsAgree(calls, clock);
    AnswerAt(empty, before + [put] + between, consume);
    var m := StoredAfter(before, put, between + [consume], clock);
    assert before + [put] + between + [consume] == (before + [put]) + (between + [consume]);
    var used, clock1 := PlausibleSplit(before + [put], between + [consume], {}, clock);
    var _, _ := PlausibleSplit(between, [consume], used, clock1);
    FlowWaits(m, between, used, clock1, put.op.state, put.op.flow);
    AfterOn(empty, before + [put], between);
    ConsumeGivesDue(MemAfter(m, between), put.op.state, put.op.flow, consume.op.binding, consume.op.issuer, consume.now);
  }

  lemma StoredAfter(before: seq<Call>, put: Call, rest: seq<Call>, clock: Time) returns (m: Memory)
    requires put.op.Put? && MemStep(MemAfter(Memory(map[], map[]), before), put.op, put.now).1 == Stored
    ensures m == MemAfter(Memory(map[], map[]), before + [put]) && IsStored(m, put.op.state, put.op.flow)
  {
    var empty := Memory(map[], map[]);
    AfterOn(empty, before, [put]);
    m := MemAfter(empty, before + [put]);
    assert [put][1..] == [];
    assert MemAfter(MemAfter(empty, before), [put]) == MemStep(MemAfter(empty, before), put.op, put.now).0;
  }

  lemma {:induction false} AfterOn(m: Memory, a: seq<Call>, b: seq<Call>)
    ensures MemAfter(m, a + b) == MemAfter(MemAfter(m, a), b)
    decreases |a|
  {
    if a == [] {
      assert a + b == b;
    } else {
      assert (a + b)[1..] == a[1..] + b;
      AfterOn(MemStep(m, a[0].op, a[0].now).0, a[1..], b);
    }
  }

  /** A state that no stored flow has is given nothing. */
  lemma UnknownStateGetsNothing(m: Memory, state: Hash, binding: Hash, issuer: Option<string>, now: Time)
    requires state !in m.flows
    ensures MemStep(m, Consume(state, binding, issuer), now) == (m, Nothing)
  {
  }
}
