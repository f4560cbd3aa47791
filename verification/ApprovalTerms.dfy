/**
 The terms of an approval: what may be asked for, until when it may be spent, and what gives way to it,
 said of times, identifiers and records.
 */
module ApprovalTerms {
  import opened Common
  import opened Approvals
  import opened ApprovalLaws

  // ---------------------------------------------------------------------------------------
  // Identifiers
  // ---------------------------------------------------------------------------------------

  /** `t` is a usable identifier, and the trimmed form of `s`. */
  ghost predicate Identifies(t: string, s: string) {
    IsTrimOf(t, s) && 1 <= |t| <= 256 && '\0' !in t
  }

  lemma IdentifierExactly(s: string, t: string)
    ensures Identifier(s) == Some(t) <==> Identifies(t, s)
  {
    StripTrims(s);
    if IsTrimOf(t, s) { TrimIsUnique(t, Strip(s), s); }
  }

  ghost predicate HasIdentifier(s: string) { exists t :: Identifies(t, s) }

  lemma IdentifierExists(s: string)
    ensures Identifier(s).Some? <==> HasIdentifier(s)
    ensures Identifier(s).Some? ==> Identifies(Identifier(s).value, s)
  {
    if Identifier(s).Some? { IdentifierExactly(s, Identifier(s).value); }
    if HasIdentifier(s) {
      var t :| Identifies(t, s);
      IdentifierExactly(s, t);
    }
  }

  /** The call names its run, connector and tool, and its arguments are at most 262144 bytes long. */
  ghost predicate IsWellFormed(call: Call) {
    HasIdentifier(call.runId) && HasIdentifier(call.connectorId) && HasIdentifier(call.toolName)
    && Utf8Length(call.arguments) <= 262144
  }

  /** `c` is the same call with its identifiers trimmed. */
  ghost predicate IsTrimmedCall(c: Call, call: Call) {
    && Identifies(c.runId, call.runId) && Identifies(c.connectorId, call.connectorId)
    && Identifies(c.toolName, call.toolName) && c.arguments == call.arguments
  }

  lemma NormalExactly(call: Call)
    ensures Normal(call).Some? <==> IsWellFormed(call)
    ensures Normal(call).Some? ==> IsTrimmedCall(Normal(call).value, call)
  {
    IdentifierExists(call.runId);
    IdentifierExists(call.connectorId);
    IdentifierExists(call.toolName);
  }

  // ---------------------------------------------------------------------------------------
  // Asking and approving
  // ---------------------------------------------------------------------------------------

  predicate IsLive(r: Record, now: Time) { (r.status == Pending || r.status == Approved) && now < r.expiresAt }

  function LiveIds(requests: Requests, now: Time): set<Id> {
    set id | id in requests && IsLive(requests[id], now)
  }

  /**
   A request is granted a place exactly if its lifetime is one second to one hour, its call is well formed
   and fewer than 1024 records are live. Its record is pending, of the trimmed call, and ends with its lifetime.
   */
  lemma AskedExactlyWhen(requests: Requests, op: Op, now: Time)
    requires op.Ask? && Feasible(requests, op, now)
    ensures var r := Answer(requests, op, now);
            && (r.Done? <==> 1 <= op.ttl <= 3600 && IsWellFormed(op.call) && |LiveIds(requests, now)| < 1024)
            && (r == InvalidInput <==> !(1 <= op.ttl <= 3600 && IsWellFormed(op.call)))
            && (r.Done? ==>
                  && r.id == op.id && IsTrimmedCall(r.record.call, op.call)
                  && r.record.status == Pending && r.record.createdAt == now
                  && r.record.expiresAt == now + op.ttl * 1000000
                  && r.record.approvedAt == None && r.record.consumedAt == None && r.record.expiredAt == None)
  {
    NormalExactly(op.call);
    if IsValid(op.call, op.ttl) { RoomForLive(requests, op.gone, now); }
  }

  lemma RoomForLive(requests: Requests, gone: set<Id>, now: Time)
    requires Evicts(Swept(requests, now), gone)
    ensures |Swept(requests, now) - gone| < 1024 <==> |LiveIds(requests, now)| < 1024
  {
    var swept := Swept(requests, now);
    RoomUnlessAllLive(swept, gone);
    assert swept.Keys - Terminal(swept) == LiveIds(requests, now);
  }

  /** A request is approved exactly if it is pending and unexpired and the human is named. */
  lemma ApprovedExactlyWhen(requests: Requests, id: Id, human: string, now: Time)
    ensures var r := Answer(requests, Approve(id, human), now);
            && (r.Done? <==>
                  && HasIdentifier(human) && id in requests
                  && requests[id].status == Pending && now < requests[id].expiresAt)
            && (r.Done? ==> r.id == id && r.record.approvedBy.Some? && Identifies(r.record.approvedBy.value, human)
                            && r.record == requests[id].(status := Approved, approvedAt := Some(now), approvedBy := r.record.approvedBy))
  {
    IdentifierExists(human);
  }

  /** What an approval is answered: the approved record, or the reason why it is refused. */
  lemma ApprovedAs(requests: Requests, id: Id, human: string, now: Time)
    ensures var r := Answer(requests, Approve(id, human), now);
            if !HasIdentifier(human) then r == InvalidInput
            else if id !in requests then r == NotFound
            else
              var record := requests[id];
              if record.status == Consumed then r == Replay
              else if record.status == Expired || now >= record.expiresAt then r == TooLate
              else if record.status == Approved then r == WrongState
              else r.Done? && r.record.status == Approved
  {
    IdentifierExists(human);
  }

  /** What a consumption is answered: the spent record, or the reason why it is not spent. */
  lemma ConsumedAs(requests: Requests, id: Id, call: Call, now: Time)
    ensures var r := Answer(requests, Consume(id, call), now);
            if !IsWellFormed(call) then r == InvalidInput
            else if id !in requests then r == NotFound
            else
              var record := requests[id];
              if record.status == Consumed then r == Replay
              else if record.status == Expired || now >= record.expiresAt then r == TooLate
              else if record.status == Pending then r == WrongState
              else if !IsTrimmedCall(record.call, call) then r == Mismatch
              else r == Done(id, record.(status := Consumed, consumedAt := Some(now)))
  {
    NormalExactly(call);
    if IsWellFormed(call) && id in requests && IsTrimmedCall(requests[id].call, call) {
      OneTrimmedCall(requests[id].call, Normal(call).value, call);
    }
  }

  lemma OneTrimmedCall(a: Call, b: Call, call: Call)
    requires IsTrimmedCall(a, call) && IsTrimmedCall(b, call)
    ensures a == b
  {
    TrimIsUnique(a.runId, b.runId, call.runId);
    TrimIsUnique(a.connectorId, b.connectorId, call.connectorId);
    TrimIsUnique(a.toolName, b.toolName, call.toolName);
  }

  // ---------------------------------------------------------------------------------------
  // The lifetime of an approval
  // ---------------------------------------------------------------------------------------

  ghost predicate SameTerms(a: Record, b: Record) { a.expiresAt == b.expiresAt && a.call == b.call && a.createdAt == b.createdAt }

  lemma StepKeepsTerms(s: System, act: Act, used: set<Id>, id: Id)
    requires CanAct(s, act) && s.requests.Keys <= used && id in used && (act.Transact? ==> IsFresh(act.op, used))
    ensures id in Perform(s, act).requests ==> id in s.requests && SameTerms(s.requests[id], Perform(s, act).requests[id])
  {
    ActKeeps(s, act, used, id);
    if act.Transact? && id in s.requests && id in Perform(s, act).requests { TermsOfWritten(s.requests, act.op, act.now, id); }
  }

  lemma TermsOfWritten(requests: Requests, op: Op, now: Time, id: Id)
    requires Feasible(requests, op, now) && IsFresh(op, requests.Keys)
    requires id in requests && id in Written(requests, op, now)
    ensures SameTerms(requests[id], Written(requests, op, now)[id])
  {
    var swept := Swept(requests, now);
    assert id in swept && SameTerms(requests[id], swept[id]);
  }

  /** A record keeps its call and its end for as long as it is there. */
  lemma {:induction false} TermsAreKept(s: System, acts: seq<Act>, used: set<Id>, id: Id)
    requires IsRun(s, acts) && IsFreshRun(acts, used) && s.requests.Keys <= used && id in used
    ensures id in After(s, acts).requests ==> id in s.requests && SameTerms(s.requests[id], After(s, acts).requests[id])
    decreases |acts|
  {
    if acts != [] {
      StepKeepsTerms(s, acts[0], used, id);
      ActKeeps(s, acts[0], used, id);
      TermsAreKept(Perform(s, acts[0]), acts[1..], used + Drawn(acts[0]), id);
    }
  }

  /**
   An approval asked for at `ask.now` for `ttl` seconds is spent, whenever that is and whatever happened
   in between, only before that time is over, and only on the call that was asked for.
   */
  lemma SpentWithinLifetime(s: System, ask: Act, acts: seq<Act>, spend: Act, used: set<Id>)
    requires ask.Transact? && ask.op.Ask? && CanAct(s, ask) && Answer(s.requests, ask.op, ask.now).Done?
    requires s.requests.Keys <= used && ask.op.id !in used
    requires IsRun(Perform(s, ask), acts) && IsFreshRun(acts, used + {ask.op.id})
    requires Spends(After(Perform(s, ask), acts), spend, ask.op.id)
    ensures spend.now < ask.now + ask.op.ttl * 1000000
    ensures SameTrimmed(ask.op.call, spend.op.call)
  {
    var s1, id := Perform(s, ask), ask.op.id;
    AskIsRecorded(s, ask);
    AskAddsOne(s, ask, used);
    SpentLater(s1, acts, spend, used + {id}, id);
  }

  lemma WrittenKeys(requests: Requests, op: Op, now: Time)
    requires op.Ask?
    ensures Written(requests, op, now).Keys <= requests.Keys + {op.id}
  {
  }

  /** The two calls are the same once their identifiers are trimmed. */
  ghost predicate SameTrimmed(a: Call, b: Call) { exists c :: IsTrimmedCall(c, a) && IsTrimmedCall(c, b) }

  lemma AskAddsOne(s: System, ask: Act, used: set<Id>)
    requires ask.Transact? && ask.op.Ask? && CanAct(s, ask) && s.requests.Keys <= used && ask.op.id !in used
    ensures Perform(s, ask).requests.Keys <= used + {ask.op.id}
  {
    WrittenKeys(s.requests, ask.op, ask.now);
  }

  lemma SpentLater(s: System, acts: seq<Act>, spend: Act, used: set<Id>, id: Id)
    requires id in s.requests && s.requests.Keys <= used && IsRun(s, acts) && IsFreshRun(acts, used)
    requires Spends(After(s, acts), spend, id)
    ensures spend.now < s.requests[id].expiresAt && IsTrimmedCall(s.requests[id].call, spend.op.call)
  {
    TermsAreKept(s, acts, used, id);
    SpentInTime(After(s, acts).requests, id, spend.op.call, spend.now);
  }

  lemma AskIsRecorded(s: System, ask: Act)
    requires ask.Transact? && ask.op.Ask? && CanAct(s, ask) && Answer(s.requests, ask.op, ask.now).Done?
    ensures var requests := Perform(s, ask).requests;
            && ask.op.id in requests && requests[ask.op.id].expiresAt == ask.now + ask.op.ttl * 1000000
            && IsTrimmedCall(requests[ask.op.id].call, ask.op.call)
  {
    var r := Answer(s.requests, ask.op, ask.now);
    AskedExactlyWhen(s.requests, ask.op, ask.now);
    assert Written(s.requests, ask.op, ask.now) == (Swept(s.requests, ask.now) - ask.op.gone)[r.id := r.record];
  }

  lemma SpentInTime(requests: Requests, id: Id, call: Call, now: Time)
    requires Answer(requests, Consume(id, call), now).Done?
    ensures id in requests && now < requests[id].expiresAt && IsTrimmedCall(requests[id].call, call)
  {
    SpentExactlyWhen(requests, id, call, now);
    NormalExactly(call);
  }

  // ---------------------------------------------------------------------------------------
  // Eviction
  // ---------------------------------------------------------------------------------------

  /** A record carries the time at which it ended, and no other. */
  ghost predicate Dated(r: Record) {
    match r.status
    case Consumed => r.consumedAt.Some? && r.expiredAt == None
    case Expired => r.expiredAt.Some? && r.consumedAt == None
    case _ => r.consumedAt == None && r.expiredAt == None
  }

  ghost predicate AllDated(requests: Requests) { forall id | id in requests :: Dated(requests[id]) }

  lemma WrittenStaysDated(requests: Requests, op: Op, now: Time)
    requires AllDated(requests) && Feasible(requests, op, now)
    ensures AllDated(Written(requests, op, now))
  {
    var swept, r := Swept(requests, now), Answer(requests, op, now);
    SweepStaysDated(requests, now);
    if r.Done? {
      AnswerIsDated(requests, op, now);
      UpdateStaysDated(if op.Ask? then swept - op.gone else swept, r.id, r.record);
    } else {
      RefusalWrites(requests, op, now);
    }
  }

  lemma UpdateStaysDated(requests: Requests, id: Id, r: Record)
    requires AllDated(requests) && Dated(r)
    ensures AllDated(requests[id := r])
  {
  }

  lemma SweepStaysDated(requests: Requests, now: Time)
    requires AllDated(requests)
    ensures AllDated(Swept(requests, now))
  {
    forall id | id in requests ensures Dated(Swept(requests, now)[id]) { assert Dated(requests[id]); }
  }

  lemma AnswerIsDated(requests: Requests, op: Op, now: Time)
    requires AllDated(Swept(requests, now)) && Answer(requests, op, now).Done?
    ensures Dated(Answer(requests, op, now).record)
  {
    if !op.Ask? { assert Dated(Swept(requests, now)[op.id]); }
  }

  lemma {:induction false} RunStaysDated(s: System, acts: seq<Act>)
    requires AllDated(s.requests) && IsRun(s, acts)
    ensures AllDated(After(s, acts).requests)
    decreases |acts|
  {
    if acts != [] {
      if acts[0].Transact? { WrittenStaysDated(s.requests, acts[0].op, acts[0].now); }
      RunStaysDated(Perform(s, acts[0]), acts[1..]);
    }
  }

  /** When an ended record ended: consumed, or expired by a sweep. */
  function EndedAt(r: Record): Option<Time> {
    match r.status case Consumed => r.consumedAt case Expired => r.expiredAt case _ => None
  }

  /**
   After any run from an empty ledger, whatever a request evicts had ended, and no later than any ended
   record it leaves; of two that ended together the smaller identifier goes first.
   */
  lemma OldestEndedGoFirst(acts: seq<Act>, now: Time, gone: set<Id>, a: Id, b: Id)
    requires IsRun(System(map[], multiset{}), acts)
    requires Evicts(Swept(After(System(map[], multiset{}), acts).requests, now), gone)
    ensures var requests := Swept(After(System(map[], multiset{}), acts).requests, now);
            && (a in gone ==> a in requests && EndedAt(requests[a]).Some?)
            && (a in gone && b in requests && b !in gone && EndedAt(requests[b]).Some? ==>
                  var x, y := EndedAt(requests[a]).value, EndedAt(requests[b]).value; x < y || (x == y && a < b))
  {
    RunStaysDated(System(map[], multiset{}), acts);
    var requests := After(System(map[], multiset{}), acts).requests;
    var swept := Swept(requests, now);
    assert AllDated(swept);
    if a in gone && b in swept && b !in gone && EndedAt(swept[b]).Some? {
      assert b in Terminal(swept) - gone;
      assert Before(swept, a, b) && Dated(swept[a]) && Dated(swept[b]);
    }
  }
}
