/**
 Approvals over whole runs of every process that shares the ledger: what is executed was consumed,
 what is consumed was approved, what is approved was requested, exactly and at most once.
 */
module ApprovalLaws {
  import opened Common
  import opened Approvals

  /** The ledger and the calls the gateways have cleared but not yet made. */
  datatype System = System(requests: Requests, cleared: multiset<Call>)

  /** A ledger transaction at a time, or a cleared remote call. A gateway may also die before its call. */
  datatype Act = Transact(op: Op, now: Time) | Execute(call: Call)

  datatype Effect = Quiet | Asked(call: Call) | Granted(call: Call) | Spent(call: Call) | Ran(call: Call)

  ghost predicate CanAct(s: System, act: Act) {
    match act
    case Transact(op, now) => Feasible(s.requests, op, now)
    case Execute(call) => call in s.cleared
  }

  function Perform(s: System, act: Act): System {
    match act
    case Transact(op, now) =>
      System(Written(s.requests, op, now),
             if op.Consume? && Answer(s.requests, op, now).Done?
             then s.cleared + multiset{Answer(s.requests, op, now).record.call} else s.cleared)
    case Execute(call) => s.(cleared := s.cleared - multiset{call})
  }

  function EffectOf(s: System, act: Act): Effect {
    match act
    case Execute(call) => Ran(call)
    case Transact(op, now) =>
      match Answer(s.requests, op, now)
      case Done(_, record) =>
        (match op
         case Ask(_, _, _, _) => Asked(record.call)
         case Approve(_, _) => Granted(record.call)
         case Consume(_, _) => Spent(record.call)
         case Review(_) => Quiet)
      case _ => Quiet
  }

  ghost predicate IsRun(s: System, acts: seq<Act>)
    decreases |acts|
  {
    acts == [] || (CanAct(s, acts[0]) && IsRun(Perform(s, acts[0]), acts[1..]))
  }

  function After(s: System, acts: seq<Act>): System
    decreases |acts|
  {
    if acts == [] then s else After(Perform(s, acts[0]), acts[1..])
  }

  function Effects(s: System, acts: seq<Act>): multiset<Effect>
    decreases |acts|
  {
    if acts == [] then multiset{} else multiset{EffectOf(s, acts[0])} + Effects(Perform(s, acts[0]), acts[1..])
  }

  // ---------------------------------------------------------------------------------------
  // Conservation
  // ---------------------------------------------------------------------------------------

  /** The records of a call that have a status. */
  function Held(requests: Requests, status: Status, call: Call): set<Id> {
    set id | id in requests && requests[id].status == status && requests[id].call == call
  }

  /** What is spent or ready to be spent was granted; what is granted or waiting was asked for. */
  ghost predicate Balanced(before: System, log: multiset<Effect>, after: System, c: Call) {
    && log[Ran(c)] + after.cleared[c] == log[Spent(c)] + before.cleared[c]
    && log[Spent(c)] + |Held(after.requests, Approved, c)| <= log[Granted(c)] + |Held(before.requests, Approved, c)|
    && log[Granted(c)] + |Held(after.requests, Pending, c)| <= log[Asked(c)] + |Held(before.requests, Pending, c)|
  }

  /** The sweep and evictions only remove live records. */
  lemma SweepHolds(requests: Requests, now: Time, gone: set<Id>, status: Status, c: Call)
    requires status == Pending || status == Approved
    ensures |Held(Swept(requests, now) - gone, status, c)| <= |Held(requests, status, c)|
  {
    SubsetSize(Held(Swept(requests, now) - gone, status, c), Held(requests, status, c));
  }

  /** Replacing one record moves it between the groups and touches no other. */
  lemma ReplaceHolds(requests: Requests, id: Id, r: Record, status: Status, c: Call)
    ensures |Held(requests[id := r], status, c)| ==
              |Held(requests, status, c)|
              - (if id in requests && requests[id].status == status && requests[id].call == c then 1 else 0)
              + (if r.status == status && r.call == c then 1 else 0)
  {
    var rest := Held(requests, status, c) - {id};
    assert Held(requests, status, c) == if id in Held(requests, status, c) then rest + {id} else rest;
    assert Held(requests[id := r], status, c) == if r.status == status && r.call == c then rest + {id} else rest;
  }

  /** What a successful transaction adds to the records of a status. */
  function Gain(op: Op, status: Status): int {
    match op
    case Ask(_, _, _, _) => if status == Pending then 1 else 0
    case Approve(_, _) => if status == Approved then 1 else if status == Pending then -1 else 0
    case Consume(_, _) => if status == Approved then -1 else 0
    case Review(_) => 0
  }

  /** A successful transaction moves one record of the swept ledger one step on. */
  predicate Advances(base: Requests, op: Op, id: Id, record: Record) {
    match op
    case Ask(_, _, _, _) => id !in base && record.status == Pending
    case Approve(_, _) =>
      id in base && base[id].status == Pending && record.status == Approved && record.call == base[id].call
    case Consume(_, _) =>
      id in base && base[id].status == Approved && record.status == Consumed && record.call == base[id].call
    case Review(_) => id in base && record == base[id]
  }

  function Base(requests: Requests, op: Op, now: Time): Requests {
    if op.Ask? then Swept(requests, now) - op.gone else Swept(requests, now)
  }

  lemma SuccessAdvances(requests: Requests, op: Op, now: Time)
    requires Feasible(requests, op, now) && Answer(requests, op, now).Done?
    ensures var r := Answer(requests, op, now);
            && Advances(Base(requests, op, now), op, r.id, r.record)
            && Written(requests, op, now) == Base(requests, op, now)[r.id := r.record]
  {
  }

  lemma BaseHolds(requests: Requests, op: Op, now: Time, status: Status, c: Call)
    requires status == Pending || status == Approved
    ensures |Held(Base(requests, op, now), status, c)| <= |Held(requests, status, c)|
    ensures |Held(Swept(requests, now), status, c)| <= |Held(requests, status, c)|
  {
    SweepHolds(requests, now, {}, status, c);
    assert Swept(requests, now) - {} == Swept(requests, now);
    if op.Ask? { SweepHolds(requests, now, op.gone, status, c); }
  }

  lemma TransactionHolds(requests: Requests, op: Op, now: Time, status: Status, c: Call)
    requires Feasible(requests, op, now) && (status == Pending || status == Approved)
    ensures var r := Answer(requests, op, now);
            |Held(Written(requests, op, now), status, c)|
            <= |Held(requests, status, c)| + if r.Done? && r.record.call == c then Gain(op, status) else 0
  {
    var r := Answer(requests, op, now);
    BaseHolds(requests, op, now, status, c);
    if r.Done? {
      SuccessAdvances(requests, op, now);
      ReplaceHolds(Base(requests, op, now), r.id, r.record, status, c);
    } else {
      RefusalWrites(requests, op, now);
    }
  }

  lemma RefusalWrites(requests: Requests, op: Op, now: Time)
    requires !Answer(requests, op, now).Done?
    ensures Written(requests, op, now) in {requests, Swept(requests, now), Base(requests, op, now)}
  {
  }

  lemma ActBalances(s: System, act: Act, c: Call)
    requires CanAct(s, act)
    ensures Balanced(s, multiset{EffectOf(s, act)}, Perform(s, act), c)
  {
    if act.Transact? {
      TransactionHolds(s.requests, act.op, act.now, Approved, c);
      TransactionHolds(s.requests, act.op, act.now, Pending, c);
    }
  }

  lemma BalancesAdd(a: System, first: multiset<Effect>, b: System, rest: multiset<Effect>, d: System, c: Call)
    requires Balanced(a, first, b, c) && Balanced(b, rest, d, c)
    ensures Balanced(a, first + rest, d, c)
  {
  }

  lemma {:induction false} RunBalances(s: System, acts: seq<Act>, c: Call)
    requires IsRun(s, acts)
    ensures Balanced(s, Effects(s, acts), After(s, acts), c)
    decreases |acts|
  {
    if acts != [] {
      var s' := Perform(s, acts[0]);
      ActBalances(s, acts[0], c);
      RunBalances(s', acts[1..], c);
      BalancesAdd(s, multiset{EffectOf(s, acts[0])}, s', Effects(s', acts[1..]), After(s, acts), c);
    }
  }

  /** From an empty ledger: executions <= consumptions <= approvals <= requests, for each exact call. */
  lemma Conservation(acts: seq<Act>, c: Call)
    requires IsRun(System(map[], multiset{}), acts)
    ensures var log := Effects(System(map[], multiset{}), acts);
            log[Ran(c)] <= log[Spent(c)] <= log[Granted(c)] <= log[Asked(c)]
  {
    RunBalances(System(map[], multiset{}), acts, c);
  }

  // ---------------------------------------------------------------------------------------
  // Life of a record
  // ---------------------------------------------------------------------------------------

  predicate Moves(a: Status, b: Status) {
    a == b || (a == Pending && b == Approved) || (a == Approved && b == Consumed)
  }

  /** A live record stays until it is due, and stands for the same call; an ended one only ever disappears. */
  ghost predicate Kept(before: Requests, after: Requests, now: Time) {
    forall id | id in before ::
      if before[id].IsTerminal() then id in after ==> after[id] == before[id]
      else if IsDue(before[id], now) then id in after ==> after[id] == before[id] || after[id] == Aged(before[id], now)
      else id in after && after[id].call == before[id].call && after[id].expiresAt == before[id].expiresAt
           && Moves(before[id].status, after[id].status)
  }

  /** The identifier of a new request was never drawn before. */
  predicate IsFresh(op: Op, used: set<Id>) { op.Ask? ==> op.id !in used }

  lemma TransactionKeeps(requests: Requests, op: Op, now: Time)
    requires Feasible(requests, op, now) && IsFresh(op, requests.Keys)
    ensures Kept(requests, Written(requests, op, now), now)
  {
    var swept, r := Swept(requests, now), Answer(requests, op, now);
    match r
    case Done(id, record) =>
      if op.Ask? { AskKeeps(requests, op, now); } else { assert Kept(requests, swept, now); }
    case Full => if op.Ask? { AskKeeps(requests, op, now); }
    case _ =>
  }

  lemma AskKeeps(requests: Requests, op: Op, now: Time)
    requires Feasible(requests, op, now) && IsFresh(op, requests.Keys) && op.Ask?
    ensures Kept(requests, Written(requests, op, now), now)
  {
    var r := Answer(requests, op, now);
    if !r.InvalidInput? { BaseKeeps(requests, op.gone, now); }
    if r.Done? { NewcomerKeeps(requests, Swept(requests, now) - op.gone, op.id, r.record, now); }
  }

  lemma BaseKeeps(requests: Requests, gone: set<Id>, now: Time)
    requires Evicts(Swept(requests, now), gone)
    ensures Kept(requests, Swept(requests, now) - gone, now)
  {
  }

  lemma NewcomerKeeps(before: Requests, after: Requests, id: Id, r: Record, now: Time)
    requires Kept(before, after, now) && id !in before
    ensures Kept(before, after[id := r], now)
  {
  }

  /** An approval is spent exactly when it is approved, unexpired and matches the call in every part. */
  lemma SpentExactlyWhen(requests: Requests, id: Id, call: Call, now: Time)
    ensures Answer(requests, Consume(id, call), now).Done? <==>
              && Normal(call).Some? && id in requests
              && requests[id].status == Approved && now < requests[id].expiresAt && requests[id].call == Normal(call).value
  {
  }

  /** The ledger never outgrows its bound, on any path. */
  lemma TransactionIsBounded(requests: Requests, op: Op, now: Time)
    requires Feasible(requests, op, now) && |requests| <= MAX_RECORDS
    ensures |Written(requests, op, now)| <= MAX_RECORDS
  {
    var swept, r := Swept(requests, now), Answer(requests, op, now);
    assert swept.Keys == requests.Keys && |swept.Keys| == |requests.Keys|;
    if op.Ask? && !r.InvalidInput? { RoomUnlessAllLive(swept, op.gone); }
    if r.Done? {
      SuccessAdvances(requests, op, now);
      Replaced(Base(requests, op, now), r.id, r.record);
    } else {
      RefusalWrites(requests, op, now);
    }
  }

  lemma Replaced(requests: Requests, id: Id, r: Record)
    ensures |requests[id := r]| == |requests| + if id in requests then 0 else 1
  {
    assert requests[id := r].Keys == requests.Keys + {id};
  }

  function Drawn(act: Act): set<Id> {
    if act.Transact? && act.op.Ask? then {act.op.id} else {}
  }

  ghost predicate IsFreshRun(acts: seq<Act>, used: set<Id>)
    decreases |acts|
  {
    acts == [] || ((acts[0].Transact? ==> IsFresh(acts[0].op, used)) && IsFreshRun(acts[1..], used + Drawn(acts[0])))
  }

  /** How often an approval has been spent. */
  function Uses(s: System, acts: seq<Act>, id: Id): nat
    decreases |acts|
  {
    if acts == [] then 0 else (if Spends(s, acts[0], id) then 1 else 0) + Uses(Perform(s, acts[0]), acts[1..], id)
  }

  predicate Spends(s: System, act: Act, id: Id) {
    act.Transact? && act.op.Consume? && act.op.id == id && Answer(s.requests, act.op, act.now).Done?
  }

  /** An ended record is final: nothing spends it, and its identifier never stands for anything else. */
  ghost predicate HasEnded(requests: Requests, id: Id) { id in requests ==> requests[id].IsTerminal() }

  lemma ActKeeps(s: System, act: Act, used: set<Id>, id: Id)
    requires CanAct(s, act) && s.requests.Keys <= used && id in used && (act.Transact? ==> IsFresh(act.op, used))
    ensures Perform(s, act).requests.Keys <= used + Drawn(act)
    ensures act.Transact? ==> Kept(s.requests, Perform(s, act).requests, act.now)
    ensures act.Execute? ==> Perform(s, act).requests == s.requests
    ensures id !in s.requests ==> id !in Perform(s, act).requests
    ensures Spends(s, act, id) ==> HasEnded(Perform(s, act).requests, id)
    ensures HasEnded(s.requests, id) ==> !Spends(s, act, id)
  {
    if act.Transact? {
      TransactionKeeps(s.requests, act.op, act.now);
      if Answer(s.requests, act.op, act.now).Done? {
        SuccessAdvances(s.requests, act.op, act.now);
      } else {
        RefusalWrites(s.requests, act.op, act.now);
      }
    }
  }

  lemma {:induction false} EndedIsFinal(s: System, acts: seq<Act>, used: set<Id>, id: Id)
    requires IsRun(s, acts) && IsFreshRun(acts, used) && s.requests.Keys <= used && id in used
    requires HasEnded(s.requests, id)
    ensures Uses(s, acts, id) == 0
    ensures id in After(s, acts).requests ==> id in s.requests && After(s, acts).requests[id] == s.requests[id]
    decreases |acts|
  {
    if acts != [] {
      ActKeeps(s, acts[0], used, id);
      EndedIsFinal(Perform(s, acts[0]), acts[1..], used + Drawn(acts[0]), id);
    }
  }

  /** Every approval is spent at most once, whatever the processes do. */
  lemma {:induction false} SpentOnce(s: System, acts: seq<Act>, used: set<Id>, id: Id)
    requires IsRun(s, acts) && IsFreshRun(acts, used) && s.requests.Keys <= used && id in used
    ensures Uses(s, acts, id) <= 1
    decreases |acts|
  {
    if acts != [] {
      var s', used' := Perform(s, acts[0]), used + Drawn(acts[0]);
      ActKeeps(s, acts[0], used, id);
      if Spends(s, acts[0], id) { EndedIsFinal(s', acts[1..], used', id); } else { SpentOnce(s', acts[1..], used', id); }
    }
  }

  /** A live record survives any run that neither spends it nor outlasts it. */
  lemma {:induction false} LiveIsNeverEvicted(s: System, acts: seq<Act>, used: set<Id>, id: Id)
    requires IsRun(s, acts) && IsFreshRun(acts, used) && s.requests.Keys <= used
    requires id in s.requests && !s.requests[id].IsTerminal() && Uses(s, acts, id) == 0
    requires forall a | a in acts && a.Transact? :: a.now < s.requests[id].expiresAt
    ensures var r := After(s, acts).requests;
            id in r && !r[id].IsTerminal() && r[id].call == s.requests[id].call
    decreases |acts|
  {
    if acts != [] {
      ActKeeps(s, acts[0], used, id);
      OnlySpendingConsumes(s, acts[0], id);
      LiveIsNeverEvicted(Perform(s, acts[0]), acts[1..], used + Drawn(acts[0]), id);
    }
  }

  lemma OnlySpendingConsumes(s: System, act: Act, id: Id)
    requires CanAct(s, act) && id in s.requests && !s.requests[id].IsTerminal()
    ensures id in Perform(s, act).requests && Perform(s, act).requests[id].status == Consumed ==> Spends(s, act, id)
  {
    if act.Transact? && Answer(s.requests, act.op, act.now).Done? { SuccessAdvances(s.requests, act.op, act.now); }
  }

  lemma {:induction false} LedgerIsBounded(s: System, acts: seq<Act>)
    requires IsRun(s, acts) && |s.requests| <= MAX_RECORDS
    ensures |After(s, acts).requests| <= MAX_RECORDS
    decreases |acts|
  {
    if acts != [] {
      if acts[0].Transact? { TransactionIsBounded(s.requests, acts[0].op, acts[0].now); }
      LedgerIsBounded(Perform(s, acts[0]), acts[1..]);
    }
  }
}
