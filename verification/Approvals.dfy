/**
 The single-use approval ledger of cloud/connector_approvals.py and the part of
 cloud/connector_gateway.py that spends an approval before it calls a tool.

 Arguments stand for their canonical JSON, whose hash is injective. Identifiers have a fixed length,
 so they are ordered as the numbers they print.
 */
module Approvals {
  import opened Common

  const MAX_TTL_SECONDS := 3600
  const MAX_RECORDS := 1024
  const MAX_IDENTIFIER_LENGTH := 256
  const MICROSECONDS := 1000000

  type Id = nat
  type Time = int   // microseconds

  datatype Status = Pending | Approved | Consumed | Expired

  /** What is approved: exactly this tool of this connector, in this run, with these arguments. */
  datatype Call = Call(runId: string, connectorId: string, toolName: string, arguments: string)

  datatype Record = Record(status: Status, call: Call, createdAt: Time, expiresAt: Time,
                           approvedBy: Option<string>, approvedAt: Option<Time>,
                           consumedAt: Option<Time>, expiredAt: Option<Time>)
  {
    predicate IsTerminal() { status == Consumed || status == Expired }

    function TerminalTime(): Time {
      if consumedAt.Some? then consumedAt.value
      else if expiredAt.Some? then expiredAt.value
      else expiresAt
    }
  }

  type Requests = map<Id, Record>

  datatype Outcome = Done(id: Id, record: Record) | InvalidInput | NotFound | TooLate | Replay | WrongState | Mismatch | Full

  // ---------------------------------------------------------------------------------------
  // Expiry
  // ---------------------------------------------------------------------------------------

  predicate IsDue(r: Record, now: Time) { !r.IsTerminal() && now >= r.expiresAt }

  function Aged(r: Record, now: Time): Record {
    if IsDue(r, now) then r.(status := Expired, expiredAt := Some(now)) else r
  }

  function Swept(requests: Requests, now: Time): Requests {
    map id | id in requests :: Aged(requests[id], now)
  }

  method Expire(requests: Requests, now: Time) returns (swept: Requests, changed: bool)
    ensures swept == Swept(requests, now) && (changed <==> swept != requests)
  {
    swept, changed := requests, false;
    var left := requests.Keys;
    while left != {}
      invariant left <= requests.Keys && swept.Keys == requests.Keys
      invariant forall id | id in requests :: swept[id] == if id in left then requests[id] else Aged(requests[id], now)
      invariant changed <==> swept != requests
      decreases left
    {
      var id :| id in left;
      left := left - {id};
      if IsDue(requests[id], now) {
        swept := swept[id := requests[id].(status := Expired, expiredAt := Some(now))];
        changed := true;
        assert swept[id] != requests[id];
      }
    }
  }

  // ---------------------------------------------------------------------------------------
  // Making space
  // ---------------------------------------------------------------------------------------

  function Terminal(requests: Requests): set<Id> {
    set id | id in requests && requests[id].IsTerminal()
  }

  /** The order of eviction: by the time a record ended, then by its identifier. */
  predicate Before(requests: Requests, a: Id, b: Id)
    requires a in requests && b in requests
  {
    var s, t := requests[a].TerminalTime(), requests[b].TerminalTime();
    s < t || (s == t && a < b)
  }

  predicate IsSorted(requests: Requests, ids: seq<Id>)
    requires forall id | id in ids :: id in requests
  {
    forall i, j | 0 <= i < j < |ids| :: Before(requests, ids[i], ids[j])
  }

  function Needed(requests: Requests): nat { Max(0, |requests| - MAX_RECORDS + 1) }

  /** `gone` are ended records, as many as needed if there are that many, all older than the ended ones kept. */
  ghost predicate Evicts(requests: Requests, gone: set<Id>) {
    && gone <= Terminal(requests)
    && |gone| == Min(Needed(requests), |Terminal(requests)|)
    && forall a, b | a in gone && b in Terminal(requests) - gone :: Before(requests, a, b)
  }

  method Insert(requests: Requests, ids: seq<Id>, id: Id) returns (r: seq<Id>)
    requires id in requests && id !in ids && (forall x | x in ids :: x in requests) && IsSorted(requests, ids)
    ensures |r| == |ids| + 1 && forall x :: x in r <==> x in ids || x == id
    ensures (forall x | x in r :: x in requests) && IsSorted(requests, r)
  {
    var i := 0;
    while i < |ids| && Before(requests, ids[i], id)
      invariant 0 <= i <= |ids|
      invariant forall k | 0 <= k < i :: Before(requests, ids[k], id)
    {
      i := i + 1;
    }
    r := ids[..i] + [id] + ids[i..];
    assert ids == ids[..i] + ids[i..];
    assert forall x | x in ids[i..] :: Before(requests, id, x) by {
      assert i < |ids| ==> ids[i] in ids && ids[i] != id;
    }
    SplicedIsSorted(requests, ids[..i], id, ids[i..]);
  }

  lemma SplicedIsSorted(requests: Requests, front: seq<Id>, id: Id, back: seq<Id>)
    requires id in requests && (forall x | x in front :: x in requests) && (forall x | x in back :: x in requests)
    requires IsSorted(requests, front) && IsSorted(requests, back)
    requires (forall x | x in front :: Before(requests, x, id)) && forall x | x in back :: Before(requests, id, x)
    ensures IsSorted(requests, front + [id] + back)
  {
    var r := front + [id] + back;
    forall i, j | 0 <= i < j < |r| ensures Before(requests, r[i], r[j]) {
      if i < |front| { assert r[i] in front; }
      if j > |front| { assert r[j] in back; }
    }
  }

  method SortedTerminal(requests: Requests) returns (ids: seq<Id>)
    ensures Members(ids) == Terminal(requests) && |ids| == |Terminal(requests)|
    ensures (forall x | x in ids :: x in requests) && IsSorted(requests, ids)
  {
    ids := [];
    var left := Terminal(requests);
    while left != {}
      invariant left <= Terminal(requests) && forall x :: x in ids <==> x in Terminal(requests) - left
      invariant |ids| == |Terminal(requests)| - |left|
      invariant (forall x | x in ids :: x in requests) && IsSorted(requests, ids)
      decreases left
    {
      var id :| id in left;
      ids := Insert(requests, ids, id);
      left := left - {id};
    }
  }

  method MakeSpace(requests: Requests) returns (room: Requests, gone: set<Id>)
    ensures Evicts(requests, gone) && room == requests - gone
  {
    room, gone := requests, {};
    var needed := |requests| - MAX_RECORDS + 1;
    if needed <= 0 { return; }
    var terminal := SortedTerminal(requests);
    var n := Min(needed, |terminal|);
    for i := 0 to n
      invariant gone == Members(terminal[..i]) && room == requests - gone
    {
      assert terminal[..i + 1] == terminal[..i] + [terminal[i]];
      room := room - {terminal[i]};
      gone := gone + {terminal[i]};
    }
    OldestFirst(requests, terminal, n);
  }

  function Members(ids: seq<Id>): set<Id> { set x | x in ids }

  /** A prefix of the sorted terminal records is older than the rest, and has no duplicates. */
  lemma OldestFirst(requests: Requests, terminal: seq<Id>, n: nat)
    requires (forall x | x in terminal :: x in requests) && IsSorted(requests, terminal) && n <= |terminal|
    ensures |Members(terminal[..n])| == n
    ensures forall a, b | a in Members(terminal[..n]) && b in Members(terminal) - Members(terminal[..n]) ::
              Before(requests, a, b)
  {
    DistinctSize(requests, terminal[..n]);
    forall a, b | a in Members(terminal[..n]) && b in Members(terminal) - Members(terminal[..n])
      ensures Before(requests, a, b)
    {
      var i :| 0 <= i < n && terminal[i] == a;
      var j :| 0 <= j < |terminal| && terminal[j] == b;
      assert forall k | 0 <= k < n :: terminal[..n][k] == terminal[k];
    }
  }

  lemma {:induction false} DistinctSize(requests: Requests, ids: seq<Id>)
    requires (forall x | x in ids :: x in requests) && IsSorted(requests, ids)
    ensures |Members(ids)| == |ids|
  {
    if ids != [] {
      var front, last := ids[..|ids| - 1], ids[|ids| - 1];
      DistinctSize(requests, front);
      assert ids == front + [last] && last !in front;
      assert Members(ids) == Members(front) + {last};
    }
  }

  /** The eviction rule leaves no choice. */
  lemma EvictionIsUnique(requests: Requests, a: set<Id>, b: set<Id>)
    requires Evicts(requests, a) && Evicts(requests, b)
    ensures a == b
  {
    forall x, y | x in a && x !in b && y in b ensures y in a {
      assert Before(requests, y, x) && !Before(requests, x, y);
    }
    if a <= b { SubsetSize(a, b); } else { SubsetSize(b, a); }
  }

  lemma SubsetSize<T>(a: set<T>, b: set<T>)
    requires a <= b
    ensures |a| <= |b|
    ensures a != b ==> |a| < |b|
  {
    assert |b| == |a| + |b - a| by { assert b == a + (b - a); }
  }

  /** There is no room exactly when the live requests alone fill the ledger; otherwise one place is free. */
  lemma RoomUnlessAllLive(requests: Requests, gone: set<Id>)
    requires Evicts(requests, gone)
    ensures |requests - gone| >= MAX_RECORDS <==> |requests.Keys - Terminal(requests)| >= MAX_RECORDS
    ensures |requests - gone| < MAX_RECORDS ==> |requests - gone| == Min(|requests|, MAX_RECORDS - 1)
    ensures |requests - gone| >= MAX_RECORDS && |requests| <= MAX_RECORDS ==> gone == {}
  {
    assert (requests - gone).Keys == requests.Keys - gone;
    assert |requests.Keys - gone| == |requests| - |gone|;
    assert |requests.Keys - Terminal(requests)| == |requests| - |Terminal(requests)|;
  }

  // ---------------------------------------------------------------------------------------
  // The transactions, each on a ledger already swept
  // ---------------------------------------------------------------------------------------

  function Utf8Length(s: string): nat {
    if s == [] then 0
    else
      var c := s[0];
      (if c < '\U{80}' then 1 else if c < '\U{800}' then 2 else if c < '\U{10000}' then 3 else 4) + Utf8Length(s[1..])
  }

  lemma {:induction false} Utf8Adds(a: string, b: string)
    ensures Utf8Length(a + b) == Utf8Length(a) + Utf8Length(b)
  {
    if a == [] {
      assert a + b == b;
    } else {
      assert (a + b)[1..] == a[1..] + b;
      Utf8Adds(a[1..], b);
    }
  }

  /** Each character takes as many bytes as section 3 of RFC 3629 gives its code point. */
  lemma BytesOfCharacter(s: string, c: char)
    ensures Utf8Length(s + [c]) == Utf8Length(s)
              + if c as int <= 0x7f then 1 else if c as int <= 0x7ff then 2 else if c as int <= 0xffff then 3 else 4
  {
    Utf8Adds(s, [c]);
    assert [c][1..] == [];
  }

  /** `_identifier`: trimmed, not empty, not too long and free of NUL. */
  function Identifier(s: string): Option<string> {
    var t := Strip(s);
    if t == "" || |t| > MAX_IDENTIFIER_LENGTH || '\0' in t then None else Some(t)
  }

  const MAX_ARGUMENT_BYTES := 262144

  function Normal(call: Call): Option<Call> {
    var run, connector, tool := Identifier(call.runId), Identifier(call.connectorId), Identifier(call.toolName);
    if run == None || connector == None || tool == None || Utf8Length(call.arguments) > MAX_ARGUMENT_BYTES then None
    else Some(Call(run.value, connector.value, tool.value, call.arguments))
  }

  predicate IsValid(call: Call, ttl: int) {
    1 <= ttl <= MAX_TTL_SECONDS && Normal(call).Some?
  }

  function NewRecord(call: Call, ttl: int, now: Time): Record {
    Record(Pending, call, now, now + ttl * MICROSECONDS, None, None, None, None)
  }

  /** Why a transition out of a record is refused, or the record it leads to. */
  function Approval(id: Id, r: Record, human: string, now: Time): Outcome {
    match r.status
    case Expired => TooLate
    case Consumed => Replay
    case Approved => WrongState
    case Pending => Done(id, r.(status := Approved, approvedAt := Some(now), approvedBy := Some(human)))
  }

  function Consumption(id: Id, r: Record, call: Call, now: Time): Outcome {
    match r.status
    case Expired => TooLate
    case Consumed => Replay
    case Pending => WrongState
    case Approved => if r.call != call then Mismatch else Done(id, r.(status := Consumed, consumedAt := Some(now)))
  }

  /** One locked transaction. `id` is the identifier drawn and `gone` the records evicted. */
  datatype Op = Ask(call: Call, ttl: int, id: Id, gone: set<Id>)
              | Approve(id: Id, human: string)
              | Consume(id: Id, call: Call)
              | Review(id: Id)

  /** What the ledger itself decides: the records evicted, and an identifier not in use. */
  ghost predicate Feasible(requests: Requests, op: Op, now: Time) {
    op.Ask? && IsValid(op.call, op.ttl) ==>
      Evicts(Swept(requests, now), op.gone) && op.id !in Swept(requests, now) - op.gone
  }

  /** The answer to a valid request, once space has been made. */
  function Placed(room: Requests, id: Id, record: Record): Outcome {
    if |room| >= MAX_RECORDS then Full else Done(id, record)
  }

  function Answer(requests: Requests, op: Op, now: Time): Outcome {
    var swept := Swept(requests, now);
    match op
    case Ask(call, ttl, id, gone) =>
      if !IsValid(call, ttl) then InvalidInput
      else Placed(swept - gone, id, NewRecord(Normal(call).value, ttl, now))
    case Approve(id, human) =>
      if Identifier(human) == None then InvalidInput
      else if id !in swept then NotFound
      else Approval(id, swept[id], Identifier(human).value, now)
    case Consume(id, call) =>
      if Normal(call) == None then InvalidInput
      else if id !in swept then NotFound
      else Consumption(id, swept[id], Normal(call).value, now)
    case Review(id) => if id !in swept then NotFound else Done(id, swept[id])
  }

  /**
   The file after the transaction. Invalid input is refused before the file is read; a refusal inside
   writes what has changed in memory only if the sweep expired something.
   */
  function Written(requests: Requests, op: Op, now: Time): Requests {
    var swept := Swept(requests, now);
    match Answer(requests, op, now)
    case InvalidInput => requests
    case Done(id, record) => (if op.Ask? then swept - op.gone else swept)[id := record]
    case Full => if op.Ask? && swept != requests then swept - op.gone else requests
    case _ => swept
  }

  /** Draws random identifiers until one is not in use. */
  method Draw(tokens: seq<Id>, requests: Requests) returns (id: Id)
    requires exists i :: 0 <= i < |tokens| && tokens[i] !in requests
    ensures id in tokens && id !in requests
  {
    ghost var free :| 0 <= free < |tokens| && tokens[free] !in requests;
    var i := 0;
    while tokens[i] in requests
      invariant 0 <= i <= free
      decreases free - i
    {
      i := i + 1;
    }
    return tokens[i];
  }

  class ApprovalLedger {
    var requests: Requests

    constructor ()
      ensures requests == map[]
    {
      requests := map[];
    }

    /** `tokens` are the random identifiers drawn until one is not in use. */
    method RequestApproval(call: Call, ttl: int, now: Time, tokens: seq<Id>) returns (r: Outcome, ghost op: Op)
      requires exists i :: 0 <= i < |tokens| && tokens[i] !in requests
      modifies this
      ensures op.Ask? && op.call == call && op.ttl == ttl && Feasible(old(requests), op, now)
      ensures r == Answer(old(requests), op, now) && requests == Written(old(requests), op, now)
    {
      if !IsValid(call, ttl) { return InvalidInput, Ask(call, ttl, tokens[0], {}); }
      ghost var id, gone;
      r, id, gone := Create(NewRecord(Normal(call).value, ttl, now), now, tokens);
      op := Ask(call, ttl, id, gone);
    }

    /** The transaction of a valid request: a refusal still writes what the sweep expired. */
    method Create(record: Record, now: Time, tokens: seq<Id>) returns (r: Outcome, ghost id: Id, ghost gone: set<Id>)
      requires exists i :: 0 <= i < |tokens| && tokens[i] !in requests
      modifies this
      ensures Evicts(Swept(old(requests), now), gone) && id !in Swept(old(requests), now) - gone
      ensures r == Placed(Swept(old(requests), now) - gone, id, record)
      ensures requests == match r
                          case Done(i, _) => (Swept(old(requests), now) - gone)[i := record]
                          case _ => if Swept(old(requests), now) != old(requests) then Swept(old(requests), now) - gone
                                    else old(requests)
    {
      var swept, changed := Expire(requests, now);
      var room, evicted := MakeSpace(swept);
      var drawn := Draw(tokens, room);
      id, gone := drawn, evicted;
      if |room| >= MAX_RECORDS {
        if changed { requests := room; }
        return Full, id, gone;
      }
      requests := room[drawn := record];
      return Done(drawn, record), id, gone;
    }

    method ApproveRequest(id: Id, human: string, now: Time) returns (r: Outcome)
      modifies this
      ensures r == Answer(old(requests), Approve(id, human), now)
      ensures requests == Written(old(requests), Approve(id, human), now)
    {
      if Identifier(human) == None { return InvalidInput; }
      var swept, changed := Expire(requests, now);
      if changed { requests := swept; }
      if id !in swept { return NotFound; }
      r := Approval(id, swept[id], Identifier(human).value, now);
      if r.Done? { requests := swept[id := r.record]; }
    }

    method ConsumeApproval(id: Id, call: Call, now: Time) returns (r: Outcome)
      modifies this
      ensures r == Answer(old(requests), Consume(id, call), now)
      ensures requests == Written(old(requests), Consume(id, call), now)
    {
      if Normal(call) == None { return InvalidInput; }
      var swept, changed := Expire(requests, now);
      if changed { requests := swept; }
      if id !in swept { return NotFound; }
      r := Consumption(id, swept[id], Normal(call).value, now);
      if r.Done? { requests := swept[id := r.record]; }
    }
  }

  // ---------------------------------------------------------------------------------------
  // The gateway
  // ---------------------------------------------------------------------------------------

  datatype Risk = Read | HumanApproval | VerifyFirst | Deny

  datatype Decision = NotAllowed | Violation | NoVerifier | ApprovalsDisabled
                    | Refused(why: Outcome) | AwaitsApproval(id: Id) | Cleared

  const DEFAULT_TTL_SECONDS := 300

  /**
   `call_allowed_tool` up to the remote call, which follows exactly when the decision is Cleared. A
   call that needs a human is cleared only by spending an approval of that very call, before the call.
   */
  method CallAllowedTool(ledger: ApprovalLedger, risk: Option<Risk>, violates: bool, enabled: bool, call: Call,
                         approval: Option<Id>, now: Time, tokens: seq<Id>)
    returns (decision: Decision, ghost op: Option<Op>)
    requires exists i :: 0 <= i < |tokens| && tokens[i] !in ledger.requests
    modifies ledger
    ensures decision.Cleared? <==>
              || (risk == Some(Read) && !violates)
              || (risk == Some(HumanApproval) && !violates && enabled && approval.Some?
                  && Answer(old(ledger.requests), Consume(approval.value, call), now).Done?)
    ensures decision.Cleared? && risk == Some(HumanApproval) ==> op == Some(Consume(approval.value, call))
    ensures decision.AwaitsApproval? ==>
              && op.Some? && op.value.Ask? && op.value.call == call && op.value.ttl == 300
              && ledger.requests == Written(old(ledger.requests), op.value, now)
              && decision.id in ledger.requests && ledger.requests[decision.id].status == Pending
    ensures match op
            case None => ledger.requests == old(ledger.requests)
            case Some(t) =>
              && risk == Some(HumanApproval) && !violates && enabled && (t.Consume? <==> approval.Some?)
              && Feasible(old(ledger.requests), t, now)
              && ledger.requests == Written(old(ledger.requests), t, now)
  {
    op := None;
    if risk == None || risk == Some(Deny) { return NotAllowed, op; }
    if violates { return Violation, op; }
    if risk == Some(VerifyFirst) { return NoVerifier, op; }
    if risk == Some(HumanApproval) {
      if !enabled { return ApprovalsDisabled, op; }
      if approval == None {
        var r, asked := ledger.RequestApproval(call, DEFAULT_TTL_SECONDS, now, tokens);
        return if r.Done? then AwaitsApproval(r.id) else Refused(r), Some(asked);
      }
      var r := ledger.ConsumeApproval(approval.value, call, now);
      op := Some(Consume(approval.value, call));
      if !r.Done? { return Refused(r), op; }
    }
    assert risk.value.Read? || risk.value.HumanApproval?;
    return Cleared, op;
  }
}
