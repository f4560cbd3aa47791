/**
 The run as src/runner.py keeps it: a record updated in place by `take_turn`, `loop`, the Second
 Wind hand-offs and human notes. Each method is proved against the pure steps of RunState, and
 `Loop` is shown to terminate within an exact number of agent dispatches.
 */
module Runner {
  import opened Common
  import opened Envelope
  import opened RunState

  // ---------------------------------------------------------------------------------------
  // Termination of the loop
  // ---------------------------------------------------------------------------------------

  function RecoveriesLeft(c: Continuity): nat {
    if CanRecover(c) then c.maximum - c.used else 0
  }

  /** Events that can still move the run: accepted turns and hand-offs. */
  function EventsLeft(s: Run, limit: int): nat {
    (if s.turn < limit then limit - s.turn else 0) + RecoveriesLeft(s.continuity)
  }

  /** Reprompts the current agent has left before its silence counts as a failure. */
  function Patience(s: Run, cfg: Config): nat {
    if s.reprompts < cfg.repromptsMax then cfg.repromptsMax - s.reprompts else 0
  }

  /** How many more times `loop` can dispatch an agent. */
  function CallsLeft(s: Run, cfg: Config, limit: int): nat {
    if s.turn >= limit then 0
    else (cfg.repromptsMax + 1) * (EventsLeft(s, limit) - 1) + Patience(s, cfg) + 1
  }

  /** A turn that does not stop the run is a reprompt, a hand-off, or an accepted turn with or without one. */
  ghost predicate Progress(s: Run, t: Run, cfg: Config) {
    var c, d := s.continuity, t.continuity;
    && c.secondWind == d.secondWind && c.maximum == d.maximum
    && if t.turn == s.turn && c.used == d.used then s.reprompts < cfg.repromptsMax && t.reprompts == s.reprompts + 1
       else
         && t.reprompts == 0
         && t.turn in {s.turn, s.turn + 1}
         && (d.used == c.used || (CanRecover(c) && d.used == c.used + 1))
  }

  lemma TurnShape(s: Run, cfg: Config, reply: Reply)
    requires |cfg.fleet| > 0 && Turn(s, cfg, reply).1 == None
    ensures Progress(s, Turn(s, cfg, reply).0, cfg)
  {
    if reply.Proposed? {
      var s1 := Accept(s, cfg, reply.proposed);
      SettleShape(Advance(s1, cfg), cfg, s.actor);
    }
  }

  lemma SettleShape(s: Run, cfg: Config, actor: string)
    requires |cfg.fleet| > 0
    ensures var t := Settle(s, cfg, actor).0;
            t == s || (CanRecover(s.continuity) && t == HandOff(s, cfg, BlockedItems, actor, UnrecoveredBlocks(s)))
  {
  }

  lemma TurnProgress(s: Run, cfg: Config, reply: Reply, limit: int)
    requires |cfg.fleet| > 0 && s.turn < limit && Turn(s, cfg, reply).1 == None
    ensures CallsLeft(Turn(s, cfg, reply).0, cfg, limit) < CallsLeft(s, cfg, limit)
  {
    TurnShape(s, cfg, reply);
    ProgressIsFinite(s, Turn(s, cfg, reply).0, cfg, limit);
  }

  lemma ProgressIsFinite(s: Run, t: Run, cfg: Config, limit: int)
    requires Progress(s, t, cfg) && s.turn < limit
    ensures CallsLeft(t, cfg, limit) < CallsLeft(s, cfg, limit)
  {
    var e, e' := EventsLeft(s, limit), EventsLeft(t, limit);
    if t.turn == s.turn && t.continuity.used == s.continuity.used {
      assert e == e';
    } else {
      EventIsWorth(cfg.repromptsMax + 1, e, e');
    }
  }

  /** An event spent pays for all the reprompts of the next one. */
  lemma EventIsWorth(k: nat, e: int, e': nat)
    requires e' <= e - 1
    ensures k * (e' - 1) + k <= k * (e - 1) && 0 <= k * (e - 1)
  {
    MulMonotone(k, e', e - 1);
    MulMonotone(k, 0, e - 1);
    assert k * e' == k * (e' - 1) + k;
  }

  lemma MulMonotone(k: nat, a: int, b: int)
    requires a <= b
    ensures k * a <= k * b
  {
    if k > 0 { MulMonotone(k - 1, a, b); }
  }

  /** `loop`, with `replies(n)` the outcome of the n-th dispatch; also counts the dispatches. */
  function LoopFrom(s: Run, cfg: Config, limit: int, replies: nat -> Reply, n: nat): (Run, Halt, nat)
    requires |cfg.fleet| > 0
    decreases CallsLeft(s, cfg, limit)
  {
    if s.turn >= limit then (s.(halt := Some(TurnBudget)), TurnBudget, n)
    else
      var (t, halt) := Turn(s, cfg, replies(n));
      if halt.Some? then (t.(halt := if t.halt.Some? then t.halt else halt), halt.value, n + 1)
      else
        TurnProgress(s, cfg, replies(n), limit);
        LoopFrom(t, cfg, limit, replies, n + 1)
  }

  /** One iteration of the loop. */
  lemma LoopStep(s: Run, cfg: Config, limit: int, replies: nat -> Reply, n: nat)
    requires |cfg.fleet| > 0 && s.turn < limit
    ensures var (t, halt) := Turn(s, cfg, replies(n));
            LoopFrom(s, cfg, limit, replies, n)
            == if halt.Some? then (t.(halt := if t.halt.Some? then t.halt else halt), halt.value, n + 1)
               else LoopFrom(t, cfg, limit, replies, n + 1)
    ensures var (t, halt) := Turn(s, cfg, replies(n));
            halt == None ==> 0 <= CallsLeft(t, cfg, limit) < CallsLeft(s, cfg, limit)
  {
    if Turn(s, cfg, replies(n)).1 == None { TurnProgress(s, cfg, replies(n), limit); }
  }

  lemma LoopEnds(s: Run, cfg: Config, limit: int, replies: nat -> Reply, n: nat)
    requires |cfg.fleet| > 0 && s.turn >= limit
    ensures LoopFrom(s, cfg, limit, replies, n) == (s.(halt := Some(TurnBudget)), TurnBudget, n)
  {
  }

  lemma CallsAreBounded(s: Run, cfg: Config, limit: int)
    ensures CallsLeft(s, cfg, limit) <= (cfg.repromptsMax + 1) * EventsLeft(s, limit)
  {
    var k, e := cfg.repromptsMax + 1, EventsLeft(s, limit);
    assert k * (e - 1) == k * e - k;
    MulMonotone(k, 0, e);
  }

  /** `loop` dispatches no more often than its measure allows. */
  lemma {:induction false} LoopIsBounded(s: Run, cfg: Config, limit: int, replies: nat -> Reply, n: nat)
    requires |cfg.fleet| > 0
    ensures LoopFrom(s, cfg, limit, replies, n).2 <= n + CallsLeft(s, cfg, limit)
    decreases CallsLeft(s, cfg, limit)
  {
    if s.turn < limit {
      if Turn(s, cfg, replies(n)).1 == None {
        TurnProgress(s, cfg, replies(n), limit);
        LoopIsBounded(Turn(s, cfg, replies(n)).0, cfg, limit, replies, n + 1);
      } else {
        LastCall(s, cfg, limit);
      }
    }
  }

  /**
   `loop` makes at most (K+1)*((limit-t)+(R-u)) dispatches, where K is the reprompt limit and R-u the
   recoveries left, although reprompts and hand-offs do not advance `turn`.
   */
  lemma DispatchBound(s: Run, cfg: Config, limit: int, replies: nat -> Reply)
    requires |cfg.fleet| > 0
    ensures LoopFrom(s, cfg, limit, replies, 0).2 <= (cfg.repromptsMax + 1) * EventsLeft(s, limit)
  {
    LoopIsBounded(s, cfg, limit, replies, 0);
    CallsAreBounded(s, cfg, limit);
  }

  lemma LastCall(s: Run, cfg: Config, limit: int)
    requires s.turn < limit
    ensures CallsLeft(s, cfg, limit) >= 1
  {
    MulMonotone(cfg.repromptsMax + 1, 0, EventsLeft(s, limit) - 1);
  }

  // ---------------------------------------------------------------------------------------
  // The record updated in place
  // ---------------------------------------------------------------------------------------

  class GovernedRun {
    var turn: nat
    var actor: string
    var checklist: seq<Item>
    var halt: Option<Halt>
    var humanNote: Option<Note>
    var digestStreak: nat
    var lastDigest: string
    var reprompts: nat
    var secondWind: bool
    var maxRecoveries: nat
    var recoveriesUsed: nat
    var active: Option<Recovery>
    var history: seq<Recovery>

    ghost function Ledger(): Continuity reads this {
      Continuity(secondWind, maxRecoveries, recoveriesUsed, active, history)
    }

    ghost function State(): Run reads this {
      Run(turn, actor, checklist, halt, humanNote, digestStreak, lastDigest, reprompts, Ledger())
    }

    constructor (cfg: Config, c: Continuity)
      requires |cfg.fleet| > 0
      ensures State() == Created(cfg, c)
    {
      turn, actor, checklist, halt, humanNote := 0, cfg.fleet[0], [], None, None;
      digestStreak, lastDigest, reprompts := 0, "", 0;
      secondWind, maxRecoveries, recoveriesUsed, active, history := c.secondWind, c.maximum, c.used, c.active, c.history;
    }

    method SetRecoveryStatus(id: string, status: RecoveryStatus)
      modifies this`history
      ensures history == SetStatus(old(history), id, status)
    {
      var k := |history|;
      assert history[..k] == history;
      while k > 0
        invariant 0 <= k <= |history| && history == old(history)
        invariant SetStatus(history, id, status) == SetStatus(history[..k], id, status) + history[k..]
      {
        k := k - 1;
        assert history[..k + 1][..k] == history[..k];
        if history[k].id == id {
          assert history[..k + 1][k] == history[k];
          assert history[k := history[k].(status := status)]
              == history[..k] + [history[k].(status := status)] + history[k + 1..];
          history := history[k := history[k].(status := status)];
          return;
        }
      }
    }

    method StartSecondWind(cfg: Config, kind: Kind, from: string, items: set<string>) returns (started: bool)
      requires |cfg.fleet| > 0
      modifies this
      ensures started == CanRecover(old(Ledger()))
      ensures started ==> State() == HandOff(old(State()), cfg, kind, from, items)
      ensures !started ==> State() == old(State())
    {
      if !secondWind || recoveriesUsed >= maxRecoveries { return false; }
      if active.Some? { SetRecoveryStatus(active.value.id, Failed); }
      assert history == if active.Some? then SetStatus(old(history), active.value.id, Failed) else old(history);
      var to := NextActor(cfg, from);
      Record(Recovery(RecoveryId(recoveriesUsed + 1), turn, kind, from, to, items, Active));
      return true;
    }

    method Record(record: Recovery)
      modifies this
      ensures State() == old(State()).(
                actor := record.toActor, halt := None, reprompts := 0,
                continuity := old(Ledger()).(used := old(recoveriesUsed) + 1, active := Some(record),
                                             history := old(history) + [record]))
    {
      recoveriesUsed, active, history := recoveriesUsed + 1, Some(record), history + [record];
      actor, halt, reprompts := record.toActor, None, 0;
    }

    method FinishSecondWind(finisher: string)
      modifies this`active, this`history
      ensures State() == Finish(old(State()), finisher)
    {
      if active == None || active.value.toActor != finisher { return; }
      var unresolved := UnresolvedItems(
        Run(turn, actor, checklist, halt, humanNote, digestStreak, lastDigest, reprompts,
            Continuity(secondWind, maxRecoveries, recoveriesUsed, active, history)), active.value);
      SetRecoveryStatus(active.value.id, if unresolved != {} then Unresolved else Recovered);
      active := None;
    }

    method Fail(cfg: Config) returns (stop: Option<Halt>)
      requires |cfg.fleet| > 0
      modifies this
      ensures (State(), stop) == FailTurn(old(State()), cfg)
    {
      var held := set x | x in checklist && x.state == Claimed && x.owner == Some(actor) :: x.id;
      var started := StartSecondWind(cfg, FailedTurn, actor, held);
      if started { return None; }
      halt := Some(AgentError);
      return Some(AgentError);
    }

    method TakeTurn(cfg: Config, reply: Reply) returns (stop: Option<Halt>)
      requires |cfg.fleet| > 0
      modifies this
      ensures (State(), stop) == Turn(old(State()), cfg, reply)
    {
      if humanNote.Some? && humanNote.value.stop {
        halt := Some(StoppedByHuman);
        return Some(StoppedByHuman);
      }
      match reply
      case Crashed =>
        stop := Fail(cfg);
      case NoEnvelope =>
        reprompts := reprompts + 1;
        if reprompts > cfg.repromptsMax { stop := Fail(cfg); } else { stop := None; }
      case Proposed(proposed, sendBlocked) =>
        stop := AcceptTurn(cfg, proposed, sendBlocked);
    }

    method AcceptTurn(cfg: Config, proposed: seq<Proposal>, sendBlocked: bool) returns (stop: Option<Halt>)
      requires |cfg.fleet| > 0
      modifies this
      ensures var s1 := Accept(old(State()), cfg, proposed);
              (State(), stop) == if sendBlocked then (s1.(halt := Some(TurnBudget)), Some(SendCeiling))
                                 else Settle(Advance(s1, cfg), cfg, old(actor))
    {
      var me := actor;
      RecordProposal(cfg, proposed);
      if sendBlocked {
        halt := Some(TurnBudget);
        return Some(SendCeiling);
      }
      CloseTurn(cfg);
      stop := Decide(cfg, me);
    }

    method RecordProposal(cfg: Config, proposed: seq<Proposal>)
      modifies this`checklist, this`reprompts, this`humanNote
      ensures State() == Accept(old(State()), cfg, proposed)
    {
      reprompts := 0;
      var recovery := if active.Some? && active.value.toActor == actor then active.value.items else {};
      var accepted, _ := Reconcile(checklist, proposed, Policy(actor, cfg.rejectionsMax, turn <= 1, recovery));
      checklist := accepted;
      humanNote := None;
    }

    method CloseTurn(cfg: Config)
      requires |cfg.fleet| > 0
      modifies this
      ensures State() == Advance(old(State()), cfg)
    {
      var me := actor;
      var d := Digest(checklist);
      digestStreak := if d == lastDigest then digestStreak + 1 else 0;
      lastDigest := d;
      turn := turn + 1;
      actor := NextActor(cfg, me);
      FinishSecondWind(me);
    }

    /** The halting tests at the end of `take_turn`. */
    method Decide(cfg: Config, me: string) returns (stop: Option<Halt>)
      requires |cfg.fleet| > 0
      modifies this
      ensures (State(), stop) == Settle(old(State()), cfg, me)
    {
      if IsComplete(checklist) { return Some(Complete); }
      var stuck := Blocking(checklist);
      if stuck != [] {
        var recoverable := set x | x in checklist && x.state == Blocked && x.id !in Attempted(history) :: x.id;
        if recoverable != {} {
          var started := StartSecondWind(cfg, BlockedItems, me, recoverable);
          if started { return None; }
        }
        return Some(Stuck(stuck[0].state, seq(|stuck|, i requires 0 <= i < |stuck| => stuck[i].id)));
      }
      if turn >= cfg.turnsMax { return Some(TurnBudget); }
      if digestStreak >= cfg.noProgressHalt { return Some(NoProgress); }
      return None;
    }

    /** `maxTurns` is 0 for a run without its own limit. `calls` counts the dispatches. */
    method Loop(cfg: Config, maxTurns: nat, replies: nat -> Reply) returns (reason: Halt, calls: nat)
      requires |cfg.fleet| > 0
      modifies this
      ensures (State(), reason, calls) == LoopFrom(old(State()), cfg, LoopLimit(cfg, maxTurns), replies, 0)
    {
      var limit := LoopLimit(cfg, maxTurns);
      calls := 0;
      while turn < limit
        invariant LoopFrom(State(), cfg, limit, replies, calls) == LoopFrom(old(State()), cfg, limit, replies, 0)
        decreases CallsLeft(State(), cfg, limit)
      {
        var stop := Iterate(cfg, limit, replies, calls);
        calls := calls + 1;
        if stop.Some? { return stop.value, calls; }
      }
      LoopEnds(State(), cfg, limit, replies, calls);
      halt := Some(TurnBudget);
      return TurnBudget, calls;
    }

    /** The body of the loop: a halt already recorded is not overwritten. */
    method Iterate(cfg: Config, ghost limit: int, replies: nat -> Reply, n: nat) returns (stop: Option<Halt>)
      requires |cfg.fleet| > 0 && turn < limit
      modifies this
      ensures LoopFrom(old(State()), cfg, limit, replies, n)
           == if stop.Some? then (State(), stop.value, n + 1) else LoopFrom(State(), cfg, limit, replies, n + 1)
      ensures stop == None ==> CallsLeft(State(), cfg, limit) < old(CallsLeft(State(), cfg, limit))
    {
      LoopStep(State(), cfg, limit, replies, n);
      stop := TakeTurn(cfg, replies(n));
      if stop.Some? { halt := if halt.Some? then halt else stop; }
    }

    method ApplyHumanNote(note: Note)
      modifies this
      ensures State() == ApplyNote(old(State()), note)
    {
      humanNote := Some(note);
      if note.stop { return; }
      var reopened := ReopenBlocked();
      if reopened {
        halt, reprompts, digestStreak := None, 0, 0;
      } else if IsComplete(checklist) {
        checklist := checklist + [Revision(checklist, note.text)];
        halt, reprompts, digestStreak := None, 0, 0;
      }
    }

    method ReopenBlocked() returns (reopened: bool)
      modifies this`checklist
      ensures checklist == ReopenAll(old(checklist))
      ensures reopened <==> Blocking(old(checklist)) != []
      ensures !reopened ==> checklist == old(checklist)
    {
      reopened := false;
      ghost var items := checklist;
      for i := 0 to |checklist|
        invariant |checklist| == |items|
        invariant forall k | 0 <= k < |items| :: checklist[k] == if k < i then Reopen(items[k]) else items[k]
        invariant reopened <==> exists k :: 0 <= k < i && items[k].state in {Blocked, Disputed}
      {
        if checklist[i].state in {Blocked, Disputed} {
          checklist := checklist[i := checklist[i].(state := Open, owner := None, verifiedBy := None)];
          reopened := true;
        }
      }
      if Blocking(items) != [] { assert Blocking(items)[0] in Blocking(items); }
      if reopened {
        ghost var k :| 0 <= k < |items| && items[k].state in {Blocked, Disputed};
        assert items[k] in Blocking(items);
      }
    }
  }

  function LoopLimit(cfg: Config, maxTurns: nat): int {
    if maxTurns != 0 then maxTurns else cfg.turnsMax
  }
}
