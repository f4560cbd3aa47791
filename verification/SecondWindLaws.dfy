/**
 The Second Wind ledger over whole runs: bounded, gap-free, at most one live recovery and never a
 second recovery for the same blocked item.
 */
module SecondWindLaws {
  import opened Common
  import opened Envelope
  import opened RunState
  import opened Runner
  import opened RunLaws

  /** The k-th record is sw-(k+1), handed to the next family; only the last can be live. */
  ghost predicate LedgerSound(c: Continuity, cfg: Config, actor: string)
    requires |cfg.fleet| > 0
  {
    var n := |c.history|;
    && c.used == n <= c.maximum <= 8
    && (forall k | 0 <= k < n ::
          && c.history[k].id == "sw-" + Decimal(k + 1)
          && c.history[k].toActor == NextActor(cfg, c.history[k].fromActor)
          && (c.history[k].status == Active <==> c.active.Some? && k == n - 1))
    && (c.active.Some? ==> n > 0 && c.active.value == c.history[n - 1] && c.active.value.toActor == actor)
  }

  /** The item sets of "blocked" recoveries do not overlap. */
  ghost predicate BlocksOnce(history: seq<Recovery>) {
    forall i, j | 0 <= i < j < |history| && history[i].kind == history[j].kind == BlockedItems ::
      history[i].items !! history[j].items
  }

  lemma RecoveryIdsDiffer(m: nat, n: nat)
    requires RecoveryId(m) == RecoveryId(n)
    ensures m == n
  {
    DecimalRoundTrip(m);
    DecimalRoundTrip(n);
    assert RecoveryId(m)[3..] == Decimal(m) && RecoveryId(n)[3..] == Decimal(n);
  }

  /** Rewriting the live record's status rewrites the last record only. */
  lemma SetStatusOfLast(history: seq<Recovery>, status: RecoveryStatus)
    requires history != []
    ensures var n := |history| - 1;
            SetStatus(history, history[n].id, status) == history[n := history[n].(status := status)]
  {
    var n := |history| - 1;
    assert history[..n] + [history[n].(status := status)] == history[n := history[n].(status := status)];
  }

  lemma HandOffKeepsLedger(s: Run, cfg: Config, kind: Kind, from: string, items: set<string>)
    requires WellFormed(cfg) && LedgerSound(s.continuity, cfg, s.actor) && CanRecover(s.continuity)
    ensures var t := HandOff(s, cfg, kind, from, items); LedgerSound(t.continuity, cfg, t.actor)
  {
    if s.continuity.active.Some? { SetStatusOfLast(s.continuity.history, Failed); }
  }

  lemma FinishKeepsLedger(s: Run, cfg: Config, actor: string)
    requires WellFormed(cfg) && LedgerSound(s.continuity, cfg, actor)
    ensures var t := Finish(s, actor); t.continuity.active == None && LedgerSound(t.continuity, cfg, t.actor)
  {
    if s.continuity.active.Some? {
      SetStatusOfLast(s.continuity.history, Unresolved);
      SetStatusOfLast(s.continuity.history, Recovered);
    }
  }

  lemma SettleKeepsLedger(s: Run, cfg: Config, actor: string)
    requires WellFormed(cfg) && LedgerSound(s.continuity, cfg, s.actor)
    ensures var t := Settle(s, cfg, actor).0; LedgerSound(t.continuity, cfg, t.actor)
  {
    SettleShape(s, cfg, actor);
    if CanRecover(s.continuity) { HandOffKeepsLedger(s, cfg, BlockedItems, actor, UnrecoveredBlocks(s)); }
  }

  lemma TurnKeepsLedger(s: Run, cfg: Config, reply: Reply)
    requires WellFormed(cfg) && LedgerSound(s.continuity, cfg, s.actor)
    ensures var t := Turn(s, cfg, reply).0; LedgerSound(t.continuity, cfg, t.actor)
  {
    match reply
    case Proposed(proposed, _) => CloseKeepsLedger(Accept(s, cfg, proposed), cfg, s.actor);
    case Crashed => FailKeepsLedger(s, cfg);
    case NoEnvelope => FailKeepsLedger(s.(reprompts := s.reprompts + 1), cfg);
  }

  lemma FailKeepsLedger(s: Run, cfg: Config)
    requires WellFormed(cfg) && LedgerSound(s.continuity, cfg, s.actor)
    ensures var t := FailTurn(s, cfg).0; LedgerSound(t.continuity, cfg, t.actor)
  {
    var held := set x | x in s.checklist && x.state == Claimed && x.owner == Some(s.actor) :: x.id;
    if CanRecover(s.continuity) { HandOffKeepsLedger(s, cfg, FailedTurn, s.actor, held); }
  }

  lemma CloseKeepsLedger(s: Run, cfg: Config, actor: string)
    requires WellFormed(cfg) && LedgerSound(s.continuity, cfg, s.actor)
    ensures var t := Settle(Advance(s, cfg), cfg, actor).0; LedgerSound(t.continuity, cfg, t.actor)
  {
    AdvanceKeepsLedger(s, cfg);
    SettleKeepsLedger(Advance(s, cfg), cfg, actor);
  }

  lemma AdvanceKeepsLedger(s: Run, cfg: Config)
    requires WellFormed(cfg) && LedgerSound(s.continuity, cfg, s.actor)
    ensures var t := Advance(s, cfg); LedgerSound(t.continuity, cfg, t.actor)
  {
    var d := Digest(s.checklist);
    FinishKeepsLedger(s.(streak := if d == s.lastDigest then s.streak + 1 else 0, lastDigest := d,
                         turn := s.turn + 1, actor := NextActor(cfg, s.actor)), cfg, s.actor);
  }

  /**
   In every run the ledger holds exactly one record per recovery used, at most the cap (itself at
   most 8), numbered sw-1..sw-n; a record is active exactly when it is the live one, whose target is
   the current actor; every target follows the agent that failed in the fleet's order and is not that agent.
   */
  lemma {:induction false} LedgerOverRuns(s: Run, cfg: Config, events: seq<Event>)
    requires WellFormed(cfg) && LedgerSound(s.continuity, cfg, s.actor)
    ensures var t := Play(s, cfg, events);
            && LedgerSound(t.continuity, cfg, t.actor)
            && forall k | 0 <= k < |t.continuity.history| ::
                 && t.continuity.history[k].toActor != t.continuity.history[k].fromActor
                 && Follows(cfg.fleet, t.continuity.history[k].fromActor, t.continuity.history[k].toActor)
    decreases |events|
  {
    if events == [] {
      forall k | 0 <= k < |s.continuity.history|
        ensures s.continuity.history[k].toActor != s.continuity.history[k].fromActor
        ensures Follows(cfg.fleet, s.continuity.history[k].fromActor, s.continuity.history[k].toActor)
      {
        NextIsAnother(cfg, s.continuity.history[k].fromActor);
        NextFollows(cfg, s.continuity.history[k].fromActor);
      }
    } else {
      if events[0].TurnTaken? { TurnKeepsLedger(s, cfg, events[0].reply); }
      LedgerOverRuns(Step(s, cfg, events[0]), cfg, events[1..]);
    }
  }

  // ---------------------------------------------------------------------------------------
  // One recovery per blocked item
  // ---------------------------------------------------------------------------------------

  /** Two histories with the same records up to their statuses. */
  ghost predicate SameButStatus(h: seq<Recovery>, h': seq<Recovery>) {
    |h| == |h'| && forall k | 0 <= k < |h| :: h'[k] == h[k].(status := h'[k].status)
  }

  lemma {:induction false} SetStatusTouchesStatus(h: seq<Recovery>, id: string, status: RecoveryStatus)
    ensures SameButStatus(h, SetStatus(h, id, status))
  {
    if h != [] { SetStatusTouchesStatus(h[..|h| - 1], id, status); }
  }

  /** The history after a turn: the same records, or one more whose blocked items are new. */
  ghost predicate Extends(h: seq<Recovery>, h': seq<Recovery>) {
    || SameButStatus(h, h')
    || (&& |h'| == |h| + 1
        && SameButStatus(h, h'[..|h|])
        && (h'[|h|].kind == BlockedItems ==> h'[|h|].items !! Attempted(h)))
  }

  lemma ExtendsKeepsBlocksOnce(h: seq<Recovery>, h': seq<Recovery>)
    requires BlocksOnce(h) && Extends(h, h')
    ensures BlocksOnce(h')
  {
    if |h'| == |h| + 1 && h'[|h|].kind == BlockedItems {
      forall i | 0 <= i < |h| && h'[i].kind == BlockedItems ensures h'[i].items !! h'[|h|].items {
        assert h'[..|h|][i] == h[i].(status := h'[i].status);
        assert forall id | id in h[i].items :: h[i] in h && id in Attempted(h);
      }
    }
    forall i, j | 0 <= i < j < |h'| && h'[i].kind == h'[j].kind == BlockedItems ensures h'[i].items !! h'[j].items {
      if j < |h| {
        assert |h'| == |h| + 1 ==> h'[..|h|][i] == h'[i] && h'[..|h|][j] == h'[j];
      }
    }
  }

  lemma HandOffExtends(s: Run, cfg: Config, kind: Kind, from: string, items: set<string>)
    requires |cfg.fleet| > 0 && (kind == BlockedItems ==> items !! Attempted(s.continuity.history))
    ensures Extends(s.continuity.history, HandOff(s, cfg, kind, from, items).continuity.history)
  {
    if s.continuity.active.Some? {
      SetStatusTouchesStatus(s.continuity.history, s.continuity.active.value.id, Failed);
    }
  }

  lemma AttemptedIgnoresStatus(h: seq<Recovery>, h': seq<Recovery>)
    requires SameButStatus(h, h')
    ensures Attempted(h') == Attempted(h)
  {
    forall id | id in Attempted(h) ensures id in Attempted(h') {
      var k :| 0 <= k < |h| && h[k].kind == BlockedItems && id in h[k].items;
      assert h'[k] in h';
    }
    forall id | id in Attempted(h') ensures id in Attempted(h) {
      var k :| 0 <= k < |h'| && h'[k].kind == BlockedItems && id in h'[k].items;
      assert h[k] in h;
    }
  }

  lemma AdvanceExtends(s: Run, cfg: Config)
    requires |cfg.fleet| > 0
    ensures SameButStatus(s.continuity.history, Advance(s, cfg).continuity.history)
  {
    if s.continuity.active.Some? {
      SetStatusTouchesStatus(s.continuity.history, s.continuity.active.value.id, Unresolved);
      SetStatusTouchesStatus(s.continuity.history, s.continuity.active.value.id, Recovered);
    }
  }

  lemma ExtendsAfterSame(h: seq<Recovery>, h': seq<Recovery>, h'': seq<Recovery>)
    requires SameButStatus(h, h') && Extends(h', h'')
    ensures Extends(h, h'')
  {
    AttemptedIgnoresStatus(h, h');
  }

  lemma SettleExtends(s: Run, cfg: Config, actor: string)
    requires |cfg.fleet| > 0
    ensures Extends(s.continuity.history, Settle(s, cfg, actor).0.continuity.history)
  {
    SettleShape(s, cfg, actor);
    if CanRecover(s.continuity) { HandOffExtends(s, cfg, BlockedItems, actor, UnrecoveredBlocks(s)); }
  }

  lemma CloseExtends(s: Run, cfg: Config, actor: string)
    requires |cfg.fleet| > 0
    ensures Extends(s.continuity.history, Settle(Advance(s, cfg), cfg, actor).0.continuity.history)
  {
    AdvanceExtends(s, cfg);
    SettleExtends(Advance(s, cfg), cfg, actor);
    ExtendsAfterSame(s.continuity.history, Advance(s, cfg).continuity.history,
                     Settle(Advance(s, cfg), cfg, actor).0.continuity.history);
  }

  lemma TurnExtends(s: Run, cfg: Config, reply: Reply)
    requires |cfg.fleet| > 0
    ensures Extends(s.continuity.history, Turn(s, cfg, reply).0.continuity.history)
  {
    match reply
    case Proposed(proposed, _) => CloseExtends(Accept(s, cfg, proposed), cfg, s.actor);
    case Crashed => FailExtends(s, cfg);
    case NoEnvelope => FailExtends(s.(reprompts := s.reprompts + 1), cfg);
  }

  lemma FailExtends(s: Run, cfg: Config)
    requires |cfg.fleet| > 0
    ensures Extends(s.continuity.history, FailTurn(s, cfg).0.continuity.history)
  {
    var held := set x | x in s.checklist && x.state == Claimed && x.owner == Some(s.actor) :: x.id;
    HandOffExtends(s, cfg, FailedTurn, s.actor, held);
  }

  /** No blocked item ever gets a second recovery of its own, in any run. */
  lemma {:induction false} NoItemIsRecoveredTwice(s: Run, cfg: Config, events: seq<Event>)
    requires |cfg.fleet| > 0 && BlocksOnce(s.continuity.history)
    ensures BlocksOnce(Play(s, cfg, events).continuity.history)
    decreases |events|
  {
    if events != [] {
      var t := Step(s, cfg, events[0]);
      if events[0].TurnTaken? { TurnExtends(s, cfg, events[0].reply); }
      ExtendsKeepsBlocksOnce(s.continuity.history, t.continuity.history);
      NoItemIsRecoveredTwice(t, cfg, events[1..]);
    }
  }

  /** A created run starts with a sound, empty ledger, so both laws hold of all it reaches. */
  lemma CreatedRunsKeepTheirLedger(cfg: Config, configured: Setting, enabled: bool, override: Option<bool>, events: seq<Event>)
    requires WellFormed(cfg)
    ensures var t := Play(Created(cfg, ContinuityPolicy(configured, enabled, override)), cfg, events);
            && LedgerSound(t.continuity, cfg, t.actor) && BlocksOnce(t.continuity.history)
            && forall k | 0 <= k < |t.continuity.history| ::
                 && t.continuity.history[k].toActor != t.continuity.history[k].fromActor
                 && Follows(cfg.fleet, t.continuity.history[k].fromActor, t.continuity.history[k].toActor)
  {
    var s := Created(cfg, ContinuityPolicy(configured, enabled, override));
    LedgerOverRuns(s, cfg, events);
    NoItemIsRecoveredTwice(s, cfg, events);
  }

  /** K+1 dispatches for each recovery left, and what is left of the current agent's patience. */
  function SilentCalls(s: Run, cfg: Config): nat {
    (cfg.repromptsMax + 1) * RecoveriesLeft(s.continuity) + Patience(s, cfg) + 1
  }

  lemma SilentStep(s: Run, cfg: Config)
    requires WellFormed(cfg) && (s.note == None || !s.note.value.stop)
    ensures var (t, halt) := Turn(s, cfg, NoEnvelope);
            && t.turn == s.turn && t.checklist == s.checklist && t.note == s.note
            && (halt == None ==> SilentCalls(t, cfg) + 1 == SilentCalls(s, cfg))
            && (halt != None ==> halt == Some(AgentError) && SilentCalls(s, cfg) == 1)
  {
    var t := Turn(s, cfg, NoEnvelope).0;
    var k, r := cfg.repromptsMax + 1, RecoveriesLeft(s.continuity);
    assert k * r == k * (r - 1) + k;
  }

  /**
   The dispatch bound is reached: a fleet that never answers is dispatched K+1 times for every
   recovery left and once more over, and then the loop stops with nothing changed on the checklist.
   */
  lemma {:induction false} SilentFleet(s: Run, cfg: Config, limit: int, replies: nat -> Reply, n: nat)
    requires WellFormed(cfg) && s.turn < limit && (s.note == None || !s.note.value.stop)
    requires forall k :: replies(k) == NoEnvelope
    ensures var (t, halt, calls) := LoopFrom(s, cfg, limit, replies, n);
            halt == AgentError && calls == n + SilentCalls(s, cfg) && t.turn == s.turn && t.checklist == s.checklist
    decreases CallsLeft(s, cfg, limit)
  {
    SilentStep(s, cfg);
    assert replies(n) == NoEnvelope;
    if Turn(s, cfg, replies(n)).1 == None {
      TurnProgress(s, cfg, NoEnvelope, limit);
      SilentFleet(Turn(s, cfg, replies(n)).0, cfg, limit, replies, n + 1);
    }
  }

  /** With one turn to go and no reprompt spent, that is exactly the bound of `LoopIsBounded`. */
  lemma BoundIsAttained(s: Run, cfg: Config)
    requires s.reprompts == 0
    ensures SilentCalls(s, cfg) == CallsLeft(s, cfg, s.turn + 1)
         == (cfg.repromptsMax + 1) * EventsLeft(s, s.turn + 1)
  {
    var k, r := cfg.repromptsMax + 1, RecoveriesLeft(s.continuity);
    assert k * (r + 1) == k * r + k;
  }

  // ---------------------------------------------------------------------------------------
  // The bound is reached for every number of turns
  // ---------------------------------------------------------------------------------------

  /** Agents that try the runner's patience: silent while that is free, then an empty but valid turn. */
  function PatientReply(s: Run, cfg: Config): Reply {
    if s.reprompts < cfg.repromptsMax || CanRecover(s.continuity) then NoEnvelope else Proposed([], false)
  }

  /** Nothing but the turn limit will stop the run. */
  predicate OnlyTurnsStop(s: Run, cfg: Config, limit: int) {
    && s.checklist == [] && (s.note == None || !s.note.value.stop)
    && limit <= cfg.turnsMax && s.streak + (limit - s.turn) <= cfg.noProgressHalt
  }

  lemma EmptyTurn(s: Run, cfg: Config)
    requires |cfg.fleet| > 0 && s.checklist == []
    ensures Accept(s, cfg, []) == s.(reprompts := 0, note := None)
  {
    assert KeyOrder([]) == [] && Restored(Latest([]), [], NamedIds([])).kept == [];
    assert Ruled(Latest([]), [], TurnPolicy(s, cfg)).kept == [];
  }

  lemma EmptyTurnAdvances(s: Run, cfg: Config, limit: int)
    requires |cfg.fleet| > 0 && OnlyTurnsStop(s, cfg, limit) && s.turn < limit && !CanRecover(s.continuity)
    ensures var (t, halt) := Turn(s, cfg, Proposed([], false));
            && OnlyTurnsStop(t, cfg, limit) && t.turn == s.turn + 1 && t.reprompts == 0
            && !CanRecover(t.continuity) && (halt == None || t.turn == limit)
  {
    EmptyTurn(s, cfg);
    assert Blocking([]) == [];
  }

  lemma EmptyTurnIsOneCall(s: Run, t: Run, cfg: Config, limit: int)
    requires s.turn < limit && t.turn == s.turn + 1 && t.reprompts == 0 && s.reprompts >= cfg.repromptsMax
    requires !CanRecover(s.continuity) && !CanRecover(t.continuity)
    ensures CallsLeft(t, cfg, limit) + 1 == CallsLeft(s, cfg, limit)
  {
    var k, e := cfg.repromptsMax + 1, EventsLeft(s, limit);
    assert e == limit - s.turn;
    if t.turn < limit { assert k * (e - 1) == k * (e - 2) + k; }
  }

  /** Every dispatch of such agents costs exactly one of the calls left. */
  lemma PatientStep(s: Run, cfg: Config, limit: int)
    requires WellFormed(cfg) && OnlyTurnsStop(s, cfg, limit) && s.turn < limit
    ensures var (t, halt) := Turn(s, cfg, PatientReply(s, cfg));
            && OnlyTurnsStop(t, cfg, limit) && (halt == None || t.turn == limit)
            && CallsLeft(t, cfg, limit) + 1 == CallsLeft(s, cfg, limit)
  {
    if PatientReply(s, cfg).NoEnvelope? {
      SilentCallCosts(s, cfg, limit);
    } else {
      EmptyTurnAdvances(s, cfg, limit);
      EmptyTurnIsOneCall(s, Turn(s, cfg, Proposed([], false)).0, cfg, limit);
    }
  }

  lemma SilentCallCosts(s: Run, cfg: Config, limit: int)
    requires WellFormed(cfg) && OnlyTurnsStop(s, cfg, limit) && s.turn < limit
    requires s.reprompts < cfg.repromptsMax || CanRecover(s.continuity)
    ensures var (t, halt) := Turn(s, cfg, NoEnvelope);
            OnlyTurnsStop(t, cfg, limit) && halt == None && CallsLeft(t, cfg, limit) + 1 == CallsLeft(s, cfg, limit)
  {
    OneCallFewer(s, Turn(s, cfg, NoEnvelope).0, cfg, limit);
  }

  /** A reprompt, or a hand-off when no reprompt is left, costs one call. */
  lemma OneCallFewer(s: Run, t: Run, cfg: Config, limit: int)
    requires s.turn < limit && t.turn == s.turn
    requires s.continuity.secondWind == t.continuity.secondWind && s.continuity.maximum == t.continuity.maximum
    requires if s.reprompts < cfg.repromptsMax then t.reprompts == s.reprompts + 1 && t.continuity.used == s.continuity.used
             else CanRecover(s.continuity) && t.reprompts == 0 && t.continuity.used == s.continuity.used + 1
    ensures CallsLeft(t, cfg, limit) + 1 == CallsLeft(s, cfg, limit)
  {
    var k, e := cfg.repromptsMax + 1, EventsLeft(s, limit);
    assert k * (e - 1) == k * (e - 2) + k;
  }

  function PatientState(s: Run, cfg: Config, n: nat): Run
    requires |cfg.fleet| > 0
  {
    if n == 0 then s
    else
      var before := PatientState(s, cfg, n - 1);
      Turn(before, cfg, PatientReply(before, cfg)).0
  }

  lemma PatientNext(s: Run, cfg: Config, n: nat)
    requires |cfg.fleet| > 0
    ensures PatientState(s, cfg, n + 1)
         == Turn(PatientState(s, cfg, n), cfg, PatientReply(PatientState(s, cfg, n), cfg)).0
  {
  }

  /** The replies of such agents, dispatch by dispatch. */
  ghost predicate ArePatient(replies: nat -> Reply, s: Run, cfg: Config)
    requires |cfg.fleet| > 0
  {
    forall k: nat :: replies(k) == PatientReply(PatientState(s, cfg, k), cfg)
  }

  lemma {:induction false} PatientLoop(s: Run, now: Run, cfg: Config, limit: int, replies: nat -> Reply, n: nat)
    requires WellFormed(cfg) && ArePatient(replies, s, cfg)
    requires now == PatientState(s, cfg, n) && OnlyTurnsStop(now, cfg, limit)
    ensures LoopFrom(now, cfg, limit, replies, n).2 == n + CallsLeft(now, cfg, limit)
    decreases CallsLeft(now, cfg, limit)
  {
    if now.turn >= limit {
      LoopEnds(now, cfg, limit, replies, n);
    } else {
      var (next, halt) := Turn(now, cfg, PatientReply(now, cfg));
      assert replies(n) == PatientReply(now, cfg);
      PatientStep(now, cfg, limit);
      LoopStep(now, cfg, limit, replies, n);
      PatientNext(s, cfg, n);
      if halt == None { PatientLoop(s, next, cfg, limit, replies, n + 1); }
    }
  }

  lemma CallsFromNoReprompt(s: Run, cfg: Config, limit: int)
    requires s.turn < limit && s.reprompts == 0
    ensures CallsLeft(s, cfg, limit) == (cfg.repromptsMax + 1) * EventsLeft(s, limit)
  {
    var k, e := cfg.repromptsMax + 1, EventsLeft(s, limit);
    assert k * (e - 1) + k == k * e;
  }

  /**
   For every number of turns, recoveries and reprompts the bound of `DispatchBound` is reached, by K
   silences before each turn and each hand-off.
   */
  lemma BoundIsReached(s: Run, cfg: Config, limit: int)
    requires WellFormed(cfg) && OnlyTurnsStop(s, cfg, limit) && s.turn < limit && s.reprompts == 0
    ensures exists replies :: LoopFrom(s, cfg, limit, replies, 0).2 == (cfg.repromptsMax + 1) * EventsLeft(s, limit)
  {
    var replies: nat -> Reply := (n: nat) => PatientReply(PatientState(s, cfg, n), cfg);
    assert ArePatient(replies, s, cfg) && PatientState(s, cfg, 0) == s;
    PatientLoop(s, s, cfg, limit, replies, 0);
    CallsFromNoReprompt(s, cfg, limit);
  }
}
