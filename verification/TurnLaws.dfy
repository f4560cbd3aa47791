/**
 Whose turn it is and how a turn ends, said of fleets and checklists and not of the functions that
 decide it.
 */
module TurnLaws {
  import opened Common
  import opened Envelope
  import opened RunState
  import opened Runner
  import opened RunLaws
  import opened SecondWindLaws

  // ---------------------------------------------------------------------------------------
  // Round robin
  // ---------------------------------------------------------------------------------------

  /** The event passes the turn on: an accepted turn was mailed, or the work was handed off. */
  predicate PassesOn(s: Run, cfg: Config, e: Event)
    requires |cfg.fleet| > 0
  {
    Step(s, cfg, e).turn > s.turn || Step(s, cfg, e).continuity.used > s.continuity.used
  }

  function Passes(s: Run, cfg: Config, events: seq<Event>): nat
    requires |cfg.fleet| > 0
    decreases |events|
  {
    if events == [] then 0
    else (if PassesOn(s, cfg, events[0]) then 1 else 0) + Passes(Step(s, cfg, events[0]), cfg, events[1..])
  }

  lemma StepActor(s: Run, cfg: Config, e: Event)
    requires |cfg.fleet| > 0
    ensures Step(s, cfg, e).actor == if PassesOn(s, cfg, e) then NextActor(cfg, s.actor) else s.actor
  {
    if IsAccepted(s, e) { SettleShape(Advance(Accept(s, cfg, e.reply.proposed), cfg), cfg, s.actor); }
  }

  /** `Around` is the remainder. */
  lemma AroundIsRemainder(k: nat, n: nat)
    requires n > 0
    ensures Around(k, n) == k % n
  {
    var q := Rounds(k, n);
    OneRemainder(n, q, Around(k, n), k / n, k % n);
  }

  lemma {:induction false} Rounds(k: nat, n: nat) returns (q: nat)
    requires n > 0
    ensures k == n * q + Around(k, n)
  {
    q := 0;
    if k >= n {
      var q1 := Rounds(k - n, n);
      q := q1 + 1;
      assert n * q == n * q1 + n;
    }
  }

  lemma OneRemainder(n: nat, q1: int, r1: nat, q2: int, r2: nat)
    requires n * q1 + r1 == n * q2 + r2 && r1 < n && r2 < n
    ensures r1 == r2
  {
    if q1 < q2 { LowerQuotient(n, q1, r1, q2); } else if q2 < q1 { LowerQuotient(n, q2, r2, q1); }
  }

  lemma LowerQuotient(n: nat, q1: int, r1: nat, q2: int)
    requires q1 < q2 && r1 < n
    ensures n * q1 + r1 < n * q2
  {
    MulMonotone(n, q1 + 1, q2);
    assert n * (q1 + 1) == n * q1 + n;
  }

  lemma OneStepAround(k: nat, m: nat, n: nat)
    requires k < n
    ensures Around(Around(k + 1, n) + m, n) == Around(k + 1 + m, n)
  {
  }

  /** The agent `m` turns after `actor`. */
  function TurnsLater(cfg: Config, actor: string, m: nat): string
    requires |cfg.fleet| > 0
    decreases m
  {
    if m == 0 then actor else TurnsLater(cfg, NextActor(cfg, actor), m - 1)
  }

  lemma {:induction false} ActorIsLater(s: Run, cfg: Config, events: seq<Event>)
    requires |cfg.fleet| > 0
    ensures Play(s, cfg, events).actor == TurnsLater(cfg, s.actor, Passes(s, cfg, events))
    decreases |events|
  {
    if events != [] {
      StepActor(s, cfg, events[0]);
      ActorIsLater(Step(s, cfg, events[0]), cfg, events[1..]);
    }
  }

  lemma {:induction false} LaterIsAround(cfg: Config, k: nat, m: nat)
    requires WellFormed(cfg) && k < |cfg.fleet|
    ensures TurnsLater(cfg, cfg.fleet[k], m) == cfg.fleet[Around(k + m, |cfg.fleet|)]
    decreases m
  {
    if m > 0 {
      NextInOrder(cfg, k);
      LaterIsAround(cfg, Around(k + 1, |cfg.fleet|), m - 1);
      OneStepAround(k, m - 1, |cfg.fleet|);
    }
  }

  /**
   Round robin: in every run the actor is as many places further in the fleet as turns were passed on,
   by accepted turns and hand-offs alike. Reprompts, refused mail, notes and halts move nobody.
   */
  lemma ActorFollowsTheFleet(s: Run, cfg: Config, events: seq<Event>, k: nat)
    requires WellFormed(cfg) && k < |cfg.fleet| && s.actor == cfg.fleet[k]
    ensures Play(s, cfg, events).actor == cfg.fleet[Around(k + Passes(s, cfg, events), |cfg.fleet|)]
  {
    ActorIsLater(s, cfg, events);
    LaterIsAround(cfg, k, Passes(s, cfg, events));
  }

  /** Every event of the sequence passes the turn on. */
  predicate AllPassOn(s: Run, cfg: Config, events: seq<Event>)
    requires |cfg.fleet| > 0
    decreases |events|
  {
    events == [] || (PassesOn(s, cfg, events[0]) && AllPassOn(Step(s, cfg, events[0]), cfg, events[1..]))
  }

  lemma {:induction false} PassesOfPrefix(s: Run, cfg: Config, events: seq<Event>, i: nat)
    requires |cfg.fleet| > 0 && AllPassOn(s, cfg, events) && i <= |events|
    ensures Passes(s, cfg, events[..i]) == i
    decreases i
  {
    if i > 0 {
      assert events[..i][1..] == events[1..][..i - 1];
      PassesOfPrefix(Step(s, cfg, events[0]), cfg, events[1..], i - 1);
    }
  }

  /** Who acts in the i-th of a sequence of events. */
  function ActsAt(s: Run, cfg: Config, events: seq<Event>, i: nat): string
    requires |cfg.fleet| > 0 && i <= |events|
  {
    Play(s, cfg, events[..i]).actor
  }

  /** In as many passed-on turns as the fleet has members, every member acts exactly once, in fleet order. */
  lemma EveryoneActsOnce(s: Run, cfg: Config, events: seq<Event>, k: nat)
    requires WellFormed(cfg) && k < |cfg.fleet| && s.actor == cfg.fleet[k]
    requires AllPassOn(s, cfg, events) && |events| == |cfg.fleet|
    ensures forall i | 0 <= i < |events| :: ActsAt(s, cfg, events, i) == cfg.fleet[Around(k + i, |cfg.fleet|)]
    ensures forall name | name in cfg.fleet :: exists i :: 0 <= i < |events| && ActsAt(s, cfg, events, i) == name
    ensures forall i, j | 0 <= i < j < |events| :: ActsAt(s, cfg, events, i) != ActsAt(s, cfg, events, j)
  {
    var n := |cfg.fleet|;
    forall i | 0 <= i < n ensures ActsAt(s, cfg, events, i) == cfg.fleet[Around(k + i, n)] {
      PassesOfPrefix(s, cfg, events, i);
      ActsInOrder(s, cfg, events, k, i);
    }
    forall name | name in cfg.fleet ensures exists i :: 0 <= i < n && ActsAt(s, cfg, events, i) == name {
      var j :| 0 <= j < n && cfg.fleet[j] == name;
      var i := PlaceReached(k, j, n);
      assert ActsAt(s, cfg, events, i) == name;
    }
    forall i, j | 0 <= i < j < n ensures ActsAt(s, cfg, events, i) != ActsAt(s, cfg, events, j) {
      PlacesDiffer(k, i, j, n);
      OtherName(cfg, Around(k + i, n), Around(k + j, n));
    }
  }

  lemma ActsInOrder(s: Run, cfg: Config, events: seq<Event>, k: nat, i: nat)
    requires WellFormed(cfg) && k < |cfg.fleet| && s.actor == cfg.fleet[k]
    requires i <= |events| && Passes(s, cfg, events[..i]) == i
    ensures ActsAt(s, cfg, events, i) == cfg.fleet[Around(k + i, |cfg.fleet|)]
  {
    ActorFollowsTheFleet(s, cfg, events[..i], k);
  }

  lemma PlaceReached(k: nat, j: nat, n: nat) returns (i: nat)
    requires k < n && j < n
    ensures i < n && Around(k + i, n) == j
  {
    i := if j >= k then j - k else j - k + n;
  }

  lemma PlacesDiffer(k: nat, i: nat, j: nat, n: nat)
    requires k < n && i < j < n
    ensures Around(k + i, n) != Around(k + j, n)
  {
  }

  lemma OtherName(cfg: Config, i: nat, j: nat)
    requires WellFormed(cfg) && i < |cfg.fleet| && j < |cfg.fleet| && i != j
    ensures cfg.fleet[i] != cfg.fleet[j]
  {
    if i < j { assert cfg.fleet[i] != cfg.fleet[j]; } else { assert cfg.fleet[j] != cfg.fleet[i]; }
  }

  // ---------------------------------------------------------------------------------------
  // How an accepted turn ends
  // ---------------------------------------------------------------------------------------

  predicate IsStuck(x: Item) { x.state == Blocked || x.state == Disputed }

  ghost predicate AllDone(items: seq<Item>) { |items| > 0 && forall i | 0 <= i < |items| :: items[i].state == Done }

  ghost predicate SomeStuck(items: seq<Item>) { exists i :: 0 <= i < |items| && IsStuck(items[i]) }

  /** A blocked item that no recovery for blocked items has listed yet. */
  ghost predicate FreshBlock(items: seq<Item>, history: seq<Recovery>) {
    exists x :: x in items && x.state == Blocked && NeverTried(x.id, history)
  }

  ghost predicate NeverTried(id: string, history: seq<Recovery>) {
    forall r | r in history && r.kind == BlockedItems :: id !in r.items
  }

  /** A recovery is possible: enabled, and fewer were used than the cap allows. */
  predicate MayRecover(c: Continuity) { c.secondWind && c.used < c.maximum }

  /** The reason names the first stuck item's state and all stuck items, the first one first. */
  ghost predicate NamesTheStuck(h: Halt, items: seq<Item>) {
    && h.Stuck? && h.ids != []
    && (exists i :: 0 <= i < |items| && IsStuck(items[i]) && (forall j | 0 <= j < i :: !IsStuck(items[j]))
                    && h.state == items[i].state && h.ids[0] == items[i].id)
    && (forall x | x in items && IsStuck(x) :: x.id in h.ids)
    && (forall id | id in h.ids :: exists x :: x in items && IsStuck(x) && x.id == id)
  }

  lemma {:induction false} FirstStuck(items: seq<Item>)
    requires Blocking(items) != []
    ensures exists i :: 0 <= i < |items| && IsStuck(items[i]) && (forall j | 0 <= j < i :: !IsStuck(items[j]))
                        && Blocking(items)[0] == items[i]
  {
    if IsStuck(items[0]) {
    } else {
      FirstStuck(items[1..]);
      var i :| 0 <= i < |items| - 1 && IsStuck(items[1..][i]) && (forall j | 0 <= j < i :: !IsStuck(items[1..][j]))
               && Blocking(items[1..])[0] == items[1..][i];
      assert forall j | 0 < j <= i :: items[j] == items[1..][j - 1];
      assert IsStuck(items[i + 1]) && Blocking(items)[0] == items[i + 1];
    }
  }

  lemma StuckIsNamed(items: seq<Item>)
    requires Blocking(items) != []
    ensures var stuck := Blocking(items);
            NamesTheStuck(Stuck(stuck[0].state, seq(|stuck|, i requires 0 <= i < |stuck| => stuck[i].id)), items)
  {
    var stuck := Blocking(items);
    var ids := seq(|stuck|, i requires 0 <= i < |stuck| => stuck[i].id);
    FirstStuck(items);
    forall x | x in items && IsStuck(x) ensures x.id in ids {
      assert x in stuck;
      var k :| 0 <= k < |stuck| && stuck[k] == x;
      assert ids[k] == x.id;
    }
    forall id | id in ids ensures exists x :: x in items && IsStuck(x) && x.id == id {
      var k :| 0 <= k < |ids| && ids[k] == id;
      assert stuck[k] in stuck && IsStuck(stuck[k]) && stuck[k].id == id;
    }
  }

  lemma StuckExactlyWhen(items: seq<Item>)
    ensures Blocking(items) != [] <==> SomeStuck(items)
    ensures IsComplete(items) <==> AllDone(items)
    ensures AllDone(items) ==> !SomeStuck(items)
  {
    if Blocking(items) != [] {
      var x := Blocking(items)[0];
      assert x in Blocking(items) && x in items;
    }
    if SomeStuck(items) {
      var i :| 0 <= i < |items| && IsStuck(items[i]);
      assert items[i] in Blocking(items);
    }
    if AllDone(items) {
      forall x | x in items ensures x.state == Done { }
    }
  }

  lemma FreshExactlyWhen(s: Run)
    ensures UnrecoveredBlocks(s) != {} <==> FreshBlock(s.checklist, s.continuity.history)
  {
    var h := s.continuity.history;
    if id :| id in UnrecoveredBlocks(s) {
      var x :| x in s.checklist && x.state == Blocked && x.id !in Attempted(h) && x.id == id;
      NotAttempted(x.id, h);
    }
    if FreshBlock(s.checklist, h) {
      var x :| x in s.checklist && x.state == Blocked && NeverTried(x.id, h);
      NotAttempted(x.id, h);
      assert x.id in UnrecoveredBlocks(s);
    }
  }

  lemma NotAttempted(id: string, history: seq<Recovery>)
    ensures id !in Attempted(history) <==> NeverTried(id, history)
  {
  }

  /** The halting tests, on a checklist just recorded: which of them decides, and in what order. */
  ghost predicate EndsAs(s: Run, cfg: Config, t: Run, halt: Option<Halt>) {
    if AllDone(s.checklist) then halt == Some(Complete) && t == s
    else if SomeStuck(s.checklist) then
      if FreshBlock(s.checklist, s.continuity.history) && MayRecover(s.continuity)
      then halt == None && t.continuity.used == s.continuity.used + 1 && t.turn == s.turn && t.checklist == s.checklist
      else t == s && halt.Some? && NamesTheStuck(halt.value, s.checklist)
    else
      && t == s
      && halt == if s.turn >= cfg.turnsMax then Some(TurnBudget)
                 else if s.streak >= cfg.noProgressHalt then Some(NoProgress) else None
  }

  lemma SettlesAs(s: Run, cfg: Config, actor: string)
    requires |cfg.fleet| > 0
    ensures var (t, halt) := Settle(s, cfg, actor); EndsAs(s, cfg, t, halt)
  {
    StuckExactlyWhen(s.checklist);
    FreshExactlyWhen(s);
    if Blocking(s.checklist) != [] { StuckIsNamed(s.checklist); }
  }

  /** The run once an accepted turn is recorded, mailed and counted, before the halting tests. */
  ghost predicate IsCounted(s: Run, cfg: Config, proposed: seq<Proposal>, u: Run)
    requires |cfg.fleet| > 0
  {
    && u.checklist == Reconciled(s.checklist, proposed, TurnPolicy(s, cfg)).kept
    && u.turn == s.turn + 1 && u.reprompts == 0 && u.note == None && u.halt == s.halt
    && Follows(cfg.fleet, s.actor, u.actor)
    && u.lastDigest == Digest(u.checklist)
    && u.streak == (if u.lastDigest == s.lastDigest then s.streak + 1 else 0)
    && u.continuity.used == s.continuity.used && SameButStatus(s.continuity.history, u.continuity.history)
    && u.continuity.secondWind == s.continuity.secondWind && u.continuity.maximum == s.continuity.maximum
    && u.continuity.active == (if s.continuity.active.Some? && s.continuity.active.value.toActor == s.actor then None
                               else s.continuity.active)
  }

  /**
   An accepted, mailed turn counts, passes the turn on and then halts as complete, hands off, halts as
   stuck, at the turn budget or for lack of progress, or goes on, in this order and for no other reason.
   */
  lemma AcceptedTurnEnds(s: Run, cfg: Config, proposed: seq<Proposal>)
    requires WellFormed(cfg) && (s.note == None || !s.note.value.stop)
    ensures var (t, halt) := Turn(s, cfg, Proposed(proposed, false));
            exists u :: IsCounted(s, cfg, proposed, u) && EndsAs(u, cfg, t, halt)
  {
    var s1 := Accept(s, cfg, proposed);
    var u := Advance(s1, cfg);
    NextFollows(cfg, s.actor);
    AdvanceExtends(s1, cfg);
    SettlesAs(u, cfg, s.actor);
    assert IsCounted(s, cfg, proposed, u);
  }

  // ---------------------------------------------------------------------------------------
  // Closing a recovery
  // ---------------------------------------------------------------------------------------

  /** The copy of `id` that counts, the last one, is blocked or disputed. */
  ghost predicate StillStuck(items: seq<Item>, id: string) {
    exists i :: 0 <= i < |items| && items[i].id == id && IsStuck(items[i]) && forall j | i < j < |items| :: items[j].id != id
  }

  lemma {:induction false} LastWithIsLast(items: seq<Item>, id: string)
    ensures LastWith(items, id).Some? && IsStuck(LastWith(items, id).value) <==> StillStuck(items, id)
  {
    if items != [] {
      var front, last := items[..|items| - 1], items[|items| - 1];
      assert items == front + [last];
      StillStuckSnoc(front, last, id);
      if last.id != id { LastWithIsLast(front, id); }
    }
  }

  lemma StillStuckSnoc(front: seq<Item>, last: Item, id: string)
    ensures StillStuck(front + [last], id) <==> if last.id == id then IsStuck(last) else StillStuck(front, id)
  {
    var items := front + [last];
    if last.id == id && IsStuck(last) { assert items[|front|].id == id && IsStuck(items[|front|]); }
    if last.id != id && StillStuck(front, id) {
      var i :| 0 <= i < |front| && front[i].id == id && IsStuck(front[i]) && forall j | i < j < |front| :: front[j].id != id;
      assert items[i].id == id && IsStuck(items[i]);
    }
    if StillStuck(items, id) {
      var i :| 0 <= i < |items| && items[i].id == id && IsStuck(items[i]) && forall j | i < j < |items| :: items[j].id != id;
      if i < |front| {
        assert items[|front|] == last && last.id != id;
        assert front[i].id == id && IsStuck(front[i]);
        assert forall j | i < j < |front| :: front[j] == items[j];
      }
    }
  }

  /**
   The target of a live recovery closes it with its own turn: as unresolved if a listed item is still
   blocked or disputed, as recovered if none is; every other record stays as it was.
   */
  lemma RecoveryClosesAs(s: Run, cfg: Config)
    requires WellFormed(cfg) && LedgerSound(s.continuity, cfg, s.actor) && s.continuity.active.Some?
    ensures var h, h' := s.continuity.history, Advance(s, cfg).continuity.history;
            var n := |h| - 1;
            && |h'| == |h| && h'[..n] == h[..n]
            && h'[n] == h[n].(status := if exists id :: id in h[n].items && StillStuck(s.checklist, id)
                                        then Unresolved else Recovered)
  {
    var h := s.continuity.history;
    var n := |h| - 1;
    SetStatusOfLast(h, Unresolved);
    SetStatusOfLast(h, Recovered);
    forall id | id in h[n].items ensures id in UnresolvedItems(s, h[n]) <==> StillStuck(s.checklist, id) {
      LastWithIsLast(s.checklist, id);
    }
    assert UnresolvedItems(s, h[n]) != {} <==> exists id :: id in h[n].items && StillStuck(s.checklist, id) by {
      if id :| id in UnresolvedItems(s, h[n]) { assert id in h[n].items; }
      if id :| id in h[n].items && StillStuck(s.checklist, id) { assert id in UnresolvedItems(s, h[n]); }
    }
  }

  // ---------------------------------------------------------------------------------------
  // Human notes
  // ---------------------------------------------------------------------------------------

  /** An id of the form `c` followed by digits, and its number. */
  ghost predicate HasNumber(id: string, n: nat) {
    |id| > 1 && id[0] == 'c' && AllDigits(id[1..]) && ParseDecimal(id[1..]) == n
  }

  ghost predicate IsHighest(items: seq<Item>, n: nat) {
    && (forall x, m: nat | x in items && HasNumber(x.id, m) :: m <= n)
    && (n == 0 || exists x :: x in items && HasNumber(x.id, n))
  }

  lemma {:induction false} HighestExactly(items: seq<Item>)
    ensures IsHighest(items, HighestNumber(items))
  {
    if items != [] {
      var front, x := items[..|items| - 1], items[|items| - 1];
      HighestExactly(front);
      var rest, n := HighestNumber(front), HighestNumber(items);
      assert x in items;
      assert n == 0 || exists y :: y in items && HasNumber(y.id, n) by {
        if n == rest && n > 0 {
          var y :| y in front && HasNumber(y.id, n);
          assert y in items;
        } else if n > 0 {
          assert HasNumber(x.id, n);
        }
      }
      forall y, m: nat | y in items && HasNumber(y.id, m) ensures m <= n { if y in front { } }
    }
  }

  /** The item a note appends to a complete checklist: open, nobody's, and numbered one above the rest. */
  ghost predicate IsFollowUp(items: seq<Item>, x: Item, text: string) {
    && x.state == Open && x.owner == None && x.verifiedBy == None && x.evidence == None && x.rejections == 0
    && (exists n: nat :: IsHighest(items, n) && x.id == "c" + Decimal(n + 1))
    && |x.description| <= 420 && x.description <= FOLLOW_UP + text
    && (|FOLLOW_UP + text| <= 420 ==> x.description == FOLLOW_UP + text)
    && (|FOLLOW_UP + text| > 420 ==> |x.description| == 420)
  }

  /** A stuck item goes back to open and to nobody; every other one stays. */
  ghost predicate IsReopened(items: seq<Item>, more: seq<Item>) {
    && |more| == |items|
    && forall i | 0 <= i < |items| ::
         more[i] == if IsStuck(items[i]) then items[i].(state := Open, owner := None, verifiedBy := None) else items[i]
  }

  /** What a note does to the checklist, in every case; it never approves anything. */
  lemma NoteDoes(s: Run, note: Note)
    ensures var t := ApplyNote(s, note);
            && t.note == Some(note) && t.turn == s.turn && t.actor == s.actor && t.continuity == s.continuity
            && if !note.stop && SomeStuck(s.checklist) then
                 IsReopened(s.checklist, t.checklist) && t.halt == None && t.reprompts == 0 && t.streak == 0
               else if !note.stop && AllDone(s.checklist) then
                 && |t.checklist| == |s.checklist| + 1 && t.checklist[..|s.checklist|] == s.checklist
                 && IsFollowUp(s.checklist, t.checklist[|s.checklist|], note.text)
                 && t.halt == None && t.reprompts == 0 && t.streak == 0
               else t == s.(note := Some(note))
  {
    StuckExactlyWhen(s.checklist);
    RevisionFollowsUp(s.checklist, note.text);
  }

  lemma RevisionFollowsUp(items: seq<Item>, text: string)
    ensures IsFollowUp(items, Revision(items, text), text)
  {
    HighestExactly(items);
    assert Revision(items, text).id == "c" + Decimal(HighestNumber(items) + 1);
  }

  // ---------------------------------------------------------------------------------------
  // The limit of the loop
  // ---------------------------------------------------------------------------------------

  /** `loop` never goes beyond its own limit, or the configured one if it has none, and dispatches only below it. */
  lemma LoopStaysInLimit(s: Run, cfg: Config, maxTurns: nat, replies: nat -> Reply)
    requires |cfg.fleet| > 0
    ensures var most := if maxTurns > 0 then maxTurns else cfg.turnsMax;
            var (t, _, calls) := LoopFrom(s, cfg, LoopLimit(cfg, maxTurns), replies, 0);
            t.turn <= Max(s.turn, most) && (calls == 0 <==> s.turn >= most)
  {
    LoopTurns(s, cfg, LoopLimit(cfg, maxTurns), replies, 0);
  }

  lemma {:induction false} LoopTurns(s: Run, cfg: Config, limit: int, replies: nat -> Reply, n: nat)
    requires |cfg.fleet| > 0
    ensures var (t, _, calls) := LoopFrom(s, cfg, limit, replies, n);
            t.turn <= Max(s.turn, limit) && calls >= n && (calls == n <==> s.turn >= limit)
    decreases CallsLeft(s, cfg, limit)
  {
    if s.turn < limit {
      LoopStep(s, cfg, limit, replies, n);
      TurnCounts(s, cfg, replies(n));
      if Turn(s, cfg, replies(n)).1 == None { LoopTurns(Turn(s, cfg, replies(n)).0, cfg, limit, replies, n + 1); }
    } else {
      LoopEnds(s, cfg, limit, replies, n);
    }
  }

  lemma TurnCounts(s: Run, cfg: Config, reply: Reply)
    requires |cfg.fleet| > 0
    ensures Turn(s, cfg, reply).0.turn <= s.turn + 1
  {
    if reply.Proposed? { SettleShape(Advance(Accept(s, cfg, reply.proposed), cfg), cfg, s.actor); }
  }
}
