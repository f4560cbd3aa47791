/**
 Whole-run guarantees of the governed run. A run is any sequence of events: turns with arbitrary
 replies, human notes, and outside writes to `halt` (a retry, an operator stop, the loop itself).
 */
module RunLaws {
  import opened Common
  import opened Envelope
  import opened EnvelopeLaws
  import opened RunState
  import opened Runner

  datatype Event = TurnTaken(reply: Reply) | NoteGiven(note: Note) | HaltSet(halt: Option<Halt>)

  function Step(s: Run, cfg: Config, e: Event): Run
    requires |cfg.fleet| > 0
  {
    match e
    case TurnTaken(reply) => Turn(s, cfg, reply).0
    case NoteGiven(note) => ApplyNote(s, note)
    case HaltSet(halt) => s.(halt := halt)
  }

  function Play(s: Run, cfg: Config, events: seq<Event>): Run
    requires |cfg.fleet| > 0
    decreases |events|
  {
    if events == [] then s else Play(Step(s, cfg, events[0]), cfg, events[1..])
  }

  // ---------------------------------------------------------------------------------------
  // The observer: who last moved each item to awaiting-verification
  // ---------------------------------------------------------------------------------------

  /** The event is a turn whose envelope is reconciled. */
  predicate IsAccepted(s: Run, e: Event) {
    e.TurnTaken? && e.reply.Proposed? && !(s.note.Some? && s.note.value.stop)
  }

  /** Compares the checklist before and after an accepted turn and records who newly submitted what. */
  function Observe(prev: seq<Item>, next: seq<Item>, actor: string, submitter: map<string, string>): map<string, string> {
    var submitted := set x | x in next && x.state == Awaiting
                             && (x.id !in Latest(prev) || Latest(prev)[x.id].state != Awaiting) :: x.id;
    submitter + map id | id in submitted :: actor
  }

  function Watch(s: Run, cfg: Config, e: Event, submitter: map<string, string>): map<string, string>
    requires |cfg.fleet| > 0
  {
    if IsAccepted(s, e) then Observe(s.checklist, Step(s, cfg, e).checklist, s.actor, submitter) else submitter
  }

  function Submitters(s: Run, cfg: Config, events: seq<Event>, submitter: map<string, string>): map<string, string>
    requires |cfg.fleet| > 0
    decreases |events|
  {
    if events == [] then submitter
    else Submitters(Step(s, cfg, events[0]), cfg, events[1..], Watch(s, cfg, events[0], submitter))
  }

  // ---------------------------------------------------------------------------------------
  // Independent verification
  // ---------------------------------------------------------------------------------------

  /** Submitted work names its submitter as owner; finished work has a different verifier. */
  ghost predicate SoundItem(x: Item, fleet: seq<string>, submitter: map<string, string>) {
    && !x.state.Unknown?
    && (x.state in {Awaiting, Done} ==>
          x.id != "" && x.id in submitter && x.owner == Some(submitter[x.id]) && submitter[x.id] in fleet)
    && (x.state == Done ==> x.verifiedBy.Some? && x.verifiedBy.value in fleet && x.verifiedBy != x.owner)
  }

  ghost predicate Sound(s: Run, cfg: Config, submitter: map<string, string>) {
    s.actor in cfg.fleet && forall x | x in s.checklist :: SoundItem(x, cfg.fleet, submitter)
  }

  lemma NextIsAnother(cfg: Config, actor: string)
    requires WellFormed(cfg)
    ensures NextActor(cfg, actor) in cfg.fleet && NextActor(cfg, actor) != actor
  {
  }

  /** The k-th of n places, counted around. */
  function Around(k: nat, n: nat): (place: nat)
    requires n > 0
    ensures place < n
  {
    if k < n then k else Around(k - n, n)
  }

  /** `next` comes after `actor` in the fleet's cyclic order; an outsider is followed by the first member. */
  ghost predicate Follows(fleet: seq<string>, actor: string, next: string)
    requires |fleet| > 0
  {
    if actor !in fleet then next == fleet[0]
    else exists k :: 0 <= k < |fleet| && fleet[k] == actor && next == fleet[Around(k + 1, |fleet|)]
  }

  lemma {:induction false} PlaceOf(names: seq<string>, k: nat)
    requires k < |names| && forall i, j | 0 <= i < j < |names| :: names[i] != names[j]
    ensures IndexOf(names, names[k]) == k
  {
    if k > 0 {
      assert names[1..][k - 1] == names[k];
      PlaceOf(names[1..], k - 1);
    }
  }

  /** From any place in the fleet the next agent is the one at the next place, and the last is followed by the first. */
  lemma NextInOrder(cfg: Config, k: nat)
    requires WellFormed(cfg) && k < |cfg.fleet|
    ensures NextActor(cfg, cfg.fleet[k]) == cfg.fleet[Around(k + 1, |cfg.fleet|)]
  {
    PlaceOf(cfg.fleet, k);
  }

  lemma NextFollows(cfg: Config, actor: string)
    requires WellFormed(cfg)
    ensures Follows(cfg.fleet, actor, NextActor(cfg, actor))
  {
    if actor in cfg.fleet {
      var k :| 0 <= k < |cfg.fleet| && cfg.fleet[k] == actor;
      NextInOrder(cfg, k);
    }
  }

  lemma AcceptIsSound(s: Run, cfg: Config, proposed: seq<Proposal>, submitter: map<string, string>)
    requires WellFormed(cfg) && Sound(s, cfg, submitter)
    ensures var t := Accept(s, cfg, proposed);
            forall x | x in t.checklist :: SoundItem(x, cfg.fleet, Observe(s.checklist, t.checklist, s.actor, submitter))
  {
    var p, byId := TurnPolicy(s, cfg), Latest(s.checklist);
    var kept := Reconciled(s.checklist, proposed, p).kept;
    var seen := Observe(s.checklist, kept, s.actor, submitter);
    AcceptedProvenance(s.checklist, proposed, p);
    forall x | x in kept ensures SoundItem(x, cfg.fleet, seen) {
      assert Provenance(byId, x, p);
      if x.id in byId { StepIsSound(byId[x.id], x, p, cfg.fleet, submitter, kept, byId); }
    }
  }

  lemma StepIsSound(was: Item, x: Item, p: Policy, fleet: seq<string>, submitter: map<string, string>,
                    kept: seq<Item>, byId: map<string, Item>)
    requires LegalStep(was, x, p) && x in kept && was.id != "" && p.actor in fleet
    requires SoundItem(was, fleet, submitter)
    requires x.id in byId && byId[x.id] == was
    requires forall y | y in kept && y.id in byId :: LegalStep(byId[y.id], y, p)
    ensures var submitted := set y | y in kept && y.state == Awaiting
                                     && (y.id !in byId || byId[y.id].state != Awaiting) :: y.id;
            SoundItem(x, fleet, submitter + map id | id in submitted :: p.actor)
  {
    var submitted := set y | y in kept && y.state == Awaiting && (y.id !in byId || byId[y.id].state != Awaiting) :: y.id;
    if was.state in {Awaiting, Done} { assert x.id !in submitted; }
    else if x.state == Awaiting { assert x.id in submitted; }
  }

  /** Only an accepted turn and a human note touch the checklist. */
  lemma StepEffect(s: Run, cfg: Config, e: Event)
    requires WellFormed(cfg) && s.actor in cfg.fleet
    ensures var t := Step(s, cfg, e);
            && t.actor in cfg.fleet && t.turn >= s.turn
            && (!e.NoteGiven? ==>
                  t.checklist == if IsAccepted(s, e) then Accept(s, cfg, e.reply.proposed).checklist else s.checklist)
  {
    NextIsAnother(cfg, s.actor);
    if IsAccepted(s, e) { SettleShape(Advance(Accept(s, cfg, e.reply.proposed), cfg), cfg, s.actor); }
  }

  lemma StepKeepsSound(s: Run, cfg: Config, e: Event, submitter: map<string, string>)
    requires WellFormed(cfg) && Sound(s, cfg, submitter)
    ensures Sound(Step(s, cfg, e), cfg, Watch(s, cfg, e, submitter))
  {
    StepEffect(s, cfg, e);
    if IsAccepted(s, e) { AcceptIsSound(s, cfg, e.reply.proposed, submitter); }
  }

  /**
   In every run, whatever the agents propose and whatever the human does: every finished item has an
   owner and a different verifier, both from the fleet, and the owner is the agent that last moved it
   to awaiting-verification.
   */
  lemma {:induction false} EveryRunIsSound(s: Run, cfg: Config, events: seq<Event>, submitter: map<string, string>)
    requires WellFormed(cfg) && Sound(s, cfg, submitter)
    ensures Sound(Play(s, cfg, events), cfg, Submitters(s, cfg, events, submitter))
    decreases |events|
  {
    if events != [] {
      StepKeepsSound(s, cfg, events[0], submitter);
      EveryRunIsSound(Step(s, cfg, events[0]), cfg, events[1..], Watch(s, cfg, events[0], submitter));
    }
  }

  /** In particular from the moment a run is created. */
  lemma CreatedRunsAreSound(cfg: Config, c: Continuity, events: seq<Event>)
    requires WellFormed(cfg)
    ensures Sound(Play(Created(cfg, c), cfg, events), cfg, Submitters(Created(cfg, c), cfg, events, map[]))
  {
    EveryRunIsSound(Created(cfg, c), cfg, events, map[]);
  }

  lemma PlayOne(s: Run, cfg: Config, e: Event)
    requires |cfg.fleet| > 0
    ensures Play(s, cfg, [e]) == Step(s, cfg, e)
  {
    assert [e][1..] == [];
  }

  /** `loop` is itself a run: whatever holds after every run holds when `loop` returns. */
  lemma {:induction false} LoopIsARun(s: Run, cfg: Config, limit: int, replies: nat -> Reply, n: nat)
    returns (events: seq<Event>)
    requires |cfg.fleet| > 0
    ensures Play(s, cfg, events) == LoopFrom(s, cfg, limit, replies, n).0
    ensures forall e | e in events :: !e.NoteGiven?
    decreases CallsLeft(s, cfg, limit)
  {
    var final := LoopFrom(s, cfg, limit, replies, n).0;
    if s.turn >= limit {
      PlayOne(s, cfg, HaltSet(final.halt));
      return [HaltSet(final.halt)];
    }
    var e := TurnTaken(replies(n));
    if Turn(s, cfg, replies(n)).1.Some? {
      events := [e, HaltSet(final.halt)];
      assert events[1..] == [HaltSet(final.halt)];
      PlayOne(Step(s, cfg, e), cfg, HaltSet(final.halt));
    } else {
      TurnProgress(s, cfg, replies(n), limit);
      var rest := LoopIsARun(Step(s, cfg, e), cfg, limit, replies, n + 1);
      events := [e] + rest;
      assert events[1..] == rest;
    }
  }

  // ---------------------------------------------------------------------------------------
  // Fresh ids
  // ---------------------------------------------------------------------------------------

  lemma {:induction false} HighestIsHighest(items: seq<Item>, x: Item)
    requires x in items && ItemNumber(x.id).Some?
    ensures ItemNumber(x.id).value <= HighestNumber(items)
  {
    if x in items[..|items| - 1] { HighestIsHighest(items[..|items| - 1], x); }
  }

  /** The id a human revision appends is on no existing checklist. */
  lemma FreshIdIsFresh(items: seq<Item>)
    ensures forall x | x in items :: x.id != FreshItemId(items)
  {
    var n := HighestNumber(items) + 1;
    DecimalRoundTrip(n);
    assert ("c" + Decimal(n))[1..] == Decimal(n);
    forall x | x in items && x.id == FreshItemId(items) ensures false {
      HighestIsHighest(items, x);
    }
  }

  // ---------------------------------------------------------------------------------------
  // Custody
  // ---------------------------------------------------------------------------------------

  /** The event is a note that finds a copy of `id` blocked or disputed, and so reopens it. */
  predicate Reopens(s: Run, e: Event, id: string) {
    e.NoteGiven? && !e.note.stop && exists x | x in s.checklist :: x.id == id && x.state in {Blocked, Disputed}
  }

  /** The event is an accepted turn by the target of a live recovery that lists `id`. */
  predicate Recovers(s: Run, cfg: Config, e: Event, id: string) {
    IsAccepted(s, e) && id in TurnPolicy(s, cfg).recovery
  }

  /** `id` is neither reopened by a note nor handed over by an accepted turn of its recovery. */
  ghost predicate Undisturbed(s: Run, cfg: Config, events: seq<Event>, id: string)
    requires |cfg.fleet| > 0
    decreases |events|
  {
    events == [] ||
    (&& !Reopens(s, events[0], id)
     && !Recovers(s, cfg, events[0], id)
     && Undisturbed(Step(s, cfg, events[0]), cfg, events[1..], id))
  }

  /** Every copy of `id` is past `open` and belongs to `owner`. */
  ghost predicate HeldBy(items: seq<Item>, id: string, owner: string) {
    && id != "" && id in Latest(items)
    && forall x | x in items && x.id == id :: x.state != Open && x.owner == Some(owner)
  }

  lemma AcceptKeepsCustody(s: Run, cfg: Config, proposed: seq<Proposal>, id: string, owner: string)
    requires s.actor != "" && HeldBy(s.checklist, id, owner) && id !in TurnPolicy(s, cfg).recovery
    ensures HeldBy(Accept(s, cfg, proposed).checklist, id, owner)
  {
    var p := TurnPolicy(s, cfg);
    AcceptedProvenance(s.checklist, proposed, p);
    ScopeIsKept(s.checklist, proposed, p);
    var kept := Reconciled(s.checklist, proposed, p).kept;
    assert id in Ids(s.checklist);
    forall x | x in kept && x.id == id ensures x.state != Open && x.owner == Some(owner) {
      assert Provenance(Latest(s.checklist), x, p);
    }
  }

  /** A note that does not reopen the item leaves it alone, whatever else it reopens or appends. */
  lemma NoteKeepsCustody(s: Run, note: Note, id: string, owner: string)
    requires HeldBy(s.checklist, id, owner) && !Reopens(s, NoteGiven(note), id)
    ensures HeldBy(ApplyNote(s, note).checklist, id, owner)
  {
    if note.stop {
      assert ApplyNote(s, note).checklist == s.checklist;
    } else if Blocking(s.checklist) != [] {
      ReopenKeepsCustody(s.checklist, id, owner);
    } else if IsComplete(s.checklist) {
      FreshIdIsFresh(s.checklist);
      assert Latest(s.checklist)[id] in s.checklist;
      AppendKeepsCustody(s.checklist, Revision(s.checklist, note.text), id, owner);
    }
  }

  lemma ReopenKeepsCustody(items: seq<Item>, id: string, owner: string)
    requires HeldBy(items, id, owner) && forall x | x in items && x.id == id :: x.state !in {Blocked, Disputed}
    ensures HeldBy(ReopenAll(items), id, owner)
  {
    var more := ReopenAll(items);
    var i :| 0 <= i < |items| && items[i] == Latest(items)[id];
    assert more[i] in more && more[i].id == id;
    forall x | x in more && x.id == id ensures x in items {
      var k :| 0 <= k < |more| && more[k] == x;
      assert items[k] in items && items[k].id == id;
    }
  }

  lemma AppendKeepsCustody(items: seq<Item>, extra: Item, id: string, owner: string)
    requires HeldBy(items, id, owner) && extra.id != id
    ensures HeldBy(items + [extra], id, owner)
  {
    assert Latest(items)[id] in items + [extra];
  }

  /** A note that reopens it does end custody. */
  lemma ReopeningEndsCustody(s: Run, note: Note, id: string, owner: string)
    requires HeldBy(s.checklist, id, owner)
    ensures HeldBy(ApplyNote(s, note).checklist, id, owner) <==> !Reopens(s, NoteGiven(note), id)
  {
    if Reopens(s, NoteGiven(note), id) {
      var i :| 0 <= i < |s.checklist| && s.checklist[i].id == id && s.checklist[i].state in {Blocked, Disputed};
      assert s.checklist[i] in Blocking(s.checklist);
      assert ApplyNote(s, note).checklist[i] in ApplyNote(s, note).checklist;
    } else {
      NoteKeepsCustody(s, note, id, owner);
    }
  }

  lemma StepKeepsCustody(s: Run, cfg: Config, e: Event, id: string, owner: string)
    requires WellFormed(cfg) && s.actor in cfg.fleet
    requires HeldBy(s.checklist, id, owner) && !Reopens(s, e, id) && !Recovers(s, cfg, e, id)
    ensures var t := Step(s, cfg, e); t.actor in cfg.fleet && HeldBy(t.checklist, id, owner)
  {
    StepEffect(s, cfg, e);
    if e.NoteGiven? { NoteKeepsCustody(s, e.note, id, owner); }
    if IsAccepted(s, e) { AcceptKeepsCustody(s, cfg, e.reply.proposed, id, owner); }
  }

  /**
   Custody: once an item is owned and past `open`, its owner never changes until a human note finds it
   blocked or disputed, or the target of a recovery that lists it has a turn accepted. Being blocked,
   disputed, rejected or verified does not move custody, nor do other notes.
   */
  lemma {:induction false} CustodyIsKept(s: Run, cfg: Config, events: seq<Event>, id: string, owner: string)
    requires WellFormed(cfg) && s.actor in cfg.fleet
    requires HeldBy(s.checklist, id, owner) && Undisturbed(s, cfg, events, id)
    ensures HeldBy(Play(s, cfg, events).checklist, id, owner)
    decreases |events|
  {
    if events != [] {
      StepKeepsCustody(s, cfg, events[0], id, owner);
      CustodyIsKept(Step(s, cfg, events[0]), cfg, events[1..], id, owner);
    }
  }

  // ---------------------------------------------------------------------------------------
  // Scope
  // ---------------------------------------------------------------------------------------

  /** Every proposal in these events uses each id at most once. */
  ghost predicate NamesEachOnce(events: seq<Event>) {
    forall e | e in events && e.TurnTaken? && e.reply.Proposed? :: DistinctNames(e.reply.proposed)
  }

  lemma IdsPointwise(items: seq<Item>, more: seq<Item>)
    requires |items| <= |more| && forall i | 0 <= i < |items| :: more[i].id == items[i].id
    ensures Ids(items) <= Ids(more) && (|items| == |more| ==> Ids(more) == Ids(items))
  {
    forall id | id in Ids(items) ensures id in Ids(more) {
      var i :| 0 <= i < |items| && items[i].id == id;
      assert more[i] in more;
    }
    if |items| == |more| {
      forall id | id in Ids(more) ensures id in Ids(items) {
        var i :| 0 <= i < |more| && more[i].id == id;
        assert items[i] in items;
      }
    }
  }

  lemma NoteKeepsScope(s: Run, note: Note)
    ensures Ids(s.checklist) <= Ids(ApplyNote(s, note).checklist)
    ensures DistinctIds(s.checklist) ==> DistinctIds(ApplyNote(s, note).checklist)
    ensures Blocking(s.checklist) != [] ==> Ids(ApplyNote(s, note).checklist) == Ids(s.checklist)
  {
    FreshIdIsFresh(s.checklist);
    IdsPointwise(s.checklist, ApplyNote(s, note).checklist);
  }

  /**
   Scope over a whole run: no id is ever lost, not even by a human note; agents cannot add one once
   turn 2 is reached; and ids stay unique as long as each proposal's own ids are.
   */
  lemma {:induction false} ScopeOverRuns(s: Run, cfg: Config, events: seq<Event>)
    requires WellFormed(cfg) && s.actor in cfg.fleet
    ensures var t := Play(s, cfg, events);
            && Ids(s.checklist) <= Ids(t.checklist)
            && (s.turn >= 2 && (forall e | e in events :: !e.NoteGiven?) ==> Ids(t.checklist) == Ids(s.checklist))
            && (DistinctIds(s.checklist) && NamesEachOnce(events) ==> DistinctIds(t.checklist))
    decreases |events|
  {
    if events != [] {
      var e, t := events[0], Step(s, cfg, events[0]);
      StepEffect(s, cfg, e);
      if IsAccepted(s, e) {
        ScopeIsKept(s.checklist, e.reply.proposed, TurnPolicy(s, cfg));
      } else if e.NoteGiven? {
        NoteKeepsScope(s, e.note);
      }
      assert forall f | f in events[1..] :: f in events;
      ScopeOverRuns(t, cfg, events[1..]);
    }
  }
}
