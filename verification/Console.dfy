/**
 The console's view of a run (src/console.py), and what it says once `loop` returns "complete".
 */
module Console {
  import opened Common
  import opened Envelope
  import opened RunState
  import opened Runner
  import opened RunLaws

  /** `_text(value, 40) or None`: stripped, cut at 40 characters, null when empty. */
  function Label(name: Option<string>): Option<string> {
    if name == None then None
    else
      var text := Strip(name.value);
      if text == "" then None else Some(text[..Min(|text|, 40)])
  }

  predicate Truthy(name: Option<string>) { name.Some? && name.value != "" }

  predicate IndependentItem(x: Item) {
    x.state == Done && Truthy(x.owner) && Truthy(x.verifiedBy) && x.owner != x.verifiedBy
  }

  /** The checklist half of `_independently_complete`. */
  predicate ChecklistVerified(items: seq<Item>) {
    items != [] && forall x | x in items :: IndependentItem(x)
  }

  /** `_independently_complete`: the recorded halt must also say "complete". */
  predicate IndependentlyComplete(s: Run) {
    s.halt == Some(Complete) && ChecklistVerified(s.checklist)
  }

  /** The receipt counts look at the first fifty items, by label. */
  function Shown(items: seq<Item>): seq<Item> { items[..Min(|items|, 50)] }

  function CountVerified(items: seq<Item>): nat {
    if items == [] then 0
    else
      var x := items[0];
      CountVerified(items[1..]) +
      if x.state == Done && Label(x.owner).Some? && Label(x.verifiedBy).Some? && Label(x.owner) != Label(x.verifiedBy)
      then 1 else 0
  }

  function CountSelfApproved(items: seq<Item>): nat {
    if items == [] then 0
    else
      var x := items[0];
      CountSelfApproved(items[1..]) +
      if x.state == Done && Label(x.owner).Some? && Label(x.owner) == Label(x.verifiedBy) then 1 else 0
  }

  /** A label is the trimmed name, cut at forty characters, and there is none of a blank name. */
  lemma LabelExactly(name: string) returns (text: string)
    ensures IsTrimOf(text, name)
    ensures Label(Some(name)) == if text == "" then None else if |text| <= 40 then Some(text) else Some(text[..40])
    ensures Label(None) == None
  {
    text := Strip(name);
    StripTrims(name);
    if |text| <= 40 { assert text[..|text|] == text; }
  }

  /** The items that a predicate holds of. */
  ghost function Places(items: seq<Item>, p: Item -> bool): set<int> { set i: int | 0 <= i < |items| && p(items[i]) }

  lemma PlacesSnoc(front: seq<Item>, last: Item, p: Item -> bool)
    ensures |Places(front + [last], p)| == |Places(front, p)| + if p(last) then 1 else 0
  {
    var items := front + [last];
    assert items[|front|] == last && forall i: int | 0 <= i < |front| :: items[i] == front[i];
    assert Places(items, p) == Places(front, p) + if p(last) then {|front|} else {};
  }

  /** Done, owned and verified, by names that the console prints differently. */
  predicate LooksVerified(x: Item) {
    x.state == Done && Label(x.owner).Some? && Label(x.verifiedBy).Some? && Label(x.owner) != Label(x.verifiedBy)
  }

  /** Done, and owned and verified by one and the same printed name. */
  predicate LooksSelfApproved(x: Item) {
    x.state == Done && Label(x.owner).Some? && Label(x.verifiedBy) == Label(x.owner)
  }

  lemma {:induction false} CountsSnoc(front: seq<Item>, last: Item)
    ensures CountVerified(front + [last]) == CountVerified(front) + if LooksVerified(last) then 1 else 0
    ensures CountSelfApproved(front + [last]) == CountSelfApproved(front) + if LooksSelfApproved(last) then 1 else 0
  {
    if front == [] {
      assert [] + [last] == [last] && [last][1..] == [];
    } else {
      assert (front + [last])[1..] == front[1..] + [last];
      CountsSnoc(front[1..], last);
    }
  }

  /** The two counts of the receipt are the numbers of those items. */
  lemma {:induction false} CountsExactly(items: seq<Item>)
    ensures CountVerified(items) == |Places(items, LooksVerified)|
    ensures CountSelfApproved(items) == |Places(items, LooksSelfApproved)|
  {
    if items == [] {
      assert Places(items, LooksVerified) == {} && Places(items, LooksSelfApproved) == {};
    } else {
      var front, last := items[..|items| - 1], items[|items| - 1];
      assert items == front + [last];
      CountsExactly(front);
      CountsSnoc(front, last);
      PlacesSnoc(front, last, LooksVerified);
      PlacesSnoc(front, last, LooksSelfApproved);
    }
  }

  /** The fleet's names are told apart by what the console prints of them. */
  ghost predicate Distinguishable(cfg: Config) {
    forall i, j | 0 <= i < |cfg.fleet| && 0 <= j < |cfg.fleet| ::
      Label(Some(cfg.fleet[i])).Some? && (i != j ==> Label(Some(cfg.fleet[i])) != Label(Some(cfg.fleet[j])))
  }

  lemma {:induction false} ReceiptCounts(items: seq<Item>, cfg: Config, submitter: map<string, string>)
    requires Distinguishable(cfg)
    requires forall x | x in items :: SoundItem(x, cfg.fleet, submitter) && x.state == Done
    ensures CountSelfApproved(items) == 0 && CountVerified(items) == |items|
  {
    if items != [] {
      assert SoundItem(items[0], cfg.fleet, submitter);
      ReceiptCounts(items[1..], cfg, submitter);
    }
  }

  // ---------------------------------------------------------------------------------------
  // `loop` returning "complete"
  // ---------------------------------------------------------------------------------------

  /** How one turn treats the recorded halt: only a hand-off clears it, and completion leaves it alone. */
  lemma TurnAndHalt(s: Run, cfg: Config, reply: Reply)
    requires |cfg.fleet| > 0
    ensures var (t, halt) := Turn(s, cfg, reply);
            && t.continuity.used >= s.continuity.used
            && (halt == Some(Complete) ==>
                  IsComplete(t.checklist) && t.halt == s.halt && t.continuity.used == s.continuity.used)
            && (halt == None ==> t.halt == if t.continuity.used > s.continuity.used then None else s.halt)
  {
    match reply
    case Proposed(proposed, _) => SettleAndHalt(Advance(Accept(s, cfg, proposed), cfg), cfg, s.actor);
    case _ =>
  }

  lemma SettleAndHalt(s: Run, cfg: Config, actor: string)
    requires |cfg.fleet| > 0
    ensures var (t, halt) := Settle(s, cfg, actor);
            && t.continuity.used >= s.continuity.used
            && (halt == Some(Complete) ==>
                  IsComplete(t.checklist) && t.halt == s.halt && t.continuity.used == s.continuity.used)
            && (halt == None ==> t.halt == if t.continuity.used > s.continuity.used then None else s.halt)
  {
  }

  /**
   When `loop` returns "complete" every item is done, and the recorded halt says so exactly when no
   other halt was recorded before the loop, or a hand-off inside the loop cleared it.
   */
  lemma {:induction false} CompleteLoop(s: Run, cfg: Config, limit: int, replies: nat -> Reply, n: nat)
    requires |cfg.fleet| > 0 && LoopFrom(s, cfg, limit, replies, n).1 == Complete
    ensures var t := LoopFrom(s, cfg, limit, replies, n).0;
            && IsComplete(t.checklist)
            && t.continuity.used >= s.continuity.used
            && (t.halt == Some(Complete) <==>
                  s.halt in {None, Some(Complete)} || t.continuity.used > s.continuity.used)
    decreases CallsLeft(s, cfg, limit)
  {
    TurnAndHalt(s, cfg, replies(n));
    var (t, halt) := Turn(s, cfg, replies(n));
    if halt == None {
      TurnProgress(s, cfg, replies(n), limit);
      CompleteLoop(t, cfg, limit, replies, n + 1);
    }
  }

  /**
   Whatever the agents propose, from any sound run: if `loop` returns "complete" then the checklist
   passes the console's test of independent completion, nothing is counted as self-approved and
   every shown item is counted as verified.
   */
  lemma CompleteMeansVerified(s: Run, cfg: Config, submitter: map<string, string>, limit: int, replies: nat -> Reply)
    requires WellFormed(cfg) && Sound(s, cfg, submitter)
    requires LoopFrom(s, cfg, limit, replies, 0).1 == Complete
    ensures var t := LoopFrom(s, cfg, limit, replies, 0).0;
            && ChecklistVerified(t.checklist)
            && (Distinguishable(cfg) ==>
                  && CountSelfApproved(Shown(t.checklist)) == 0
                  && CountVerified(Shown(t.checklist)) == if |t.checklist| <= 50 then |t.checklist| else 50)
            && (IndependentlyComplete(t) <==>
                  s.halt in {None, Some(Complete)} || t.continuity.used > s.continuity.used)
  {
    CompleteLoop(s, cfg, limit, replies, 0);
    var events := LoopIsARun(s, cfg, limit, replies, 0);
    EveryRunIsSound(s, cfg, events, submitter);
    var t, seen := LoopFrom(s, cfg, limit, replies, 0).0, Submitters(s, cfg, events, submitter);
    FinishedIsVerified(t.checklist, cfg, seen);
  }

  /** A run that cannot hand off before the loop cannot hand off inside it. */
  lemma {:induction false} NoHandOffInLoop(s: Run, cfg: Config, limit: int, replies: nat -> Reply, n: nat)
    requires |cfg.fleet| > 0 && !CanRecover(s.continuity) && LoopFrom(s, cfg, limit, replies, n).1 == Complete
    ensures LoopFrom(s, cfg, limit, replies, n).0.continuity.used == s.continuity.used
    decreases CallsLeft(s, cfg, limit)
  {
    var (t, halt) := Turn(s, cfg, replies(n));
    TurnAndHalt(s, cfg, replies(n));
    if halt == None {
      TurnShape(s, cfg, replies(n));
      TurnProgress(s, cfg, replies(n), limit);
      NoHandOffInLoop(t, cfg, limit, replies, n + 1);
    }
  }

  /**
   What a caller can tell before it resumes a run. With no halt recorded, or "complete", a completed loop
   is always shown as complete. If no hand-off is possible, that is also the only way.
   */
  lemma ShownCompleteWhen(s: Run, cfg: Config, submitter: map<string, string>, limit: int, replies: nat -> Reply)
    requires WellFormed(cfg) && Sound(s, cfg, submitter)
    requires LoopFrom(s, cfg, limit, replies, 0).1 == Complete
    ensures var t := LoopFrom(s, cfg, limit, replies, 0).0;
            && (s.halt in {None, Some(Complete)} ==> IndependentlyComplete(t))
            && (!CanRecover(s.continuity) ==> (IndependentlyComplete(t) <==> s.halt in {None, Some(Complete)}))
  {
    CompleteMeansVerified(s, cfg, submitter, limit, replies);
    if !CanRecover(s.continuity) { NoHandOffInLoop(s, cfg, limit, replies, 0); }
  }

  /** On the checklists a run can reach, the console's test passes exactly if there are items and all are done. */
  lemma TestPassesExactlyWhen(items: seq<Item>, cfg: Config, submitter: map<string, string>)
    requires WellFormed(cfg) && forall x | x in items :: SoundItem(x, cfg.fleet, submitter)
    ensures ChecklistVerified(items) <==> items != [] && forall i | 0 <= i < |items| :: items[i].state == Done
    ensures forall x | x in items :: IndependentItem(x) <==> x.state == Done
  {
    forall x | x in items ensures IndependentItem(x) <==> x.state == Done { assert SoundItem(x, cfg.fleet, submitter); }
  }

  /** No item that its own owner verified, or that nobody owns or verified, passes. */
  lemma SelfApprovedNeverPasses(items: seq<Item>, x: Item)
    requires x in items && (x.verifiedBy == x.owner || !Truthy(x.owner) || !Truthy(x.verifiedBy) || x.state != Done)
    ensures !ChecklistVerified(items)
  {
    assert !IndependentItem(x);
  }

  lemma FinishedIsVerified(items: seq<Item>, cfg: Config, submitter: map<string, string>)
    requires WellFormed(cfg) && IsComplete(items)
    requires forall x | x in items :: SoundItem(x, cfg.fleet, submitter)
    ensures ChecklistVerified(items)
    ensures Distinguishable(cfg) ==>
              CountSelfApproved(Shown(items)) == 0 && CountVerified(Shown(items)) == |Shown(items)|
  {
    forall x | x in items ensures IndependentItem(x) { assert SoundItem(x, cfg.fleet, submitter); }
    if Distinguishable(cfg) { ReceiptCounts(Shown(items), cfg, submitter); }
  }

  lemma ApprovalIsAccepted(item: Item, done: Item, p: Policy)
    requires item.id != "" && item.state == Awaiting && item.owner != Some(p.actor)
    requires done == item.(state := Done, verifiedBy := Some(p.actor))
    ensures Reconciled([item], [Named(item.(state := Done))], p).kept == [done]
  {
    OneItemOneProposal(item, item.(state := Done), p);
  }

  /** A proposal about the only item of a checklist. */
  lemma OneItemOneProposal(item: Item, it: Item, p: Policy)
    requires item.id != "" && it.id == item.id
    ensures Reconciled([item], [Named(it)], p).kept == Judge(item, it, p).kept
  {
    var pr := Named(it);
    LatestOfOne(item);
    assert [] + [pr] == [pr];
    RuledSnoc(Latest([item]), [], pr, p);
    assert pr in [pr] && item.id in NamedIds([pr]);
    NothingRestored(Latest([item]), item.id, NamedIds([pr]));
  }

  lemma LatestOfOne(item: Item)
    requires item.id != ""
    ensures Latest([item]) == map[item.id := item] && KeyOrder([item]) == [item.id]
  {
    assert [item][..0] == [];
    assert KeyOrder([item][..0]) == [];
  }

  lemma NothingRestored(byId: map<string, Item>, id: string, seen: set<string>)
    requires id in byId && id in seen
    ensures Restored(byId, [id], seen).kept == []
  {
    assert [id][..0] == [];
  }

  /**
   A run that halted for lack of progress and is resumed without clearing that halt: the other agent
   approves its last item and `loop` returns "complete", but the console never shows it as complete.
   */
  lemma StaleHaltHidesCompletion(s: Run, cfg: Config, limit: int, item: Item, replies: nat -> Reply)
    requires |cfg.fleet| > 0 && s.turn < limit && s.note == None && s.halt == Some(NoProgress)
    requires s.checklist == [item] && item.id != "" && item.state == Awaiting
    requires Truthy(item.owner) && item.owner != Some(s.actor) && s.actor != ""
    requires replies(0) == Proposed([Named(item.(state := Done))], false)
    ensures var (t, halt, calls) := LoopFrom(s, cfg, limit, replies, 0);
            halt == Complete && ChecklistVerified(t.checklist) && !IndependentlyComplete(t)
  {
    ApprovalCompletes(s, cfg, item);
    LoopStep(s, cfg, limit, replies, 0);
    assert IndependentItem(item.(state := Done, verifiedBy := Some(s.actor)));
  }

  lemma ApprovalCompletes(s: Run, cfg: Config, item: Item)
    requires |cfg.fleet| > 0 && s.note == None && s.checklist == [item] && item.id != "" && item.state == Awaiting
    requires item.owner != Some(s.actor)
    ensures var (t, halt) := Turn(s, cfg, Proposed([Named(item.(state := Done))], false));
            halt == Some(Complete) && t.checklist == [item.(state := Done, verifiedBy := Some(s.actor))] && t.halt == s.halt
  {
    var done := item.(state := Done, verifiedBy := Some(s.actor));
    ApprovalIsAccepted(item, done, TurnPolicy(s, cfg));
    assert Accept(s, cfg, [Named(item.(state := Done))]).checklist == [done];
    assert IsComplete([done]);
  }
}
