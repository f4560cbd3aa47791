/**
 What `reconcile` guarantees about one turn, for every proposal an agent can make:
 the table of grants, independent verification, custody, rejections and scope.
 */
module EnvelopeLaws {
  import opened Common
  import opened Envelope

  /** The non-empty ids of a checklist. */
  function Ids(items: seq<Item>): set<string> {
    set x | x in items && x.id != "" :: x.id
  }

  /** The transitions `p.actor` may make, as a table by requested state, in no order of guards. */
  predicate Granted(was: Item, it: Item, p: Policy) {
    var mine := was.owner == Some(p.actor);
    var listed := it.id in p.recovery && was.state in {Claimed, Blocked};
    var same := was.state == it.state && was.owner == it.owner;
    match it.state
    case Open => same
    case Claimed => same || listed || was.state == Open || (was.state == Awaiting && !mine)
    case Awaiting => same || listed || (was.state in {Claimed, Open} && (was.owner == None || mine))
    case Done => same || (was.state == Awaiting && !mine)
    case Blocked => true
    case Disputed => true
    case Unknown(_) => same
  }

  /** A proposal is accepted exactly when the table grants it; otherwise the item is untouched. */
  lemma JudgeFollowsTable(was: Item, it: Item, p: Policy)
    ensures Judge(was, it, p).violations == [] <==> Granted(was, it, p)
    ensures |Judge(was, it, p).kept| == 1
    ensures !Granted(was, it, p) ==> Judge(was, it, p).kept == [was]
    ensures Granted(was, it, p) ==>
              var x := Judge(was, it, p).kept[0];
              x.state == it.state
              || (was.state == Awaiting && it.state == Claimed && x.state == Disputed
                  && x.rejections > p.rejectionsMax)
  {
  }

  predicate HasText(text: Option<string>) { text.Some? && text.value != "" }

  /**
   What a ruling leaves alone. Evidence is never lost and is replaced only by evidence, a rejected
   proposal replaces nothing, a description changes only while state and owner stay, and a verifier is
   named, or cleared by a hand-over, but never chosen by the proposal.
   */
  lemma JudgeKeepsTheRest(was: Item, it: Item, p: Policy)
    ensures |Judge(was, it, p).kept| == 1
    ensures var x := Judge(was, it, p).kept[0];
            && x.id == was.id
            && (HasText(was.evidence) ==> HasText(x.evidence))
            && (x.evidence == was.evidence || (Granted(was, it, p) && x.evidence == it.evidence && HasText(x.evidence)))
            && (Granted(was, it, p) && HasText(it.evidence) && was.state != Open ==> x.evidence == it.evidence)
            && (x.description == was.description || (x.description == it.description && x.state == was.state && x.owner == was.owner))
            && x.verifiedBy in {was.verifiedBy, None, Some(p.actor)}
            && (was.state == Open && x.state == Claimed ==> x.owner == OrElse(it.owner, Some(p.actor)))
  {
  }

  /** A refusal names its reason, by what was asked for and not by the order of the tests. */
  lemma RefusalsAreNamed(was: Item, it: Item, p: Policy)
    requires !Granted(was, it, p)
    ensures Judge(was, it, p).violations ==
              [match it.state
               case Done => if was.state == Awaiting then SelfVerification(it.id) else DoneNeedsAwaiting(it.id, was.state)
               case Claimed => if was.state == Awaiting then SelfRejection(it.id)
                               else IllegalTransition(it.id, was.state, Claimed)
               case Awaiting => if was.state in {Open, Claimed} then NotYours(it.id)
                                else IllegalTransition(it.id, was.state, Awaiting)
               case other => IllegalTransition(it.id, was.state, other)]
  {
  }

  /**
   What an accepted proposal makes of the item: who owns it, who verified it, how often it was rejected
   and what is kept as its evidence.
   */
  lemma GrantsAreCarriedOut(was: Item, it: Item, p: Policy)
    requires Granted(was, it, p)
    ensures var x := Judge(was, it, p).kept[0];
            var taken := it.id in p.recovery && was.state in {Claimed, Blocked} && it.state in {Claimed, Awaiting};
            var same := !taken && was.state == it.state && was.owner == it.owner;
            var claimed := !taken && !same && was.state == Open && it.state == Claimed;
            var submitted := !taken && !same && was.state != Awaiting && it.state == Awaiting;
            var rejected := was.state == Awaiting && it.state == Claimed;
            && x.owner == (if taken then Some(p.actor)
                           else if claimed && !HasText(it.owner) then Some(p.actor)
                           else if claimed then it.owner
                           else if submitted && !HasText(was.owner) then Some(p.actor)
                           else was.owner)
            && x.verifiedBy == (if taken then None else if !same && it.state == Done then Some(p.actor) else was.verifiedBy)
            && x.rejections == was.rejections + (if rejected then 1 else 0)
            && x.evidence == (if claimed || !HasText(it.evidence) then was.evidence else it.evidence)
            && x.description == (if same && it.description != "" then it.description else was.description)
            && x.state == (if rejected && x.rejections > p.rejectionsMax then Disputed else it.state)
  {
  }

  /**
   A new item is kept in open scope, as proposed if it is open or claimed, else opened again and named as a
   violation; in closed scope nothing of its id is kept, and the violation says so.
   */
  lemma NewItemsAreAdmitted(prev: seq<Item>, proposed: seq<Proposal>, p: Policy, it: Item)
    requires Named(it) in proposed && it.id !in Latest(prev)
    ensures var r := Reconciled(prev, proposed, p);
            if !p.allowNew then ScopeClosed(it.id) in r.violations && (it.id != "" ==> forall x | x in r.kept :: x.id != it.id)
            else if it.state in {Open, Claimed} then it in r.kept
            else it.(state := Open, owner := None) in r.kept && BadFirstState(it.id, it.state) in r.violations
  {
    var byId := Latest(prev);
    RuledHolds(byId, proposed, p, Named(it));
    if !p.allowNew {
      ClosedScopeKeepsOut(byId, proposed, p, it.id);
      RestoredMembers(byId, KeyOrder(prev), NamedIds(proposed));
    }
  }

  /** Whatever one proposal yields is part of what the whole proposal yields. */
  lemma {:induction false} RuledHolds(byId: map<string, Item>, proposed: seq<Proposal>, p: Policy, pr: Proposal)
    requires pr in proposed
    ensures forall x | x in Decide(byId, pr, p).kept :: x in Ruled(byId, proposed, p).kept
    ensures forall v | v in Decide(byId, pr, p).violations :: v in Ruled(byId, proposed, p).violations
  {
    var front, last := proposed[..|proposed| - 1], proposed[|proposed| - 1];
    if pr != last {
      assert proposed == front + [last];
      RuledHolds(byId, front, p, pr);
    }
  }

  /** In closed scope only recorded ids are kept. */
  lemma {:induction false} ClosedScopeKeepsOut(byId: map<string, Item>, proposed: seq<Proposal>, p: Policy, id: string)
    requires !p.allowNew && id !in byId && forall k | k in byId :: byId[k].id == k
    ensures forall x | x in Ruled(byId, proposed, p).kept :: x.id != id
  {
    if proposed != [] {
      var front, pr := proposed[..|proposed| - 1], proposed[|proposed| - 1];
      ClosedScopeKeepsOut(byId, front, p, id);
      if pr.Named? && pr.item.id in byId { JudgeKeepsTheRest(byId[pr.item.id], pr.item, p); }
    }
  }

  /** The same for one proposal against the recorded checklist. */
  predicate Accepts(byId: map<string, Item>, pr: Proposal, p: Policy) {
    pr.Unnamed? ||
    if pr.item.id in byId then Granted(byId[pr.item.id], pr.item, p)
    else p.allowNew && pr.item.state in {Open, Claimed}
  }

  lemma {:induction false} RuledClean(byId: map<string, Item>, proposed: seq<Proposal>, p: Policy)
    ensures Ruled(byId, proposed, p).violations == [] <==> AllAccepted(byId, proposed, p)
  {
    if proposed != [] {
      var front, pr := proposed[..|proposed| - 1], proposed[|proposed| - 1];
      RuledClean(byId, front, p);
      assert proposed == front + [pr];
      RuledSnoc(byId, front, pr, p);
      DecideClean(byId, pr, p);
      AllAcceptedSnoc(byId, front, pr, p);
    }
  }

  lemma DecideClean(byId: map<string, Item>, pr: Proposal, p: Policy)
    ensures Decide(byId, pr, p).violations == [] <==> Accepts(byId, pr, p)
  {
    if pr.Named? && pr.item.id in byId { JudgeFollowsTable(byId[pr.item.id], pr.item, p); }
  }

  lemma AllAcceptedSnoc(byId: map<string, Item>, front: seq<Proposal>, pr: Proposal, p: Policy)
    ensures AllAccepted(byId, front + [pr], p) <==> AllAccepted(byId, front, p) && Accepts(byId, pr, p)
  {
    assert pr in front + [pr] && forall q :: q in front + [pr] <==> q in front || q == pr;
  }

  ghost predicate AllAccepted(byId: map<string, Item>, proposed: seq<Proposal>, p: Policy) {
    forall pr | pr in proposed :: Accepts(byId, pr, p)
  }

  lemma {:induction false} RestoredClean(byId: map<string, Item>, ids: seq<string>, seen: set<string>)
    requires forall id | id in ids :: id in byId
    ensures Restored(byId, ids, seen).violations == [] <==> forall id | id in ids :: id in seen
  {
    if ids != [] { RestoredClean(byId, ids[..|ids| - 1], seen); }
  }

  /** A turn is free of violations exactly when the table grants every proposal and no item is dropped. */
  lemma CleanTurn(prev: seq<Item>, proposed: seq<Proposal>, p: Policy)
    ensures Reconciled(prev, proposed, p).violations == [] <==>
              && AllAccepted(Latest(prev), proposed, p)
              && Ids(prev) <= NamedIds(proposed)
  {
    RuledClean(Latest(prev), proposed, p);
    RestoredClean(Latest(prev), KeyOrder(prev), NamedIds(proposed));
    assert forall id :: id in Latest(prev) <==> id in Ids(prev);
  }

  /** Everything that may happen to one existing item during one accepted turn. */
  ghost predicate LegalStep(was: Item, x: Item, p: Policy) {
    var mine := was.owner == Some(p.actor);
    var taken := was.id in p.recovery && was.state in {Claimed, Blocked} && x.owner == Some(p.actor);
    && x.id == was.id
    // independent verification
    && (x.state == Done && was.state != Done ==>
          was.state == Awaiting && !mine && x.owner == was.owner && x.verifiedBy == Some(p.actor))
    && (x.state == Done == was.state ==> x.verifiedBy == was.verifiedBy)
    // only a worker's own, unowned or handed-over work is submitted, and always in its own name
    && (x.state == Awaiting && was.state != Awaiting ==>
          x.owner == Some(p.actor) && (taken || (was.state in {Claimed, Open} && (was.owner == None || mine))))
    // custody: an owner is replaced only from `open` or by a listed recovery
    && (x.owner == was.owner || was.state == Open || (taken && x.state in {Claimed, Awaiting})
        || (was.state == Claimed && was.owner == None && x.state == Awaiting))
    && (x.state == Open ==> was.state == Open)
    // rejections count the accepted rejections, and one too many is a dispute
    && (x.rejections == was.rejections
        || (was.state == Awaiting && !mine && x.rejections == was.rejections + 1 && x.owner == was.owner
            && x.state == if x.rejections > p.rejectionsMax then Disputed else Claimed))
    && (was.state == Awaiting && x.state == Claimed ==> x.rejections == was.rejections + 1)
    && (x.state.Unknown? ==> was.state == x.state)
  }

  /** Where an item of the new checklist comes from. */
  ghost predicate Provenance(byId: map<string, Item>, x: Item, p: Policy) {
    if x.id in byId then LegalStep(byId[x.id], x, p)
    else p.allowNew && x.state in {Open, Claimed}
  }

  lemma JudgeIsLegal(was: Item, it: Item, p: Policy)
    requires was.id == it.id && p.actor != ""
    ensures forall x | x in Judge(was, it, p).kept :: LegalStep(was, x, p)
  {
  }

  lemma {:induction false} RuledProvenance(byId: map<string, Item>, proposed: seq<Proposal>, p: Policy)
    requires p.actor != "" && forall id | id in byId :: byId[id].id == id
    ensures forall x | x in Ruled(byId, proposed, p).kept :: Provenance(byId, x, p)
  {
    if proposed != [] {
      RuledProvenance(byId, proposed[..|proposed| - 1], p);
      var pr := proposed[|proposed| - 1];
      if pr.Named? && pr.item.id in byId { JudgeIsLegal(byId[pr.item.id], pr.item, p); }
      assert forall x | x in Decide(byId, pr, p).kept :: Provenance(byId, x, p);
    }
  }

  lemma {:induction false} RestoredMembers(byId: map<string, Item>, ids: seq<string>, seen: set<string>)
    requires forall id | id in ids :: id in byId && byId[id].id == id
    ensures forall x | x in Restored(byId, ids, seen).kept ::
              x.id in ids && x.id !in seen && x == byId[x.id]
    ensures forall id | id in ids && id !in seen :: byId[id] in Restored(byId, ids, seen).kept
  {
    if ids != [] { RestoredMembers(byId, ids[..|ids| - 1], seen); }
  }

  /**
   Every item of an accepted checklist is a legal successor of the recorded item of that id,
   or was admitted as new while scope was open. This holds for arbitrary proposals,
   duplicate ids included.
   */
  lemma AcceptedProvenance(prev: seq<Item>, proposed: seq<Proposal>, p: Policy)
    requires p.actor != ""
    ensures forall x | x in Reconciled(prev, proposed, p).kept :: Provenance(Latest(prev), x, p)
  {
    RuledProvenance(Latest(prev), proposed, p);
    RestoredMembers(Latest(prev), KeyOrder(prev), NamedIds(proposed));
  }

  // ---------------------------------------------------------------------------------------
  // Scope
  // ---------------------------------------------------------------------------------------

  ghost predicate DistinctIds(items: seq<Item>) {
    forall i, j | 0 <= i < j < |items| :: items[i].id != items[j].id
  }

  /** The first place at which an item with this id stands. */
  ghost predicate FirstAt(items: seq<Item>, id: string, k: nat) {
    k < |items| && items[k].id == id && forall j | 0 <= j < k :: items[j].id != id
  }

  lemma FirstAtSnoc(front: seq<Item>, last: Item, id: string, k: nat)
    ensures FirstAt(front, id, k) ==> FirstAt(front + [last], id, k)
    ensures (forall x | x in front :: x.id != id) && last.id == id ==> FirstAt(front + [last], id, |front|)
  {
    if (forall x | x in front :: x.id != id) && last.id == id {
      assert forall j | 0 <= j < |front| :: (front + [last])[j] in front;
    }
  }

  /** The key order is the order of first appearance, each id once. */
  lemma {:induction false} KeysInOrderOfAppearance(items: seq<Item>) returns (places: seq<nat>)
    ensures |places| == |KeyOrder(items)|
    ensures forall i | 0 <= i < |places| :: FirstAt(items, KeyOrder(items)[i], places[i])
    ensures forall i, j | 0 <= i < j < |places| :: places[i] < places[j]
  {
    if items == [] {
      places := [];
    } else {
      var front, last := items[..|items| - 1], items[|items| - 1];
      places := KeysInOrderOfAppearance(front);
      assert items == front + [last];
      KeyOrderSnoc(front, last);
      places := OneMoreKey(front, last, KeyOrder(front), places);
    }
  }

  lemma KeyOrderSnoc(front: seq<Item>, last: Item)
    ensures KeyOrder(front + [last])
         == KeyOrder(front) + if last.id == "" || last.id in KeyOrder(front) then [] else [last.id]
    ensures forall x | x in front && x.id != "" :: x.id in KeyOrder(front)
  {
    assert (front + [last])[..|front|] == front;
  }

  lemma OneMoreKey(front: seq<Item>, last: Item, ids: seq<string>, places: seq<nat>) returns (more: seq<nat>)
    requires |places| == |ids| && forall x | x in front && x.id != "" :: x.id in ids
    requires forall i | 0 <= i < |places| :: FirstAt(front, ids[i], places[i])
    requires forall i, j | 0 <= i < j < |places| :: places[i] < places[j]
    ensures var keys := ids + if last.id == "" || last.id in ids then [] else [last.id];
            && |more| == |keys| && (forall i | 0 <= i < |more| :: FirstAt(front + [last], keys[i], more[i]))
            && forall i, j | 0 <= i < j < |more| :: more[i] < more[j]
  {
    forall i | 0 <= i < |ids| ensures FirstAt(front + [last], ids[i], places[i]) { FirstAtSnoc(front, last, ids[i], places[i]); }
    if last.id == "" || last.id in ids {
      more := places;
    } else {
      FirstAtSnoc(front, last, last.id, 0);
      more := places + [|front|];
    }
  }

  ghost predicate DistinctNames(proposed: seq<Proposal>) {
    forall i, j | 0 <= i < j < |proposed| && proposed[i].Named? && proposed[j].Named? ::
      proposed[i].item.id != proposed[j].item.id
  }

  lemma DecideKeepsName(byId: map<string, Item>, pr: Proposal, p: Policy)
    requires forall id | id in byId :: byId[id].id == id
    ensures |Decide(byId, pr, p).kept| <= 1
    ensures forall x | x in Decide(byId, pr, p).kept :: pr.Named? && x.id == pr.item.id
  {
  }

  lemma {:induction false} RuledNames(byId: map<string, Item>, proposed: seq<Proposal>, p: Policy)
    requires forall id | id in byId :: byId[id].id == id
    ensures forall x | x in Ruled(byId, proposed, p).kept :: x.id in NamedIds(proposed)
  {
    if proposed != [] {
      var front, pr := proposed[..|proposed| - 1], proposed[|proposed| - 1];
      RuledNames(byId, front, p);
      NamedSnoc(front, pr);
      assert proposed == front + [pr];
      DecideKeepsName(byId, pr, p);
    }
  }

  lemma {:induction false} RuledDistinct(byId: map<string, Item>, proposed: seq<Proposal>, p: Policy)
    requires (forall id | id in byId :: byId[id].id == id) && DistinctNames(proposed)
    ensures DistinctIds(Ruled(byId, proposed, p).kept)
  {
    if proposed != [] {
      var front, pr := proposed[..|proposed| - 1], proposed[|proposed| - 1];
      RuledDistinct(byId, front, p);
      RuledNames(byId, front, p);
      DecideKeepsName(byId, pr, p);
      if pr.Named? { assert pr.item.id !in NamedIds(front); }
      AppendDistinct(Ruled(byId, front, p).kept, Decide(byId, pr, p).kept);
    }
  }

  lemma AppendDistinct(items: seq<Item>, one: seq<Item>)
    requires DistinctIds(items) && |one| <= 1 && forall x, y | x in items && y in one :: x.id != y.id
    ensures DistinctIds(items + one)
  {
  }

  lemma {:induction false} RuledKeeps(byId: map<string, Item>, proposed: seq<Proposal>, p: Policy, id: string)
    requires id in byId && byId[id].id == id && id in NamedIds(proposed)
    ensures exists x :: x in Ruled(byId, proposed, p).kept && x.id == id
  {
    var front, pr := proposed[..|proposed| - 1], proposed[|proposed| - 1];
    NamedSnoc(front, pr);
    assert proposed == front + [pr];
    var before, one := Ruled(byId, front, p).kept, Decide(byId, pr, p).kept;
    if id in NamedIds(front) {
      RuledKeeps(byId, front, p, id);
      var x :| x in before && x.id == id;
      assert x in before + one;
    } else {
      assert |one| == 1 && one[0].id == id && one[0] in before + one;
    }
  }

  lemma {:induction false} KeysAreDistinct(items: seq<Item>, i: int, j: int)
    requires 0 <= i < j < |KeyOrder(items)|
    ensures KeyOrder(items)[i] != KeyOrder(items)[j]
  {
    if j < |KeyOrder(items[..|items| - 1])| { KeysAreDistinct(items[..|items| - 1], i, j); }
  }

  lemma {:induction false} RestoredDistinct(byId: map<string, Item>, ids: seq<string>, seen: set<string>)
    requires forall id | id in ids :: id in byId && byId[id].id == id
    requires forall i, j | 0 <= i < j < |ids| :: ids[i] != ids[j]
    ensures DistinctIds(Restored(byId, ids, seen).kept)
  {
    if ids != [] {
      RestoredDistinct(byId, ids[..|ids| - 1], seen);
      RestoredMembers(byId, ids[..|ids| - 1], seen);
    }
  }

  /**
   Scope: no item is ever lost; once negotiation closes none is added either, so the id set is
   frozen; and ids stay unique whenever the proposal's own ids are.
   */
  lemma ScopeIsKept(prev: seq<Item>, proposed: seq<Proposal>, p: Policy)
    requires p.actor != ""
    ensures var kept := Reconciled(prev, proposed, p).kept;
            && Ids(prev) <= Ids(kept)
            && (!p.allowNew ==> Ids(kept) == Ids(prev) && forall x | x in kept :: x.id in Ids(prev))
            && (DistinctNames(proposed) ==> DistinctIds(kept))
  {
    var byId, ids, seen := Latest(prev), KeyOrder(prev), NamedIds(proposed);
    var ruled, restored := Ruled(byId, proposed, p).kept, Restored(byId, ids, seen).kept;
    AcceptedProvenance(prev, proposed, p);
    RuledNames(byId, proposed, p);
    if DistinctNames(proposed) { RuledDistinct(byId, proposed, p); }
    RestoredMembers(byId, ids, seen);
    forall id | id in Ids(prev) ensures id in Ids(ruled + restored) {
      assert id in byId;
      if id in seen {
        RuledKeeps(byId, proposed, p, id);
        var x :| x in ruled && x.id == id;
        assert x in ruled + restored;
      } else {
        assert byId[id] in ruled + restored;
      }
    }
    forall i, j | 0 <= i < j < |ids| ensures ids[i] != ids[j] { KeysAreDistinct(prev, i, j); }
    RestoredDistinct(byId, ids, seen);
  }
}
