/**
 The checklist state machine of src/envelope.py.

 An agent's envelope is evidence, never authority: `Reconcile` keeps the legal part of an
 arbitrary proposal and restores everything else.
 */
module Envelope {
  import opened Common

  /** The six checklist states; `Unknown` stands for any other value an agent may send. */
  datatype State = Open | Claimed | Awaiting | Done | Blocked | Disputed | Unknown(text: string)

  /** A checklist item after `_norm`. */
  datatype Item = Item(
    id: string,
    description: string,
    state: State,
    owner: Option<string>,
    verifiedBy: Option<string>,
    evidence: Option<string>,
    rejections: int)

  /** One entry of an agent's proposed checklist: `Unnamed` when its id is null. */
  datatype Proposal = Unnamed | Named(item: Item)

  datatype Violation =
    | ScopeClosed(id: string)
    | BadFirstState(id: string, state: State)
    | DoneNeedsAwaiting(id: string, was: State)
    | SelfVerification(id: string)
    | SelfRejection(id: string)
    | NotYours(id: string)
    | IllegalTransition(id: string, was: State, now: State)
    | Dropped(id: string)

  /** The arguments of `reconcile` that stay fixed during one turn. */
  datatype Policy = Policy(actor: string, rejectionsMax: int, allowNew: bool, recovery: set<string>)

  datatype Ruling = Ruling(kept: seq<Item>, violations: seq<Violation>)

  // ---------------------------------------------------------------------------------------
  // One proposal
  // ---------------------------------------------------------------------------------------

  /** An item whose id is not on the checklist yet. */
  function Admit(it: Item, p: Policy): Ruling {
    if !p.allowNew then Ruling([], [ScopeClosed(it.id)])
    else if it.state !in {Open, Claimed} then
      Ruling([it.(state := Open, owner := None)], [BadFirstState(it.id, it.state)])
    else Ruling([it], [])
  }

  /** A proposal about an existing item: the guards in the order the source tries them. */
  function Judge(was: Item, it: Item, p: Policy): Ruling {
    var evidence := OrElse(it.evidence, was.evidence);
    if it.id in p.recovery && was.state in {Claimed, Blocked} && it.state in {Claimed, Awaiting} then
      Ruling([was.(state := it.state, owner := Some(p.actor), verifiedBy := None, evidence := evidence)], [])
    else if was.state == it.state && was.owner == it.owner then
      Ruling([was.(evidence := evidence,
                   description := if it.description != "" then it.description else was.description)], [])
    else if it.state == Done then
      if was.state != Awaiting then Ruling([was], [DoneNeedsAwaiting(it.id, was.state)])
      else if was.owner == Some(p.actor) then Ruling([was], [SelfVerification(it.id)])
      else Ruling([was.(state := Done, verifiedBy := Some(p.actor), evidence := evidence)], [])
    else if it.state == Claimed && was.state == Awaiting then
      if was.owner == Some(p.actor) then Ruling([was], [SelfRejection(it.id)])
      else
        var count := was.rejections + 1;
        Ruling([was.(state := if count > p.rejectionsMax then Disputed else Claimed,
                     rejections := count, evidence := evidence)], [])
    else if it.state == Claimed && was.state == Open then
      Ruling([was.(state := Claimed, owner := OrElse(it.owner, Some(p.actor)))], [])
    else if it.state == Awaiting && was.state in {Claimed, Open} then
      if was.owner !in {None, Some(p.actor)} then Ruling([was], [NotYours(it.id)])
      else Ruling([was.(state := Awaiting, owner := OrElse(was.owner, Some(p.actor)), evidence := evidence)], [])
    else if it.state in {Blocked, Disputed} then
      Ruling([was.(state := it.state, evidence := evidence)], [])
    else Ruling([was], [IllegalTransition(it.id, was.state, it.state)])
  }

  function Decide(byId: map<string, Item>, pr: Proposal, p: Policy): Ruling {
    match pr
    case Unnamed => Ruling([], [])
    case Named(it) => if it.id in byId then Judge(byId[it.id], it, p) else Admit(it, p)
  }

  // ---------------------------------------------------------------------------------------
  // The whole checklist
  // ---------------------------------------------------------------------------------------

  /** `by_id`: the last item of each non-empty id. */
  function Latest(items: seq<Item>): (m: map<string, Item>)
    ensures forall id | id in m :: id != "" && m[id].id == id && m[id] in items
    ensures forall x | x in items && x.id != "" :: x.id in m
  {
    if items == [] then map[]
    else
      var last := items[|items| - 1];
      var m := Latest(items[..|items| - 1]);
      if last.id == "" then m else m[last.id := last]
  }

  /** The keys of `by_id` in dictionary order: by first appearance. */
  function KeyOrder(items: seq<Item>): (ids: seq<string>)
    ensures forall id :: id in ids <==> id in Latest(items)
  {
    if items == [] then []
    else
      var last := items[|items| - 1];
      var ids := KeyOrder(items[..|items| - 1]);
      if last.id == "" || last.id in ids then ids else ids + [last.id]
  }

  function Ruled(byId: map<string, Item>, proposed: seq<Proposal>, p: Policy): Ruling {
    if proposed == [] then Ruling([], [])
    else
      var before := Ruled(byId, proposed[..|proposed| - 1], p);
      var one := Decide(byId, proposed[|proposed| - 1], p);
      Ruling(before.kept + one.kept, before.violations + one.violations)
  }

  function NamedIds(proposed: seq<Proposal>): set<string> {
    set pr | pr in proposed && pr.Named? :: pr.item.id
  }

  /** Items the agent silently dropped are put back, each with a violation. */
  function Restored(byId: map<string, Item>, ids: seq<string>, seen: set<string>): Ruling
    requires forall id | id in ids :: id in byId
  {
    if ids == [] then Ruling([], [])
    else
      var before := Restored(byId, ids[..|ids| - 1], seen);
      var id := ids[|ids| - 1];
      if id in seen then before
      else Ruling(before.kept + [byId[id]], before.violations + [Dropped(id)])
  }

  function Reconciled(prev: seq<Item>, proposed: seq<Proposal>, p: Policy): Ruling {
    var byId := Latest(prev);
    var ruled := Ruled(byId, proposed, p);
    var restored := Restored(byId, KeyOrder(prev), NamedIds(proposed));
    Ruling(ruled.kept + restored.kept, ruled.violations + restored.violations)
  }

  /** `reconcile` as the source runs it: loops appending to `out`, `violations` and `seen`. */
  method Reconcile(prev: seq<Item>, proposed: seq<Proposal>, p: Policy)
    returns (out: seq<Item>, violations: seq<Violation>)
    ensures Ruling(out, violations) == Reconciled(prev, proposed, p)
  {
    var byId := Latest(prev);
    out, violations := [], [];
    var seen: set<string> := {};
    for i := 0 to |proposed|
      invariant Ruling(out, violations) == Ruled(byId, proposed[..i], p)
      invariant seen == NamedIds(proposed[..i])
    {
      assert proposed[..i + 1] == proposed[..i] + [proposed[i]];
      RuledSnoc(byId, proposed[..i], proposed[i], p);
      NamedSnoc(proposed[..i], proposed[i]);
      if proposed[i].Named? { seen := seen + {proposed[i].item.id}; }
      var one := Decide(byId, proposed[i], p);
      out, violations := out + one.kept, violations + one.violations;
    }
    assert proposed[..|proposed|] == proposed;
    var kept, dropped := RestoreDropped(byId, KeyOrder(prev), seen);
    out, violations := out + kept, violations + dropped;
  }

  method RestoreDropped(byId: map<string, Item>, order: seq<string>, seen: set<string>)
    returns (out: seq<Item>, violations: seq<Violation>)
    requires forall id | id in order :: id in byId
    ensures Ruling(out, violations) == Restored(byId, order, seen)
  {
    out, violations := [], [];
    for i := 0 to |order|
      invariant Ruling(out, violations) == Restored(byId, order[..i], seen)
    {
      assert order[..i + 1][..i] == order[..i];
      if order[i] !in seen {
        out, violations := out + [byId[order[i]]], violations + [Dropped(order[i])];
      }
    }
    assert order[..|order|] == order;
  }

  lemma RuledSnoc(byId: map<string, Item>, proposed: seq<Proposal>, pr: Proposal, p: Policy)
    ensures Ruled(byId, proposed + [pr], p)
         == Ruling(Ruled(byId, proposed, p).kept + Decide(byId, pr, p).kept,
                   Ruled(byId, proposed, p).violations + Decide(byId, pr, p).violations)
  {
    assert (proposed + [pr])[..|proposed|] == proposed;
  }

  lemma NamedSnoc(proposed: seq<Proposal>, pr: Proposal)
    ensures NamedIds(proposed + [pr]) == NamedIds(proposed) + if pr.Named? then {pr.item.id} else {}
  {
    assert forall q :: q in proposed + [pr] <==> q in proposed || q == pr;
  }
}
