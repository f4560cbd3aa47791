/**
 Rejections over whole runs: an item's count is the count it was admitted with plus the rejections
 accepted since, and a rejection disputes the item exactly when it takes the count past the maximum.
 A proposal may name an id several times; as in the source, the last copy is the one the next turn sees.
 */
module RejectionLaws {
  import opened Common
  import opened Envelope
  import opened EnvelopeLaws
  import opened RunState
  import opened Runner
  import opened RunLaws

  /** The last proposal that names an id. */
  function LastNaming(proposed: seq<Proposal>, id: string): Option<Item> {
    if proposed == [] then None
    else
      var pr := proposed[|proposed| - 1];
      if pr.Named? && pr.item.id == id then Some(pr.item) else LastNaming(proposed[..|proposed| - 1], id)
  }

  /** An agent other than the owner sends submitted work back to be claimed again. */
  predicate Rejects(byId: map<string, Item>, proposed: seq<Proposal>, p: Policy, id: string) {
    && id in byId && byId[id].state == Awaiting && byId[id].owner != Some(p.actor)
    && LastNaming(proposed, id).Some? && LastNaming(proposed, id).value.state == Claimed
  }

  // ---------------------------------------------------------------------------------------
  // The copy that counts
  // ---------------------------------------------------------------------------------------

  /** In a concatenation the later list's copy counts, if it has one. */
  lemma {:induction false} LatestOfBoth(a: seq<Item>, b: seq<Item>, id: string)
    ensures id in Latest(a + b) <==> id in Latest(a) || id in Latest(b)
    ensures id in Latest(b) ==> Latest(a + b)[id] == Latest(b)[id]
    ensures id in Latest(a) && id !in Latest(b) ==> Latest(a + b)[id] == Latest(a)[id]
    decreases |b|
  {
    if b == [] {
      assert a + b == a;
    } else {
      var front, last := b[..|b| - 1], b[|b| - 1];
      LatestOfBoth(a, front, id);
      LatestOfLonger(a, front, last, id);
      assert b == front + [last];
    }
  }

  lemma LatestOfLonger(a: seq<Item>, front: seq<Item>, last: Item, id: string)
    requires id in Latest(a + front) <==> id in Latest(a) || id in Latest(front)
    requires id in Latest(front) ==> Latest(a + front)[id] == Latest(front)[id]
    requires id in Latest(a) && id !in Latest(front) ==> Latest(a + front)[id] == Latest(a)[id]
    ensures id in Latest(a + (front + [last])) <==> id in Latest(a) || id in Latest(front + [last])
    ensures id in Latest(front + [last]) ==> Latest(a + (front + [last]))[id] == Latest(front + [last])[id]
    ensures id in Latest(a) && id !in Latest(front + [last]) ==> Latest(a + (front + [last]))[id] == Latest(a)[id]
  {
    assert a + (front + [last]) == (a + front) + [last];
    LatestSnoc(a + front, last, id);
    LatestSnoc(front, last, id);
  }

  lemma LatestSnoc(items: seq<Item>, last: Item, id: string)
    ensures id in Latest(items + [last]) <==> id in Latest(items) || (id != "" && last.id == id)
    ensures id in Latest(items + [last]) ==> Latest(items + [last])[id] == if last.id == id then last else Latest(items)[id]
  {
    assert (items + [last])[..|items|] == items;
  }

  lemma LatestOfOne(x: Item, id: string)
    requires id != ""
    ensures id in Latest([x]) <==> x.id == id
    ensures x.id == id ==> Latest([x])[id] == x
  {
    assert [x][..0] == [];
  }

  /** A proposal rules on the id it names, and on no other. */
  lemma DecideLatest(byId: map<string, Item>, pr: Proposal, p: Policy, id: string)
    requires id != "" && id in byId && forall k | k in byId :: byId[k].id == k
    ensures var one := Decide(byId, pr, p).kept;
            if pr.Named? && pr.item.id == id then id in Latest(one) && [Latest(one)[id]] == Judge(byId[id], pr.item, p).kept
            else id !in Latest(one)
  {
    var one := Decide(byId, pr, p).kept;
    DecideKeepsName(byId, pr, p);
    if one != [] {
      LatestOfOne(one[0], id);
      assert one == [one[0]];
    }
  }

  /** The ruling on the last proposal naming an id is the copy that counts. */
  lemma {:induction false} RuledLatest(byId: map<string, Item>, proposed: seq<Proposal>, p: Policy, id: string)
    requires id != "" && id in byId && forall k | k in byId :: byId[k].id == k
    ensures var kept, last := Ruled(byId, proposed, p).kept, LastNaming(proposed, id);
            if last.Some? then id in Latest(kept) && [Latest(kept)[id]] == Judge(byId[id], last.value, p).kept
            else id !in Latest(kept)
  {
    if proposed != [] {
      var front, pr := proposed[..|proposed| - 1], proposed[|proposed| - 1];
      RuledLatest(byId, front, p, id);
      DecideLatest(byId, pr, p, id);
      LatestOfBoth(Ruled(byId, front, p).kept, Decide(byId, pr, p).kept, id);
    }
  }

  lemma {:induction false} NamedHasLast(proposed: seq<Proposal>, id: string)
    ensures id in NamedIds(proposed) <==> LastNaming(proposed, id).Some?
  {
    if proposed != [] {
      var front, pr := proposed[..|proposed| - 1], proposed[|proposed| - 1];
      NamedHasLast(front, id);
      NamedSnoc(front, pr);
      assert proposed == front + [pr];
    }
  }

  /** A dropped item counts as it was recorded. */
  lemma RestoredLatest(byId: map<string, Item>, ids: seq<string>, seen: set<string>, id: string)
    requires (forall k | k in ids :: k in byId && byId[k].id == k) && id in byId && id != ""
    ensures var kept := Restored(byId, ids, seen).kept;
            if id in ids && id !in seen then id in Latest(kept) && Latest(kept)[id] == byId[id] else id !in Latest(kept)
  {
    RestoredMembers(byId, ids, seen);
  }

  // ---------------------------------------------------------------------------------------
  // Counting
  // ---------------------------------------------------------------------------------------

  /** What one proposal does to the count of the item it names. */
  lemma JudgeCounts(was: Item, it: Item, p: Policy, x: Item)
    requires x in Judge(was, it, p).kept
    ensures var rejected := was.state == Awaiting && was.owner != Some(p.actor) && it.state == Claimed;
            && x.rejections == was.rejections + (if rejected then 1 else 0)
            && (rejected ==> x.state == if x.rejections > p.rejectionsMax then Disputed else Claimed)
  {
  }

  /**
   One accepted turn, for every proposal: the count rises by one exactly after a rejection, which
   disputes the item exactly past the maximum.
   */
  lemma AcceptCounts(prev: seq<Item>, proposed: seq<Proposal>, p: Policy, id: string)
    requires id in Latest(prev)
    ensures var was, kept := Latest(prev)[id], Reconciled(prev, proposed, p).kept;
            var rejected := Rejects(Latest(prev), proposed, p, id);
            && id in Latest(kept)
            && Latest(kept)[id].rejections == was.rejections + (if rejected then 1 else 0)
            && (rejected ==> Latest(kept)[id].state == if Latest(kept)[id].rejections > p.rejectionsMax then Disputed else Claimed)
  {
    var byId, seen := Latest(prev), NamedIds(proposed);
    var ruled, restored := Ruled(byId, proposed, p).kept, Restored(byId, KeyOrder(prev), seen).kept;
    RuledLatest(byId, proposed, p, id);
    NamedHasLast(proposed, id);
    RestoredLatest(byId, KeyOrder(prev), seen, id);
    LatestOfBoth(ruled, restored, id);
    var last := LastNaming(proposed, id);
    if last.Some? { JudgeCounts(byId[id], last.value, p, Latest(ruled)[id]); }
  }

  /** The rejections of an item accepted in a run. */
  function Rejections(s: Run, cfg: Config, events: seq<Event>, id: string): nat
    requires |cfg.fleet| > 0
    decreases |events|
  {
    if events == [] then 0
    else (if IsRejection(s, cfg, events[0], id) then 1 else 0) + Rejections(Step(s, cfg, events[0]), cfg, events[1..], id)
  }

  predicate IsRejection(s: Run, cfg: Config, e: Event, id: string) {
    IsAccepted(s, e) && Rejects(Latest(s.checklist), e.reply.proposed, TurnPolicy(s, cfg), id)
  }

  lemma ReopenAllSnoc(front: seq<Item>, last: Item)
    ensures ReopenAll(front + [last]) == ReopenAll(front) + [Reopen(last)]
  {
  }

  lemma {:induction false} ReopenedLatest(items: seq<Item>, id: string)
    requires id != ""
    ensures id in Latest(items) <==> id in Latest(ReopenAll(items))
    ensures id in Latest(items) ==> Latest(ReopenAll(items))[id] == Reopen(Latest(items)[id])
  {
    if items != [] {
      var front, last := items[..|items| - 1], items[|items| - 1];
      assert items == front + [last];
      ReopenedLatest(front, id);
      ReopenAllSnoc(front, last);
      LatestOfOne(last, id);
      LatestOfOne(Reopen(last), id);
      LatestOfBoth(front, [last], id);
      LatestOfBoth(ReopenAll(front), [Reopen(last)], id);
    }
  }

  lemma NoteKeepsCount(s: Run, note: Note, id: string)
    requires id in Latest(s.checklist)
    ensures var more := ApplyNote(s, note).checklist;
            id in Latest(more) && Latest(more)[id].rejections == Latest(s.checklist)[id].rejections
  {
    var items := s.checklist;
    if note.stop {
    } else if Blocking(items) != [] {
      ReopenedKeepsCount(items, id);
      assert ApplyNote(s, note).checklist == ReopenAll(items);
    } else if IsComplete(items) {
      RevisionLatest(items, note.text, id);
      assert ApplyNote(s, note).checklist == items + [Revision(items, note.text)];
    }
  }

  lemma ReopenedKeepsCount(items: seq<Item>, id: string)
    requires id in Latest(items)
    ensures id in Latest(ReopenAll(items)) && Latest(ReopenAll(items))[id].rejections == Latest(items)[id].rejections
  {
    ReopenedLatest(items, id);
  }

  /** A revision counts for no existing item. */
  lemma RevisionLatest(items: seq<Item>, text: string, id: string)
    requires id in Latest(items)
    ensures id in Latest(items + [Revision(items, text)])
    ensures Latest(items + [Revision(items, text)])[id] == Latest(items)[id]
  {
    FreshIdIsFresh(items);
    LatestSnoc(items, Revision(items, text), id);
  }

  lemma StepCounts(s: Run, cfg: Config, e: Event, id: string)
    requires WellFormed(cfg) && s.actor in cfg.fleet && id in Latest(s.checklist)
    ensures var t := Step(s, cfg, e);
            && t.actor in cfg.fleet && id in Latest(t.checklist)
            && Latest(t.checklist)[id].rejections
            == Latest(s.checklist)[id].rejections + if IsRejection(s, cfg, e, id) then 1 else 0
  {
    StepEffect(s, cfg, e);
    if e.NoteGiven? {
      NoteKeepsCount(s, e.note, id);
    } else if IsAccepted(s, e) {
      AcceptCounts(s.checklist, e.reply.proposed, TurnPolicy(s, cfg), id);
    }
  }

  /** Rejections are neither lost nor invented, whatever the agents propose and whatever the human says. */
  lemma {:induction false} RejectionsAreCounted(s: Run, cfg: Config, events: seq<Event>, id: string)
    requires WellFormed(cfg) && s.actor in cfg.fleet && id in Latest(s.checklist)
    ensures var t := Play(s, cfg, events);
            && id in Latest(t.checklist)
            && Latest(t.checklist)[id].rejections == Latest(s.checklist)[id].rejections + Rejections(s, cfg, events, id)
    decreases |events|
  {
    if events != [] {
      StepCounts(s, cfg, events[0], id);
      RejectionsAreCounted(Step(s, cfg, events[0]), cfg, events[1..], id);
    }
  }
}
