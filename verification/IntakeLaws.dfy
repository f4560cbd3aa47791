/** Who gets a job queued, who is refused for a missing source run, and that every request is answered. */
module IntakeLaws {
  import opened Common
  import opened Intake

  // ---------------------------------------------------------------------------------------
  // The source run
  // ---------------------------------------------------------------------------------------

  /** All requests for the event name a source run that the workspace does not have. */
  ghost predicate NoneHasSource(requests: nat -> Request, e: Event) {
    forall w :: requests(w).event == e ==> requests(w).sourceMissing
  }

  predicate StopsShort(p: Phase) {
    p.Starting? || p.NoReceipt? || (p.Answered? && (p.answer == NoSourceRun || p.answer == Unavailable))
  }

  /** No row of the event exists, and its requests got no further than the lookup of their source. */
  ghost predicate KeptOut(s: System, requests: nat -> Request, e: Event) {
    && e !in s.db.messages && e !in s.db.jobs
    && forall w :: requests(w).event == e ==> StopsShort(PhaseOf(s, w))
  }

  lemma StepKeepsOut(s: System, requests: nat -> Request, step: Step, e: Event)
    requires NoneHasSource(requests, e) && KeptOut(s, requests, e)
    ensures KeptOut(Perform(s, requests, step), requests, e)
  {
    var t := Perform(s, requests, step);
    if step.Acknowledge? || requests(step.worker).event != e {
      OtherRows(s, requests, step, e);
    } else {
      assert StopsShort(PhaseOf(s, step.worker));
    }
    forall w | requests(w).event == e ensures StopsShort(PhaseOf(t, w)) {
      assert StopsShort(PhaseOf(s, w));
      Unaffected(s, requests, step, w);
    }
  }

  lemma OtherRows(s: System, requests: nat -> Request, step: Step, e: Event)
    requires step.Acknowledge? || requests(step.worker).event != e
    ensures var db := Perform(s, requests, step).db;
            (e in db.jobs ==> e in s.db.jobs) && (e in db.messages ==> e in s.db.messages)
  {
    OtherEvents(s, requests, step, e);
  }

  lemma {:induction false} RunKeepsOut(s: System, requests: nat -> Request, steps: seq<Step>, e: Event)
    requires NoneHasSource(requests, e) && KeptOut(s, requests, e)
    ensures KeptOut(Run(s, requests, steps), requests, e)
    decreases |steps|
  {
    if steps != [] {
      StepKeepsOut(s, requests, steps[0], e);
      RunKeepsOut(Perform(s, requests, steps[0]), requests, steps[1..], e);
    }
  }

  /**
   If every request for an event names a missing source run, then in no interleaving is a row of the
   event ever written, and every answer is 404, or 503 for a statement that failed.
   */
  lemma MissingSourceIsNeverQueued(s: System, requests: nat -> Request, steps: seq<Step>, e: Event)
    requires IsInitial(s) && NoneHasSource(requests, e) && e !in s.db.messages && e !in s.db.jobs
    ensures var t := Run(s, requests, steps);
            && e !in t.db.messages && e !in t.db.jobs && e !in t.inserted
            && forall w :: requests(w).event == e && PhaseOf(t, w).Answered? ==>
                 PhaseOf(t, w).answer == NoSourceRun || PhaseOf(t, w).answer == Unavailable
  {
    RunKeepsOut(s, requests, steps, e);
    RunKeeps(s, requests, steps);
    var t := Run(s, requests, steps);
    forall w | requests(w).event == e && PhaseOf(t, w).Answered?
      ensures PhaseOf(t, w).answer == NoSourceRun || PhaseOf(t, w).answer == Unavailable
    {
      assert StopsShort(PhaseOf(t, w));
    }
  }

  /** Only a request whose source exists comes so far as to insert, and only one without it is told so. */
  ghost predicate SourcesChecked(s: System, requests: nat -> Request) {
    (forall w :: IsChecked(PhaseOf(s, w), requests(w))) && AuthorsKnown(s, requests)
  }

  predicate IsChecked(p: Phase, r: Request) {
    (p.NothingYet? || p.Lost? ==> !r.sourceMissing) && (p == Answered(NoSourceRun) ==> r.sourceMissing)
  }

  ghost predicate AuthorsKnown(s: System, requests: nat -> Request) {
    forall e | e in s.inserted :: e in s.db.jobs && exists w :: IsAuthor(requests, w, e, s.db.jobs[e])
  }

  /** The request for which the receipt was written. */
  predicate IsAuthor(requests: nat -> Request, w: nat, e: Event, receipt: Receipt) {
    requests(w).event == e && !requests(w).sourceMissing && requests(w).fingerprint == receipt.fingerprint
  }

  lemma PhaseStaysChecked(s: System, w: nat, r: Request, step: Step, t: System)
    requires step.Go? || step.Break?
    requires t == if step.Go? then Advance(s, w, r, step.runId, step.now)
                  else Broken(s, w, r, step.runId, step.now, step.committed)
    requires IsChecked(PhaseOf(s, w), r)
    ensures IsChecked(PhaseOf(t, w), r)
    ensures t.inserted == s.inserted
            || (&& !r.sourceMissing && r.event in t.db.jobs && t.db.jobs[r.event].fingerprint == r.fingerprint
                && t.inserted == s.inserted[r.event := Inserted(s, r.event) + 1])
  {
  }

  lemma StepStaysChecked(s: System, requests: nat -> Request, step: Step)
    requires Sound(s, requests) && SourcesChecked(s, requests)
    ensures SourcesChecked(Perform(s, requests, step), requests)
  {
    var t := Perform(s, requests, step);
    StepKeeps(s, requests, step);
    if !step.Acknowledge? {
      var w := step.worker;
      PhaseStaysChecked(s, w, requests(w), step, t);
      AuthorsStay(s, requests, w, t);
    }
    forall v ensures IsChecked(PhaseOf(t, v), requests(v)) {
      assert IsChecked(PhaseOf(s, v), requests(v));
      Unaffected(s, requests, step, v);
    }
  }

  lemma AuthorsStay(s: System, requests: nat -> Request, w: nat, t: System)
    requires Grows(s.db, t.db)
    requires AuthorsKnown(s, requests)
    requires var r := requests(w);
             t.inserted == s.inserted
             || (&& !r.sourceMissing && r.event in t.db.jobs && t.db.jobs[r.event].fingerprint == r.fingerprint
                 && t.inserted == s.inserted[r.event := Inserted(s, r.event) + 1])
    ensures AuthorsKnown(t, requests)
  {
    forall e | e in t.inserted ensures e in t.db.jobs && exists v :: IsAuthor(requests, v, e, t.db.jobs[e]) {
      if e in s.inserted {
        var v :| IsAuthor(requests, v, e, s.db.jobs[e]);
        assert IsAuthor(requests, v, e, t.db.jobs[e]);
      } else {
        assert IsAuthor(requests, w, e, t.db.jobs[e]);
      }
    }
  }

  lemma {:induction false} RunStaysChecked(s: System, requests: nat -> Request, steps: seq<Step>)
    requires Sound(s, requests) && SourcesChecked(s, requests)
    ensures SourcesChecked(Run(s, requests, steps), requests)
    decreases |steps|
  {
    if steps != [] {
      StepKeeps(s, requests, steps[0]);
      StepStaysChecked(s, requests, steps[0]);
      RunStaysChecked(Perform(s, requests, steps[0]), requests, steps[1..]);
    }
  }

  /** Every job this intake queues was asked for by a request with that body whose source run exists. */
  lemma InsertedHasSource(s: System, requests: nat -> Request, steps: seq<Step>, e: Event)
    requires IsInitial(s)
    ensures var t := Run(s, requests, steps);
            && (e in t.inserted ==> e in t.db.jobs && exists w :: IsAuthor(requests, w, e, t.db.jobs[e]))
            && (forall w :: PhaseOf(t, w) == Answered(NoSourceRun) ==> requests(w).sourceMissing)
  {
    RunStaysChecked(s, requests, steps);
    var t := Run(s, requests, steps);
    forall w ensures PhaseOf(t, w) == Answered(NoSourceRun) ==> requests(w).sourceMissing {
      assert IsChecked(PhaseOf(t, w), requests(w));
    }
  }

  // ---------------------------------------------------------------------------------------
  // Every request is answered
  // ---------------------------------------------------------------------------------------

  /** How many statements a request is away from its answer, at most. */
  function Ahead(p: Phase): nat {
    match p
    case Starting => 4
    case NoReceipt => 3
    case Legacy(_) => 2
    case NothingYet => 2
    case Restoring => 1
    case Lost => 1
    case Answered(_) => 0
  }

  function StepsOf(steps: seq<Step>, w: nat): nat {
    if steps == [] then 0 else (if !steps[0].Acknowledge? && steps[0].worker == w then 1 else 0) + StepsOf(steps[1..], w)
  }

  lemma OwnStepComesCloser(s: System, requests: nat -> Request, step: Step)
    requires !step.Acknowledge?
    ensures var t := Perform(s, requests, step);
            Ahead(PhaseOf(t, step.worker)) < Ahead(PhaseOf(s, step.worker)) || Ahead(PhaseOf(s, step.worker)) == 0
    ensures Ahead(PhaseOf(s, step.worker)) == 0 ==> Ahead(PhaseOf(Perform(s, requests, step), step.worker)) == 0
  {
  }

  /** Whatever else happens, a request has its answer after four statements of its own. */
  lemma {:induction false} FourStepsAnswer(s: System, requests: nat -> Request, steps: seq<Step>, w: nat)
    requires StepsOf(steps, w) >= Ahead(PhaseOf(s, w))
    ensures PhaseOf(Run(s, requests, steps), w).Answered?
    decreases |steps|
  {
    if steps != [] {
      Unaffected(s, requests, steps[0], w);
      if !steps[0].Acknowledge? && steps[0].worker == w { OwnStepComesCloser(s, requests, steps[0]); }
      FourStepsAnswer(Perform(s, requests, steps[0]), requests, steps[1..], w);
    }
  }

  // ---------------------------------------------------------------------------------------
  // When 503 is not an answer
  // ---------------------------------------------------------------------------------------

  /** Run ids are drawn at random, and no statement of `w` fails. */
  ghost predicate GoesWell(s: System, requests: nat -> Request, steps: seq<Step>, w: nat)
    decreases |steps|
  {
    steps == [] ||
    (&& (steps[0].Break? ==> steps[0].worker != w)
     && (!steps[0].Acknowledge? ==> !RunIdTaken(s.db, steps[0].runId))
     && GoesWell(Perform(s, requests, steps[0]), requests, steps[1..], w))
  }

  /** The request has met no failure: what it lost against is there. */
  predicate IsWell(p: Phase, r: Request, db: Database) {
    match p
    case Legacy(_) => r.event in db.jobs
    case Restoring => r.event in db.jobs
    case Lost => r.event in db.jobs
    case Answered(a) => a != Unavailable
    case _ => true
  }

  lemma OwnStepGoesWell(s: System, w: nat, r: Request, runId: string, now: string)
    requires MessageFits(s.db, r.event, r.workspaceId) && IsWell(PhaseOf(s, w), r, s.db) && !RunIdTaken(s.db, runId)
    ensures var t := Advance(s, w, r, runId, now); IsWell(PhaseOf(t, w), r, t.db)
  {
  }

  lemma StepGoesWell(s: System, requests: nat -> Request, step: Step, w: nat)
    requires Sound(s, requests) && MessageFits(s.db, requests(w).event, requests(w).workspaceId)
    requires IsWell(PhaseOf(s, w), requests(w), s.db)
    requires (step.Break? ==> step.worker != w) && (!step.Acknowledge? ==> !RunIdTaken(s.db, step.runId))
    ensures var t := Perform(s, requests, step); IsWell(PhaseOf(t, w), requests(w), t.db)
  {
    StepKeeps(s, requests, step);
    Unaffected(s, requests, step, w);
    if step.Go? && step.worker == w { OwnStepGoesWell(s, w, requests(w), step.runId, step.now); }
  }

  lemma {:induction false} RunGoesWell(s: System, requests: nat -> Request, steps: seq<Step>, w: nat)
    requires Sound(s, requests) && OneWorkspace(requests, requests(w).event, requests(w).workspaceId)
    requires EventExact(s, requests, requests(w).event, requests(w).workspaceId)
    requires IsWell(PhaseOf(s, w), requests(w), s.db) && GoesWell(s, requests, steps, w)
    ensures var t := Run(s, requests, steps); IsWell(PhaseOf(t, w), requests(w), t.db)
    decreases |steps|
  {
    if steps != [] {
      StepGoesWell(s, requests, steps[0], w);
      StepKeeps(s, requests, steps[0]);
      StepIsExact(s, requests, steps[0], requests(w).event, requests(w).workspaceId);
      RunGoesWell(Perform(s, requests, steps[0]), requests, steps[1..], w);
    }
  }

  /**
   A request whose own statements do not fail is never answered 503, for an event without an older
   message: it gets 404 for its missing source, or what the stored receipt calls for.
   */
  lemma UnbrokenRequestsAreAnswered(s: System, requests: nat -> Request, steps: seq<Step>, w: nat)
    requires IsInitial(s) && OneWorkspace(requests, requests(w).event, requests(w).workspaceId)
    requires MessageFits(s.db, requests(w).event, requests(w).workspaceId) && GoesWell(s, requests, steps, w)
    ensures var t := Run(s, requests, steps);
            PhaseOf(t, w).Answered? ==>
              var r, a := requests(w), PhaseOf(t, w).answer;
              || (a == NoSourceRun && r.sourceMissing)
              || (r.event in t.db.jobs
                  && a == (if t.db.jobs[r.event].fingerprint == r.fingerprint
                           then Accepted(t.db.jobs[r.event].runId, t.db.jobs[r.event].acceptedAt) else UsedForAnotherJob))
  {
    RunGoesWell(s, requests, steps, w);
    RacersAreAnsweredExactly(s, requests, steps, w);
  }

  /** The first request for a job, left alone: 404 without its source run, else it is queued with its receipt. */
  lemma FirstRequestIsQueued(s: System, requests: nat -> Request, w: nat, runId: string, now: string)
    requires PhaseOf(s, w).Starting? && requests(w).event !in s.db.messages && requests(w).event !in s.db.jobs
    requires !RunIdTaken(s.db, runId)
    ensures var r := requests(w);
            var t := Run(s, requests, [Go(w, runId, now), Go(w, runId, now), Go(w, runId, now)]);
            if r.sourceMissing then PhaseOf(t, w) == Answered(NoSourceRun) && t.db == s.db
            else
              var receipt := Receipt(runId, now, r.fingerprint);
              && PhaseOf(t, w) == Answered(Accepted(runId, now))
              && t.db == Database(s.db.messages[r.event := Envelope(receipt, r.workspaceId)], s.db.jobs[r.event := receipt])
  {
    var go := Go(w, runId, now);
    var s1 := Perform(s, requests, go);
    var s2 := Perform(s1, requests, go);
    assert PhaseOf(s1, w) == NoReceipt && s1.db == s.db;
    assert s2.db == s.db && PhaseOf(s2, w) == if requests(w).sourceMissing then Answered(NoSourceRun) else NothingYet;
    assert [go, go, go][1..] == [go, go] && [go, go][1..] == [go] && [go][1..] == [];
    assert Run(s2, requests, [go]) == Perform(s2, requests, go);
    assert Run(s1, requests, [go, go]) == Run(s2, requests, [go]);
  }

  // ---------------------------------------------------------------------------------------
  // Messages older than the receipts
  // ---------------------------------------------------------------------------------------

  /** A request meets a message that was accepted before receipts existed. */
  ghost predicate MeetsOldMessage(s: System, w: nat, r: Request) {
    PhaseOf(s, w).Starting? && r.event in s.db.messages && r.event !in s.db.jobs
  }

  lemma TwoSteps(s: System, requests: nat -> Request, go: Step)
    ensures Run(s, requests, [go, go]) == Perform(Perform(s, requests, go), requests, go)
  {
    assert [go, go][1..] == [go] && [go][1..] == [];
    assert Run(Perform(s, requests, go), requests, [go]) == Perform(Perform(s, requests, go), requests, go);
  }

  /**
   The first look at such a message decides: an unreadable one is answered 503, one for another body, another
   workspace or of another kind 409, and only the very same job goes on.
   */
  lemma OldMessageDecides(s: System, requests: nat -> Request, w: nat, runId: string, now: string)
    requires MeetsOldMessage(s, w, requests(w))
    ensures var r, t := requests(w), Run(s, requests, [Go(w, runId, now), Go(w, runId, now)]);
            && t.db == s.db
            && PhaseOf(t, w) == match s.db.messages[r.event]
                                case Unreadable => Answered(Unavailable)
                                case Foreign => Answered(UsedForAnotherJob)
                                case Envelope(receipt, workspaceId) =>
                                  if receipt.fingerprint == r.fingerprint && workspaceId == r.workspaceId
                                  then Legacy(s.db.messages[r.event]) else Answered(UsedForAnotherJob)
  {
    TwoSteps(s, requests, Go(w, runId, now));
    assert PhaseOf(Perform(s, requests, Go(w, runId, now)), w) == NoReceipt;
  }

  /** And then it gets a receipt for the run it was accepted under, and is answered with it. */
  lemma OldMessageIsRestored(s: System, requests: nat -> Request, w: nat, runId: string, now: string)
    requires PhaseOf(s, w).Legacy? && PhaseOf(s, w).payload.Envelope? && requests(w).event !in s.db.jobs
    requires PhaseOf(s, w).payload.receipt.fingerprint == requests(w).fingerprint
    requires !RunIdTaken(s.db, PhaseOf(s, w).payload.receipt.runId)
    ensures var receipt, t := PhaseOf(s, w).payload.receipt, Run(s, requests, [Go(w, runId, now), Go(w, runId, now)]);
            && t.db == s.db.(jobs := s.db.jobs[requests(w).event := receipt])
            && PhaseOf(t, w) == Answered(Accepted(receipt.runId, receipt.acceptedAt))
  {
    TwoSteps(s, requests, Go(w, runId, now));
    assert PhaseOf(Perform(s, requests, Go(w, runId, now)), w) == Restoring;
  }
}
