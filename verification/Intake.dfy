/**
 Concurrent intake of dashboard jobs (`createManualJob` in src/worker/index.js) and the runner's
 acknowledgements. Every database statement or batch is one atomic step; requests, retries and
 acknowledgements interleave freely, and any statement may fail, even after it took effect.
 */
module Intake {
  import opened Common

  /** The event id is an injective digest of the workspace key and the idempotency key. */
  datatype Event = Event(workspaceKey: string, idempotencyKey: string)

  datatype Receipt = Receipt(runId: string, acceptedAt: string, fingerprint: string)

  /** A queued payload: a job envelope, something else with readable JSON, or not even that. */
  datatype Payload = Envelope(receipt: Receipt, workspaceId: string) | Foreign | Unreadable

  /** Both tables hold at most one row for an event; `jobs` also has the run id as its primary key. */
  datatype Database = Database(messages: map<Event, Payload>, jobs: map<Event, Receipt>)

  /** A request after validation. `sourceMissing`: it names a source run the workspace does not have. */
  datatype Request = Request(event: Event, fingerprint: string, workspaceId: string, sourceMissing: bool)

  datatype Answer = Accepted(runId: string, acceptedAt: string) | UsedForAnotherJob | NoSourceRun | Unavailable

  datatype Phase =
    | Starting
    | NoReceipt                 // no job row for the event
    | Legacy(payload: Payload)  // but a message accepted before job rows existed
    | Restoring                 // its job row is written; read it back
    | NothingYet                // neither row was there: about to insert both
    | Lost                      // the insert failed: look for the winner's receipt
    | Answered(answer: Answer)

  datatype System = System(db: Database, phases: map<nat, Phase>, inserted: map<Event, nat>)

  datatype Step =
    | Go(worker: nat, runId: string, now: string)
    | Break(worker: nat, runId: string, now: string, committed: bool)   // the statement raises
    | Acknowledge(events: set<Event>)

  function PhaseOf(s: System, w: nat): Phase { if w in s.phases then s.phases[w] else Starting }

  function Inserted(s: System, e: Event): nat { if e in s.inserted then s.inserted[e] else 0 }

  /** `acceptedManualJobResponse`. */
  function Reply(receipt: Option<Receipt>, fingerprint: string): Answer {
    if receipt == None then Unavailable
    else if receipt.value.fingerprint != fingerprint then UsedForAnotherJob
    else Accepted(receipt.value.runId, receipt.value.acceptedAt)
  }

  function Find(db: Database, e: Event): Option<Receipt> { if e in db.jobs then Some(db.jobs[e]) else None }

  predicate RunIdTaken(db: Database, runId: string) { exists e | e in db.jobs :: db.jobs[e].runId == runId }

  /** `acceptedManualJob`. */
  predicate IsAccepted(p: Payload, r: Request) {
    p.Envelope? && p.receipt.fingerprint == r.fingerprint && p.workspaceId == r.workspaceId
  }

  /** `INSERT OR IGNORE` of one job row. */
  function Restore(db: Database, e: Event, receipt: Receipt): Database {
    if e in db.jobs || RunIdTaken(db, receipt.runId) then db else db.(jobs := db.jobs[e := receipt])
  }

  /** The batch fails as a whole when either table already holds the event or the run id is taken. */
  predicate CanInsert(db: Database, e: Event, runId: string) {
    e !in db.messages && e !in db.jobs && !RunIdTaken(db, runId)
  }

  function InsertBoth(s: System, r: Request, receipt: Receipt): System {
    s.(db := Database(s.db.messages[r.event := Envelope(receipt, r.workspaceId)], s.db.jobs[r.event := receipt]),
       inserted := s.inserted[r.event := Inserted(s, r.event) + 1])
  }

  function To(s: System, w: nat, p: Phase): System { s.(phases := s.phases[w := p]) }

  function Advance(s: System, w: nat, r: Request, runId: string, now: string): System {
    match PhaseOf(s, w)
    case Starting =>
      var receipt := Find(s.db, r.event);
      To(s, w, if receipt.Some? then Answered(Reply(receipt, r.fingerprint)) else NoReceipt)
    case NoReceipt =>
      To(s, w,
        if r.event !in s.db.messages then (if r.sourceMissing then Answered(NoSourceRun) else NothingYet)
        else if s.db.messages[r.event].Unreadable? then Answered(Unavailable)
        else if !IsAccepted(s.db.messages[r.event], r) then Answered(UsedForAnotherJob)
        else Legacy(s.db.messages[r.event]))
    case Legacy(payload) =>
      To(if payload.Envelope? then s.(db := Restore(s.db, r.event, payload.receipt)) else s, w, Restoring)
    case Restoring => To(s, w, Answered(Reply(Find(s.db, r.event), r.fingerprint)))
    case NothingYet =>
      var receipt := Receipt(runId, now, r.fingerprint);
      if CanInsert(s.db, r.event, runId)
      then To(InsertBoth(s, r, receipt), w, Answered(Reply(Some(receipt), r.fingerprint)))
      else To(s, w, Lost)
    case Lost => To(s, w, Answered(Reply(Find(s.db, r.event), r.fingerprint)))
    case Answered(_) => s
  }

  /** A statement that raises: the batch falls back to the winner's receipt, all else gives up. */
  function Broken(s: System, w: nat, r: Request, runId: string, now: string, committed: bool): System {
    match PhaseOf(s, w)
    case Answered(_) => s
    case NothingYet =>
      To(if committed && CanInsert(s.db, r.event, runId) then InsertBoth(s, r, Receipt(runId, now, r.fingerprint)) else s,
         w, Lost)
    case Legacy(payload) =>
      To(if committed && payload.Envelope? then s.(db := Restore(s.db, r.event, payload.receipt)) else s,
         w, Answered(Unavailable))
    case _ => To(s, w, Answered(Unavailable))
  }

  function Perform(s: System, requests: nat -> Request, step: Step): System {
    match step
    case Go(w, runId, now) => Advance(s, w, requests(w), runId, now)
    case Break(w, runId, now, committed) => Broken(s, w, requests(w), runId, now, committed)
    case Acknowledge(events) => s.(db := s.db.(messages := s.db.messages - events))
  }

  function Run(s: System, requests: nat -> Request, steps: seq<Step>): System
    decreases |steps|
  {
    if steps == [] then s else Run(Perform(s, requests, steps[0]), requests, steps[1..])
  }

  // ---------------------------------------------------------------------------------------
  // The invariant
  // ---------------------------------------------------------------------------------------

  /** A queued job and its receipt name the same run, and runs are not shared. */
  ghost predicate TablesAgree(db: Database) {
    && (forall e | e in db.messages && e in db.jobs :: db.messages[e].Envelope? && db.messages[e].receipt == db.jobs[e])
    && (forall d, e | d in db.jobs && e in db.jobs && db.jobs[d].runId == db.jobs[e].runId :: d == e)
  }

  predicate PhaseSound(p: Phase, r: Request, db: Database) {
    match p
    case Legacy(payload) =>
      IsAccepted(payload, r) && (r.event in db.jobs || (r.event in db.messages ==> db.messages[r.event] == payload))
    case Answered(Accepted(runId, acceptedAt)) =>
      r.event in db.jobs && db.jobs[r.event] == Receipt(runId, acceptedAt, r.fingerprint)
    case _ => true
  }

  ghost predicate Sound(s: System, requests: nat -> Request) {
    && TablesAgree(s.db)
    && (forall w | w in s.phases :: PhaseSound(s.phases[w], requests(w), s.db))
    && (forall e | e in s.inserted :: e in s.db.jobs && s.inserted[e] == 1)
  }

  /** What a step may do to the database: receipts stay, and a message comes only with a new receipt. */
  ghost predicate Grows(a: Database, b: Database) {
    && (forall e | e in a.jobs :: e in b.jobs && b.jobs[e] == a.jobs[e])
    && (forall e | e in b.messages :: (e in a.messages && b.messages[e] == a.messages[e]) || e in b.jobs)
  }

  lemma PhasesGrow(phases: map<nat, Phase>, requests: nat -> Request, a: Database, b: Database)
    requires Grows(a, b) && forall w | w in phases :: PhaseSound(phases[w], requests(w), a)
    ensures forall w | w in phases :: PhaseSound(phases[w], requests(w), b)
  {
    forall w | w in phases ensures PhaseSound(phases[w], requests(w), b) {
      assert PhaseSound(phases[w], requests(w), a);
    }
  }

  ghost predicate Keeps(s: System, t: System, requests: nat -> Request) { Sound(t, requests) && Grows(s.db, t.db) }

  lemma RestoreKeeps(s: System, requests: nat -> Request, w: nat, p: Phase)
    requires Sound(s, requests) && w in s.phases && s.phases[w].Legacy? && (p.Restoring? || p == Answered(Unavailable))
    ensures Keeps(s, To(s.(db := Restore(s.db, requests(w).event, s.phases[w].payload.receipt)), w, p), requests)
  {
    var db := Restore(s.db, requests(w).event, s.phases[w].payload.receipt);
    assert PhaseSound(s.phases[w], requests(w), s.db);
    PhasesGrow(s.phases, requests, s.db, db);
  }

  lemma InsertKeeps(s: System, requests: nat -> Request, w: nat, runId: string, now: string, p: Phase)
    requires Sound(s, requests) && CanInsert(s.db, requests(w).event, runId)
    requires p.Lost? || p == Answered(Accepted(runId, now))
    ensures Keeps(s, To(InsertBoth(s, requests(w), Receipt(runId, now, requests(w).fingerprint)), w, p), requests)
  {
    var t := InsertBoth(s, requests(w), Receipt(runId, now, requests(w).fingerprint));
    PhasesGrow(s.phases, requests, s.db, t.db);
  }

  /** Reading a row and moving on. */
  lemma ReadKeeps(s: System, requests: nat -> Request, w: nat, p: Phase)
    requires Sound(s, requests) && PhaseSound(p, requests(w), s.db)
    ensures Keeps(s, To(s, w, p), requests)
  {
  }

  lemma AdvanceKeeps(s: System, requests: nat -> Request, w: nat, runId: string, now: string)
    requires Sound(s, requests)
    ensures Keeps(s, Advance(s, w, requests(w), runId, now), requests)
  {
    var r := requests(w);
    match PhaseOf(s, w)
    case Legacy(_) => RestoreKeeps(s, requests, w, Restoring);
    case NothingYet =>
      if CanInsert(s.db, r.event, runId) {
        InsertKeeps(s, requests, w, runId, now, Answered(Accepted(runId, now)));
      } else {
        ReadKeeps(s, requests, w, Lost);
      }
    case Answered(_) =>
    case _ => ReadKeeps(s, requests, w, Advance(s, w, r, runId, now).phases[w]);
  }

  lemma BrokenKeeps(s: System, requests: nat -> Request, w: nat, runId: string, now: string, committed: bool)
    requires Sound(s, requests)
    ensures Keeps(s, Broken(s, w, requests(w), runId, now, committed), requests)
  {
    ReadKeeps(s, requests, w, Lost);
    ReadKeeps(s, requests, w, Answered(Unavailable));
    match PhaseOf(s, w)
    case Legacy(_) => RestoreKeeps(s, requests, w, Answered(Unavailable));
    case NothingYet =>
      if CanInsert(s.db, requests(w).event, runId) { InsertKeeps(s, requests, w, runId, now, Lost); }
    case _ =>
  }

  lemma StepKeeps(s: System, requests: nat -> Request, step: Step)
    requires Sound(s, requests)
    ensures Keeps(s, Perform(s, requests, step), requests)
  {
    match step
    case Acknowledge(events) => PhasesGrow(s.phases, requests, s.db, Perform(s, requests, step).db);
    case Go(w, runId, now) => AdvanceKeeps(s, requests, w, runId, now);
    case Break(w, runId, now, committed) => BrokenKeeps(s, requests, w, runId, now, committed);
  }

  lemma {:induction false} RunKeeps(s: System, requests: nat -> Request, steps: seq<Step>)
    requires Sound(s, requests)
    ensures Sound(Run(s, requests, steps), requests)
    decreases |steps|
  {
    if steps != [] {
      StepKeeps(s, requests, steps[0]);
      RunKeeps(Perform(s, requests, steps[0]), requests, steps[1..]);
    }
  }

  // ---------------------------------------------------------------------------------------
  // What clients see
  // ---------------------------------------------------------------------------------------

  /** No request is in progress, and the tables agree; messages older than the job rows may be queued. */
  ghost predicate IsInitial(s: System) { TablesAgree(s.db) && s.phases == map[] && s.inserted == map[] }

  /** Every acceptance under one idempotency key names one run, and was given for one and the same job. */
  lemma AcceptancesAgree(s: System, requests: nat -> Request, steps: seq<Step>, v: nat, w: nat)
    requires IsInitial(s) && requests(v).event == requests(w).event
    ensures var t := Run(s, requests, steps);
            var a, b := PhaseOf(t, v), PhaseOf(t, w);
            a.Answered? && b.Answered? && a.answer.Accepted? && b.answer.Accepted? ==>
              a == b && requests(v).fingerprint == requests(w).fingerprint
  {
    RunKeeps(s, requests, steps);
  }

  /** However often it is retried and whenever it is acknowledged, a job is queued at most once, for its own run. */
  lemma QueuedOnce(s: System, requests: nat -> Request, steps: seq<Step>, e: Event)
    requires IsInitial(s)
    ensures var t := Run(s, requests, steps);
            && Inserted(t, e) <= 1
            && (e in t.db.messages && e in t.db.jobs ==>
                  t.db.messages[e].Envelope? && t.db.messages[e].receipt == t.db.jobs[e])
  {
    RunKeeps(s, requests, steps);
  }

  /** Different keys are never answered with one run. */
  lemma RunsAreNotShared(s: System, requests: nat -> Request, steps: seq<Step>, v: nat, w: nat)
    requires IsInitial(s) && requests(v).event != requests(w).event
    ensures var t := Run(s, requests, steps);
            var a, b := PhaseOf(t, v), PhaseOf(t, w);
            a.Answered? && b.Answered? && a.answer.Accepted? && b.answer.Accepted? ==> a.answer.runId != b.answer.runId
  {
    RunKeeps(s, requests, steps);
  }

  // ---------------------------------------------------------------------------------------
  // Exact answers, racing requests included
  // ---------------------------------------------------------------------------------------

  /** One workspace key stands for one workspace. */
  ghost predicate OneWorkspace(requests: nat -> Request, e: Event, workspaceId: string) {
    forall w :: requests(w).event == e ==> requests(w).workspaceId == workspaceId
  }

  /** A queued message of the event was inserted with its receipt. */
  predicate MessageFits(db: Database, e: Event, workspaceId: string) {
    e in db.messages ==> e in db.jobs && db.messages[e] == Envelope(db.jobs[e], workspaceId)
  }

  /** The answer is the one the stored receipt calls for, unless the request failed before. */
  predicate IsExact(a: Answer, r: Request, db: Database) {
    || a == Unavailable
    || (a == NoSourceRun && r.sourceMissing)
    || (r.event in db.jobs && a == Reply(Some(db.jobs[r.event]), r.fingerprint))
  }

  predicate PhaseExact(p: Phase, r: Request, db: Database) {
    match p
    case Legacy(payload) => r.event in db.jobs && payload.Envelope? && payload.receipt == db.jobs[r.event]
    case Restoring => r.event in db.jobs
    case Answered(a) => IsExact(a, r, db)
    case _ => true
  }

  ghost predicate EventExact(s: System, requests: nat -> Request, e: Event, workspaceId: string) {
    && MessageFits(s.db, e, workspaceId)
    && forall w | w in s.phases && requests(w).event == e :: PhaseExact(s.phases[w], requests(w), s.db)
  }

  /** The receipt of `e` stays, so what was exact stays exact. */
  lemma ExactGrows(phases: map<nat, Phase>, requests: nat -> Request, e: Event, a: Database, b: Database)
    requires e in a.jobs ==> e in b.jobs && b.jobs[e] == a.jobs[e]
    requires forall w | w in phases && requests(w).event == e :: PhaseExact(phases[w], requests(w), a)
    ensures forall w | w in phases && requests(w).event == e :: PhaseExact(phases[w], requests(w), b)
  {
    forall w | w in phases && requests(w).event == e ensures PhaseExact(phases[w], requests(w), b) {
      assert PhaseExact(phases[w], requests(w), a);
    }
  }

  /** What one step of one request does to the database and to its own phase. */
  lemma AdvanceIsExact(s: System, w: nat, r: Request, runId: string, now: string)
    requires MessageFits(s.db, r.event, r.workspaceId) && PhaseExact(PhaseOf(s, w), r, s.db)
    ensures var t := Advance(s, w, r, runId, now);
            MessageFits(t.db, r.event, r.workspaceId) && PhaseExact(PhaseOf(t, w), r, t.db)
  {
  }

  lemma BrokenIsExact(s: System, w: nat, r: Request, runId: string, now: string, committed: bool)
    requires MessageFits(s.db, r.event, r.workspaceId) && PhaseExact(PhaseOf(s, w), r, s.db)
    ensures var t := Broken(s, w, r, runId, now, committed);
            MessageFits(t.db, r.event, r.workspaceId) && PhaseExact(PhaseOf(t, w), r, t.db)
  {
  }

  /** A step leaves the rows of every other event alone. */
  lemma OtherEvents(s: System, requests: nat -> Request, step: Step, e: Event)
    requires step.Acknowledge? || requests(step.worker).event != e
    ensures var db := Perform(s, requests, step).db;
            && (e in db.jobs <==> e in s.db.jobs) && (e in s.db.jobs ==> db.jobs[e] == s.db.jobs[e])
            && (e in db.messages ==> e in s.db.messages && db.messages[e] == s.db.messages[e])
  {
  }

  lemma StepIsExact(s: System, requests: nat -> Request, step: Step, e: Event, workspaceId: string)
    requires Sound(s, requests) && OneWorkspace(requests, e, workspaceId) && EventExact(s, requests, e, workspaceId)
    ensures EventExact(Perform(s, requests, step), requests, e, workspaceId)
  {
    var t := Perform(s, requests, step);
    StepKeeps(s, requests, step);
    ExactGrows(s.phases, requests, e, s.db, t.db);
    if step.Acknowledge? || requests(step.worker).event != e {
      OtherEvents(s, requests, step, e);
    } else {
      assert PhaseExact(PhaseOf(s, step.worker), requests(step.worker), s.db);
      match step
      case Go(w, runId, now) => AdvanceIsExact(s, w, requests(w), runId, now);
      case Break(w, runId, now, committed) => BrokenIsExact(s, w, requests(w), runId, now, committed);
    }
    forall w | w in t.phases && requests(w).event == e ensures PhaseExact(t.phases[w], requests(w), t.db) {
      Unaffected(s, requests, step, w);
    }
  }

  lemma {:induction false} RunIsExact(s: System, requests: nat -> Request, steps: seq<Step>, e: Event, workspaceId: string)
    requires Sound(s, requests) && OneWorkspace(requests, e, workspaceId) && EventExact(s, requests, e, workspaceId)
    ensures EventExact(Run(s, requests, steps), requests, e, workspaceId)
    decreases |steps|
  {
    if steps != [] {
      StepKeeps(s, requests, steps[0]);
      StepIsExact(s, requests, steps[0], e, workspaceId);
      RunIsExact(Perform(s, requests, steps[0]), requests, steps[1..], e, workspaceId);
    }
  }

  /**
   Every request for an event without an older message, whenever it started and whatever it raced with,
   is answered as the stored receipt says: 202 with its run for the same body, 409 for another body.
   The only other answers are 503, and 404 for a missing source run.
   */
  lemma RacersAreAnsweredExactly(s: System, requests: nat -> Request, steps: seq<Step>, w: nat)
    requires IsInitial(s) && OneWorkspace(requests, requests(w).event, requests(w).workspaceId)
    requires MessageFits(s.db, requests(w).event, requests(w).workspaceId)
    ensures var t := Run(s, requests, steps);
            PhaseOf(t, w).Answered? ==> IsExact(PhaseOf(t, w).answer, requests(w), t.db)
  {
    RunIsExact(s, requests, steps, requests(w).event, requests(w).workspaceId);
  }

  predicate IsFinal(p: Phase, r: Request, receipt: Receipt) {
    p.Answered? ==> p.answer == Reply(Some(receipt), r.fingerprint) || p.answer == Unavailable
  }

  /**
   Once a job has its receipt, whoever asks next gets that run if the body is the same, 409 if it is
   not, and 503 at worst; no acknowledgement changes this.
   */
  lemma {:induction false} LaterRequestsReplay(s: System, requests: nat -> Request, steps: seq<Step>, w: nat)
    requires Sound(s, requests) && requests(w).event in s.db.jobs
    requires PhaseOf(s, w).Starting? || PhaseOf(s, w) == Answered(Reply(Some(s.db.jobs[requests(w).event]), requests(w).fingerprint))
             || PhaseOf(s, w) == Answered(Unavailable)
    ensures IsFinal(PhaseOf(Run(s, requests, steps), w), requests(w), s.db.jobs[requests(w).event])
    ensures PhaseOf(Run(s, requests, steps), w).Answered? || PhaseOf(Run(s, requests, steps), w).Starting?
    decreases |steps|
  {
    if steps != [] {
      StepKeeps(s, requests, steps[0]);
      Unaffected(s, requests, steps[0], w);
      LaterRequestsReplay(Perform(s, requests, steps[0]), requests, steps[1..], w);
    }
  }

  lemma Unaffected(s: System, requests: nat -> Request, step: Step, w: nat)
    ensures step.Acknowledge? || step.worker != w ==> PhaseOf(Perform(s, requests, step), w) == PhaseOf(s, w)
    ensures PhaseOf(s, w).Answered? ==> PhaseOf(Perform(s, requests, step), w) == PhaseOf(s, w)
  {
  }

  /** Two requests with one body, the first before an older message is acknowledged and the second after. */
  function Misled(s: System, requests: nat -> Request, runId: string, now: string): System {
    var first := Perform(Perform(s, requests, Go(0, runId, now)), requests, Go(0, runId, now));
    var acknowledged := Perform(first, requests, Acknowledge({requests(0).event}));
    var third := Perform(Perform(acknowledged, requests, Go(1, runId, now)), requests, Go(1, runId, now));
    Perform(third, requests, Go(1, runId, now))
  }

  /**
   With an older message the exact answer can fail: a request is refused by comparison with that message,
   which is then acknowledged, and a later request with the very same body gets the receipt.
   */
  lemma OldMessageMisleads(s: System, requests: nat -> Request, runId: string, now: string)
    requires IsInitial(s) && requests(0) == requests(1) && !requests(0).sourceMissing
    requires requests(0).event in s.db.messages && requests(0).event !in s.db.jobs && !RunIdTaken(s.db, runId)
    requires var m := s.db.messages[requests(0).event]; m.Envelope? && m.receipt.fingerprint != requests(0).fingerprint
    ensures var t := Misled(s, requests, runId, now);
            && PhaseOf(t, 0) == Answered(UsedForAnotherJob) && PhaseOf(t, 1) == Answered(Accepted(runId, now))
            && !IsExact(UsedForAnotherJob, requests(0), t.db)
  {
    var e := requests(0).event;
    var s2 := Perform(Perform(s, requests, Go(0, runId, now)), requests, Go(0, runId, now));
    assert PhaseOf(s2, 0) == Answered(UsedForAnotherJob) && s2.db == s.db;
    var s3 := Perform(s2, requests, Acknowledge({e}));
    assert e !in s3.db.messages && s3.db.jobs == s.db.jobs;
    var s5 := Perform(Perform(s3, requests, Go(1, runId, now)), requests, Go(1, runId, now));
    assert PhaseOf(s5, 1) == NothingYet && s5.db == s3.db;
    assert CanInsert(s5.db, e, runId);
  }
}
