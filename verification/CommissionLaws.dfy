/**
 Workers racing on the commission store, as cloud/service.py drives them: look up, create or
 reclaim, coordinate, then write back under the attempt number. A worker that crashes simply takes
 no further step, and one may write back arbitrarily late.
 */
module CommissionLaws {
  import opened Common
  import opened CommissionStore

  /** What one request to the service asks for. */
  datatype Job = Job(task: string, runId: string, key: string)

  datatype Reply = Accepted(record: Record) | Duplicate(record: Record) | LateDuplicate(record: Record)
                 | Conflict | CoordinatorError | StillCommitting

  datatype Phase =
    | Idle
    | Absent                       // no record under the key: about to create
    | Resuming(existing: Record)   // the record looks failed or abandoned: about to reclaim
    | LostCreate                   // another worker created the record first
    | Working(record: Record)      // owns one coordination attempt
    | Overtaken(runId: string)     // its write back was refused
    | Finished(reply: Reply)

  /** A worker was given one attempt of one run, and with it the ADK session of that attempt. */
  datatype Grant = Grant(runId: string, attempt: nat, worker: nat)

  datatype System = System(
    store: Memory, phases: map<nat, Phase>, grants: seq<Grant>, reclaims: map<string, nat>)

  datatype Action =
    | LookUp
    | Start(lease: Time)
    | Resume(lease: Time, now: Time)
    | Coordinated(output: Option<string>)   // None: the coordinator failed
    | ReadBack

  datatype Step = Step(worker: nat, action: Action)

  function PhaseOf(s: System, w: nat): Phase { if w in s.phases then s.phases[w] else Idle }

  function SetPhase(s: System, w: nat, p: Phase): System { s.(phases := s.phases[w := p]) }

  function NewRecord(j: Job, lease: Time): Record {
    Record(j.runId, j.key, Sha256(j.task), Coordinating, 1, Some(lease), None, None)
  }

  function Outcome(r: Record, output: Option<string>): Record {
    if output == None then r.(status := CoordinatorFailed, error := Some("RuntimeError"), leaseExpiresAt := None)
    else r.(status := ReadyForRally, coordinatorRecord := output, leaseExpiresAt := None)
  }

  /** One atomic store access of `submit_commission` or `finish_coordination`, and what follows it. */
  function Act(s: System, j: Job, w: nat, a: Action): System {
    match (PhaseOf(s, w), a)
    case (Idle, LookUp) =>
      var existing := MemGetByKey(s.store, j.key);
      SetPhase(s, w,
        if existing == None then Absent
        else if existing.value.digest != Sha256(j.task) then Finished(Conflict)
        else if existing.value.status in {CoordinatorFailed, Coordinating} then Resuming(existing.value)
        else Finished(Duplicate(existing.value)))
    case (Absent, Start(lease)) =>
      var r := NewRecord(j, lease);
      var (store, ok) := MemCreate(s.store, r);
      if !ok then SetPhase(s, w, LostCreate)
      else System(store, s.phases[w := Working(r)], s.grants + [Grant(r.runId, 1, w)], s.reclaims[r.runId := 0])
    case (LostCreate, LookUp) =>
      var existing := MemGetByKey(s.store, j.key);
      SetPhase(s, w, Finished(if existing == None then StillCommitting else LateDuplicate(existing.value)))
    case (Resuming(existing), Resume(lease, now)) =>
      var (store, resumed) := MemReclaim(s.store, j.key, lease, now);
      if resumed == None then SetPhase(s, w, Finished(Duplicate(existing)))
      else
        var r := resumed.value;
        System(store, s.phases[w := Working(r)], s.grants + [Grant(r.runId, r.attempts, w)],
               s.reclaims[r.runId := 1 + if r.runId in s.reclaims then s.reclaims[r.runId] else 0])
    case (Working(r), Coordinated(output)) =>
      var done := Outcome(r, output);
      var (store, ok) := MemUpdate(s.store, r.runId, done, Some(r.attempts));
      SetPhase(s.(store := store), w,
        if output == None then Finished(CoordinatorError)
        else if ok then Finished(Accepted(done)) else Overtaken(r.runId))
    case (Overtaken(runId), ReadBack) =>
      var current := MemGet(s.store, runId);
      SetPhase(s, w, Finished(if current == None then Conflict else Duplicate(current.value)))
    case _ => s
  }

  function Run(s: System, jobs: nat -> Job, steps: seq<Step>): System
    decreases |steps|
  {
    if steps == [] then s
    else Run(Act(s, jobs(steps[0].worker), steps[0].worker, steps[0].action), jobs, steps[1..])
  }

  const EMPTY: System := System(Memory(map[], map[]), map[], [], map[])

  /** Requests with different keys never share a run id. */
  ghost predicate OneKeyPerRun(jobs: nat -> Job) {
    forall v, w :: jobs(v).runId == jobs(w).runId ==> jobs(v).key == jobs(w).key
  }

  // ---------------------------------------------------------------------------------------
  // The invariant
  // ---------------------------------------------------------------------------------------

  ghost predicate StoreSound(s: System, jobs: nat -> Job) {
    && WellIndexed(s.store)
    && (forall w :: jobs(w).runId in s.store.records ==> s.store.records[jobs(w).runId].requestKey == jobs(w).key)
    && (forall r | r in s.store.records :: r in s.reclaims && s.store.records[r].attempts == 1 + s.reclaims[r])
  }

  ghost predicate GrantsSound(s: System) {
    && (forall g | g in s.grants :: g.runId in s.store.records && 1 <= g.attempt <= s.store.records[g.runId].attempts)
    && (forall i, j | 0 <= i < j < |s.grants| ::
          s.grants[i].runId != s.grants[j].runId || s.grants[i].attempt != s.grants[j].attempt)
  }

  /** A working worker holds its grant; if no later attempt exists, the record still says coordinating. */
  ghost predicate WorkerSound(s: System, j: Job, w: nat, r: Record) {
    && r.runId in s.store.records && Grant(r.runId, r.attempts, w) in s.grants
    && var stored := s.store.records[r.runId];
       && r.requestKey == stored.requestKey == j.key && r.digest == stored.digest == Sha256(j.task)
       && r.attempts <= stored.attempts
       && (r.attempts == stored.attempts ==> stored.status == Coordinating)
  }

  /** Answers carry the digest of the task they answer, except the one after a lost create. */
  ghost predicate PhaseSound(s: System, j: Job, w: nat) {
    match PhaseOf(s, w)
    case Working(r) => WorkerSound(s, j, w, r)
    case Resuming(r) => r.digest == Sha256(j.task) && r.requestKey == j.key && Recorded(s, r)
    case Overtaken(runId) => runId in s.store.records && s.store.records[runId].digest == Sha256(j.task)
                             && s.store.records[runId].requestKey == j.key
    case Finished(reply) =>
      && (reply.Accepted? || reply.Duplicate? ==> reply.record.digest == Sha256(j.task) && reply.record.requestKey == j.key)
      && (reply.LateDuplicate? ==> reply.record.requestKey == j.key)
    case _ => true
  }

  /** The commission this record was read from: its identity is still what the store has. */
  ghost predicate Recorded(s: System, r: Record) {
    r.runId in s.store.records && s.store.records[r.runId].digest == r.digest && s.store.records[r.runId].requestKey == r.requestKey
  }

  ghost predicate Sound(s: System, jobs: nat -> Job) {
    StoreSound(s, jobs) && GrantsSound(s) && forall w :: PhaseSound(s, jobs(w), w)
  }

  /** What a step may do to the record of one run. */
  ghost predicate RecordStep(was: Record, now: Record) {
    && now.runId == was.runId && now.requestKey == was.requestKey && now.digest == was.digest
    && now.attempts in {was.attempts, was.attempts + 1}
    && (was.status == ReadyForRally ==> now == was)
    && (now.attempts == was.attempts + 1 ==> now.status == Coordinating)
  }

  ghost predicate StoreStep(s: System, t: System) {
    forall r | r in s.store.records :: r in t.store.records && RecordStep(s.store.records[r], t.store.records[r])
  }

  /** Only the holder of the current attempt writes without raising the attempt number. */
  ghost predicate OnlyHolderWrites(s: System, t: System, w: nat) {
    forall r | r in s.store.records && r in t.store.records :: t.store.records[r] == s.store.records[r]
      || t.store.records[r].attempts > s.store.records[r].attempts
      || Grant(r, s.store.records[r].attempts, w) in s.grants
  }

  /** The store, the grants and the reclaim counts after one step of `w`, without the phases. */
  ghost predicate Kept(s: System, t: System, jobs: nat -> Job, w: nat) {
    StoreSound(t, jobs) && StoreStep(s, t) && GrantsSound(t) && s.grants <= t.grants && OnlyHolderWrites(s, t, w)
  }

  /** A record created under an unused key and run id. */
  lemma CreatedKeeps(s: System, t: System, jobs: nat -> Job, w: nat, r: Record)
    requires OneKeyPerRun(jobs) && StoreSound(s, jobs) && r.requestKey !in s.store.keys
    requires r.runId == jobs(w).runId && r.requestKey == jobs(w).key && r.attempts == 1
    requires t.store == Memory(s.store.records[r.runId := r], s.store.keys[r.requestKey := r.runId])
    requires t.reclaims == s.reclaims[r.runId := 0]
    ensures r.runId !in s.store.records && StoreSound(t, jobs) && StoreStep(s, t)
  {
    assert r.runId !in s.store.records;
    forall v | jobs(v).runId in t.store.records ensures t.store.records[jobs(v).runId].requestKey == jobs(v).key {
      if jobs(v).runId == r.runId { assert jobs(v).key == jobs(w).key; }
    }
  }

  /** A record replaced by a later version of itself. */
  lemma ReplacedKeeps(s: System, t: System, jobs: nat -> Job, r: Record)
    requires StoreSound(s, jobs) && r.runId in s.store.records && RecordStep(s.store.records[r.runId], r)
    requires t.store == Memory(s.store.records[r.runId := r], s.store.keys)
    requires r.attempts == s.store.records[r.runId].attempts ==> t.reclaims == s.reclaims
    requires r.attempts != s.store.records[r.runId].attempts ==> t.reclaims == s.reclaims[r.runId := s.reclaims[r.runId] + 1]
    ensures StoreSound(t, jobs) && StoreStep(s, t)
  {
  }

  /** An attempt number above all earlier ones of its run is granted once. */
  lemma GrantedKeeps(s: System, t: System, r: Record, w: nat)
    requires GrantsSound(s) && StoreStep(s, t) && r.attempts >= 1
    requires r.runId in t.store.records && t.store.records[r.runId].attempts == r.attempts
    requires r.runId in s.store.records ==> s.store.records[r.runId].attempts < r.attempts
    requires t.grants == s.grants + [Grant(r.runId, r.attempts, w)]
    ensures GrantsSound(t) && Grant(r.runId, r.attempts, w) in t.grants
  {
    assert t.grants[|s.grants|] == Grant(r.runId, r.attempts, w);
    forall g | g in t.grants ensures g.runId in t.store.records && 1 <= g.attempt <= t.store.records[g.runId].attempts {
      if g in s.grants { assert RecordStep(s.store.records[g.runId], t.store.records[g.runId]); }
    }
    forall i, j | 0 <= i < j < |t.grants|
      ensures t.grants[i].runId != t.grants[j].runId || t.grants[i].attempt != t.grants[j].attempt
    {
      assert t.grants[i] == s.grants[i] && s.grants[i] in s.grants;
    }
  }

  lemma OldGrantsKeep(s: System, t: System)
    requires GrantsSound(s) && StoreStep(s, t) && t.grants == s.grants
    ensures GrantsSound(t)
  {
    forall g | g in t.grants ensures g.runId in t.store.records && 1 <= g.attempt <= t.store.records[g.runId].attempts {
      assert RecordStep(s.store.records[g.runId], t.store.records[g.runId]);
    }
  }

  lemma StartKeeps(s: System, jobs: nat -> Job, w: nat, lease: Time)
    requires OneKeyPerRun(jobs) && StoreSound(s, jobs) && GrantsSound(s) && PhaseOf(s, w) == Absent
    ensures Kept(s, Act(s, jobs(w), w, Start(lease)), jobs, w)
    ensures PhaseSound(Act(s, jobs(w), w, Start(lease)), jobs(w), w)
  {
    var r, t := NewRecord(jobs(w), lease), Act(s, jobs(w), w, Start(lease));
    if r.requestKey !in s.store.keys {
      CreatedKeeps(s, t, jobs, w, r);
      GrantedKeeps(s, t, r, w);
    } else {
      OldGrantsKeep(s, t);
    }
  }

  /** A reclaimed record is a later version of the stored one, under its own key. */
  lemma ReclaimRaises(s: System, key: string, lease: Time, now: Time)
    requires WellIndexed(s.store)
    ensures var (store, r) := MemReclaim(s.store, key, lease, now);
            if r == None then store == s.store
            else && r.value.runId in s.store.records && RecordStep(s.store.records[r.value.runId], r.value)
                 && r.value.attempts == s.store.records[r.value.runId].attempts + 1
                 && r.value.requestKey == key && r.value.status == Coordinating
                 && store == Memory(s.store.records[r.value.runId := r.value], s.store.keys)
  {
  }

  /** The system after a reclaim that succeeded. */
  function Reclaimed(s: System, w: nat, r: Record): System {
    System(Memory(s.store.records[r.runId := r], s.store.keys), s.phases[w := Working(r)],
           s.grants + [Grant(r.runId, r.attempts, w)],
           s.reclaims[r.runId := 1 + if r.runId in s.reclaims then s.reclaims[r.runId] else 0])
  }

  lemma ReclaimedKeeps(s: System, jobs: nat -> Job, w: nat, r: Record)
    requires StoreSound(s, jobs) && GrantsSound(s) && r.runId in s.store.records
    requires RecordStep(s.store.records[r.runId], r) && r.attempts == s.store.records[r.runId].attempts + 1
    ensures Kept(s, Reclaimed(s, w, r), jobs, w) && Grant(r.runId, r.attempts, w) in Reclaimed(s, w, r).grants
  {
    ReplacedKeeps(s, Reclaimed(s, w, r), jobs, r);
    GrantedKeeps(s, Reclaimed(s, w, r), r, w);
  }

  lemma ReclaimedWorks(s: System, j: Job, w: nat, r: Record)
    requires WellIndexed(s.store) && PhaseOf(s, w).Resuming? && PhaseSound(s, j, w)
    requires r.runId in s.store.records && r.requestKey == j.key && r.status == Coordinating
    requires RecordStep(s.store.records[r.runId], r) && Grant(r.runId, r.attempts, w) in Reclaimed(s, w, r).grants
    ensures PhaseSound(Reclaimed(s, w, r), j, w)
  {
    assert r.runId == PhaseOf(s, w).existing.runId;
  }

  lemma ResumeKeeps(s: System, jobs: nat -> Job, w: nat, lease: Time, now: Time)
    requires StoreSound(s, jobs) && GrantsSound(s) && PhaseOf(s, w).Resuming? && PhaseSound(s, jobs(w), w)
    ensures Kept(s, Act(s, jobs(w), w, Resume(lease, now)), jobs, w)
    ensures PhaseSound(Act(s, jobs(w), w, Resume(lease, now)), jobs(w), w)
  {
    var (store, resumed) := MemReclaim(s.store, jobs(w).key, lease, now);
    ReclaimRaises(s, jobs(w).key, lease, now);
    if resumed.Some? {
      assert Act(s, jobs(w), w, Resume(lease, now)) == Reclaimed(s, w, resumed.value);
      ReclaimedKeeps(s, jobs, w, resumed.value);
      ReclaimedWorks(s, jobs(w), w, resumed.value);
    } else {
      OldGrantsKeep(s, Act(s, jobs(w), w, Resume(lease, now)));
    }
  }

  lemma CoordinatedKeeps(s: System, jobs: nat -> Job, w: nat, output: Option<string>)
    requires StoreSound(s, jobs) && GrantsSound(s) && PhaseOf(s, w).Working? && PhaseSound(s, jobs(w), w)
    ensures Kept(s, Act(s, jobs(w), w, Coordinated(output)), jobs, w)
    ensures PhaseSound(Act(s, jobs(w), w, Coordinated(output)), jobs(w), w)
  {
    var r, t := PhaseOf(s, w).record, Act(s, jobs(w), w, Coordinated(output));
    if s.store.records[r.runId].attempts == r.attempts {
      assert t.store.keys == s.store.keys;
      ReplacedKeeps(s, t, jobs, Outcome(r, output));
    }
    OldGrantsKeep(s, t);
    CoordinatedAnswers(s, jobs(w), w, output);
  }

  lemma CoordinatedAnswers(s: System, j: Job, w: nat, output: Option<string>)
    requires PhaseOf(s, w).Working? && PhaseSound(s, j, w)
    ensures PhaseSound(Act(s, j, w, Coordinated(output)), j, w)
  {
  }

  /** Each attempt belongs to one worker. */
  lemma OneHolder(s: System, runId: string, attempt: nat, v: nat)
    requires GrantsSound(s) && Grant(runId, attempt, v) in s.grants
    ensures forall w | Grant(runId, attempt, w) in s.grants :: w == v
  {
    forall w | Grant(runId, attempt, w) in s.grants ensures w == v {
      var a :| 0 <= a < |s.grants| && s.grants[a] == Grant(runId, attempt, v);
      var b :| 0 <= b < |s.grants| && s.grants[b] == Grant(runId, attempt, w);
      assert s.grants[a].runId == s.grants[b].runId && s.grants[a].attempt == s.grants[b].attempt;
      assert a == b;
    }
  }

  lemma OthersKeep(s: System, t: System, j: Job, v: nat, w: nat)
    requires v != w && PhaseSound(s, j, v) && PhaseOf(t, v) == PhaseOf(s, v)
    requires StoreStep(s, t) && GrantsSound(s) && s.grants <= t.grants && OnlyHolderWrites(s, t, w)
    ensures PhaseSound(t, j, v)
  {
    match PhaseOf(s, v)
    case Working(r) =>
      assert RecordStep(s.store.records[r.runId], t.store.records[r.runId]);
      assert Grant(r.runId, r.attempts, v) in t.grants;
      OneHolder(s, r.runId, r.attempts, v);
    case Resuming(r) => assert RecordStep(s.store.records[r.runId], t.store.records[r.runId]);
    case Overtaken(runId) => assert RecordStep(s.store.records[runId], t.store.records[runId]);
    case _ =>
  }

  lemma ActIsSound(s: System, jobs: nat -> Job, w: nat, a: Action)
    requires OneKeyPerRun(jobs) && Sound(s, jobs)
    ensures var t := Act(s, jobs(w), w, a); Kept(s, t, jobs, w) && PhaseSound(t, jobs(w), w)
  {
    assert PhaseSound(s, jobs(w), w);
    match (PhaseOf(s, w), a)
    case (Absent, Start(lease)) => StartKeeps(s, jobs, w, lease);
    case (Resuming(_), Resume(lease, now)) => ResumeKeeps(s, jobs, w, lease, now);
    case (Working(_), Coordinated(output)) => CoordinatedKeeps(s, jobs, w, output);
    case _ =>
      OutOfTurn(s, jobs(w), w, a);
      ReadsKeep(s, jobs, w, a);
  }

  /** A step that does not fit its worker's phase does nothing. */
  lemma OutOfTurn(s: System, j: Job, w: nat, a: Action)
    requires a.Start? ==> !PhaseOf(s, w).Absent?
    requires a.Resume? ==> !PhaseOf(s, w).Resuming?
    requires a.Coordinated? ==> !PhaseOf(s, w).Working?
    ensures a.LookUp? || a.ReadBack? || Act(s, j, w, a) == s
  {
  }

  /** A step changes no other worker's phase. */
  lemma OtherPhases(s: System, j: Job, w: nat, a: Action, v: nat)
    requires v != w
    ensures PhaseOf(Act(s, j, w, a), v) == PhaseOf(s, v)
  {
  }

  /** The steps that only read the store. */
  lemma ReadsKeep(s: System, jobs: nat -> Job, w: nat, a: Action)
    requires StoreSound(s, jobs) && GrantsSound(s) && PhaseSound(s, jobs(w), w)
    requires a.LookUp? || a.ReadBack? || Act(s, jobs(w), w, a) == s
    ensures var t := Act(s, jobs(w), w, a); Kept(s, t, jobs, w) && PhaseSound(t, jobs(w), w)
  {
    if a.LookUp? {
      LookUpKeeps(s, jobs, w);
    } else if a.ReadBack? {
      ReadBackKeeps(s, jobs, w);
    } else {
      UnchangedKeeps(s, s, jobs, w);
    }
  }

  /** The store, the grants and the reclaims are as they were. */
  lemma UnchangedKeeps(s: System, t: System, jobs: nat -> Job, w: nat)
    requires StoreSound(s, jobs) && GrantsSound(s)
    requires t.store == s.store && t.grants == s.grants && t.reclaims == s.reclaims
    ensures Kept(s, t, jobs, w)
  {
    OldGrantsKeep(s, t);
  }

  lemma LookUpKeeps(s: System, jobs: nat -> Job, w: nat)
    requires StoreSound(s, jobs) && GrantsSound(s) && PhaseSound(s, jobs(w), w)
    ensures var t := Act(s, jobs(w), w, LookUp); Kept(s, t, jobs, w) && PhaseSound(t, jobs(w), w)
  {
    UnchangedKeeps(s, Act(s, jobs(w), w, LookUp), jobs, w);
  }

  lemma ReadBackKeeps(s: System, jobs: nat -> Job, w: nat)
    requires StoreSound(s, jobs) && GrantsSound(s) && PhaseSound(s, jobs(w), w)
    ensures var t := Act(s, jobs(w), w, ReadBack); Kept(s, t, jobs, w) && PhaseSound(t, jobs(w), w)
  {
    UnchangedKeeps(s, Act(s, jobs(w), w, ReadBack), jobs, w);
  }

  lemma StepIsSound(s: System, jobs: nat -> Job, w: nat, a: Action)
    requires OneKeyPerRun(jobs) && Sound(s, jobs)
    ensures Sound(Act(s, jobs(w), w, a), jobs) && StoreStep(s, Act(s, jobs(w), w, a))
  {
    var t := Act(s, jobs(w), w, a);
    ActIsSound(s, jobs, w, a);
    forall v ensures PhaseSound(t, jobs(v), v) {
      if v != w {
        assert PhaseSound(s, jobs(v), v);
        OtherPhases(s, jobs(w), w, a, v);
        OthersKeep(s, t, jobs(v), v, w);
      }
    }
  }

  // ---------------------------------------------------------------------------------------
  // Over every interleaving
  // ---------------------------------------------------------------------------------------

  /** A commission keeps its identity, its attempts only grow, and once ready it never changes again. */
  ghost predicate Evolves(s: System, t: System) {
    forall r | r in s.store.records ::
      && r in t.store.records
      && t.store.records[r].runId == r
      && t.store.records[r].requestKey == s.store.records[r].requestKey
      && t.store.records[r].digest == s.store.records[r].digest
      && t.store.records[r].attempts >= s.store.records[r].attempts
      && (s.store.records[r].status == ReadyForRally ==> t.store.records[r] == s.store.records[r])
  }

  lemma {:induction false} RunsEvolve(s: System, jobs: nat -> Job, steps: seq<Step>)
    requires OneKeyPerRun(jobs) && Sound(s, jobs)
    ensures Sound(Run(s, jobs, steps), jobs) && Evolves(s, Run(s, jobs, steps))
    decreases |steps|
  {
    if steps != [] {
      var w, a := steps[0].worker, steps[0].action;
      StepIsSound(s, jobs, w, a);
      RunsEvolve(Act(s, jobs(w), w, a), jobs, steps[1..]);
    }
  }

  /**
   Under every interleaving of creators, reclaimers, crashed workers and late writers: attempts is one
   plus the successful reclaims, every attempt of a run was granted to one worker only, and every
   answer that follows a digest check or an own attempt is about the task that was submitted.
   */
  lemma EveryInterleaving(jobs: nat -> Job, steps: seq<Step>)
    requires OneKeyPerRun(jobs)
    ensures var s := Run(EMPTY, jobs, steps);
            && (forall r | r in s.store.records :: r in s.reclaims && s.store.records[r].attempts == 1 + s.reclaims[r])
            && (forall g, h | g in s.grants && h in s.grants && g.runId == h.runId && g.attempt == h.attempt ::
                  g.worker == h.worker)
            && (forall w :: PhaseOf(s, w).Working? ==>
                  Grant(PhaseOf(s, w).record.runId, PhaseOf(s, w).record.attempts, w) in s.grants)
            && (forall w :: PhaseOf(s, w).Finished? && (PhaseOf(s, w).reply.Accepted? || PhaseOf(s, w).reply.Duplicate?) ==>
                  PhaseOf(s, w).reply.record.digest == Sha256(jobs(w).task))
  {
    RunsEvolve(EMPTY, jobs, steps);
    var s := Run(EMPTY, jobs, steps);
    forall g, h | g in s.grants && h in s.grants && g.runId == h.runId && g.attempt == h.attempt
      ensures g.worker == h.worker
    {
      var a :| 0 <= a < |s.grants| && s.grants[a] == g;
      var b :| 0 <= b < |s.grants| && s.grants[b] == h;
      assert a == b;
    }
    forall w ensures
      && (PhaseOf(s, w).Working? ==> Grant(PhaseOf(s, w).record.runId, PhaseOf(s, w).record.attempts, w) in s.grants)
      && (PhaseOf(s, w).Finished? && (PhaseOf(s, w).reply.Accepted? || PhaseOf(s, w).reply.Duplicate?) ==>
            PhaseOf(s, w).reply.record.digest == Sha256(jobs(w).task))
    {
      assert PhaseSound(s, jobs(w), w);
    }
  }

  function SessionId(runId: string, attempt: nat): string { runId + "-a" + Decimal(attempt) }

  /** Distinct attempts, of the same or of different runs, never share an ADK session. */
  lemma SessionsDiffer(r1: string, a1: nat, r2: string, a2: nat)
    requires SessionId(r1, a1) == SessionId(r2, a2)
    ensures r1 == r2 && a1 == a2
  {
    assert SessionId(r1, a1) == r1 + "-" + ['a'] + Decimal(a1);
    assert SessionId(r2, a2) == r2 + "-" + ['a'] + Decimal(a2);
    NameAndNumber(r1 + "-", a1, 'a', r2 + "-", a2);
    assert (r1 + "-")[..|r1|] == r1 && (r2 + "-")[..|r2|] == r2;
  }

  // ---------------------------------------------------------------------------------------
  // The digest after a lost create
  // ---------------------------------------------------------------------------------------

  /** Whoever submits under a key submits the same task. */
  ghost predicate OneTaskPerKey(jobs: nat -> Job) {
    forall v, w :: jobs(v).key == jobs(w).key ==> jobs(v).task == jobs(w).task
  }

  /** The answer to a worker, if it holds a commission at all, holds its own task's commission. */
  ghost predicate AnswersOwnTask(s: System, j: Job, w: nat) {
    match PhaseOf(s, w)
    case Finished(Accepted(r)) => r.digest == Sha256(j.task)
    case Finished(Duplicate(r)) => r.digest == Sha256(j.task)
    case Finished(LateDuplicate(r)) => r.digest == Sha256(j.task)
    case _ => true
  }

  /** Each key holds the digest of the one task submitted under it. */
  ghost predicate KeysHoldTasks(s: System, jobs: nat -> Job) {
    forall w :: jobs(w).key in s.store.keys && s.store.keys[jobs(w).key] in s.store.records ==>
      s.store.records[s.store.keys[jobs(w).key]].digest == Sha256(jobs(w).task)
  }

  ghost predicate LateAnswersAgree(s: System, jobs: nat -> Job) {
    forall w :: PhaseOf(s, w).Finished? && PhaseOf(s, w).reply.LateDuplicate? ==>
      PhaseOf(s, w).reply.record.digest == Sha256(jobs(w).task)
  }

  lemma StepHoldsTasks(s: System, jobs: nat -> Job, w: nat, a: Action)
    requires OneKeyPerRun(jobs) && OneTaskPerKey(jobs) && Sound(s, jobs) && KeysHoldTasks(s, jobs)
    ensures KeysHoldTasks(Act(s, jobs(w), w, a), jobs)
  {
    var t := Act(s, jobs(w), w, a);
    StepIsSound(s, jobs, w, a);
    NewKeys(s, jobs(w), w, a);
    forall v | jobs(v).key in t.store.keys && t.store.keys[jobs(v).key] in t.store.records
      ensures t.store.records[t.store.keys[jobs(v).key]].digest == Sha256(jobs(v).task)
    {
      var r := t.store.keys[jobs(v).key];
      if jobs(v).key in s.store.keys {
        assert s.store.keys[jobs(v).key] == r && RecordStep(s.store.records[r], t.store.records[r]);
      } else {
        assert jobs(v).key == jobs(w).key;
      }
    }
  }

  /** A step adds at most the worker's own key, for its own task. */
  lemma NewKeys(s: System, j: Job, w: nat, a: Action)
    requires WellIndexed(s.store) && (PhaseOf(s, w).Working? ==> WorkerSound(s, j, w, PhaseOf(s, w).record))
    ensures var t := Act(s, j, w, a);
            && (forall k | k in s.store.keys :: k in t.store.keys && t.store.keys[k] == s.store.keys[k])
            && (forall k | k in t.store.keys && k !in s.store.keys ::
                  k == j.key && t.store.keys[k] in t.store.records
                  && t.store.records[t.store.keys[k]].digest == Sha256(j.task))
  {
  }

  lemma StepAnswersLate(s: System, jobs: nat -> Job, w: nat, a: Action)
    requires Sound(s, jobs) && KeysHoldTasks(s, jobs) && LateAnswersAgree(s, jobs)
    ensures LateAnswersAgree(Act(s, jobs(w), w, a), jobs)
  {
    var t := Act(s, jobs(w), w, a);
    assert forall v | v != w :: PhaseOf(t, v) == PhaseOf(s, v);
  }

  lemma {:induction false} TasksAreHeld(s: System, jobs: nat -> Job, steps: seq<Step>)
    requires OneKeyPerRun(jobs) && OneTaskPerKey(jobs) && Sound(s, jobs) && KeysHoldTasks(s, jobs) && LateAnswersAgree(s, jobs)
    ensures LateAnswersAgree(Run(s, jobs, steps), jobs)
    decreases |steps|
  {
    if steps != [] {
      var w, a := steps[0].worker, steps[0].action;
      StepIsSound(s, jobs, w, a);
      StepHoldsTasks(s, jobs, w, a);
      StepAnswersLate(s, jobs, w, a);
      TasksAreHeld(Act(s, jobs(w), w, a), jobs, steps[1..]);
    }
  }

  /**
   The answer after a lost create is not checked: two workers race under one key with different tasks,
   and the loser is told its request duplicates a commission whose digest is not its own.
   */
  lemma LostCreateSkipsDigest(jobs: nat -> Job, v: nat, w: nat, lease: Time)
    requires v != w && jobs(v).key == jobs(w).key && jobs(v).task != jobs(w).task
    ensures var s := Run(EMPTY, jobs, [Step(v, LookUp), Step(w, LookUp), Step(v, Start(lease)), Step(w, Start(lease)), Step(w, LookUp)]);
            PhaseOf(s, w).Finished? && PhaseOf(s, w).reply == LateDuplicate(NewRecord(jobs(v), lease))
            && !AnswersOwnTask(s, jobs(w), w)
  {
    var all := [Step(v, LookUp), Step(w, LookUp), Step(v, Start(lease)), Step(w, Start(lease)), Step(w, LookUp)];
    var s1 := SetPhase(EMPTY, v, Absent);
    assert Act(EMPTY, jobs(v), v, LookUp) == s1;
    var s2 := SetPhase(s1, w, Absent);
    assert Act(s1, jobs(w), w, LookUp) == s2;
    var s3 := Act(s2, jobs(v), v, Start(lease));
    var s4 := Act(s3, jobs(w), w, Start(lease));
    assert PhaseOf(s4, w) == LostCreate && s4.store == s3.store;
    var s5 := Act(s4, jobs(w), w, LookUp);
    assert PhaseOf(s5, w) == Finished(LateDuplicate(NewRecord(jobs(v), lease)));
    assert all[1..][1..][1..][1..][1..] == [];
    assert Run(s4, jobs, all[4..]) == s5 && all[3..][1..] == all[4..] && all[2..][1..] == all[3..];
    assert Run(s2, jobs, all[2..]) == s5 && all[1..][1..] == all[2..];
  }

  /** Every answer is about the caller's own task exactly when nobody reuses a key for another task. */
  lemma OwnTaskExactlyWhen(jobs: nat -> Job)
    requires OneKeyPerRun(jobs)
    ensures OneTaskPerKey(jobs) <==> forall steps, w :: AnswersOwnTask(Run(EMPTY, jobs, steps), jobs(w), w)
  {
    if OneTaskPerKey(jobs) {
      forall steps, w ensures AnswersOwnTask(Run(EMPTY, jobs, steps), jobs(w), w) {
        RunsEvolve(EMPTY, jobs, steps);
        TasksAreHeld(EMPTY, jobs, steps);
        assert PhaseSound(Run(EMPTY, jobs, steps), jobs(w), w);
      }
    } else {
      var v, w :| jobs(v).key == jobs(w).key && jobs(v).task != jobs(w).task;
      LostCreateSkipsDigest(jobs, v, w, 0);
    }
  }

  // ---------------------------------------------------------------------------------------
  // The same on Firestore
  // ---------------------------------------------------------------------------------------

  /** The call of the store that a step makes, if it makes one. */
  function CallOf(s: System, j: Job, w: nat, a: Action): Option<Call> {
    match (PhaseOf(s, w), a)
    case (Idle, LookUp) => Some(GetByKey(j.key))
    case (Absent, Start(lease)) => Some(Create(NewRecord(j, lease)))
    case (LostCreate, LookUp) => Some(GetByKey(j.key))
    case (Resuming(_), Resume(lease, now)) => Some(Reclaim(j.key, lease, now))
    case (Working(r), Coordinated(output)) => Some(Update(r.runId, Outcome(r, output), Some(r.attempts)))
    case (Overtaken(runId), ReadBack) => Some(Get(runId))
    case _ => None
  }

  /** All calls of a run, in order. */
  function CallsOf(s: System, jobs: nat -> Job, steps: seq<Step>): seq<Call>
    decreases |steps|
  {
    if steps == [] then []
    else
      var w, a := steps[0].worker, steps[0].action;
      var call := CallOf(s, jobs(w), w, a);
      (if call.Some? then [call.value] else []) + CallsOf(Act(s, jobs(w), w, a), jobs, steps[1..])
  }

  /** A step reaches the store only through its call. */
  lemma ActIsItsCall(s: System, j: Job, w: nat, a: Action)
    ensures var call := CallOf(s, j, w, a);
            Act(s, j, w, a).store == if call.Some? then MemCall(s.store, call.value).0 else s.store
  {
  }

  /** Workers keep run ids and request keys paired. */
  lemma WorkersPair(s: System, jobs: nat -> Job, w: nat, a: Action)
    requires Sound(s, jobs) && CallOf(s, jobs(w), w, a).Some?
    ensures Pairs(s.store, CallOf(s, jobs(w), w, a).value)
  {
    assert PhaseSound(s, jobs(w), w);
  }

  lemma {:induction false} CallsPair(s: System, jobs: nat -> Job, steps: seq<Step>)
    requires OneKeyPerRun(jobs) && Sound(s, jobs)
    ensures PairsThroughout(s.store, CallsOf(s, jobs, steps))
    ensures MemAfter(s.store, CallsOf(s, jobs, steps)) == Run(s, jobs, steps).store
    decreases |steps|
  {
    if steps != [] {
      var w, a := steps[0].worker, steps[0].action;
      var t, call := Act(s, jobs(w), w, a), CallOf(s, jobs(w), w, a);
      StepIsSound(s, jobs, w, a);
      ActIsItsCall(s, jobs(w), w, a);
      CallsPair(t, jobs, steps[1..]);
      var rest := CallsOf(t, jobs, steps[1..]);
      if call.Some? {
        WorkersPair(s, jobs, w, a);
        assert ([call.value] + rest)[1..] == rest;
      } else {
        assert [] + rest == rest;
      }
    }
  }

  /**
   The laws carry over to Firestore: in every interleaving it would answer each worker's every call as
   the memory store does, and both documents of every commission are the record those laws speak of.
   */
  lemma FirestoreAnswersWorkersAlike(jobs: nat -> Job, steps: seq<Step>)
    requires OneKeyPerRun(jobs)
    ensures var calls, f := CallsOf(EMPTY, jobs, steps), Firestore(map[], map[]);
            && FireAnswers(f, calls) == MemAnswers(EMPTY.store, calls)
            && Represents(Run(EMPTY, jobs, steps).store, FireAfter(f, calls)) && DocumentsAgree(FireAfter(f, calls))
  {
    CallsPair(EMPTY, jobs, steps);
    BackendsAgree(EMPTY.store, Firestore(map[], map[]), CallsOf(EMPTY, jobs, steps));
  }
}
