/**
 When an attempt may be resumed: never while a live lease protects it, and always once it failed or
 its lease ran out. Both stores, and the workers over whole runs.
 */
module ReclaimLaws {
  import opened Common
  import opened CommissionStore
  import opened CommissionLaws

  // ---------------------------------------------------------------------------------------
  // The stores
  // ---------------------------------------------------------------------------------------

  /** The attempt failed, or nobody holds a lease on it at `now`. */
  ghost predicate IsAbandoned(r: Record, now: Time) {
    match r.status
    case CoordinatorFailed => true
    case ReadyForRally => false
    case Coordinating => match r.leaseExpiresAt case None => true case Some(end) => end <= now
  }

  /** The same commission on its next attempt. */
  ghost predicate IsNextAttempt(was: Record, r: Record, lease: Time) {
    && r.runId == was.runId && r.requestKey == was.requestKey && r.digest == was.digest
    && r.coordinatorRecord == was.coordinatorRecord
    && r.attempts == was.attempts + 1 && r.status == Coordinating && r.leaseExpiresAt == Some(lease) && r.error == None
  }

  /** A reclaim succeeds exactly if the stored attempt is abandoned; otherwise the memory store stays as it was. */
  lemma MemoryReclaimsExactlyWhen(m: Memory, key: string, lease: Time, now: Time)
    ensures var (t, r) := MemReclaim(m, key, lease, now);
            && (r.Some? <==> key in m.keys && m.keys[key] in m.records && IsAbandoned(m.records[m.keys[key]], now))
            && (r == None ==> t == m)
            && (r.Some? ==> IsNextAttempt(m.records[m.keys[key]], r.value, lease)
                            && t == Memory(m.records[m.keys[key] := r.value], m.keys))
  {
  }

  lemma FirestoreReclaimsExactlyWhen(f: Firestore, key: string, lease: Time, now: Time)
    ensures var (t, r) := FireReclaim(f, key, lease, now);
            && (r.Some? <==> key in f.requests && IsAbandoned(f.requests[key], now))
            && (r == None ==> t == f)
            && (r.Some? ==> IsNextAttempt(f.requests[key], r.value, lease)
                            && t == Firestore(f.runs[r.value.runId := r.value], f.requests[key := r.value]))
  {
  }

  // ---------------------------------------------------------------------------------------
  // The workers
  // ---------------------------------------------------------------------------------------

  /** The run is being coordinated under this attempt and lease, or that attempt has made it ready. */
  ghost predicate IsProtected(s: System, runId: string, attempt: nat, lease: Time) {
    && runId in s.store.records && s.store.records[runId].attempts == attempt
    && var r := s.store.records[runId];
       r.status == ReadyForRally || (r.status == Coordinating && r.leaseExpiresAt == Some(lease))
  }

  /** No reclaim comes as late as the lease's end, and its holder does not report a failure. */
  ghost predicate WithinLease(steps: seq<Step>, w: nat, lease: Time) {
    forall i | 0 <= i < |steps| ::
      && (steps[i].action.Resume? ==> steps[i].action.now < lease)
      && (steps[i].worker == w ==> steps[i].action != Coordinated(None))
  }

  /** What a step does to one run: nothing, or its record moves on under the same grants. */
  ghost predicate Spares(s: System, t: System, runId: string, attempt: nat, lease: Time) {
    IsProtected(t, runId, attempt, lease) && forall g | g in t.grants && g.runId == runId :: g in s.grants
  }

  lemma StartSpares(s: System, jobs: nat -> Job, v: nat, end: Time, runId: string, attempt: nat, lease: Time)
    requires StoreSound(s, jobs) && IsProtected(s, runId, attempt, lease) && PhaseOf(s, v) == Absent
    ensures Spares(s, Act(s, jobs(v), v, Start(end)), runId, attempt, lease)
  {
    if jobs(v).key !in s.store.keys {
      assert jobs(v).runId != runId;
      var t := Act(s, jobs(v), v, Start(end));
      assert t.grants == s.grants + [Grant(jobs(v).runId, 1, v)];
    }
  }

  lemma ResumeSpares(s: System, jobs: nat -> Job, v: nat, end: Time, now: Time, runId: string, attempt: nat, lease: Time)
    requires StoreSound(s, jobs) && IsProtected(s, runId, attempt, lease) && PhaseOf(s, v).Resuming? && now < lease
    ensures Spares(s, Act(s, jobs(v), v, Resume(end, now)), runId, attempt, lease)
  {
    var key, t := jobs(v).key, Act(s, jobs(v), v, Resume(end, now));
    MemoryReclaimsExactlyWhen(s.store, key, end, now);
    var r := MemReclaim(s.store, key, end, now).1;
    if r.Some? {
      assert s.store.keys[key] != runId && r.value.runId != runId;
      assert t.grants == s.grants + [Grant(r.value.runId, r.value.attempts, v)];
    }
  }

  lemma WriteBackSpares(s: System, jobs: nat -> Job, v: nat, output: Option<string>, w: nat,
                        runId: string, attempt: nat, lease: Time)
    requires StoreSound(s, jobs) && GrantsSound(s) && PhaseOf(s, v).Working? && PhaseSound(s, jobs(v), v)
    requires IsProtected(s, runId, attempt, lease) && Grant(runId, attempt, w) in s.grants
    requires v == w ==> output != None
    ensures Spares(s, Act(s, jobs(v), v, Coordinated(output)), runId, attempt, lease)
  {
    var r := PhaseOf(s, v).record;
    if r.runId == runId && r.attempts == attempt { OneHolder(s, runId, attempt, w); }
  }

  lemma StepSpares(s: System, jobs: nat -> Job, v: nat, a: Action, w: nat, runId: string, attempt: nat, lease: Time)
    requires OneKeyPerRun(jobs) && Sound(s, jobs)
    requires IsProtected(s, runId, attempt, lease) && Grant(runId, attempt, w) in s.grants
    requires (a.Resume? ==> a.now < lease) && (v == w ==> a != Coordinated(None))
    ensures Spares(s, Act(s, jobs(v), v, a), runId, attempt, lease)
  {
    assert PhaseSound(s, jobs(v), v);
    match (PhaseOf(s, v), a)
    case (Absent, Start(end)) => StartSpares(s, jobs, v, end, runId, attempt, lease);
    case (Resuming(_), Resume(end, now)) => ResumeSpares(s, jobs, v, end, now, runId, attempt, lease);
    case (Working(_), Coordinated(output)) => WriteBackSpares(s, jobs, v, output, w, runId, attempt, lease);
    case _ => OutOfTurn(s, jobs(v), v, a);
  }

  /**
   While a grant's lease has not run out and its worker has not written back a failure, no further
   attempt of that run is granted to anybody, in any interleaving.
   */
  lemma {:induction false} LiveLeaseIsRespected(s: System, jobs: nat -> Job, steps: seq<Step>, w: nat,
                                                runId: string, attempt: nat, lease: Time)
    requires OneKeyPerRun(jobs) && Sound(s, jobs) && IsProtected(s, runId, attempt, lease)
    requires Grant(runId, attempt, w) in s.grants && WithinLease(steps, w, lease)
    ensures var t := Run(s, jobs, steps);
            && IsProtected(t, runId, attempt, lease)
            && forall g | g in t.grants && g.runId == runId :: g in s.grants
    decreases |steps|
  {
    if steps != [] {
      var v, a := steps[0].worker, steps[0].action;
      var next := Act(s, jobs(v), v, a);
      StepSpares(s, jobs, v, a, w, runId, attempt, lease);
      StepIsSound(s, jobs, v, a);
      ActIsSound(s, jobs, v, a);
      assert forall i | 0 <= i < |steps| - 1 :: steps[1..][i] == steps[i + 1];
      LiveLeaseIsRespected(next, jobs, steps[1..], w, runId, attempt, lease);
    }
  }

  /** A worker that has just been granted an attempt is protected by the lease it asked for. */
  lemma GrantIsProtected(s: System, jobs: nat -> Job, w: nat, a: Action)
    requires OneKeyPerRun(jobs) && Sound(s, jobs) && (a.Start? || a.Resume?)
    requires !PhaseOf(s, w).Working? && PhaseOf(Act(s, jobs(w), w, a), w).Working?
    ensures var t := Act(s, jobs(w), w, a);
            var r := PhaseOf(t, w).record;
            && IsProtected(t, r.runId, r.attempts, a.lease) && Grant(r.runId, r.attempts, w) in t.grants
            && r.status == Coordinating && r.leaseExpiresAt == Some(a.lease)
  {
    ActIsSound(s, jobs, w, a);
  }

  // ---------------------------------------------------------------------------------------
  // A worker that is not disturbed
  // ---------------------------------------------------------------------------------------

  /** The first request for a commission creates it, coordinates it once and reports what came of it. */
  lemma FirstRequestCoordinates(s: System, jobs: nat -> Job, w: nat, lease: Time, output: Option<string>)
    requires OneKeyPerRun(jobs) && Sound(s, jobs) && PhaseOf(s, w) == Idle && jobs(w).key !in s.store.keys
    ensures var j, t := jobs(w), Run(s, jobs, [Step(w, LookUp), Step(w, Start(lease)), Step(w, Coordinated(output))]);
            && j.runId in t.store.records && t.grants == s.grants + [Grant(j.runId, 1, w)]
            && var r := t.store.records[j.runId];
               && r.requestKey == j.key && r.digest == Sha256(j.task) && r.attempts == 1 && r.leaseExpiresAt == None
               && if output == None then
                    r.status == CoordinatorFailed && r.error.Some? && PhaseOf(t, w) == Finished(CoordinatorError)
                  else
                    r.status == ReadyForRally && r.coordinatorRecord == output && r.error == None
                    && PhaseOf(t, w) == Finished(Accepted(r))
  {
    var j := jobs(w);
    var s1 := Act(s, j, w, LookUp);
    assert s1 == SetPhase(s, w, Absent);
    assert j.runId !in s.store.records;
    CreateAlone(s1, j, w, lease);
    CoordinateAlone(Act(s1, j, w, Start(lease)), j, w, output);
    RunThree(s, jobs, w, LookUp, Start(lease), Coordinated(output));
  }

  lemma CreateAlone(s: System, j: Job, w: nat, lease: Time)
    requires PhaseOf(s, w) == Absent && j.key !in s.store.keys
    ensures var t, r := Act(s, j, w, Start(lease)), NewRecord(j, lease);
            && PhaseOf(t, w) == Working(r) && j.runId in t.store.records && t.store.records[j.runId] == r
            && t.grants == s.grants + [Grant(j.runId, 1, w)]
  {
  }

  lemma CoordinateAlone(s: System, j: Job, w: nat, output: Option<string>)
    requires PhaseOf(s, w).Working?
    requires var r := PhaseOf(s, w).record; r.runId in s.store.records && s.store.records[r.runId] == r
    ensures var r, t := PhaseOf(s, w).record, Act(s, j, w, Coordinated(output));
            && r.runId in t.store.records && t.store.records[r.runId] == Outcome(r, output) && t.grants == s.grants
            && PhaseOf(t, w) == Finished(if output == None then CoordinatorError else Accepted(Outcome(r, output)))
  {
  }

  /**
   A write back is fenced by its attempt: it is stored and answered while that attempt is the current one;
   a worker that was overtaken changes nothing and is given the commission as it then stands.
   */
  lemma WriteBackIsFenced(s: System, jobs: nat -> Job, w: nat, output: Option<string>)
    requires Sound(s, jobs) && PhaseOf(s, w).Working?
    ensures var r, t := PhaseOf(s, w).record, Act(s, jobs(w), w, Coordinated(output));
            && r.runId in s.store.records && r.runId in t.store.records && t.grants == s.grants
            && if s.store.records[r.runId].attempts == r.attempts then
                 var now := t.store.records[r.runId];
                 && now.attempts == r.attempts && now.status == (if output == None then CoordinatorFailed else ReadyForRally)
                 && PhaseOf(t, w) == Finished(if output == None then CoordinatorError else Accepted(now))
               else
                 && t.store == s.store
                 && PhaseOf(t, w) == if output == None then Finished(CoordinatorError) else Overtaken(r.runId)
  {
    assert PhaseSound(s, jobs(w), w);
    var r, t := PhaseOf(s, w).record, Act(s, jobs(w), w, Coordinated(output));
    if s.store.records[r.runId].attempts == r.attempts { assert t.store.records[r.runId] == Outcome(r, output); }
    else { assert t.store == s.store; }
  }

  lemma OvertakenIsGivenTheRecord(s: System, jobs: nat -> Job, w: nat)
    requires Sound(s, jobs) && PhaseOf(s, w).Overtaken?
    ensures var runId, t := PhaseOf(s, w).runId, Act(s, jobs(w), w, ReadBack);
            runId in s.store.records && PhaseOf(t, w) == Finished(Duplicate(s.store.records[runId])) && t.store == s.store
  {
    assert PhaseSound(s, jobs(w), w);
  }

  /** A worker whose key was taken between its look-up and its create is given the commission that took it. */
  lemma LoserIsGivenTheWinner(s: System, jobs: nat -> Job, w: nat, lease: Time)
    requires Sound(s, jobs) && PhaseOf(s, w) == Absent && jobs(w).key in s.store.keys
    ensures var j := jobs(w);
            var t := Act(Act(s, j, w, Start(lease)), j, w, LookUp);
            t.store == s.store && t.grants == s.grants
            && PhaseOf(t, w) == Finished(LateDuplicate(s.store.records[s.store.keys[j.key]]))
  {
    var s1 := Act(s, jobs(w), w, Start(lease));
    assert PhaseOf(s1, w) == LostCreate && s1.store == s.store;
  }

  lemma RunThree(s: System, jobs: nat -> Job, w: nat, a: Action, b: Action, c: Action)
    ensures var j := jobs(w);
            Run(s, jobs, [Step(w, a), Step(w, b), Step(w, c)]) == Act(Act(Act(s, j, w, a), j, w, b), j, w, c)
  {
    var steps := [Step(w, a), Step(w, b), Step(w, c)];
    assert steps[1..] == [Step(w, b), Step(w, c)] && steps[1..][1..] == [Step(w, c)] && [Step(w, c)][1..] == [];
    var s1 := Act(s, jobs(w), w, a);
    var s2 := Act(s1, jobs(w), w, b);
    assert Run(s2, jobs, [Step(w, c)]) == Act(s2, jobs(w), w, c);
    assert Run(s1, jobs, steps[1..]) == Run(s2, jobs, [Step(w, c)]);
  }

  /**
   A request under a used key is told of a conflict exactly for another task; for its own task it gets the
   stored commission, unless the attempt is abandoned, and then it is granted the next one.
   */
  lemma LaterRequestIsAnswered(s: System, jobs: nat -> Job, w: nat, lease: Time, now: Time)
    requires Sound(s, jobs) && PhaseOf(s, w) == Idle && jobs(w).key in s.store.keys
    ensures var j := jobs(w);
            var t := Act(Act(s, j, w, LookUp), j, w, Resume(lease, now));
            var r := s.store.records[s.store.keys[j.key]];
            if r.digest != Sha256(j.task) then PhaseOf(t, w) == Finished(Conflict) && t.store == s.store && t.grants == s.grants
            else if IsAbandoned(r, now) then
              PhaseOf(t, w).Working? && IsNextAttempt(r, PhaseOf(t, w).record, lease)
              && t.grants == s.grants + [Grant(r.runId, r.attempts + 1, w)]
            else PhaseOf(t, w) == Finished(Duplicate(r)) && t.store == s.store && t.grants == s.grants
  {
    var j := jobs(w);
    MemoryReclaimsExactlyWhen(s.store, j.key, lease, now);
    var s1 := Act(s, j, w, LookUp);
    assert s1.store == s.store && s1.grants == s.grants;
  }
}
