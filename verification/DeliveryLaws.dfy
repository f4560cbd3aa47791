/**
 Crash safety of the delivery process: one run for each durable key, an acknowledgement only after the
 run's report is settled, and one text for each idempotency key, whatever crashes, failures and lost
 answers a run of the system contains.
 */
module DeliveryLaws {
  import opened Common
  import opened Delivery

  // ---------------------------------------------------------------------------------------
  // Idempotency keys
  // ---------------------------------------------------------------------------------------

  /** The last dash separates the run from the generation, so a key names both. */
  lemma KeyNamesTheReport(r1: RunId, g1: nat, r2: RunId, g2: nat)
    requires IdempotencyKey(r1, g1) == IdempotencyKey(r2, g2)
    ensures r1 == r2 && g1 == g2
  {
    var prefix := "rally-final-report-";
    NameAndNumber(prefix + r1, g1, '-', prefix + r2, g2);
    assert (prefix + r1)[|prefix|..] == r1 && (prefix + r2)[|prefix|..] == r2;
  }

  // ---------------------------------------------------------------------------------------
  // The invariant
  // ---------------------------------------------------------------------------------------

  type Report = (RunId, nat)

  ghost predicate KeysDiffer(runs: map<RunId, Run>) {
    forall a, b | a in runs && b in runs && runs[a].key == runs[b].key :: a == b
  }

  /** The state of one run's report agrees with what was recorded and settled. */
  predicate ReportSound(rid: RunId, r: Run, reports: map<Report, string>, settled: map<Report, Status>) {
    var id := (rid, r.generation);
    && (r.report.Some? <==> r.generation > 0) && (r.report.Some? <==> r.delivery.Some?)
    && (r.report.Some? ==>
          && id in reports && reports[id] == r.report.value && r.report.value != ""
          && r.delivery.value.idempotencyKey == IdempotencyKey(rid, r.generation)
          && (if r.delivery.value.status == Pending then id !in settled
              else id in settled && settled[id] == r.delivery.value.status))
  }

  /** A submission is a recorded report under its own key. */
  predicate SubmissionSound(p: Submission, reports: map<Report, string>) {
    && (p.runId, p.generation) in reports && p.text == reports[(p.runId, p.generation)]
    && p.idempotencyKey == IdempotencyKey(p.runId, p.generation)
  }

  ghost predicate IsSubmitted(provider: seq<Submission>, id: Report) {
    exists p :: p in provider && (p.runId, p.generation) == id
  }

  /** What survives a crash, and its history. */
  ghost predicate Durable(runs: map<RunId, Run>, reports: map<Report, string>, settled: map<Report, Status>,
                          provider: seq<Submission>) {
    && KeysDiffer(runs)
    && (forall rid | rid in runs :: ReportSound(rid, runs[rid], reports, settled))
    && (forall id | id in reports :: id.0 in runs && id.1 <= runs[id.0].generation)
    && (forall id | id in settled :: id in reports && settled[id] != Pending)
    && (forall p | p in provider :: SubmissionSound(p, reports))
    && (forall id | id in settled && settled[id] == Delivered :: IsSubmitted(provider, id))
  }

  predicate Serves(r: Run, id: MessageId, m: Message) {
    m.Commission? && Matches(r, DurableKey(id, m), m.messageId)
  }

  /** Only the process itself takes messages off the queue. */
  ghost predicate Queued(seen: map<MessageId, Message>, queue: set<MessageId>, worker: Worker) {
    && queue <= seen.Keys && (forall id | id in seen :: id != "")
    && (worker.Serving? ==>
          && worker.handled <= queue && (forall id | id in worker.left :: id in queue)
          && (worker.left == [] ==> worker.task.Choosing?))
  }

  /** A commission loops only for a run without a report, and stands for that run throughout. */
  predicate CommissionTask(r: Run, task: Task, id: MessageId, m: Message) {
    Serves(r, id, m) && (task.Coordinating? || task.Stopping? || task.Looping? ==> r.report == None)
  }

  ghost predicate TaskSound(worker: Worker, seen: map<MessageId, Message>, runs: map<RunId, Run>, provider: seq<Submission>) {
    worker.Serving? && worker.left != [] && !worker.task.Choosing? ==>
      var rid, id, task := worker.task.runId, worker.left[0], worker.task;
      && rid in runs && id in seen && !seen[id].Unusable?
      && (seen[id].Commission? ==> CommissionTask(runs[rid], task, id, seen[id]))
      && (task.Coordinating? ==> seen[id].Commission?)
      && (task.Mailing? || task.Submitted? ==> runs[rid].report.Some?)
      && (task.Submitted? ==> !IsTerminal(runs[rid]) && IsSubmitted(provider, (rid, runs[rid].generation)))
  }

  /** Some report of the run this commission stands for has been delivered, or needed no delivery. */
  ghost predicate IsServed(seen: map<MessageId, Message>, runs: map<RunId, Run>, settled: map<Report, Status>, id: MessageId) {
    exists r: Report :: r in settled && r.0 in runs && id in seen && Serves(runs[r.0], id, seen[id])
  }

  ghost predicate AllServed(seen: map<MessageId, Message>, runs: map<RunId, Run>, settled: map<Report, Status>, ids: set<MessageId>) {
    forall id | id in ids && id in seen && seen[id].Commission? :: IsServed(seen, runs, settled, id)
  }

  ghost predicate Sound(s: System) {
    && Durable(s.runs, s.reports, s.settled, s.provider)
    && Queued(s.seen, s.queue, s.worker) && TaskSound(s.worker, s.seen, s.runs, s.provider)
    && s.acked <= s.seen.Keys && AllServed(s.seen, s.runs, s.settled, s.acked)
    && (s.worker.Serving? ==> AllServed(s.seen, s.runs, s.settled, s.worker.handled))
  }

  const EMPTY: System := System(map[], {}, map[], [], Resting, map[], map[], {}, map[])

  ghost predicate RunGrows(a: Run, b: Run) {
    && b.key == a.key && b.messageId == a.messageId && a.references <= b.references
    && a.generation <= b.generation && (a.report.Some? ==> b.report.Some?)
  }

  /** Nothing durable is lost: runs keep their keys and reports, and what is settled stays settled. */
  ghost predicate Grows(s: System, t: System) {
    && (forall id | id in s.seen :: id in t.seen && t.seen[id] == s.seen[id])
    && (forall rid | rid in s.runs :: rid in t.runs && RunGrows(s.runs[rid], t.runs[rid]))
    && (forall id | id in s.reports :: id in t.reports && t.reports[id] == s.reports[id])
    && (forall id | id in s.settled :: id in t.settled && t.settled[id] == s.settled[id])
    && s.provider <= t.provider && s.acked <= t.acked
  }

  lemma ServedGrows(s: System, t: System, ids: set<MessageId>)
    requires Grows(s, t) && AllServed(s.seen, s.runs, s.settled, ids) && ids <= s.seen.Keys
    ensures AllServed(t.seen, t.runs, t.settled, ids)
  {
    forall id | id in ids && t.seen[id].Commission? ensures IsServed(t.seen, t.runs, t.settled, id) {
      var r: Report :| r in s.settled && r.0 in s.runs && Serves(s.runs[r.0], id, s.seen[id]);
      assert Serves(t.runs[r.0], id, t.seen[id]) && r in t.settled;
    }
  }

  ghost predicate Keeps(s: System, t: System) { Grows(s, t) && Sound(t) }

  /** Steps that change only the worker. */
  lemma WorkerKeeps(s: System, worker: Worker)
    requires Sound(s) && Queued(s.seen, s.queue, worker) && TaskSound(worker, s.seen, s.runs, s.provider)
    requires worker.Serving? ==> AllServed(s.seen, s.runs, s.settled, worker.handled)
    ensures Keeps(s, s.(worker := worker))
  {
  }

  lemma QuietKeeps(s: System, act: Act)
    requires Sound(s) && CanAct(s, act) && (act.Poll? || act.Fail? || act.Crash?)
    ensures Keeps(s, Perform(s, act))
  {
    var worker := Perform(s, act).worker;
    assert act.Fail? ==> forall id | id in s.worker.left[1..] :: id in s.worker.left;
    WorkerKeeps(s, worker);
  }

  lemma AckKeeps(s: System, act: Act)
    requires Sound(s) && CanAct(s, act) && act.Ack?
    ensures Keeps(s, Perform(s, act))
  {
    WorkerKeeps(s, Resting);
    if act.reached { assert AllServed(s.seen, s.runs, s.settled, s.acked + s.worker.handled); }
  }

  lemma ArriveKeeps(s: System, act: Act)
    requires Sound(s) && CanAct(s, act) && act.Arrive?
    ensures Keeps(s, Perform(s, act))
  {
    var t := Perform(s, act);
    assert Grows(s, t);
    ServedGrows(s, t, s.acked);
    if s.worker.Serving? { ServedGrows(s, t, s.worker.handled); }
  }

  /** The two kinds of change to the runs on disk that precede a report. */
  lemma DurableTouched(runs: map<RunId, Run>, reports: map<Report, string>, settled: map<Report, Status>,
                       provider: seq<Submission>, rid: RunId, r: Run)
    requires Durable(runs, reports, settled, provider)
    requires if rid in runs
             then r.key == runs[rid].key && r.generation == runs[rid].generation && r.report == runs[rid].report
                  && r.delivery == runs[rid].delivery
             else (forall x | x in runs :: runs[x].key != r.key) && r.generation == 0 && r.report == None && r.delivery == None
    ensures Durable(runs[rid := r], reports, settled, provider)
  {
  }

  /** One run went on, and reports and settled deliveries were at most added. */
  lemma GrowsBy(s: System, t: System, rid: RunId, r: Run)
    requires t.seen == s.seen && t.provider == s.provider && t.acked == s.acked && t.runs == s.runs[rid := r]
    requires rid in s.runs ==> RunGrows(s.runs[rid], r)
    requires forall id | id in s.reports :: id in t.reports && t.reports[id] == s.reports[id]
    requires forall id | id in s.settled :: id in t.settled && t.settled[id] == s.settled[id]
    ensures Grows(s, t)
  {
  }

  lemma TouchKeeps(s: System, rid: RunId, r: Run, task: Task)
    requires Sound(s) && AtWork(s) && Durable(s.runs[rid := r], s.reports, s.settled, s.provider)
    requires rid in s.runs ==> RunGrows(s.runs[rid], r)
    requires TaskSound(s.worker.(task := task), s.seen, s.runs[rid := r], s.provider)
    ensures Keeps(s, Next(s.(runs := s.runs[rid := r]), task))
  {
    var t := Next(s.(runs := s.runs[rid := r]), task);
    GrowsBy(s, t, rid, r);
    ServedGrows(s, t, s.acked);
    ServedGrows(s, t, s.worker.handled);
  }

  lemma StartNoteKeeps(s: System)
    requires Sound(s) && AtWork(s) && s.worker.left[0] in s.seen && Current(s).HumanNote?
    ensures Keeps(s, StartedNote(s, Current(s)))
  {
    var m, id := Current(s), s.worker.left[0];
    var rid := m.target;
    if rid in s.runs && s.runs[rid].sender != "" && m.sender == s.runs[rid].sender {
      var r := s.runs[rid];
      assert ReportSound(rid, r, s.reports, s.settled);
      if r.report.Some? && r.delivery.value.requestKey == id {
        LeaveOrMailKeeps(s, rid);
      } else {
        ApplyNoteKeeps(s, rid, m);
      }
    } else {
      LeaveKeeps(s);
    }
  }

  lemma ApplyNoteKeeps(s: System, rid: RunId, m: Message)
    requires Sound(s) && AtWork(s) && s.worker.left[0] in s.seen && m == Current(s) && m.HumanNote? && rid in s.runs
    ensures Keeps(s, Next(s.(runs := s.runs[rid := Touch(s.runs[rid], m.messageId)]),
                          if m.stop then Stopping(rid) else Looping(rid)))
  {
    var r := Touch(s.runs[rid], m.messageId);
    DurableTouched(s.runs, s.reports, s.settled, s.provider, rid, r);
    TouchKeeps(s, rid, r, if m.stop then Stopping(rid) else Looping(rid));
  }

  lemma LeaveKeeps(s: System)
    requires Sound(s) && AtWork(s) && s.worker.left[0] in s.seen
    requires Current(s).Commission? ==> IsServed(s.seen, s.runs, s.settled, s.worker.left[0])
    ensures Keeps(s, Leave(s, true))
  {
    assert forall id | id in s.worker.left[1..] :: id in s.worker.left;
    WorkerKeeps(s, Leave(s, true).worker);
  }

  /** A run that already has its report: done if it is settled, mailed again if not. */
  lemma LeaveOrMailKeeps(s: System, rid: RunId)
    requires Sound(s) && AtWork(s) && s.worker.left[0] in s.seen && rid in s.runs && s.runs[rid].report.Some?
    requires !Current(s).Unusable? && (Current(s).Commission? ==> Serves(s.runs[rid], s.worker.left[0], Current(s)))
    ensures IsTerminal(s.runs[rid]) ==> Keeps(s, Leave(s, true))
    ensures !IsTerminal(s.runs[rid]) ==> Keeps(s, Next(s, Mailing(rid)))
  {
    if IsTerminal(s.runs[rid]) {
      assert (rid, s.runs[rid].generation) in s.settled;
      LeaveKeeps(s);
    } else {
      WorkerKeeps(s, s.worker.(task := Mailing(rid)));
    }
  }

  lemma StartCommissionKeeps(s: System, act: Act)
    requires Sound(s) && CanAct(s, act) && act.Begin? && Current(s).Commission?
    ensures Keeps(s, Perform(s, act))
  {
    var m, id := Current(s), s.worker.left[0];
    match act.found
    case Some(rid) =>
      if s.runs[rid].report == None {
        WorkerKeeps(s, s.worker.(task := Coordinating(rid)));
      } else {
        LeaveOrMailKeeps(s, rid);
      }
    case None =>
      var rid, r := NewRunId(m, act.random), NewRun(id, m, act.created);
      DurableTouched(s.runs, s.reports, s.settled, s.provider, rid, r);
      TouchKeeps(s, rid, r, Coordinating(rid));
  }

  lemma StartKeeps(s: System, act: Act)
    requires Sound(s) && CanAct(s, act) && act.Begin?
    ensures Keeps(s, Perform(s, act))
  {
    match Current(s)
    case Commission(_, _, _, _, _) => StartCommissionKeeps(s, act);
    case HumanNote(_, _, _, _) => StartNoteKeeps(s);
    case Unusable => LeaveKeeps(s);
  }

  lemma EntriesDoNotMatter(s: System, t: System, entries: map<RunId, nat>)
    requires Keeps(s, t)
    ensures Keeps(s, t.(entries := entries))
  {
  }

  lemma CoordinateKeeps(s: System, act: Act)
    requires Sound(s) && CanAct(s, act) && act.Coordinate?
    ensures Keeps(s, Perform(s, act))
  {
    var rid := s.worker.task.runId;
    var r := s.runs[rid];
    var r' := if r.coordinator.Unset? then r.(coordinator := act.outcome) else r;
    var task := if r.coordinator.Unset? && act.outcome.Required? then Stopping(rid) else Looping(rid);
    DurableTouched(s.runs, s.reports, s.settled, s.provider, rid, r');
    TouchKeeps(s, rid, r', task);
    var t := Next(s.(runs := s.runs[rid := r']), task);
    EntriesDoNotMatter(s, t, Perform(s, act).entries);
    assert s.runs[rid := r] == s.runs;
  }

  // ---------------------------------------------------------------------------------------
  // Reports
  // ---------------------------------------------------------------------------------------

  /** A new generation is recorded: its number was never used. */
  lemma DurableRecorded(runs: map<RunId, Run>, reports: map<Report, string>, settled: map<Report, Status>,
                        provider: seq<Submission>, rid: RunId, r: Run)
    requires Durable(runs, reports, settled, provider) && rid in runs && r.key == runs[rid].key
    requires r.generation == runs[rid].generation + 1 && r.report.Some? && r.report.value != "" && r.delivery.Some?
    requires r.delivery.value.status == Pending && r.delivery.value.idempotencyKey == IdempotencyKey(rid, r.generation)
    ensures Durable(runs[rid := r], reports[(rid, r.generation) := r.report.value], settled, provider)
  {
    assert (rid, r.generation) !in reports;
    var reports' := reports[(rid, r.generation) := r.report.value];
    forall x | x in runs && x != rid ensures ReportSound(x, runs[x], reports', settled) {
      assert ReportSound(x, runs[x], reports, settled);
    }
    forall p | p in provider ensures SubmissionSound(p, reports') { assert SubmissionSound(p, reports); }
  }

  lemma RecordKeeps(s: System, act: Act)
    requires Sound(s) && CanAct(s, act) && act.Record?
    ensures Keeps(s, Perform(s, act))
  {
    var rid, t := s.worker.task.runId, Perform(s, act);
    DurableRecorded(s.runs, s.reports, s.settled, s.provider, rid, t.runs[rid]);
    RecordGrows(s, rid, act.text);
    ServedGrows(s, t, s.acked);
    ServedGrows(s, t, s.worker.handled);
  }

  lemma RecordGrows(s: System, rid: RunId, text: string)
    requires Durable(s.runs, s.reports, s.settled, s.provider) && AtWork(s) && s.worker.left[0] in s.seen && rid in s.runs
    ensures Grows(s, Recorded(s, rid, text))
  {
    assert (rid, s.runs[rid].generation + 1) !in s.reports;
    GrowsBy(s, Recorded(s, rid, text), rid, Recorded(s, rid, text).runs[rid]);
  }

  lemma SubmitKeeps(s: System, rid: RunId)
    requires Sound(s) && AtWork(s) && s.worker.task == Mailing(rid) && rid in s.runs && !IsTerminal(s.runs[rid])
    ensures Keeps(s, Mailed(s, rid, true))
  {
    var r, t := s.runs[rid], Mailed(s, rid, true);
    assert ReportSound(rid, r, s.reports, s.settled);
    var p := Submission(IdempotencyKey(rid, r.generation), rid, r.generation, r.report.value);
    DurableSubmitted(s.runs, s.reports, s.settled, s.provider, p);
    assert Grows(s, t);
  }

  lemma DurableSubmitted(runs: map<RunId, Run>, reports: map<Report, string>, settled: map<Report, Status>,
                         provider: seq<Submission>, p: Submission)
    requires Durable(runs, reports, settled, provider) && SubmissionSound(p, reports)
    ensures Durable(runs, reports, settled, provider + [p]) && IsSubmitted(provider + [p], (p.runId, p.generation))
  {
    assert forall x | x in provider :: x in provider + [p];
    assert p in provider + [p];
  }

  lemma DurableSettled(runs: map<RunId, Run>, reports: map<Report, string>, settled: map<Report, Status>,
                       provider: seq<Submission>, rid: RunId, r: Run)
    requires Durable(runs, reports, settled, provider) && rid in runs && r.key == runs[rid].key
    requires r.generation == runs[rid].generation && r.report == runs[rid].report && r.report.Some?
    requires r.delivery.Some? && r.delivery.value.status != Pending
    requires r.delivery.value.idempotencyKey == runs[rid].delivery.value.idempotencyKey
    requires r.delivery.value.status == Delivered ==> IsSubmitted(provider, (rid, r.generation))
    ensures Durable(runs[rid := r], reports, settled[(rid, r.generation) := r.delivery.value.status], provider)
  {
    var settled' := settled[(rid, r.generation) := r.delivery.value.status];
    assert ReportSound(rid, runs[rid], reports, settled) && ReportSound(rid, r, reports, settled');
    forall x | x in runs && x != rid ensures ReportSound(x, runs[x], reports, settled') {
      assert ReportSound(x, runs[x], reports, settled);
    }
  }

  lemma SettleKeeps(s: System, rid: RunId, r: Run, status: Status)
    requires Sound(s) && AtWork(s) && s.worker.left[0] in s.seen && rid in s.runs && s.runs[rid].report.Some?
    requires !IsTerminal(s.runs[rid]) && status != Pending
    requires RunGrows(s.runs[rid], r) && r.generation == s.runs[rid].generation && r.report == s.runs[rid].report
    requires r.delivery == s.runs[rid].delivery
    requires status == Delivered ==> IsSubmitted(s.provider, (rid, r.generation))
    requires Current(s).Commission? ==> Serves(s.runs[rid], s.worker.left[0], Current(s))
    ensures Keeps(s, Settle(s, rid, r, status))
  {
    var t := Settle(s, rid, r, status);
    DurableSettled(s.runs, s.reports, s.settled, s.provider, rid, t.runs[rid]);
    SettleGrows(s, rid, r, status);
    ServedGrows(s, t, s.acked);
    ServedGrows(s, t, s.worker.handled);
    if Current(s).Commission? { SettleServes(s, rid, r, status); }
    HandledServed(t.seen, t.runs, t.settled, s.worker.handled, s.worker.left[0]);
    LeftIsQueued(s);
  }

  lemma SettleServes(s: System, rid: RunId, r: Run, status: Status)
    requires AtWork(s) && s.worker.left[0] in s.seen && rid in s.runs && r.delivery.Some?
    requires RunGrows(s.runs[rid], r) && Serves(s.runs[rid], s.worker.left[0], Current(s))
    ensures var t := Settle(s, rid, r, status); IsServed(t.seen, t.runs, t.settled, s.worker.left[0])
  {
    var t := Settle(s, rid, r, status);
    assert (rid, r.generation) in t.settled && Serves(t.runs[rid], s.worker.left[0], t.seen[s.worker.left[0]]);
  }

  lemma HandledServed(seen: map<MessageId, Message>, runs: map<RunId, Run>, settled: map<Report, Status>,
                      handled: set<MessageId>, id: MessageId)
    requires AllServed(seen, runs, settled, handled)
    requires id in seen && seen[id].Commission? ==> IsServed(seen, runs, settled, id)
    ensures AllServed(seen, runs, settled, handled + {id})
  {
  }

  lemma LeftIsQueued(s: System)
    requires AtWork(s) && Queued(s.seen, s.queue, s.worker)
    ensures Queued(s.seen, s.queue, Leave(s, true).worker)
  {
    assert forall id | id in s.worker.left[1..] :: id in s.worker.left;
  }

  lemma SettleGrows(s: System, rid: RunId, r: Run, status: Status)
    requires Durable(s.runs, s.reports, s.settled, s.provider) && AtWork(s) && rid in s.runs && s.runs[rid].report.Some?
    requires !IsTerminal(s.runs[rid]) && RunGrows(s.runs[rid], r) && r.generation == s.runs[rid].generation
    requires r.delivery == s.runs[rid].delivery && r.delivery.Some?
    ensures Grows(s, Settle(s, rid, r, status))
  {
    assert (rid, r.generation) !in s.settled;
    GrowsBy(s, Settle(s, rid, r, status), rid, Settle(s, rid, r, status).runs[rid]);
  }

  lemma MailKeeps(s: System, act: Act)
    requires Sound(s) && CanAct(s, act) && act.Mail?
    ensures Keeps(s, Perform(s, act))
  {
    var rid := s.worker.task.runId;
    if IsTerminal(s.runs[rid]) { LeaveOrMailKeeps(s, rid); }
    else if act.needed { SubmitKeeps(s, rid); }
    else { SettleKeeps(s, rid, s.runs[rid], NotRequired); }
  }

  lemma SaveKeeps(s: System, act: Act)
    requires Sound(s) && CanAct(s, act) && act.Save?
    ensures Keeps(s, Perform(s, act))
  {
    var rid := s.worker.task.runId;
    SettleKeeps(s, rid, Touch(s.runs[rid], Some(ReportMail(rid))), Delivered);
  }

  lemma ActKeeps(s: System, act: Act)
    requires Sound(s) && CanAct(s, act)
    ensures Keeps(s, Perform(s, act))
  {
    match act
    case Arrive(_, _) => ArriveKeeps(s, act);
    case Begin(_, _, _) => StartKeeps(s, act);
    case Coordinate(_) => CoordinateKeeps(s, act);
    case Record(_) => RecordKeeps(s, act);
    case Mail(_) => MailKeeps(s, act);
    case Save => SaveKeeps(s, act);
    case Ack(_) => AckKeeps(s, act);
    case _ => QuietKeeps(s, act);
  }

  // ---------------------------------------------------------------------------------------
  // Runs of the system
  // ---------------------------------------------------------------------------------------

  ghost predicate IsRun(s: System, acts: seq<Act>)
    decreases |acts|
  {
    acts == [] || (CanAct(s, acts[0]) && IsRun(Perform(s, acts[0]), acts[1..]))
  }

  function After(s: System, acts: seq<Act>): System
    decreases |acts|
  {
    if acts == [] then s else After(Perform(s, acts[0]), acts[1..])
  }

  lemma {:induction false} RunKeeps(s: System, acts: seq<Act>)
    requires Sound(s) && IsRun(s, acts)
    ensures Keeps(s, After(s, acts))
    decreases |acts|
  {
    if acts != [] {
      ActKeeps(s, acts[0]);
      RunKeeps(Perform(s, acts[0]), acts[1..]);
      GrowsOn(s, Perform(s, acts[0]), After(s, acts));
    }
  }

  lemma GrowsOn(s: System, t: System, u: System)
    requires Grows(s, t) && Grows(t, u)
    ensures Grows(s, u)
  {
    forall rid | rid in s.runs ensures rid in u.runs && RunGrows(s.runs[rid], u.runs[rid]) {
      assert RunGrows(s.runs[rid], t.runs[rid]) && RunGrows(t.runs[rid], u.runs[rid]);
    }
  }

  /** However the process crashes, a durable key never has two runs. */
  lemma OneRunPerKey(acts: seq<Act>, a: RunId, b: RunId)
    requires IsRun(EMPTY, acts)
    ensures var runs := After(EMPTY, acts).runs;
            a in runs && b in runs && runs[a].key == runs[b].key ==> a == b
  {
    RunKeeps(EMPTY, acts);
  }

  /** Two runs never stem from the same e-mail. */
  ghost predicate MessagesDiffer(runs: map<RunId, Run>) {
    forall a, b | a in runs && b in runs && runs[a].messageId == runs[b].messageId
                  && runs[a].messageId.Some? && runs[a].messageId.value != "" :: a == b
  }

  /** The step starts a commission that nothing on disk matches. */
  predicate Creates(s: System, act: Act) {
    act.Begin? && act.found == None && AtWork(s) && s.worker.left[0] in s.seen && Current(s).Commission?
  }

  lemma OnlyStartsCreate(s: System, act: Act)
    requires Sound(s) && CanAct(s, act) && !Creates(s, act)
    ensures Perform(s, act).runs.Keys == s.runs.Keys
  {
    match act
    case Begin(found, random, created) => StartWithoutCreating(s, act);
    case Coordinate(outcome) => CoordinationKeepsKeys(s, s.worker.task.runId, outcome);
    case Record(text) => RecordKeepsKeys(s, s.worker.task.runId, text);
    case Mail(needed) => MailKeepsKeys(s, s.worker.task.runId, needed);
    case Save =>
    case _ => QuietRuns(s, act);
  }

  lemma StartWithoutCreating(s: System, act: Act)
    requires CanAct(s, act) && act.Begin? && !Creates(s, act)
    ensures Perform(s, act).runs.Keys == s.runs.Keys
  {
    match Current(s)
    case Commission(_, _, _, _, _) => FoundKeepsKeys(s, Current(s), act.found.value, act.random, act.created);
    case HumanNote(_, _, _, _) => NoteKeepsKeys(s, Current(s));
    case Unusable =>
  }

  lemma FoundKeepsKeys(s: System, m: Message, rid: RunId, random: RunId, created: int)
    requires AtWork(s) && m.Commission? && rid in s.runs
    ensures StartedCommission(s, m, Some(rid), random, created).runs.Keys == s.runs.Keys
  {
  }

  lemma NoteKeepsKeys(s: System, m: Message)
    requires AtWork(s) && m.HumanNote?
    ensures StartedNote(s, m).runs.Keys == s.runs.Keys
  {
  }

  lemma CoordinationKeepsKeys(s: System, rid: RunId, outcome: Coordinator)
    requires AtWork(s) && rid in s.runs
    ensures Coordinated(s, rid, outcome).runs.Keys == s.runs.Keys
  {
  }

  lemma RecordKeepsKeys(s: System, rid: RunId, text: string)
    requires AtWork(s) && s.worker.left[0] in s.seen && rid in s.runs
    ensures Recorded(s, rid, text).runs.Keys == s.runs.Keys
  {
  }

  lemma MailKeepsKeys(s: System, rid: RunId, needed: bool)
    requires AtWork(s) && rid in s.runs
    ensures Mailed(s, rid, needed).runs.Keys == s.runs.Keys
  {
  }

  /** The run a start creates shares its Message-ID with no run before it. */
  lemma CreatedRunIsNew(s: System, act: Act)
    requires CanAct(s, act) && Creates(s, act)
    ensures var rid, r := NewRunId(Current(s), act.random), NewRun(s.worker.left[0], Current(s), act.created);
            && Perform(s, act).runs == s.runs[rid := r] && rid !in s.runs
            && forall x | x in s.runs && r.messageId.Some? && r.messageId.value != "" :: s.runs[x].messageId != r.messageId
  {
    assert Perform(s, act) == StartedCommission(s, Current(s), None, act.random, act.created);
  }

  lemma {:induction false} MessagesStayDifferent(s: System, acts: seq<Act>)
    requires Sound(s) && IsRun(s, acts) && MessagesDiffer(s.runs)
    ensures MessagesDiffer(After(s, acts).runs)
    decreases |acts|
  {
    if acts != [] {
      ActKeeps(s, acts[0]);
      MessagesDifferAfter(s, acts[0]);
      MessagesStayDifferent(Perform(s, acts[0]), acts[1..]);
    }
  }

  lemma MessagesDifferAfter(s: System, act: Act)
    requires Sound(s) && CanAct(s, act) && Grows(s, Perform(s, act)) && MessagesDiffer(s.runs)
    ensures MessagesDiffer(Perform(s, act).runs)
  {
    assert forall rid | rid in s.runs :: RunGrows(s.runs[rid], Perform(s, act).runs[rid]);
    if Creates(s, act) { CreatedRunIsNew(s, act); } else { OnlyStartsCreate(s, act); }
  }

  /** An e-mail that is delivered again, even under a new queue id after an acknowledgement, gets no second run. */
  lemma OneRunPerMessage(acts: seq<Act>, a: RunId, b: RunId)
    requires IsRun(EMPTY, acts)
    ensures var runs := After(EMPTY, acts).runs;
            (a in runs && b in runs && runs[a].messageId == runs[b].messageId
             && runs[a].messageId.Some? && runs[a].messageId.value != "") ==> a == b
  {
    MessagesStayDifferent(EMPTY, acts);
  }

  /** A commission leaves the queue only after a report of its run was delivered or needed no delivery. */
  lemma AcknowledgedMeansSettled(acts: seq<Act>, id: MessageId)
    requires IsRun(EMPTY, acts)
    ensures var s := After(EMPTY, acts);
            id in s.seen && s.seen[id].Commission? && id !in s.queue ==>
              exists r: Report :: && r in s.settled && r.0 in s.runs && Serves(s.runs[r.0], id, s.seen[id])
                && (s.settled[r] == Delivered ==> IsSubmitted(s.provider, r))
  {
    RunKeeps(EMPTY, acts);
    NothingIsDropped(EMPTY, acts);
  }

  /** A message is in the queue until it is acknowledged. */
  lemma {:induction false} NothingIsDropped(s: System, acts: seq<Act>)
    requires Sound(s) && IsRun(s, acts) && s.seen.Keys <= s.queue + s.acked
    ensures After(s, acts).seen.Keys <= After(s, acts).queue + After(s, acts).acked
    decreases |acts|
  {
    if acts != [] {
      ActKeeps(s, acts[0]);
      DropNothing(s, acts[0]);
      NothingIsDropped(Perform(s, acts[0]), acts[1..]);
    }
  }

  lemma DropNothing(s: System, act: Act)
    requires CanAct(s, act) && s.seen.Keys <= s.queue + s.acked
    ensures Perform(s, act).seen.Keys <= Perform(s, act).queue + Perform(s, act).acked
  {
    if !act.Arrive? && !act.Ack? { Frame(s, act); }
  }

  /** What a start leaves alone. */
  lemma StartFrame(s: System, found: Option<RunId>, random: RunId, created: int)
    requires AtWork(s) && s.worker.left[0] in s.seen && (found.Some? ==> found.value in s.runs)
    ensures SameElsewhere(s, Started(s, found, random, created))
  {
    match Current(s)
    case Commission(_, _, _, _, _) => CommissionFrame(s, found, random, created);
    case HumanNote(_, _, _, _) => NoteFrame(s);
    case Unusable =>
  }

  lemma CommissionFrame(s: System, found: Option<RunId>, random: RunId, created: int)
    requires AtWork(s) && s.worker.left[0] in s.seen && Current(s).Commission? && (found.Some? ==> found.value in s.runs)
    ensures SameElsewhere(s, StartedCommission(s, Current(s), found, random, created))
  {
  }

  lemma NoteFrame(s: System)
    requires AtWork(s) && s.worker.left[0] in s.seen && Current(s).HumanNote?
    ensures SameElsewhere(s, StartedNote(s, Current(s)))
  {
  }

  predicate SameElsewhere(s: System, t: System) {
    t.seen == s.seen && t.queue == s.queue && t.acked == s.acked && t.provider == s.provider && t.entries == s.entries
  }

  /** Only arrivals and acknowledgements touch the queue, only mailing the provider, only coordination the loop. */
  lemma Frame(s: System, act: Act)
    requires CanAct(s, act)
    ensures var t := Perform(s, act);
            && (act.Arrive? || act.Ack? || (t.seen == s.seen && t.queue == s.queue && t.acked == s.acked))
            && (act.Mail? || t.provider == s.provider)
            && (act.Coordinate? || t.entries == s.entries)
  {
    match act
    case Begin(found, random, created) => StartFrame(s, found, random, created);
    case Coordinate(outcome) =>
      if s.worker.task.runId in s.runs { CoordinateFrame(s, s.worker.task.runId, outcome); }
    case Record(text) =>
      if s.worker.left[0] in s.seen && s.worker.task.runId in s.runs { RecordFrame(s, s.worker.task.runId, text); }
    case Mail(needed) => if s.worker.task.runId in s.runs { MailFrame(s, s.worker.task.runId, needed); }
    case Save => SaveFrame(s, act);
    case _ => QuietFrame(s, act);
  }

  lemma CoordinateFrame(s: System, rid: RunId, outcome: Coordinator)
    requires AtWork(s) && rid in s.runs
    ensures SameElsewhere(s, Coordinated(s, rid, outcome).(entries := s.entries))
  {
  }

  lemma RecordFrame(s: System, rid: RunId, text: string)
    requires AtWork(s) && s.worker.left[0] in s.seen && rid in s.runs
    ensures SameElsewhere(s, Recorded(s, rid, text))
  {
  }

  lemma MailFrame(s: System, rid: RunId, needed: bool)
    requires AtWork(s) && rid in s.runs
    ensures SameElsewhere(s, Mailed(s, rid, needed).(provider := s.provider))
  {
  }

  lemma SaveFrame(s: System, act: Act)
    requires CanAct(s, act) && act.Save?
    ensures SameElsewhere(s, Perform(s, act))
  {
  }

  lemma QuietFrame(s: System, act: Act)
    requires act.Arrive? || act.Poll? || act.Fail? || act.Ack? || act.Crash?
    ensures var t := Perform(s, act);
            && (act.Arrive? || act.Ack? || (t.seen == s.seen && t.queue == s.queue && t.acked == s.acked))
            && t.provider == s.provider && t.entries == s.entries
  {
  }

  /** The provider sees one text under each idempotency key, the one recorded for that run and generation. */
  lemma OneTextPerKey(acts: seq<Act>, p: Submission, q: Submission)
    requires IsRun(EMPTY, acts) && p in After(EMPTY, acts).provider && q in After(EMPTY, acts).provider
    requires p.idempotencyKey == q.idempotencyKey
    ensures p == q
  {
    RunKeeps(EMPTY, acts);
    KeyNamesTheReport(p.runId, p.generation, q.runId, q.generation);
  }

  /** A report whose delivery is settled is never submitted again. */
  lemma SettledIsNotResubmitted(s: System, act: Act)
    requires Sound(s) && CanAct(s, act)
    ensures Perform(s, act).provider == s.provider ||
            exists p :: && Perform(s, act).provider == s.provider + [p]
                        && (p.runId, p.generation) !in s.settled && SubmissionSound(p, s.reports)
                        && p.runId in s.runs && p.generation == s.runs[p.runId].generation
  {
    Frame(s, act);
    if act.Mail? {
      var rid := s.worker.task.runId;
      var r := s.runs[rid];
      assert ReportSound(rid, r, s.reports, s.settled);
      if act.needed && !IsTerminal(r) {
        var p := Submission(r.delivery.value.idempotencyKey, rid, r.generation, r.report.value);
        assert Mailed(s, rid, true).provider == s.provider + [p];
        assert SubmissionSound(p, s.reports);
      }
    }
  }

  /** Once a run has a report, no replay of a commission enters its loop. */
  lemma {:induction false} ReportedRunsDoNotLoop(s: System, acts: seq<Act>, rid: RunId)
    requires Sound(s) && IsRun(s, acts) && rid in s.runs && s.runs[rid].report.Some?
    ensures Entries(After(s, acts), rid) == Entries(s, rid)
    decreases |acts|
  {
    if acts != [] {
      ActKeeps(s, acts[0]);
      assert RunGrows(s.runs[rid], Perform(s, acts[0]).runs[rid]);
      NoEntry(s, acts[0], rid);
      ReportedRunsDoNotLoop(Perform(s, acts[0]), acts[1..], rid);
    }
  }

  lemma NoEntry(s: System, act: Act, rid: RunId)
    requires Sound(s) && CanAct(s, act) && rid in s.runs && s.runs[rid].report.Some?
    ensures Entries(Perform(s, act), rid) == Entries(s, rid)
  {
    Frame(s, act);
    if act.Coordinate? {
      assert s.worker.task.runId != rid;
      CoordinationEnters(s, s.worker.task.runId, act.outcome, rid);
    }
  }

  /** Only an applied human note replaces a report; a commission records one for a run that has none. */
  predicate NoteRecords(s: System, act: Act) {
    act.Record? && AtWork(s) && s.worker.left[0] in s.seen && Current(s).HumanNote?
  }

  predicate SameReport(a: Run, b: Run) { a.report == b.report && a.generation == b.generation }

  lemma StartKeepsReport(s: System, act: Act, rid: RunId)
    requires CanAct(s, act) && act.Begin? && rid in s.runs
    ensures rid in Perform(s, act).runs && SameReport(s.runs[rid], Perform(s, act).runs[rid])
  {
    match Current(s)
    case Commission(_, _, _, _, _) => assert act.found == None ==> NewRunId(Current(s), act.random) != rid;
    case _ =>
  }

  lemma ReportIsKept(s: System, act: Act, rid: RunId)
    requires Sound(s) && CanAct(s, act) && rid in s.runs && s.runs[rid].report.Some? && !NoteRecords(s, act)
    ensures rid in Perform(s, act).runs && SameReport(s.runs[rid], Perform(s, act).runs[rid])
  {
    match act
    case Begin(_, _, _) => StartKeepsReport(s, act, rid);
    case Record(_) => BusyElsewhere(s, act, rid); OthersUntouched(s, act, rid);
    case Coordinate(outcome) => BusyElsewhere(s, act, rid); OthersUntouched(s, act, rid);
    case Mail(needed) => MailKeepsReport(s, s.worker.task.runId, needed, rid);
    case Save => SaveKeepsReport(s, act, rid);
    case _ => QuietRuns(s, act);
  }

  lemma BusyElsewhere(s: System, act: Act, rid: RunId)
    requires Sound(s) && CanAct(s, act) && rid in s.runs && s.runs[rid].report.Some? && !NoteRecords(s, act)
    requires act.Record? || act.Coordinate?
    ensures s.worker.task.runId != rid
  {
  }

  lemma OthersUntouched(s: System, act: Act, rid: RunId)
    requires CanAct(s, act) && (act.Record? || act.Coordinate?) && rid in s.runs && s.worker.task.runId != rid
    ensures rid in Perform(s, act).runs && Perform(s, act).runs[rid] == s.runs[rid]
  {
  }

  lemma QuietRuns(s: System, act: Act)
    requires act.Arrive? || act.Poll? || act.Fail? || act.Ack? || act.Crash?
    ensures Perform(s, act).runs == s.runs
  {
  }

  lemma SettleKeepsReport(s: System, mailed: RunId, r: Run, status: Status, rid: RunId)
    requires AtWork(s) && r.delivery.Some? && rid in s.runs && mailed in s.runs && SameReport(s.runs[mailed], r)
    ensures var t := Settle(s, mailed, r, status); rid in t.runs && SameReport(s.runs[rid], t.runs[rid])
  {
  }

  lemma MailKeepsReport(s: System, mailed: RunId, needed: bool, rid: RunId)
    requires AtWork(s) && mailed in s.runs && rid in s.runs
    ensures var t := Mailed(s, mailed, needed); rid in t.runs && SameReport(s.runs[rid], t.runs[rid])
  {
    var r := s.runs[mailed];
    if r.delivery.Some? { SettleKeepsReport(s, mailed, r, NotRequired, rid); }
  }

  lemma SaveKeepsReport(s: System, act: Act, rid: RunId)
    requires CanAct(s, act) && act.Save? && rid in s.runs
    ensures rid in Perform(s, act).runs && SameReport(s.runs[rid], Perform(s, act).runs[rid])
  {
    var mailed := s.worker.task.runId;
    if mailed in s.runs && s.runs[mailed].delivery.Some? {
      SettleKeepsReport(s, mailed, Touch(s.runs[mailed], Some(ReportMail(mailed))), Delivered, rid);
    }
  }

  ghost predicate NoNotes(s: System, acts: seq<Act>)
    decreases |acts|
  {
    acts == [] || (!NoteRecords(s, acts[0]) && NoNotes(Perform(s, acts[0]), acts[1..]))
  }

  /** From `start` on, everything submitted for a run is this. */
  ghost predicate OnlySubmits(provider: seq<Submission>, start: nat, rid: RunId, p: Submission) {
    forall i | start <= i < |provider| && provider[i].runId == rid :: provider[i] == p
  }

  lemma OnlySubmitsOn(a: seq<Submission>, b: seq<Submission>, c: seq<Submission>, rid: RunId, p: Submission)
    requires |a| <= |b| <= |a| + 1 && b <= c && OnlySubmits(c, |b|, rid, p)
    requires |b| > |a| && b[|a|].runId == rid ==> b[|a|] == p
    ensures OnlySubmits(c, |a|, rid, p)
  {
    forall i | |a| <= i < |c| && c[i].runId == rid ensures c[i] == p {
      if i < |b| { assert c[i] == b[i]; }
    }
  }

  /** Until a human note is applied, every replay submits the same report under the same idempotency key. */
  lemma {:induction false} ReplaysReuseTheKey(s: System, acts: seq<Act>, rid: RunId)
    requires Sound(s) && IsRun(s, acts) && NoNotes(s, acts) && rid in s.runs && s.runs[rid].report.Some?
    ensures OnlySubmits(After(s, acts).provider, |s.provider|, rid, ReportOf(rid, s.runs[rid]))
    decreases |acts|
  {
    if acts != [] {
      var t := Perform(s, acts[0]);
      ReplayStep(s, acts[0], rid);
      ReplaysReuseTheKey(t, acts[1..], rid);
      ProviderOnlyGrows(t, acts[1..]);
      OnlySubmitsOn(s.provider, t.provider, After(s, acts).provider, rid, ReportOf(rid, s.runs[rid]));
    }
  }

  lemma ProviderOnlyGrows(s: System, acts: seq<Act>)
    requires Sound(s) && IsRun(s, acts)
    ensures s.provider <= After(s, acts).provider
  {
    RunKeeps(s, acts);
  }

  lemma ReplayStep(s: System, act: Act, rid: RunId)
    requires Sound(s) && CanAct(s, act) && !NoteRecords(s, act) && rid in s.runs && s.runs[rid].report.Some?
    ensures var t := Perform(s, act);
            && Sound(t) && rid in t.runs && t.runs[rid].report.Some? && ReportOf(rid, t.runs[rid]) == ReportOf(rid, s.runs[rid])
            && |s.provider| <= |t.provider| <= |s.provider| + 1
            && (|t.provider| > |s.provider| && t.provider[|s.provider|].runId == rid ==>
                  t.provider[|s.provider|] == ReportOf(rid, s.runs[rid]))
  {
    ActKeeps(s, act);
    ReportIsKept(s, act, rid);
    SubmitsTheReport(s, act, rid);
  }

  function ReportOf(rid: RunId, r: Run): Submission
    requires r.report.Some?
  {
    Submission(IdempotencyKey(rid, r.generation), rid, r.generation, r.report.value)
  }

  lemma SubmitsTheReport(s: System, act: Act, rid: RunId)
    requires Sound(s) && CanAct(s, act) && rid in s.runs && s.runs[rid].report.Some?
    ensures |Perform(s, act).provider| <= |s.provider| + 1
    ensures |Perform(s, act).provider| > |s.provider| && Perform(s, act).provider[|s.provider|].runId == rid ==>
              Perform(s, act).provider[|s.provider|] == ReportOf(rid, s.runs[rid])
  {
    SettledIsNotResubmitted(s, act);
    assert ReportSound(rid, s.runs[rid], s.reports, s.settled);
  }

  lemma CoordinationEnters(s: System, asked: RunId, outcome: Coordinator, rid: RunId)
    requires AtWork(s) && asked in s.runs && rid != asked
    ensures Entries(Coordinated(s, asked, outcome), rid) == Entries(s, rid)
  {
  }
}
