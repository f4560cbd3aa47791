/**
 What mailing a report does, and that a commission which is left alone goes all the way from the queue
 to a delivered report.
 */
module MailLaws {
  import opened Common
  import opened Delivery
  import opened DeliveryLaws

  // ---------------------------------------------------------------------------------------
  // One call of `mail_report`
  // ---------------------------------------------------------------------------------------

  /** The recorded report of a run, as it is submitted. */
  function PendingReport(rid: RunId, r: Run): Submission
    requires r.report.Some?
  {
    Submission("rally-final-report-" + rid + "-" + Decimal(r.generation), rid, r.generation, r.report.value)
  }

  /** A delivery that ended is left alone; a pending one is settled only if nobody is to be told, else submitted. */
  lemma MailDoes(s: System, needed: bool)
    requires Sound(s) && CanAct(s, Mail(needed))
    ensures var t, rid := Perform(s, Mail(needed)), s.worker.task.runId;
            && rid in s.runs && s.runs[rid].report.Some? && s.runs[rid].delivery.Some?
            && var r := s.runs[rid];
               if r.delivery.value.status != Pending then
                 t.runs == s.runs && t.provider == s.provider && t.settled == s.settled && t.worker.task.Choosing?
               else if needed then
                 && t.provider == s.provider + [PendingReport(rid, r)] && t.worker.task == Submitted(rid)
                 && t.runs == s.runs && t.settled == s.settled
               else
                 && t.provider == s.provider && t.worker.task.Choosing?
                 && t.runs == s.runs[rid := r.(delivery := Some(r.delivery.value.(status := NotRequired)))]
                 && t.settled == s.settled[(rid, r.generation) := NotRequired]
  {
    var rid := s.worker.task.runId;
    assert ReportSound(rid, s.runs[rid], s.reports, s.settled);
    assert Perform(s, Mail(needed)) == Mailed(s, rid, needed);
  }

  /** The provider's answer is saved as a delivery, and as nothing else. */
  lemma SaveDoes(s: System)
    requires Sound(s) && CanAct(s, Save)
    ensures var t, rid := Perform(s, Save), s.worker.task.runId;
            && rid in s.runs && s.runs[rid].delivery.Some? && s.runs[rid].delivery.value.status == Pending
            && IsSubmitted(s.provider, (rid, s.runs[rid].generation))
            && t.provider == s.provider && t.settled == s.settled[(rid, s.runs[rid].generation) := Delivered]
            && t.runs.Keys == s.runs.Keys && t.runs[rid].delivery == Some(s.runs[rid].delivery.value.(status := Delivered))
  {
    var rid := s.worker.task.runId;
    assert ReportSound(rid, s.runs[rid], s.reports, s.settled);
  }

  // ---------------------------------------------------------------------------------------
  // Over whole runs
  // ---------------------------------------------------------------------------------------

  /** The step finds that nobody is to be told of this report. */
  ghost predicate Waives(s: System, act: Act, r: Report) {
    act == Mail(false) && AtWork(s) && s.worker.task == Mailing(r.0) && r.0 in s.runs && s.runs[r.0].generation == r.1
  }

  ghost predicate EverWaived(s: System, acts: seq<Act>, r: Report)
    decreases |acts|
  {
    acts != [] && (Waives(s, acts[0], r) || EverWaived(Perform(s, acts[0]), acts[1..], r))
  }

  ghost predicate IsWaived(s: System, r: Report) { r in s.settled && s.settled[r] == NotRequired }

  lemma StepWaives(s: System, act: Act, r: Report)
    requires Sound(s) && CanAct(s, act) && IsWaived(Perform(s, act), r)
    ensures IsWaived(s, r) || Waives(s, act, r)
  {
    match act
    case Mail(needed) => MailWaives(s, needed, r);
    case Save => SaveWaivesNothing(s, r);
    case _ => OthersSettleNothing(s, act);
  }

  lemma SaveWaivesNothing(s: System, r: Report)
    requires Sound(s) && CanAct(s, Save) && IsWaived(Perform(s, Save), r)
    ensures IsWaived(s, r)
  {
    SaveDoes(s);
  }

  lemma MailWaives(s: System, needed: bool, r: Report)
    requires Sound(s) && CanAct(s, Mail(needed)) && IsWaived(Perform(s, Mail(needed)), r)
    ensures IsWaived(s, r) || Waives(s, Mail(needed), r)
  {
    MailDoes(s, needed);
  }

  lemma OthersSettleNothing(s: System, act: Act)
    requires CanAct(s, act) && !act.Mail? && !act.Save?
    ensures Perform(s, act).settled == s.settled
  {
    match act
    case Begin(found, random, created) => StartSettlesNothing(s, act);
    case Coordinate(outcome) =>
      if s.worker.task.runId in s.runs { CoordinationSettlesNothing(s, s.worker.task.runId, outcome); }
    case _ =>
  }

  lemma StartSettlesNothing(s: System, act: Act)
    requires CanAct(s, act) && act.Begin?
    ensures Perform(s, act).settled == s.settled
  {
    match Current(s)
    case Commission(_, _, _, _, _) => assert StartedCommission(s, Current(s), act.found, act.random, act.created).settled == s.settled;
    case HumanNote(_, _, _, _) => assert StartedNote(s, Current(s)).settled == s.settled;
    case Unusable =>
  }

  lemma CoordinationSettlesNothing(s: System, rid: RunId, outcome: Coordinator)
    requires AtWork(s) && rid in s.runs
    ensures Coordinated(s, rid, outcome).settled == s.settled
  {
  }

  /** A report counts as not to be delivered only if a step found that nobody was to be told of it. */
  lemma {:induction false} NotRequiredMeansWaived(s: System, acts: seq<Act>, r: Report)
    requires Sound(s) && IsRun(s, acts) && IsWaived(After(s, acts), r)
    ensures IsWaived(s, r) || EverWaived(s, acts, r)
    decreases |acts|
  {
    if acts != [] {
      ActKeeps(s, acts[0]);
      NotRequiredMeansWaived(Perform(s, acts[0]), acts[1..], r);
      if IsWaived(Perform(s, acts[0]), r) { StepWaives(s, acts[0], r); }
    }
  }

  /** The report was submitted as it was recorded, under its own key. */
  ghost predicate WasSent(s: System, r: Report) {
    && r in s.reports
    && Submission("rally-final-report-" + r.0 + "-" + Decimal(r.1), r.0, r.1, s.reports[r]) in s.provider
  }

  /**
   A commission that has left the queue has a report of its own run that was submitted as recorded and
   saved as delivered, unless a step found that nobody was to be told of that report.
   */
  lemma AcknowledgedMeansDelivered(acts: seq<Act>, id: MessageId)
    requires IsRun(EMPTY, acts)
    ensures var s := After(EMPTY, acts);
            id in s.seen && s.seen[id].Commission? && id !in s.queue ==>
              exists r: Report :: && r in s.settled && r.0 in s.runs && Serves(s.runs[r.0], id, s.seen[id])
                && ((s.settled[r] == Delivered && WasSent(s, r)) || EverWaived(EMPTY, acts, r))
  {
    var s := After(EMPTY, acts);
    RunKeeps(EMPTY, acts);
    AcknowledgedMeansSettled(acts, id);
    if id in s.seen && s.seen[id].Commission? && id !in s.queue {
      var r: Report :| && r in s.settled && r.0 in s.runs && Serves(s.runs[r.0], id, s.seen[id])
                       && (s.settled[r] == Delivered ==> IsSubmitted(s.provider, r));
      SettledHow(acts, r);
    }
  }

  lemma SettledHow(acts: seq<Act>, r: Report)
    requires IsRun(EMPTY, acts) && Sound(After(EMPTY, acts)) && r in After(EMPTY, acts).settled
    ensures var s := After(EMPTY, acts); (s.settled[r] == Delivered && WasSent(s, r)) || EverWaived(EMPTY, acts, r)
  {
    var s := After(EMPTY, acts);
    if s.settled[r] == Delivered { SubmittedWasSent(s, r); } else { NotRequiredMeansWaived(EMPTY, acts, r); }
  }

  lemma SubmittedWasSent(s: System, r: Report)
    requires Sound(s) && r in s.settled && IsSubmitted(s.provider, r)
    ensures WasSent(s, r)
  {
    var p :| p in s.provider && (p.runId, p.generation) == r;
    assert SubmissionSound(p, s.reports);
    assert p == Submission(IdempotencyKey(r.0, r.1), r.0, r.1, s.reports[r]);
  }

  // ---------------------------------------------------------------------------------------
  // A message that is left alone
  // ---------------------------------------------------------------------------------------

  /** The process works on this one message; the queue, the provider and what was seen are as they were. */
  ghost predicate WorksOn(s: System, t: System, id: MessageId, task: Task, runs: map<RunId, Run>) {
    && t.worker == Serving([id], {}, task) && t.runs == runs
    && t.seen == s.seen && t.queue == s.queue && t.provider == s.provider && t.acked == s.acked
    && t.reports == s.reports && t.settled == s.settled
  }

  lemma PollTakes(s: System, id: MessageId)
    requires s.worker.Resting? && id in s.queue
    ensures CanAct(s, Poll([id])) && WorksOn(s, Perform(s, Poll([id])), id, Choosing, s.runs)
  {
  }

  lemma CommissionIsCreated(s: System, t: System, id: MessageId, random: RunId, created: int)
    requires WorksOn(s, t, id, Choosing, s.runs) && id in s.seen && s.seen[id].Commission?
    requires IsFound(s.runs, DurableKey(id, s.seen[id]), s.seen[id].messageId, None)
    requires NewRunId(s.seen[id], random) !in s.runs
    ensures var rid, r := NewRunId(s.seen[id], random), NewRun(id, s.seen[id], created);
            && CanAct(t, Begin(None, random, created))
            && WorksOn(s, Perform(t, Begin(None, random, created)), id, Coordinating(rid), s.runs[rid := r])
            && r.key == DurableKey(id, s.seen[id]) && r.sender == s.seen[id].sender && r.report == None && r.generation == 0
  {
    assert Perform(t, Begin(None, random, created)) == StartedCommission(t, s.seen[id], None, random, created);
  }

  lemma CoordinatorAccepts(s: System, t: System, id: MessageId, rid: RunId, r: Run)
    requires WorksOn(s, t, id, Coordinating(rid), s.runs[rid := r]) && r.coordinator.Unset?
    ensures CanAct(t, Coordinate(Accepted))
    ensures WorksOn(s, Perform(t, Coordinate(Accepted)), id, Looping(rid), s.runs[rid := r.(coordinator := Accepted)])
  {
    assert Perform(t, Coordinate(Accepted)) == Coordinated(t, rid, Accepted);
    assert s.runs[rid := r][rid := r.(coordinator := Accepted)] == s.runs[rid := r.(coordinator := Accepted)];
  }

  /** The state with `runs`, from which a report is recorded, mailed, saved and acknowledged. */
  ghost predicate IsReported(s: System, t: System, id: MessageId, rid: RunId, r: Run, text: string) {
    && rid in t.runs && t.runs.Keys == s.runs.Keys + {rid}
    && t.runs[rid].report == Some(text) && t.runs[rid].generation == r.generation + 1
    && t.runs[rid].delivery.Some? && t.runs[rid].delivery.value.status == Delivered
    && t.runs[rid].key == r.key && t.runs[rid].sender == r.sender && t.runs[rid].messageId == r.messageId
    && t.runs[rid].references == r.references + {"<" + rid + "-report@updates.agent9.dev>"}
    && t.provider == s.provider + [Submission("rally-final-report-" + rid + "-" + Decimal(r.generation + 1), rid, r.generation + 1, text)]
    && t.settled == s.settled[(rid, r.generation + 1) := Delivered]
    && t.queue == s.queue - {id} && t.acked == s.acked + {id} && t.worker.Resting?
  }

  const REPORTING: seq<Act> := [Mail(true), Save, Ack(true)]

  lemma ReportGoesOut(s: System, t: System, id: MessageId, rid: RunId, r: Run, text: string)
    requires WorksOn(s, t, id, Looping(rid), s.runs[rid := r]) && id in s.seen && text != ""
    ensures var acts := [Record(text)] + REPORTING;
            IsRun(t, acts) && IsReported(s, After(t, acts), id, rid, r, text)
  {
    var t1, g := Recorded(t, rid, text), r.generation + 1;
    assert Perform(t, Record(text)) == t1;
    var t2 := Mailed(t1, rid, true);
    assert Perform(t1, Mail(true)) == t2;
    assert t2.provider == s.provider + [Submission(IdempotencyKey(rid, g), rid, g, text)];
    assert t2.worker == Serving([id], {}, Submitted(rid));
    SaveAndAcknowledge(t2, id, rid);
    var t4 := Perform(Perform(t2, Save), Ack(true));
    RunsFour(t, Record(text), Mail(true), Save, Ack(true));
    assert [Record(text)] + REPORTING == [Record(text), Mail(true), Save, Ack(true)];
    assert t4.queue == s.queue - {id};
  }

  lemma ReportMailIs(rid: RunId)
    ensures ReportMail(rid) == "<" + rid + "-report@updates.agent9.dev>"
  {
    assert "-report@" + (MAIL_DOMAIN + ">") == "-report@updates.agent9.dev>";
    assert "<" + rid + "-report@" + MAIL_DOMAIN + ">" == "<" + rid + ("-report@" + (MAIL_DOMAIN + ">"));
  }

  lemma SaveAndAcknowledge(t: System, id: MessageId, rid: RunId)
    requires t.worker == Serving([id], {}, Submitted(rid)) && rid in t.runs && t.runs[rid].delivery.Some?
    ensures CanAct(t, Save) && CanAct(Perform(t, Save), Ack(true))
    ensures var u, r := Perform(Perform(t, Save), Ack(true)), t.runs[rid];
            && u.worker.Resting? && u.queue == t.queue - {id} && u.acked == t.acked + {id} && u.provider == t.provider
            && u.runs.Keys == t.runs.Keys && u.runs[rid].report == r.report && u.runs[rid].generation == r.generation
            && u.runs[rid].delivery == Some(r.delivery.value.(status := Delivered))
            && u.runs[rid].key == r.key && u.runs[rid].sender == r.sender && u.runs[rid].messageId == r.messageId
            && u.runs[rid].references == r.references + {"<" + rid + "-report@updates.agent9.dev>"}
            && u.settled == t.settled[(rid, r.generation) := Delivered]
  {
    var r := Touch(t.runs[rid], Some(ReportMail(rid)));
    ReportMailIs(rid);
    assert Perform(t, Save) == Settle(t, rid, r, Delivered);
    assert [id][1..] == [] && {} + {id} == {id};
  }

  lemma RunsFour(s: System, a: Act, b: Act, c: Act, d: Act)
    requires CanAct(s, a) && CanAct(Perform(s, a), b) && CanAct(Perform(Perform(s, a), b), c)
    requires CanAct(Perform(Perform(Perform(s, a), b), c), d)
    ensures IsRun(s, [a, b, c, d]) && After(s, [a, b, c, d]) == Perform(Perform(Perform(Perform(s, a), b), c), d)
  {
    var s1, s2 := Perform(s, a), Perform(Perform(s, a), b);
    var s3 := Perform(s2, c);
    assert [a, b, c, d][1..] == [b, c, d] && [b, c, d][1..] == [c, d] && [c, d][1..] == [d] && [d][1..] == [];
    assert IsRun(s3, [d]) && After(s3, [d]) == Perform(s3, d);
    assert IsRun(s2, [c, d]) && After(s2, [c, d]) == After(s3, [d]);
    assert IsRun(s1, [b, c, d]) && After(s1, [b, c, d]) == After(s2, [c, d]);
  }

  /** Two runs of the system, one after the other. */
  lemma {:induction false} RunsOn(s: System, a: seq<Act>, b: seq<Act>)
    requires IsRun(s, a) && IsRun(After(s, a), b)
    ensures IsRun(s, a + b) && After(s, a + b) == After(After(s, a), b)
    decreases |a|
  {
    if a == [] {
      assert a + b == b;
    } else {
      assert (a + b)[1..] == a[1..] + b;
      RunsOn(Perform(s, a[0]), a[1..], b);
    }
  }

  lemma RunsTwo(s: System, a: Act, b: Act)
    requires CanAct(s, a) && CanAct(Perform(s, a), b)
    ensures IsRun(s, [a, b]) && After(s, [a, b]) == Perform(Perform(s, a), b)
  {
    var s1 := Perform(s, a);
    assert [a, b][1..] == [b] && [b][1..] == [];
    assert IsRun(s1, [b]) && After(s1, [b]) == Perform(s1, b);
  }

  lemma RunsThree(s: System, a: Act, b: Act, c: Act)
    requires CanAct(s, a) && CanAct(Perform(s, a), b) && CanAct(Perform(Perform(s, a), b), c)
    ensures IsRun(s, [a, b, c]) && After(s, [a, b, c]) == Perform(Perform(Perform(s, a), b), c)
  {
    var s1, s2 := Perform(s, a), Perform(Perform(s, a), b);
    assert [a, b, c][1..] == [b, c] && [b, c][1..] == [c] && [c][1..] == [];
    assert IsRun(s2, [c]) && After(s2, [c]) == Perform(s2, c);
    assert IsRun(s1, [b, c]) && After(s1, [b, c]) == After(s2, [c]);
  }

  predicate IsBlank(s: Option<string>) { s == None || s == Some("") }

  /** The run of a new commission: its id and key as given, or else drawn and the message's own; its thread starts with it. */
  predicate IsFirstOf(rid: RunId, r: Run, id: MessageId, m: Message, random: RunId)
    requires m.Commission?
  {
    && rid == (if IsBlank(m.runId) then random else m.runId.value)
    && r.key == (if IsBlank(m.requestKey) then id else m.requestKey.value)
    && r.sender == m.sender && r.messageId == m.messageId && r.workspace == m.workspace
    && r.references == (if IsBlank(m.messageId) then {} else {m.messageId.value})
    && r.coordinator.Unset? && r.report == None && r.generation == 0 && r.delivery == None
  }

  /**
   A new commission whose coordinator accepts and that nothing interrupts gets its own run, whose first
   report is submitted once, saved as delivered and acknowledged.
   */
  lemma CommissionGoesThrough(s: System, id: MessageId, random: RunId, created: int, text: string)
    requires s.worker.Resting? && id in s.queue && id in s.seen && s.seen[id].Commission? && text != ""
    requires IsFound(s.runs, DurableKey(id, s.seen[id]), s.seen[id].messageId, None)
    requires NewRunId(s.seen[id], random) !in s.runs
    ensures var acts := [Poll([id]), Begin(None, random, created), Coordinate(Accepted)] + ([Record(text)] + REPORTING);
            var rid, r := NewRunId(s.seen[id], random), NewRun(id, s.seen[id], created);
            IsRun(s, acts) && IsReported(s, After(s, acts), id, rid, r, text)
    ensures IsFirstOf(NewRunId(s.seen[id], random), NewRun(id, s.seen[id], created), id, s.seen[id], random)
  {
    var rid, r := NewRunId(s.seen[id], random), NewRun(id, s.seen[id], created);
    var first := [Poll([id]), Begin(None, random, created), Coordinate(Accepted)];
    var t1 := Perform(s, Poll([id]));
    PollTakes(s, id);
    CommissionIsCreated(s, t1, id, random, created);
    CoordinatorAccepts(s, Perform(t1, Begin(None, random, created)), id, rid, r);
    RunsThree(s, Poll([id]), Begin(None, random, created), Coordinate(Accepted));
    ReportGoesOut(s, After(s, first), id, rid, r.(coordinator := Accepted), text);
    RunsOn(s, first, [Record(text)] + REPORTING);
  }

  lemma NoteIsApplied(s: System, t: System, id: MessageId, rid: RunId)
    requires WorksOn(s, t, id, Choosing, s.runs) && id in s.seen && s.seen[id].HumanNote? && s.seen[id].target == rid
    requires rid in s.runs && s.runs[rid].sender != "" && s.runs[rid].sender == s.seen[id].sender && !s.seen[id].stop
    requires s.runs[rid].delivery == None || s.runs[rid].delivery.value.requestKey != id
    ensures CanAct(t, Begin(None, "", 0))
    ensures WorksOn(s, Perform(t, Begin(None, "", 0)), id, Looping(rid), s.runs[rid := Touch(s.runs[rid], s.seen[id].messageId)])
  {
    assert Perform(t, Begin(None, "", 0)) == StartedNote(t, s.seen[id]);
  }

  /** The run with one more mail in its thread. */
  function InThread(r: Run, messageId: Option<string>): Run {
    if IsBlank(messageId) then r else r.(references := r.references + {messageId.value})
  }

  lemma NoteBegins(s: System, id: MessageId, rid: RunId)
    requires s.worker.Resting? && id in s.queue && id in s.seen && s.seen[id].HumanNote? && s.seen[id].target == rid
    requires rid in s.runs && s.runs[rid].sender != "" && s.runs[rid].sender == s.seen[id].sender && !s.seen[id].stop
    requires s.runs[rid].delivery == None || s.runs[rid].delivery.value.requestKey != id
    ensures var acts := [Poll([id]), Begin(None, "", 0)];
            IsRun(s, acts)
            && WorksOn(s, After(s, acts), id, Looping(rid), s.runs[rid := Touch(s.runs[rid], s.seen[id].messageId)])
  {
    PollTakes(s, id);
    NoteIsApplied(s, Perform(s, Poll([id])), id, rid);
    RunsTwo(s, Poll([id]), Begin(None, "", 0));
  }

  /** The commissioner's note, left alone, starts the run again, and its next report goes out in the same way. */
  lemma NoteGoesThrough(s: System, id: MessageId, rid: RunId, text: string)
    requires s.worker.Resting? && id in s.queue && id in s.seen && text != ""
    requires s.seen[id].HumanNote? && s.seen[id].target == rid && !s.seen[id].stop
    requires rid in s.runs && s.runs[rid].sender != "" && s.runs[rid].sender == s.seen[id].sender
    requires s.runs[rid].delivery == None || s.runs[rid].delivery.value.requestKey != id
    ensures var acts := [Poll([id]), Begin(None, "", 0)] + ([Record(text)] + REPORTING);
            IsRun(s, acts) && IsReported(s, After(s, acts), id, rid, InThread(s.runs[rid], s.seen[id].messageId), text)
  {
    var first, r := [Poll([id]), Begin(None, "", 0)], Touch(s.runs[rid], s.seen[id].messageId);
    NoteBegins(s, id, rid);
    ReportGoesOut(s, After(s, first), id, rid, r, text);
    assert r == InThread(s.runs[rid], s.seen[id].messageId);
    RunsOn(s, first, [Record(text)] + REPORTING);
  }

  // ---------------------------------------------------------------------------------------
  // Replays
  // ---------------------------------------------------------------------------------------

  /** The message was handled before: its run has a report, recorded for this very commission or note. */
  ghost predicate IsReplay(s: System, id: MessageId, rid: RunId) {
    && id in s.seen && rid in s.runs && s.runs[rid].report.Some? && s.runs[rid].delivery.Some?
    && match s.seen[id]
       case Commission(_, _, messageId, _, workspace) =>
         IsFound(s.runs, DurableKey(id, s.seen[id]), messageId, Some(rid))
         && (workspace.Some? ==> s.runs[rid].workspace == workspace)
       case HumanNote(sender, target, _, _) =>
         target == rid && sender != "" && s.runs[rid].sender == sender && s.runs[rid].delivery.value.requestKey == id
       case Unusable => false
  }

  function Found(s: System, id: MessageId, rid: RunId): Option<RunId>
    requires id in s.seen
  {
    if s.seen[id].Commission? then Some(rid) else None
  }

  lemma ReplayBegins(s: System, t: System, id: MessageId, rid: RunId)
    requires IsReplay(s, id, rid) && WorksOn(s, t, id, Choosing, s.runs)
    ensures var begin := Begin(Found(s, id, rid), "", 0);
            && CanAct(t, begin)
            && Perform(t, begin) == if s.runs[rid].delivery.value.status == Pending then Next(t, Mailing(rid)) else Leave(t, true)
  {
    var begin := Begin(Found(s, id, rid), "", 0);
    match s.seen[id]
    case Commission(_, _, _, _, _) => assert Perform(t, begin) == StartedCommission(t, s.seen[id], Some(rid), "", 0);
    case HumanNote(_, _, _, _) => assert Perform(t, begin) == StartedNote(t, s.seen[id]);
  }

  /** A replay of a message whose report is settled is acknowledged at once; nothing runs and nothing is sent. */
  lemma SettledReplayIsAcknowledged(s: System, id: MessageId, rid: RunId)
    requires s.worker.Resting? && id in s.queue && IsReplay(s, id, rid) && s.runs[rid].delivery.value.status != Pending
    ensures var acts := [Poll([id]), Begin(Found(s, id, rid), "", 0), Ack(true)];
            IsRun(s, acts)
            && After(s, acts) == s.(queue := s.queue - {id}, acked := s.acked + {id})
  {
    var begin := Begin(Found(s, id, rid), "", 0);
    PollTakes(s, id);
    var t1 := Perform(s, Poll([id]));
    ReplayBegins(s, t1, id, rid);
    assert [id][1..] == [] && {} + {id} == {id};
    assert Perform(t1, begin).worker == Serving([], {id}, Choosing);
    RunsThree(s, Poll([id]), begin, Ack(true));
  }

  /** A replay of a message whose report is pending submits that report again under its key, and runs nothing. */
  lemma PendingReplayIsResubmitted(s: System, id: MessageId, rid: RunId)
    requires Sound(s) && s.worker.Resting? && id in s.queue && IsReplay(s, id, rid)
    requires s.runs[rid].delivery.value.status == Pending
    ensures var acts := [Poll([id]), Begin(Found(s, id, rid), "", 0)] + REPORTING;
            var t := After(s, acts);
            && IsRun(s, acts) && t.provider == s.provider + [PendingReport(rid, s.runs[rid])]
            && t.settled == s.settled[(rid, s.runs[rid].generation) := Delivered]
            && t.reports == s.reports && t.entries == s.entries
            && t.queue == s.queue - {id} && t.acked == s.acked + {id} && t.worker.Resting?
  {
    var begin, first := Begin(Found(s, id, rid), "", 0), [Poll([id]), Begin(Found(s, id, rid), "", 0)];
    PollTakes(s, id);
    ReplayBegins(s, Perform(s, Poll([id])), id, rid);
    RunsTwo(s, Poll([id]), begin);
    MailingGoesOut(s, After(s, first), id, rid);
    RunsOn(s, first, REPORTING);
  }

  lemma MailingGoesOut(s: System, t: System, id: MessageId, rid: RunId)
    requires Sound(s) && t == s.(worker := Serving([id], {}, Mailing(rid)))
    requires rid in s.runs && s.runs[rid].report.Some? && s.runs[rid].delivery.Some?
    requires s.runs[rid].delivery.value.status == Pending
    ensures var u := After(t, REPORTING);
            && IsRun(t, REPORTING) && u.provider == s.provider + [PendingReport(rid, s.runs[rid])]
            && u.settled == s.settled[(rid, s.runs[rid].generation) := Delivered]
            && u.reports == s.reports && u.entries == s.entries
            && u.queue == s.queue - {id} && u.acked == s.acked + {id} && u.worker.Resting?
  {
    assert ReportSound(rid, s.runs[rid], s.reports, s.settled);
    assert Perform(t, Mail(true)) == Mailed(t, rid, true);
    SaveAndAcknowledge(Perform(t, Mail(true)), id, rid);
    RunsThree(t, Mail(true), Save, Ack(true));
  }

  /** What `record_report` stores names the message it answers, so that a replay of it is recognised. */
  lemma RecordedReportIsRecognised(s: System, text: string)
    requires Sound(s) && CanAct(s, Record(text))
    ensures var id, rid, t := s.worker.left[0], s.worker.task.runId, Perform(s, Record(text));
            && rid in t.runs && t.runs[rid].report == Some(text) && t.runs[rid].generation == s.runs[rid].generation + 1
            && t.runs[rid].delivery == Some(Receipt(Pending, "rally-final-report-" + rid + "-" + Decimal(s.runs[rid].generation + 1),
                                                    if s.seen[id].HumanNote? then id else s.runs[rid].key))
            && t.reports == s.reports[(rid, s.runs[rid].generation + 1) := text]
            && t.worker.task == Mailing(rid)
  {
    assert Perform(s, Record(text)) == Recorded(s, s.worker.task.runId, text);
  }

  /** The count of a run's entries goes up by one exactly when a coordination hands it to `loop`. */
  lemma EntriesAreCounted(s: System, act: Act, rid: RunId)
    requires Sound(s) && CanAct(s, act)
    ensures var t := Perform(s, act);
            Entries(t, rid) == Entries(s, rid)
              + if act.Coordinate? && t.worker.Serving? && t.worker.task == Looping(rid) then 1 else 0
  {
    Frame(s, act);
    if act.Coordinate? {
      assert Perform(s, act) == Coordinated(s, s.worker.task.runId, act.outcome);
    }
  }
}
