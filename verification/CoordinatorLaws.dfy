/**
 A required coordinator is meant to accept a run before any agent works on it, and to keep the agents
 away if it fails. Every hand-over of a run to `loop` is considered here: by a commission or a human
 note in `serve`, and by the operator's `--run`, `--retry` and `--resume`.
 */
module CoordinatorLaws {
  import opened Common
  import opened Commands
  import opened Delivery
  import opened DeliveryLaws

  /** A run whose required coordinator failed, with no report yet to say so. */
  predicate IsStranded(r: Run) { r.coordinator.Required? && r.report == None }

  ghost predicate NoneStranded(s: System) {
    forall rid | rid in s.runs && IsStranded(s.runs[rid]) :: AtWork(s) && s.worker.task == Stopping(rid)
  }

  /** The process dies, or recording raises, after the failure is saved and before the report is. */
  predicate Interrupts(s: System, act: Act) {
    && (act.Crash? || act.Fail?) && AtWork(s) && s.worker.task.Stopping?
    && s.worker.task.runId in s.runs && IsStranded(s.runs[s.worker.task.runId])
  }

  /** Once the run at hand has a report, nothing is stranded. */
  lemma ReportedStrandsNone(s: System, rid: RunId, r: Run)
    requires AtWork(s) && !s.worker.task.Choosing? && s.worker.task.runId == rid && NoneStranded(s) && r.report.Some?
    ensures FreeOfStranded(s.runs[rid := r])
  {
  }

  lemma RecordStrandsNone(s: System, rid: RunId, text: string)
    requires AtWork(s) && s.worker.left[0] in s.seen && rid in s.runs && NoneStranded(s)
    requires !s.worker.task.Choosing? && s.worker.task.runId == rid
    ensures FreeOfStranded(Recorded(s, rid, text).runs)
  {
    ReportedStrandsNone(s, rid, Recorded(s, rid, text).runs[rid]);
  }

  lemma MailStrandsNone(s: System, rid: RunId, needed: bool)
    requires AtWork(s) && s.worker.task == Mailing(rid) && rid in s.runs && s.runs[rid].report.Some? && NoneStranded(s)
    ensures FreeOfStranded(Mailed(s, rid, needed).runs)
  {
    ReportedStrandsNone(s, rid, Mailed(s, rid, needed).runs[rid]);
    assert s.runs[rid := s.runs[rid]] == s.runs;
  }

  lemma SaveStrandsNone(s: System, act: Act)
    requires Sound(s) && CanAct(s, act) && NoneStranded(s) && act.Save?
    ensures FreeOfStranded(Perform(s, act).runs)
  {
    var rid := s.worker.task.runId;
    ReportedStrandsNone(s, rid, Perform(s, act).runs[rid]);
  }

  lemma StartStrandsNone(s: System, act: Act)
    requires Sound(s) && CanAct(s, act) && NoneStranded(s) && act.Begin?
    ensures NoneStranded(Perform(s, act))
  {
    assert FreeOfStranded(s.runs);
    match Current(s)
    case Commission(_, _, _, _, _) => CommissionStrandsNone(s, Current(s), act.found, act.random, act.created);
    case HumanNote(_, _, _, _) => NoteStrandsNone(s, Current(s));
    case Unusable =>
  }

  ghost predicate FreeOfStranded(runs: map<RunId, Run>) {
    forall x | x in runs :: !IsStranded(runs[x])
  }

  lemma CommissionStrandsNone(s: System, m: Message, found: Option<RunId>, random: RunId, created: int)
    requires AtWork(s) && m.Commission? && (found.Some? ==> found.value in s.runs) && FreeOfStranded(s.runs)
    ensures FreeOfStranded(StartedCommission(s, m, found, random, created).runs)
  {
  }

  lemma NoteStrandsNone(s: System, m: Message)
    requires AtWork(s) && m.HumanNote? && FreeOfStranded(s.runs)
    ensures FreeOfStranded(StartedNote(s, m).runs)
  {
  }

  lemma CoordinateStrandsNone(s: System, rid: RunId, outcome: Coordinator)
    requires AtWork(s) && s.worker.task == Coordinating(rid) && rid in s.runs && NoneStranded(s)
    requires s.runs[rid].report == None
    ensures NoneStranded(Coordinated(s, rid, outcome))
  {
    assert forall x | x in s.runs :: !IsStranded(s.runs[x]);
  }

  /** A step of `serve` leaves a run stranded exactly if it interrupts. */
  lemma StrandsExactlyWhen(s: System, act: Act)
    requires Sound(s) && CanAct(s, act) && NoneStranded(s)
    ensures NoneStranded(Perform(s, act)) <==> !Interrupts(s, act)
  {
    match act
    case Begin(_, _, _) => StartStrandsNone(s, act);
    case Coordinate(outcome) => CoordinateStrandsNone(s, s.worker.task.runId, outcome);
    case Record(text) => RecordStrandsNone(s, s.worker.task.runId, text);
    case Mail(needed) => MailStrandsNone(s, s.worker.task.runId, needed);
    case Save => SaveStrandsNone(s, act);
    case _ => QuietStrands(s, act);
  }

  lemma QuietStrands(s: System, act: Act)
    requires CanAct(s, act) && NoneStranded(s) && (act.Arrive? || act.Poll? || act.Fail? || act.Ack? || act.Crash?)
    ensures NoneStranded(Perform(s, act)) <==> !Interrupts(s, act)
  {
    QuietRuns(s, act);
    if Interrupts(s, act) { assert IsStranded(Perform(s, act).runs[s.worker.task.runId]); }
  }

  // ---------------------------------------------------------------------------------------
  // Starts by the serving process
  // ---------------------------------------------------------------------------------------

  ghost predicate EntersLoop(s: System, act: Act) { !IsLooping(s) && IsLooping(Perform(s, act)) }

  /** What a step into the loop finds recorded of the coordinator. */
  ghost predicate EntersWith(s: System, act: Act, c: Coordinator) {
    && EntersLoop(s, act)
    && var t := Perform(s, act); t.worker.task.runId in t.runs && t.runs[t.worker.task.runId].coordinator == c
  }

  /** An applied note that does not say STOP. */
  predicate StartsNote(s: System, act: Act) { AppliesNote(s, act) && !Current(s).stop }

  lemma NoteEnters(s: System, act: Act, c: Coordinator)
    requires Sound(s) && CanAct(s, act) && act.Begin? && Current(s).HumanNote?
    ensures EntersLoop(s, act) <==> StartsNote(s, act)
    ensures EntersWith(s, act, c) <==> StartsNote(s, act) && s.runs[Current(s).target].coordinator == c
  {
    var t, m := StartedNote(s, Current(s)), Current(s);
    assert Perform(s, act) == t;
    if m.target in s.runs { assert ReportSound(m.target, s.runs[m.target], s.reports, s.settled); }
  }

  lemma CommissionDoesNotEnter(s: System, act: Act)
    requires Sound(s) && CanAct(s, act) && act.Begin? && !Current(s).HumanNote?
    ensures !EntersLoop(s, act)
  {
  }

  lemma CoordinationEnters(s: System, act: Act, c: Coordinator)
    requires Sound(s) && CanAct(s, act) && act.Coordinate?
    ensures var r := s.runs[s.worker.task.runId];
            && r.report == None
            && (EntersLoop(s, act) <==> !(r.coordinator.Unset? && act.outcome.Required?))
            && (EntersWith(s, act, c) <==>
                  EntersLoop(s, act) && c == if r.coordinator.Unset? then act.outcome else r.coordinator)
  {
    var rid := s.worker.task.runId;
    assert Perform(s, act) == Coordinated(s, rid, act.outcome);
  }

  lemma OthersDoNotEnter(s: System, act: Act)
    requires CanAct(s, act) && !act.Begin? && !act.Coordinate?
    ensures !EntersLoop(s, act)
  {
  }

  // ---------------------------------------------------------------------------------------
  // The office keeps its invariant
  // ---------------------------------------------------------------------------------------

  ghost predicate DeskSound(o: Office) {
    match o.desk
    case Free => true
    case Asking(rid) => o.serve.worker.Resting? && rid in o.locals && o.locals[rid].Unset?
    case Running(rid) => o.serve.worker.Resting? && IsKnown(o, rid)
    case Reporting(rid) => o.serve.worker.Resting? && rid in o.serve.runs && o.serve.runs[rid].report.Some?
  }

  ghost predicate OfficeSound(o: Office) {
    Sound(o.serve) && o.serve.runs.Keys !! o.locals.Keys && DeskSound(o)
  }

  lemma ServeKeepsOffice(o: Office, act: Act, left: Option<string>)
    requires OfficeSound(o) && CanStep(o, Serve(act, left))
    ensures OfficeSound(Do(o, Serve(act, left)))
  {
    var s, t := o.serve, Perform(o.serve, act);
    ActKeeps(s, act);
    if Creates(s, act) { CreatedRunIsNew(s, act); } else { OnlyStartsCreate(s, act); }
    if act.Arrive? { assert t.worker == s.worker && t.runs == s.runs; }
  }

  lemma OperatorRecordKeeps(s: System, rid: RunId, text: string)
    requires Sound(s) && s.worker.Resting? && rid in s.runs && text != ""
    ensures Sound(OperatorRecorded(s, rid, text))
  {
    var t := OperatorRecorded(s, rid, text);
    DurableRecorded(s.runs, s.reports, s.settled, s.provider, rid, t.runs[rid]);
    assert (rid, s.runs[rid].generation + 1) !in s.reports;
    assert Grows(s, t);
    ServedGrows(s, t, s.acked);
  }

  lemma OperatorSubmitKeeps(s: System, rid: RunId)
    requires Sound(s) && s.worker.Resting? && rid in s.runs && s.runs[rid].report.Some?
    ensures var t := s.(provider := s.provider + [ReportOf(rid, s.runs[rid])]);
            Sound(t) && IsSubmitted(t.provider, (rid, s.runs[rid].generation))
  {
    assert ReportSound(rid, s.runs[rid], s.reports, s.settled);
    DurableSubmitted(s.runs, s.reports, s.settled, s.provider, ReportOf(rid, s.runs[rid]));
  }

  lemma OperatorSettleGrows(s: System, rid: RunId, r: Run, status: Status)
    requires Sound(s) && rid in s.runs && s.runs[rid].report.Some? && !IsTerminal(s.runs[rid])
    requires RunGrows(s.runs[rid], r) && r.generation == s.runs[rid].generation
    requires r.delivery == s.runs[rid].delivery && r.delivery.Some?
    ensures Grows(s, OperatorSettled(s, rid, r, status))
  {
    assert ReportSound(rid, s.runs[rid], s.reports, s.settled);
    assert (rid, r.generation) !in s.settled;
  }

  lemma OperatorSettleKeeps(s: System, rid: RunId, r: Run, status: Status)
    requires Sound(s) && s.worker.Resting? && rid in s.runs && s.runs[rid].report.Some? && !IsTerminal(s.runs[rid])
    requires status != Pending && RunGrows(s.runs[rid], r) && r.generation == s.runs[rid].generation
    requires r.report == s.runs[rid].report && r.delivery == s.runs[rid].delivery && r.delivery.Some?
    requires status == Delivered ==> IsSubmitted(s.provider, (rid, r.generation))
    ensures Sound(OperatorSettled(s, rid, r, status))
  {
    var t := OperatorSettled(s, rid, r, status);
    DurableSettled(s.runs, s.reports, s.settled, s.provider, rid, t.runs[rid]);
    OperatorSettleGrows(s, rid, r, status);
    ServedGrows(s, t, s.acked);
  }

  lemma PostKeeps(s: System, rid: RunId, needed: bool, answered: bool)
    requires Sound(s) && s.worker.Resting? && rid in s.runs && s.runs[rid].report.Some?
    ensures Sound(Posted(s, rid, needed, answered))
  {
    var r := s.runs[rid];
    assert ReportSound(rid, r, s.reports, s.settled);
    if !IsTerminal(r) {
      if !needed {
        OperatorSettleKeeps(s, rid, r, NotRequired);
      } else {
        OperatorSubmitKeeps(s, rid);
        if answered { AnsweredPostKeeps(s, rid); }
      }
    }
  }

  lemma AnsweredPostKeeps(s: System, rid: RunId)
    requires Sound(s) && s.worker.Resting? && rid in s.runs && s.runs[rid].report.Some? && !IsTerminal(s.runs[rid])
    ensures var t := s.(provider := s.provider + [ReportOf(rid, s.runs[rid])]);
            s.runs[rid].delivery.Some? && Sound(OperatorSettled(t, rid, Touch(s.runs[rid], Some(ReportMail(rid))), Delivered))
  {
    assert ReportSound(rid, s.runs[rid], s.reports, s.settled);
    OperatorSubmitKeeps(s, rid);
    OperatorSettleKeeps(s.(provider := s.provider + [ReportOf(rid, s.runs[rid])]), rid,
                        Touch(s.runs[rid], Some(ReportMail(rid))), Delivered);
  }

  /** Mailing changes no report and no coordinator. */
  lemma PostChangesDeliveryOnly(s: System, rid: RunId, needed: bool, answered: bool)
    requires rid in s.runs
    ensures var t := Posted(s, rid, needed, answered);
            && t.worker == s.worker && t.runs.Keys == s.runs.Keys
            && forall x | x in s.runs :: t.runs[x].report == s.runs[x].report && t.runs[x].coordinator == s.runs[x].coordinator
  {
    var t := Posted(s, rid, needed, answered);
    if t.runs != s.runs {
      var r := t.runs[rid];
      assert t.runs == s.runs[rid := r];
      assert r.report == s.runs[rid].report && r.coordinator == s.runs[rid].coordinator;
    }
  }

  lemma StepKeepsOffice(o: Office, step: Step)
    requires OfficeSound(o) && CanStep(o, step)
    ensures OfficeSound(Do(o, step))
  {
    match step
    case Serve(act, left) => ServeKeepsOffice(o, act, left);
    case Report(text, _) =>
      if o.desk.runId in o.serve.runs { OperatorRecordKeeps(o.serve, o.desk.runId, text); }
    case Post(needed, answered) =>
      PostKeeps(o.serve, o.desk.runId, needed, answered);
      PostChangesDeliveryOnly(o.serve, o.desk.runId, needed, answered);
    case _ =>
  }

  // ---------------------------------------------------------------------------------------
  // Every start
  // ---------------------------------------------------------------------------------------

  /** The step hands a run to `loop`. */
  ghost predicate Starts(o: Office, step: Step) {
    if step.Serve? then EntersLoop(o.serve, step.act) else !o.desk.Running? && Do(o, step).desk.Running?
  }

  /** It does so with a run that the coordinator has not accepted: it failed, or was never asked. */
  ghost predicate StartsUnaccepted(o: Office, step: Step) {
    && Starts(o, step)
    && if step.Serve? then !EntersWith(o.serve, step.act, Accepted)
       else IsUnaccepted(Do(o, step), Do(o, step).desk.runId)
  }

  predicate IsUnaccepted(o: Office, rid: RunId) { IsKnown(o, rid) && !CoordinatorOf(o, rid).Accepted? }

  /** The configuration in force requires the coordinator: it accepts, or its failure stops the run. */
  predicate IsRequired(step: Step) {
    && (step.Serve? && step.act.Coordinate? ==> step.act.outcome in {Accepted, Required})
    && (step.Ask? ==> step.outcome in {Accepted, Required})
  }

  /** A commission replays a run whose coordinator failed and that has no report. */
  predicate ReplaysFailed(o: Office, step: Step) {
    && step.Serve? && step.act.Coordinate? && AtWork(o.serve) && !o.serve.worker.task.Choosing?
    && o.serve.worker.task.runId in o.serve.runs
    && o.serve.runs[o.serve.worker.task.runId].coordinator in {Required, Optional}
  }

  /** A human note, a retry or a resume, none of which asks the coordinator, finds a run it has not accepted. */
  predicate BypassesCoordinator(o: Office, step: Step) {
    match step
    case Serve(act, _) => StartsNote(o.serve, act) && IsUnaccepted(o, Current(o.serve).target)
    case Retry(rid) => CanRetry(o, rid) && IsUnaccepted(o, rid)
    case Resume(rid) => IsUnaccepted(o, rid)
    case _ => false
  }

  /**
   `loop` gets a run from a commission whose coordination did not just fail, an applied note that is no
   STOP, a `--run` whose coordination did not fail, a `--retry` of a halted and incomplete run, or a
   `--resume`, and in no other way.
   */
  lemma StartsExactlyWhen(o: Office, step: Step)
    requires OfficeSound(o) && CanStep(o, step)
    ensures Starts(o, step) <==>
              match step
              case Serve(act, _) =>
                || StartsNote(o.serve, act)
                || (act.Coordinate? && !(o.serve.runs[o.serve.worker.task.runId].coordinator.Unset? && act.outcome.Required?))
              case Retry(rid) => rid in o.halts && o.halts[rid] != "" && o.halts[rid] != "complete"
              case Resume(_) => true
              case Ask(outcome) => !outcome.Required?
              case _ => false
  {
    if step.Serve? { ServeStarts(o.serve, step.act); }
  }

  lemma ServeStarts(s: System, act: Act)
    requires Sound(s) && CanAct(s, act)
    ensures EntersLoop(s, act) <==>
              || StartsNote(s, act)
              || (act.Coordinate? && !(s.runs[s.worker.task.runId].coordinator.Unset? && act.outcome.Required?))
    ensures EntersLoop(s, act) ==>
              (EntersWith(s, act, Accepted) <==>
                 if act.Coordinate?
                 then (if s.runs[s.worker.task.runId].coordinator.Unset? then act.outcome
                       else s.runs[s.worker.task.runId].coordinator) == Accepted
                 else s.runs[Current(s).target].coordinator == Accepted)
  {
    match act
    case Begin(_, _, _) =>
      if Current(s).HumanNote? { NoteEnters(s, act, Accepted); } else { CommissionDoesNotEnter(s, act); }
    case Coordinate(_) => CoordinationEnters(s, act, Accepted);
    case _ => OthersDoNotEnter(s, act);
  }

  /**
   Where a coordinator is required, a run that it has not accepted is handed to `loop` exactly when a
   commission replays a run whose coordinator failed, or a note, a retry or a resume finds such a run.
   */
  lemma FailsOpenExactlyWhen(o: Office, step: Step)
    requires OfficeSound(o) && CanStep(o, step) && IsRequired(step)
    ensures StartsUnaccepted(o, step) <==> ReplaysFailed(o, step) || BypassesCoordinator(o, step)
  {
    StartsExactlyWhen(o, step);
    if step.Serve? { ServeStarts(o.serve, step.act); }
  }

  // ---------------------------------------------------------------------------------------
  // Over whole runs
  // ---------------------------------------------------------------------------------------

  ghost predicate IsOfficeRun(o: Office, steps: seq<Step>)
    decreases |steps|
  {
    steps == [] || (CanStep(o, steps[0]) && IsOfficeRun(Do(o, steps[0]), steps[1..]))
  }

  function OfficeAfter(o: Office, steps: seq<Step>): Office
    decreases |steps|
  {
    if steps == [] then o else OfficeAfter(Do(o, steps[0]), steps[1..])
  }

  /** The coordinator is required throughout, and no step of `serve` interrupts. */
  ghost predicate RunsThrough(o: Office, steps: seq<Step>)
    decreases |steps|
  {
    steps == [] ||
    (&& IsRequired(steps[0]) && !(steps[0].Serve? && Interrupts(o.serve, steps[0].act))
     && RunsThrough(Do(o, steps[0]), steps[1..]))
  }

  /** No commission is stranded, and no coordinator failed while it was optional. */
  ghost predicate NoneToReplay(o: Office) {
    NoneStranded(o.serve) && NoneWaived(o.serve)
  }

  ghost predicate NoneWaived(s: System) { forall rid | rid in s.runs :: !s.runs[rid].coordinator.Optional? }

  lemma CoordinatorsKept(s: System, act: Act)
    requires Sound(s) && CanAct(s, act) && (act.Coordinate? ==> !act.outcome.Optional?) && NoneWaived(s)
    ensures NoneWaived(Perform(s, act))
  {
    match act
    case Begin(found, random, created) => StartWaivesNone(s, act);
    case Coordinate(outcome) => CoordinationWaivesNone(s, s.worker.task.runId, outcome);
    case Record(text) => RecordWaivesNone(s, s.worker.task.runId, text);
    case Mail(needed) => MailWaivesNone(s, s.worker.task.runId, needed);
    case Save =>
    case _ => QuietRuns(s, act);
  }

  lemma StartWaivesNone(s: System, act: Act)
    requires CanAct(s, act) && act.Begin? && NoneWaived(s)
    ensures NoneWaived(Perform(s, act))
  {
    match Current(s)
    case Commission(_, _, _, _, _) =>
      assert NoneWaived(StartedCommission(s, Current(s), act.found, act.random, act.created));
    case HumanNote(_, _, _, _) => assert NoneWaived(StartedNote(s, Current(s)));
    case Unusable =>
  }

  lemma CoordinationWaivesNone(s: System, rid: RunId, outcome: Coordinator)
    requires AtWork(s) && rid in s.runs && !outcome.Optional? && NoneWaived(s)
    ensures NoneWaived(Coordinated(s, rid, outcome))
  {
  }

  lemma RecordWaivesNone(s: System, rid: RunId, text: string)
    requires AtWork(s) && s.worker.left[0] in s.seen && rid in s.runs && NoneWaived(s)
    ensures NoneWaived(Recorded(s, rid, text))
  {
  }

  lemma MailWaivesNone(s: System, rid: RunId, needed: bool)
    requires AtWork(s) && rid in s.runs && NoneWaived(s)
    ensures NoneWaived(Mailed(s, rid, needed))
  {
  }

  lemma StepLeavesNoneToReplay(o: Office, step: Step)
    requires OfficeSound(o) && CanStep(o, step) && IsRequired(step) && NoneToReplay(o)
    requires !(step.Serve? && Interrupts(o.serve, step.act))
    ensures NoneToReplay(Do(o, step))
  {
    match step
    case Serve(act, _) =>
      StrandsExactlyWhen(o.serve, act);
      CoordinatorsKept(o.serve, act);
    case Report(text, _) => if o.desk.runId in o.serve.runs { OperatorRecordLeavesNone(o.serve, o.desk.runId, text); }
    case Post(needed, answered) =>
      PostChangesDeliveryOnly(o.serve, o.desk.runId, needed, answered);
      PostLeavesNone(o.serve, Posted(o.serve, o.desk.runId, needed, answered));
    case _ =>
  }

  lemma OperatorRecordLeavesNone(s: System, rid: RunId, text: string)
    requires s.worker.Resting? && rid in s.runs && NoneStranded(s) && NoneWaived(s)
    ensures NoneStranded(OperatorRecorded(s, rid, text)) && NoneWaived(OperatorRecorded(s, rid, text))
  {
  }

  lemma PostLeavesNone(s: System, t: System)
    requires s.worker.Resting? && NoneStranded(s) && NoneWaived(s) && t.runs.Keys == s.runs.Keys
    requires forall x | x in s.runs :: t.runs[x].report == s.runs[x].report && t.runs[x].coordinator == s.runs[x].coordinator
    ensures NoneStranded(t) && NoneWaived(t)
  {
  }

  lemma {:induction false} RunLeavesNoneToReplay(o: Office, steps: seq<Step>)
    requires OfficeSound(o) && NoneToReplay(o) && IsOfficeRun(o, steps) && RunsThrough(o, steps)
    ensures OfficeSound(OfficeAfter(o, steps)) && NoneToReplay(OfficeAfter(o, steps))
    decreases |steps|
  {
    if steps != [] {
      StepKeepsOffice(o, steps[0]);
      StepLeavesNoneToReplay(o, steps[0]);
      RunLeavesNoneToReplay(Do(o, steps[0]), steps[1..]);
    }
  }

  /**
   Where the coordinator is required throughout and no interruption strands a run, an unaccepted run is
   handed to `loop` exactly by a note, a retry or a resume.
   */
  lemma UninterruptedFailsOpenOnlyByBypass(o: Office, steps: seq<Step>, last: Step)
    requires OfficeSound(o) && NoneToReplay(o) && IsOfficeRun(o, steps) && RunsThrough(o, steps)
    requires CanStep(OfficeAfter(o, steps), last) && IsRequired(last)
    ensures StartsUnaccepted(OfficeAfter(o, steps), last) <==> BypassesCoordinator(OfficeAfter(o, steps), last)
  {
    RunLeavesNoneToReplay(o, steps);
    FailsOpenExactlyWhen(OfficeAfter(o, steps), last);
  }

  // ---------------------------------------------------------------------------------------
  // A run for each way
  // ---------------------------------------------------------------------------------------

  const EMPTY_OFFICE: Office := Office(EMPTY, map[], map[], Free)

  ghost predicate Reaches(o: Office, p: Office) {
    exists steps :: IsOfficeRun(o, steps) && OfficeAfter(o, steps) == p
  }

  /** With the coordinator required throughout and no interruption. */
  ghost predicate ReachesThrough(o: Office, p: Office) {
    exists steps :: IsOfficeRun(o, steps) && RunsThrough(o, steps) && OfficeAfter(o, steps) == p
  }

  lemma OneStep(o: Office, step: Step)
    requires CanStep(o, step)
    ensures Reaches(o, Do(o, step))
    ensures IsRequired(step) && !(step.Serve? && Interrupts(o.serve, step.act)) ==> ReachesThrough(o, Do(o, step))
  {
    assert [step][1..] == [];
    assert IsOfficeRun(Do(o, step), []) && OfficeAfter(Do(o, step), []) == Do(o, step);
    assert RunsThrough(Do(o, step), []);
    assert IsOfficeRun(o, [step]) && OfficeAfter(o, [step]) == Do(o, step);
    assert RunsThrough(o, [step]) <==> IsRequired(step) && !(step.Serve? && Interrupts(o.serve, step.act));
  }

  lemma {:induction false} RunOn(o: Office, first: seq<Step>, rest: seq<Step>)
    requires IsOfficeRun(o, first) && IsOfficeRun(OfficeAfter(o, first), rest)
    ensures IsOfficeRun(o, first + rest) && OfficeAfter(o, first + rest) == OfficeAfter(OfficeAfter(o, first), rest)
    ensures RunsThrough(o, first) && RunsThrough(OfficeAfter(o, first), rest) ==> RunsThrough(o, first + rest)
    decreases |first|
  {
    if first == [] {
      assert first + rest == rest;
    } else {
      assert (first + rest)[0] == first[0] && (first + rest)[1..] == first[1..] + rest;
      RunOn(Do(o, first[0]), first[1..], rest);
    }
  }

  lemma Onward(o: Office, p: Office, q: Office)
    ensures Reaches(o, p) && Reaches(p, q) ==> Reaches(o, q)
    ensures ReachesThrough(o, p) && ReachesThrough(p, q) ==> ReachesThrough(o, q)
    ensures ReachesThrough(o, p) ==> Reaches(o, p)
  {
    if Reaches(o, p) && Reaches(p, q) {
      var a :| IsOfficeRun(o, a) && OfficeAfter(o, a) == p;
      var b :| IsOfficeRun(p, b) && OfficeAfter(p, b) == q;
      RunOn(o, a, b);
    }
    if ReachesThrough(o, p) && ReachesThrough(p, q) {
      var a :| IsOfficeRun(o, a) && RunsThrough(o, a) && OfficeAfter(o, a) == p;
      var b :| IsOfficeRun(p, b) && RunsThrough(p, b) && OfficeAfter(p, b) == q;
      RunOn(o, a, b);
    }
  }

  const COMMISSION := Commission("human", None, None, None, None)
  const NOTE := HumanNote("human", "r", None, false)
  const CREATED := NewRun("m", COMMISSION, 0)
  const START := Serve(Begin(None, "r", 0), None)

  /** A queue and the runs on disk, with the process at `worker`. */
  function At(seen: map<MessageId, Message>, queue: set<MessageId>, runs: map<RunId, Run>, worker: Worker): Office {
    Office(EMPTY.(seen := seen, queue := queue, runs := runs, worker := worker), map[],
           if "r" in runs && runs["r"].coordinator.Required? then map["r" := COORDINATOR_ERROR] else map[], Free)
  }

  /** The queue is read and a commission creates its run. */
  lemma Opening(seen: map<MessageId, Message>, ids: seq<MessageId>)
    requires ids != [] && ids[0] == "m" && |ids| <= 25 && (forall id | id in ids :: id in seen) && seen["m"] == COMMISSION
    ensures ReachesThrough(At(seen, seen.Keys, map[], Resting),
                           At(seen, seen.Keys, map["r" := CREATED], Serving(ids, {}, Coordinating("r"))))
  {
    var o1, o2 := At(seen, seen.Keys, map[], Resting), At(seen, seen.Keys, map[], Serving(ids, {}, Choosing));
    OneStep(o1, Serve(Poll(ids), None));
    assert Do(o1, Serve(Poll(ids), None)) == o2;
    Creating(seen, ids);
    Onward(o1, o2, At(seen, seen.Keys, map["r" := CREATED], Serving(ids, {}, Coordinating("r"))));
  }

  lemma Creating(seen: map<MessageId, Message>, ids: seq<MessageId>)
    requires ids != [] && ids[0] == "m" && "m" in seen && seen["m"] == COMMISSION
    ensures ReachesThrough(At(seen, seen.Keys, map[], Serving(ids, {}, Choosing)),
                           At(seen, seen.Keys, map["r" := CREATED], Serving(ids, {}, Coordinating("r"))))
  {
    var o := At(seen, seen.Keys, map[], Serving(ids, {}, Choosing));
    OneStep(o, START);
    assert Perform(o.serve, START.act) == StartedCommission(o.serve, COMMISSION, None, "r", 0);
    assert Do(o, START) == At(seen, seen.Keys, map["r" := CREATED], Serving(ids, {}, Coordinating("r")));
  }

  const ONE: map<MessageId, Message> := map["m" := COMMISSION]
  const TWO: map<MessageId, Message> := map["m" := COMMISSION, "n" := NOTE]

  lemma Arrivals()
    ensures ReachesThrough(EMPTY_OFFICE, At(ONE, {"m"}, map[], Resting))
    ensures ReachesThrough(At(ONE, {"m"}, map[], Resting), At(TWO, {"m", "n"}, map[], Resting))
  {
    OneStep(EMPTY_OFFICE, Serve(Arrive("m", COMMISSION), None));
    assert Do(EMPTY_OFFICE, Serve(Arrive("m", COMMISSION), None)) == At(ONE, {"m"}, map[], Resting);
    OneStep(At(ONE, {"m"}, map[], Resting), Serve(Arrive("n", NOTE), None));
    assert Do(At(ONE, {"m"}, map[], Resting), Serve(Arrive("n", NOTE), None)) == At(TWO, {"m", "n"}, map[], Resting);
  }

  /** The office after a commission met a required coordinator that failed. */
  function Refused(): Office {
    At(ONE, {"m"}, map["r" := CREATED.(coordinator := Required)], Serving(["m"], {}, Stopping("r")))
  }

  lemma RefusedIsReached()
    ensures ReachesThrough(EMPTY_OFFICE, Refused())
  {
    var o := At(ONE, {"m"}, map["r" := CREATED], Serving(["m"], {}, Coordinating("r")));
    Arrivals();
    Opening(ONE, ["m"]);
    assert ONE.Keys == {"m"};
    Onward(EMPTY_OFFICE, At(ONE, {"m"}, map[], Resting), o);
    CoordinatorFails(o);
    Onward(EMPTY_OFFICE, o, Refused());
  }

  lemma CoordinatorFails(o: Office)
    requires o == At(ONE, {"m"}, map["r" := CREATED], Serving(["m"], {}, Coordinating("r")))
    ensures ReachesThrough(o, Refused())
  {
    OneStep(o, Serve(Coordinate(Required), None));
    assert Perform(o.serve, Coordinate(Required)) == Coordinated(o.serve, "r", Required);
    assert Do(o, Serve(Coordinate(Required), None)) == Refused();
  }

  /** A report that nobody needed to be sent. */
  const REPORTED := CREATED.(coordinator := Required, report := Some("failed"), generation := 1,
                             delivery := Some(Receipt(NotRequired, IdempotencyKey("r", 1), "m")))

  /** The same after the failure was reported and the commission acknowledged. */
  function Reported(): Office {
    Refused().(serve := EMPTY.(seen := ONE, runs := map["r" := REPORTED], acked := {"m"},
                               reports := map[("r", 1) := "failed"], settled := map[("r", 1) := NotRequired]))
  }

  /** Recorded, but not yet mailed. */
  function Recording(): Office {
    Refused().(serve := Recorded(Refused().serve, "r", "failed"))
  }

  /** Mailed to nobody, but not yet acknowledged. */
  function Settling(): Office {
    Reported().(serve := Reported().serve.(queue := {"m"}, acked := {}, worker := Serving([], {"m"}, Choosing)))
  }

  lemma RecordingIsReached()
    ensures ReachesThrough(Refused(), Recording())
  {
    OneStep(Refused(), Serve(Record("failed"), None));
    assert Do(Refused(), Serve(Record("failed"), None)) == Recording();
  }

  lemma SettlingIsReached()
    ensures ReachesThrough(Recording(), Settling())
  {
    OneStep(Recording(), Serve(Mail(false), None));
    SettlingIsMailed();
    assert Do(Recording(), Serve(Mail(false), None)) == Settling();
  }

  lemma SettlingIsMailed()
    ensures Perform(Recording().serve, Mail(false)) == Settling().serve
  {
    var s, t := Recording().serve, Mailed(Recording().serve, "r", false);
    assert s.runs["r"] == CREATED.(coordinator := Required, report := Some("failed"), generation := 1,
                                   delivery := Some(Receipt(Pending, IdempotencyKey("r", 1), "m")));
    assert t.runs["r"] == REPORTED;
    assert t.runs == map["r" := REPORTED] && t.settled == map[("r", 1) := NotRequired];
    assert t.reports == map[("r", 1) := "failed"];
    assert ["m"][1..] == [] && {} + {"m"} == {"m"};
    assert t == Settling().serve;
  }

  lemma ReportIsReached()
    ensures ReachesThrough(EMPTY_OFFICE, Reported())
  {
    RefusedIsReached();
    RecordingIsReached();
    SettlingIsReached();
    Onward(EMPTY_OFFICE, Refused(), Recording());
    Onward(EMPTY_OFFICE, Recording(), Settling());
    Acknowledging();
    Onward(EMPTY_OFFICE, Settling(), Reported());
  }

  lemma Acknowledging()
    ensures ReachesThrough(Settling(), Reported())
  {
    OneStep(Settling(), Serve(Ack(true), None));
    assert Do(Settling(), Serve(Ack(true), None)) == Reported();
  }

  /** The office when the commission of a stranded run is replayed. */
  function Replayed(): Office {
    At(ONE, {"m"}, map["r" := CREATED.(coordinator := Required)], Serving(["m"], {}, Coordinating("r")))
  }

  lemma ReplayIsReached()
    ensures Reaches(Refused(), Replayed())
  {
    var run := CREATED.(coordinator := Required);
    var o1 := At(ONE, {"m"}, map["r" := run], Resting);
    var o2 := At(ONE, {"m"}, map["r" := run], Serving(["m"], {}, Choosing));
    OneStep(Refused(), Serve(Crash, None));
    assert Do(Refused(), Serve(Crash, None)) == o1;
    OneStep(o1, Serve(Poll(["m"]), None));
    assert Do(o1, Serve(Poll(["m"]), None)) == o2;
    Onward(Refused(), o1, o2);
    StrandedIsFound(o2);
    Onward(Refused(), o2, Replayed());
  }

  lemma StrandedIsFound(o: Office)
    requires o == At(ONE, {"m"}, map["r" := CREATED.(coordinator := Required)], Serving(["m"], {}, Choosing))
    ensures Reaches(o, Replayed())
  {
    var begin := Serve(Begin(Some("r"), "r", 0), None);
    OneStep(o, begin);
    assert Perform(o.serve, begin.act) == StartedCommission(o.serve, COMMISSION, Some("r"), "r", 0);
    assert Do(o, begin) == Replayed();
  }

  /** One crash is enough: the replay finds the failure noted and takes it for an acceptance. */
  lemma CrashOpensTheLoop()
    ensures Reaches(EMPTY_OFFICE, Replayed())
    ensures CanStep(Replayed(), Serve(Coordinate(Accepted), None))
    ensures StartsUnaccepted(Replayed(), Serve(Coordinate(Accepted), None))
  {
    RefusedIsReached();
    ReplayIsReached();
    Onward(EMPTY_OFFICE, Refused(), Replayed());
    assert Perform(Replayed().serve, Coordinate(Accepted)) == Coordinated(Replayed().serve, "r", Accepted);
  }

  /** `--retry` and `--resume` hand over a run that its coordinator refused, without any interruption. */
  lemma RetryAndResumeOpenTheLoop()
    ensures ReachesThrough(EMPTY_OFFICE, Reported())
    ensures CanStep(Reported(), Retry("r")) && StartsUnaccepted(Reported(), Retry("r"))
    ensures CanStep(Reported(), Resume("r")) && StartsUnaccepted(Reported(), Resume("r"))
  {
    ReportIsReached();
  }

  /** The commissioner answered the failure report. */
  function Answered(): Office {
    Reported().(serve := Reported().serve.(seen := TWO, queue := {"n"}, worker := Serving(["n"], {}, Choosing)))
  }

  lemma AnswerIsReached()
    ensures ReachesThrough(EMPTY_OFFICE, Answered())
  {
    var o := Reported().(serve := Reported().serve.(seen := TWO, queue := {"n"}));
    ReportIsReached();
    OneStep(Reported(), Serve(Arrive("n", NOTE), None));
    assert Do(Reported(), Serve(Arrive("n", NOTE), None)) == o;
    OneStep(o, Serve(Poll(["n"]), None));
    assert Do(o, Serve(Poll(["n"]), None)) == Answered();
    Onward(EMPTY_OFFICE, Reported(), o);
    Onward(EMPTY_OFFICE, o, Answered());
  }

  lemma NoteStarts(o: Office)
    requires o.desk.Free? && AtWork(o.serve) && o.serve.worker.task.Choosing? && o.serve.worker.left[0] == "n"
    requires "n" in o.serve.seen && o.serve.seen["n"] == NOTE && "r" in o.serve.runs
    requires o.serve.runs["r"].sender == "human" && !o.serve.runs["r"].coordinator.Accepted?
    requires o.serve.runs["r"].delivery == None || o.serve.runs["r"].delivery.value.requestKey != "n"
    ensures CanStep(o, START) && StartsUnaccepted(o, START)
  {
    assert Perform(o.serve, START.act) == StartedNote(o.serve, NOTE);
  }

  /** Without any interruption: the failure is reported, and the commissioner's answer starts the agents. */
  lemma NoteOpensTheLoop()
    ensures ReachesThrough(EMPTY_OFFICE, Answered())
    ensures CanStep(Answered(), START) && StartsUnaccepted(Answered(), START)
  {
    AnswerIsReached();
    NoteStarts(Answered());
  }

  /** A commission failed before its coordinator was asked, and a note is next. */
  function Unasked(): Office {
    At(TWO, {"m", "n"}, map["r" := CREATED], Serving(["n"], {}, Choosing))
  }

  /** A note that comes before the coordinator was ever asked starts the agents as well. */
  lemma NoteBeforeAskingOpensTheLoop()
    ensures ReachesThrough(EMPTY_OFFICE, Unasked())
    ensures CanStep(Unasked(), START) && StartsUnaccepted(Unasked(), START)
  {
    UnaskedIsReached();
    NoteStarts(Unasked());
  }

  lemma UnaskedIsReached()
    ensures ReachesThrough(EMPTY_OFFICE, Unasked())
  {
    var o1, o2 := At(ONE, {"m"}, map[], Resting), At(TWO, {"m", "n"}, map[], Resting);
    var o3 := At(TWO, {"m", "n"}, map["r" := CREATED], Serving(["m", "n"], {}, Coordinating("r")));
    Arrivals();
    Onward(EMPTY_OFFICE, o1, o2);
    assert TWO.Keys == {"m", "n"};
    Opening(TWO, ["m", "n"]);
    Onward(EMPTY_OFFICE, o2, o3);
    CommissionFails(o3);
    Onward(EMPTY_OFFICE, o3, Unasked());
  }

  lemma CommissionFails(o: Office)
    requires o == At(TWO, {"m", "n"}, map["r" := CREATED], Serving(["m", "n"], {}, Coordinating("r")))
    ensures ReachesThrough(o, Unasked())
  {
    OneStep(o, Serve(Fail, None));
    assert ["m", "n"][1..] == ["n"];
    assert Do(o, Serve(Fail, None)) == Unasked();
  }

  // ---------------------------------------------------------------------------------------
  // Halts between commands
  // ---------------------------------------------------------------------------------------

  /** A stopped run may be retried, and the retry takes the halt away, so that a second one does nothing. */
  lemma StoppedRunIsRetriedOnce(o: Office, rid: RunId)
    requires OfficeSound(o) && IsQuiet(o) && IsKnown(o, rid)
    ensures var stopped := Do(o, Stop(rid));
            var retried := Do(stopped, Retry(rid));
            && stopped.halts == o.halts[rid := "stopped_by_human"]
            && CanStep(stopped, Retry(rid)) && Starts(stopped, Retry(rid)) && retried.desk == Running(rid)
            && rid !in retried.halts && !CanRetry(retried, rid)
  {
  }

  /** After a command's loop its run may be retried exactly if the loop left a halt other than "complete". */
  lemma RetryAfterLoopExactlyWhen(o: Office, text: string, left: Option<string>)
    requires OfficeSound(o) && CanStep(o, Report(text, left))
    ensures CanRetry(Do(o, Report(text, left)), o.desk.runId) <==> left.Some? && left.value != "" && left.value != "complete"
  {
  }

  /** The same after a loop of the serving process that is reported, raises or dies. */
  lemma RetryAfterServeExactlyWhen(o: Office, act: Act, left: Option<string>)
    requires OfficeSound(o) && CanStep(o, Serve(act, left)) && IsLooping(o.serve) && (act.Record? || act.Fail? || act.Crash?)
    ensures CanRetry(Do(o, Serve(act, left)), o.serve.worker.task.runId)
            <==> left.Some? && left.value != "" && left.value != "complete"
  {
  }

  /** A STOP that the commissioner sends is a halt on disk before its report is written. */
  lemma StopNoteHalts(o: Office, act: Act, left: Option<string>)
    requires OfficeSound(o) && CanStep(o, Serve(act, left)) && AppliesNote(o.serve, act) && Current(o.serve).stop
    ensures Do(o, Serve(act, left)).halts == o.halts[Current(o.serve).target := "stopped_by_human"]
  {
  }

  /** `--run`: the new run's coordinator is asked once, and a required one that fails halts the run unstarted. */
  lemma LocalRunAsksFirst(o: Office, rid: RunId, outcome: Coordinator)
    requires OfficeSound(o) && CanStep(o, Local(rid))
    ensures var asking := Do(o, Local(rid));
            var t := Do(asking, Ask(outcome));
            && CanStep(asking, Ask(outcome)) && t.serve == o.serve
            && t.locals == o.locals[rid := outcome]
            && if outcome.Required? then t.desk.Free? && t.halts == o.halts[rid := "cloud_coordinator_error"]
               else t.desk == Running(rid) && t.halts == o.halts
  {
    assert o.locals[rid := Unset][rid := outcome] == o.locals[rid := outcome];
  }

  /** A run of the inbox that a command has run again reports under its next generation, and the report goes out. */
  lemma CommandReports(o: Office, rid: RunId, text: string, left: Option<string>)
    requires OfficeSound(o) && o.desk == Running(rid) && rid in o.serve.runs && text != ""
    ensures var p := Do(o, Report(text, left));
            var g := o.serve.runs[rid].generation + 1;
            && CanStep(o, Report(text, left)) && p.desk == Reporting(rid) && CanStep(p, Post(true, true))
            && p.serve.runs[rid].report == Some(text) && p.serve.runs[rid].generation == g
            && p.serve.runs[rid].delivery.Some? && p.serve.runs[rid].delivery.value.status == Pending
            && var q := Do(p, Post(true, true));
               && q.desk.Free? && rid in q.serve.runs && q.serve.runs[rid].report == Some(text)
               && q.serve.runs[rid].delivery == Some(p.serve.runs[rid].delivery.value.(status := Delivered))
               && q.serve.provider == o.serve.provider + [Submission("rally-final-report-" + rid + "-" + Decimal(g), rid, g, text)]
               && q.serve.settled == o.serve.settled[(rid, g) := Delivered]
  {
    var p := Do(o, Report(text, left));
    assert p.serve == OperatorRecorded(o.serve, rid, text);
    assert Do(p, Post(true, true)).serve == Posted(p.serve, rid, true, true);
  }
}
