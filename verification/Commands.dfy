/**
 The operator's commands beside `serve` (src/runner.py): `--run`, `--retry`, `--resume` and `--stop`.
 Each loads a run from disk; the first three hand it to `loop`. A command and the serving process take
 turns, so one of them at a time works on the runs.
 */
module Commands {
  import opened Common
  import opened Delivery

  const COORDINATOR_ERROR := "cloud_coordinator_error"
  const STOPPED := "stopped_by_human"
  const COMPLETE := "complete"

  /** What a command is doing. */
  datatype Desk = Free | Asking(runId: RunId) | Running(runId: RunId) | Reporting(runId: RunId)

  /**
   The serving system, the runs that `--run` started with the state of their coordinator, the halt that
   each run on disk records, and the command at work.
   */
  datatype Office = Office(serve: System, locals: map<RunId, Coordinator>, halts: map<RunId, string>, desk: Desk)

  /** `left` is the halt that an ended or interrupted loop leaves on disk. */
  datatype Step =
    | Serve(act: Act, left: Option<string>)
    | Stop(runId: RunId)
    | Retry(runId: RunId)
    | Resume(runId: RunId)
    | Local(runId: RunId)
    | Ask(outcome: Coordinator)
    | Report(text: string, left: Option<string>)
    | Post(needed: bool, answered: bool)
    | Quit(left: Option<string>)

  predicate IsKnown(o: Office, rid: RunId) { rid in o.serve.runs || rid in o.locals }

  function CoordinatorOf(o: Office, rid: RunId): Coordinator
    requires IsKnown(o, rid)
  {
    if rid in o.serve.runs then o.serve.runs[rid].coordinator else o.locals[rid]
  }

  /** `--retry` goes on only with a run that halted for another reason than being complete. */
  predicate CanRetry(o: Office, rid: RunId) { rid in o.halts && o.halts[rid] != "" && o.halts[rid] != COMPLETE }

  predicate IsQuiet(o: Office) { o.desk.Free? && o.serve.worker.Resting? }

  predicate IsLooping(s: System) { AtWork(s) && s.worker.task.Looping? }

  ghost predicate CanStep(o: Office, step: Step) {
    match step
    case Serve(act, _) =>
      && CanAct(o.serve, act) && (act.Arrive? || o.desk.Free?)
      && (act.Begin? && act.found == None && Current(o.serve).Commission? ==>
            NewRunId(Current(o.serve), act.random) !in o.locals)   // create refuses an existing directory
    case Stop(rid) => IsKnown(o, rid)
    case Retry(rid) => IsQuiet(o) && IsKnown(o, rid)
    case Resume(rid) => IsQuiet(o) && IsKnown(o, rid)
    case Local(rid) => IsQuiet(o) && !IsKnown(o, rid)
    case Ask(_) => o.desk.Asking?
    case Report(text, _) => o.desk.Running? && text != ""
    case Post(_, _) => o.desk.Reporting?
    case Quit(_) => !o.desk.Free?
  }

  function WithHalt(halts: map<RunId, string>, rid: RunId, left: Option<string>): map<RunId, string> {
    if left == None then halts - {rid} else halts[rid := left.value]
  }

  /** The step starts a note that `handle_note` applies. */
  predicate AppliesNote(s: System, act: Act) {
    && act.Begin? && AtWork(s) && s.worker.left[0] in s.seen && Current(s).HumanNote?
    && var m := Current(s);
       && m.target in s.runs && s.runs[m.target].sender != "" && m.sender == s.runs[m.target].sender
       && var r := s.runs[m.target];
          !(r.report.Some? && r.delivery.Some? && r.delivery.value.requestKey == s.worker.left[0])
  }

  /** The halts on disk after a step of the serving process. */
  function HaltsAfter(o: Office, act: Act, left: Option<string>): map<RunId, string> {
    var s := o.serve;
    if IsLooping(s) && (act.Record? || act.Fail? || act.Crash?) then WithHalt(o.halts, s.worker.task.runId, left)
    else if act.Coordinate? && act.outcome.Required? && AtWork(s) && s.worker.task.Coordinating?
            && s.worker.task.runId in s.runs && s.runs[s.worker.task.runId].coordinator.Unset?
    then o.halts[s.worker.task.runId := COORDINATOR_ERROR]
    else if AppliesNote(s, act) && Current(s).stop then o.halts[Current(s).target := STOPPED]
    else o.halts
  }

  /** `record_report` by a command, under no request key. */
  function OperatorRecorded(s: System, rid: RunId, text: string): System
    requires rid in s.runs
  {
    var r := s.runs[rid];
    var g := r.generation + 1;
    s.(runs := s.runs[rid := r.(report := Some(text), generation := g,
                                delivery := Some(Receipt(Pending, IdempotencyKey(rid, g), "")))],
       reports := s.reports[(rid, g) := text])
  }

  function OperatorSettled(s: System, rid: RunId, r: Run, status: Status): System
    requires r.delivery.Some?
  {
    s.(runs := s.runs[rid := r.(delivery := Some(r.delivery.value.(status := status)))],
       settled := s.settled[(rid, r.generation) := status])
  }

  /** `mail_report` by a command; an answer may be lost. */
  function Posted(s: System, rid: RunId, needed: bool, answered: bool): System
    requires rid in s.runs
  {
    var r := s.runs[rid];
    if r.delivery == None || r.report == None || IsTerminal(r) then s
    else if !needed then OperatorSettled(s, rid, r, NotRequired)
    else
      var sent := Submission(r.delivery.value.idempotencyKey, rid, r.generation, r.report.value);
      var s1 := s.(provider := s.provider + [sent]);
      if answered then OperatorSettled(s1, rid, Touch(r, Some(ReportMail(rid))), Delivered) else s1
  }

  function Do(o: Office, step: Step): Office {
    match step
    case Serve(act, left) => o.(serve := Perform(o.serve, act), halts := HaltsAfter(o, act, left))
    case Stop(rid) => o.(halts := o.halts[rid := STOPPED])
    case Retry(rid) => if CanRetry(o, rid) then o.(halts := o.halts - {rid}, desk := Running(rid)) else o
    case Resume(rid) => o.(desk := Running(rid))
    case Local(rid) => o.(locals := o.locals[rid := Unset], desk := Asking(rid))
    case Ask(outcome) =>
      if !o.desk.Asking? then o
      else
        var rid := o.desk.runId;
        if outcome.Required? then
          Office(o.serve, o.locals[rid := Required], o.halts[rid := COORDINATOR_ERROR], Free)
        else o.(locals := o.locals[rid := outcome], desk := Running(rid))
    case Report(text, left) =>
      if !o.desk.Running? then o
      else
        var rid := o.desk.runId;
        var halts := WithHalt(o.halts, rid, left);
        if rid in o.serve.runs then Office(OperatorRecorded(o.serve, rid, text), o.locals, halts, Reporting(rid))
        else o.(halts := halts, desk := Free)
    case Post(needed, answered) =>
      if o.desk.Reporting? && o.desk.runId in o.serve.runs
      then o.(serve := Posted(o.serve, o.desk.runId, needed, answered), desk := Free) else o
    case Quit(left) =>
      if o.desk.Running? then o.(halts := WithHalt(o.halts, o.desk.runId, left), desk := Free) else o.(desk := Free)
  }
}
