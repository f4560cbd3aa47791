/**
 From inbox to final report, as `serve` drives it in src/runner.py: one locked process that may crash
 between any two durable writes, the queue that keeps a message until it is acknowledged, the runs on
 disk and the mail provider. What survives a crash is the queue, the runs and the provider's log; what
 does not is the worker.
 */
module Delivery {
  import opened Common

  type MessageId = string
  type RunId = string

  datatype Message =
    | Commission(sender: string, requestKey: Option<string>, messageId: Option<string>, runId: Option<RunId>,
                 workspace: Option<string>)
    | HumanNote(sender: string, target: RunId, messageId: Option<string>, stop: bool)
    | Unusable

  datatype Status = Pending | Delivered | NotRequired

  datatype Receipt = Receipt(status: Status, idempotencyKey: string, requestKey: string)

  datatype Coordinator = Unset | Accepted | Optional | Required   // the last two: it failed

  datatype Run = Run(key: string, sender: string, messageId: Option<string>, references: set<string>,
                     workspace: Option<string>, created: int, coordinator: Coordinator,
                     report: Option<string>, generation: nat, delivery: Option<Receipt>)

  datatype Submission = Submission(idempotencyKey: string, runId: RunId, generation: nat, text: string)

  /** What the process is doing with the first message left. */
  datatype Task = Choosing | Coordinating(runId: RunId) | Stopping(runId: RunId) | Looping(runId: RunId)
                | Mailing(runId: RunId) | Submitted(runId: RunId)

  datatype Worker = Resting | Serving(left: seq<MessageId>, handled: set<MessageId>, task: Task)

  datatype System = System(
    seen: map<MessageId, Message>,       // every message that ever arrived
    queue: set<MessageId>,
    runs: map<RunId, Run>,
    provider: seq<Submission>,
    worker: Worker,
    reports: map<(RunId, nat), string>,  // every report ever recorded
    settled: map<(RunId, nat), Status>,  // how each report's delivery ended
    acked: set<MessageId>,
    entries: map<RunId, nat>)            // how often a commission entered the loop

  datatype Act =
    | Arrive(id: MessageId, message: Message)
    | Poll(ids: seq<MessageId>)
    | Begin(found: Option<RunId>, random: RunId, created: int)
    | Coordinate(outcome: Coordinator)
    | Record(text: string)
    | Mail(needed: bool)
    | Save
    | Fail
    | Ack(reached: bool)
    | Crash

  const MAIL_DOMAIN: string := "updates.agent9.dev"

  function ReportMail(runId: RunId): string { "<" + runId + "-report@" + MAIL_DOMAIN + ">" }

  function IdempotencyKey(runId: RunId, generation: nat): string {
    "rally-final-report-" + runId + "-" + Decimal(generation)
  }

  function DurableKey(id: MessageId, m: Message): string
    requires m.Commission?
  {
    if m.requestKey.Some? && m.requestKey.value != "" then m.requestKey.value else id
  }

  predicate IsTerminal(r: Run) { r.delivery.Some? && r.delivery.value.status != Pending }

  /** `find_commission`'s test of one run. */
  predicate Matches(r: Run, key: string, messageId: Option<string>) {
    || r.key == key
    || (messageId.Some? && messageId.value != "" && (r.messageId == messageId || messageId.value in r.references))
  }

  /** `find_commission`: the latest run that matches, if any does. */
  ghost predicate IsFound(runs: map<RunId, Run>, key: string, messageId: Option<string>, found: Option<RunId>) {
    match found
    case None => forall r | r in runs :: !Matches(runs[r], key, messageId)
    case Some(rid) =>
      && rid in runs && Matches(runs[rid], key, messageId)
      && forall r | r in runs && Matches(runs[r], key, messageId) :: runs[r].created <= runs[rid].created
  }

  function NewRun(id: MessageId, m: Message, created: int): Run
    requires m.Commission?
  {
    Run(DurableKey(id, m), m.sender, m.messageId,
        if m.messageId.Some? && m.messageId.value != "" then {m.messageId.value} else {},
        m.workspace, created, Unset, None, 0, None)
  }

  function NewRunId(m: Message, random: RunId): RunId
    requires m.Commission?
  {
    if m.runId.Some? && m.runId.value != "" then m.runId.value else random
  }

  predicate AtWork(s: System) { s.worker.Serving? && s.worker.left != [] }

  /** The message being handled. */
  function Current(s: System): Message
    requires AtWork(s) && s.worker.left[0] in s.seen
  {
    s.seen[s.worker.left[0]]
  }

  /** When a step is possible at all; a handler that raises takes `Fail` instead. */
  ghost predicate CanAct(s: System, act: Act) {
    match act
    case Arrive(id, _) => id != "" && id !in s.seen
    case Poll(ids) => s.worker.Resting? && |ids| <= 25 && forall id | id in ids :: id in s.queue
    case Begin(found, random, _) =>
      && AtWork(s) && s.worker.task.Choosing? && s.worker.left[0] in s.seen
      && var m := Current(s);
         if !m.Commission? then found == None   // only a commission looks for its run
         else
           && IsFound(s.runs, DurableKey(s.worker.left[0], m), m.messageId, found)
           && (found.Some? && m.workspace.Some? ==> s.runs[found.value].workspace == m.workspace)
           && (found == None ==> NewRunId(m, random) !in s.runs)   // create refuses an existing directory
    case Coordinate(outcome) => AtWork(s) && s.worker.task.Coordinating?
    case Record(text) => AtWork(s) && (s.worker.task.Stopping? || s.worker.task.Looping?) && text != ""
    case Mail(_) => AtWork(s) && s.worker.task.Mailing?
    case Save => AtWork(s) && s.worker.task.Submitted?
    case Fail => AtWork(s)
    case Ack(_) => s.worker.Serving? && s.worker.left == [] && s.worker.task.Choosing?
    case Crash => true
  }

  function Next(s: System, task: Task): System
    requires AtWork(s)
  {
    s.(worker := s.worker.(task := task))
  }

  /** The handler returned, or it raised: go on with the next message. */
  function Leave(s: System, succeeded: bool): System
    requires AtWork(s)
  {
    s.(worker := Serving(s.worker.left[1..],
                         if succeeded then s.worker.handled + {s.worker.left[0]} else s.worker.handled, Choosing))
  }

  function Touch(r: Run, messageId: Option<string>): Run {
    if messageId.Some? && messageId.value != "" then r.(references := r.references + {messageId.value}) else r
  }

  /** The first durable steps of `handle_commission`. */
  function StartedCommission(s: System, m: Message, found: Option<RunId>, random: RunId, created: int): System
    requires AtWork(s) && m.Commission? && (found.Some? ==> found.value in s.runs)
  {
    match found
    case None =>
      var rid := NewRunId(m, random);
      Next(s.(runs := s.runs[rid := NewRun(s.worker.left[0], m, created)]), Coordinating(rid))
    case Some(rid) =>
      if s.runs[rid].report == None then Next(s, Coordinating(rid))
      else if IsTerminal(s.runs[rid]) then Leave(s, true)
      else Next(s, Mailing(rid))
  }

  /** The first durable steps of `handle_note`: a note from anyone but the commissioner is set aside. */
  function StartedNote(s: System, m: Message): System
    requires AtWork(s) && m.HumanNote?
  {
    var rid := m.target;
    if rid !in s.runs || s.runs[rid].sender == "" || m.sender != s.runs[rid].sender then Leave(s, true)
    else
      var r := s.runs[rid];
      if r.report.Some? && r.delivery.Some? && r.delivery.value.requestKey == s.worker.left[0] then
        if IsTerminal(r) then Leave(s, true) else Next(s, Mailing(rid))
      else Next(s.(runs := s.runs[rid := Touch(r, m.messageId)]), if m.stop then Stopping(rid) else Looping(rid))
  }

  function Started(s: System, found: Option<RunId>, random: RunId, created: int): System
    requires AtWork(s) && s.worker.left[0] in s.seen && (found.Some? ==> found.value in s.runs)
  {
    match Current(s)
    case Unusable => Leave(s, true)
    case Commission(_, _, _, _, _) => StartedCommission(s, Current(s), found, random, created)
    case HumanNote(_, _, _, _) => StartedNote(s, Current(s))
  }

  /** `attach_cloud_coordination`: a run that already holds a coordinator record is not asked again. */
  function Coordinated(s: System, rid: RunId, outcome: Coordinator): System
    requires AtWork(s) && rid in s.runs
  {
    var r := s.runs[rid];
    if r.coordinator.Unset? && outcome.Required? then
      Next(s.(runs := s.runs[rid := r.(coordinator := Required)]), Stopping(rid))
    else
      var entered := s.(entries := s.entries[rid := Entries(s, rid) + 1]);
      Next(if r.coordinator.Unset? then entered.(runs := s.runs[rid := r.(coordinator := outcome)]) else entered,
           Looping(rid))
  }

  function Entries(s: System, rid: RunId): nat { if rid in s.entries then s.entries[rid] else 0 }

  /** `record_report`. */
  function Recorded(s: System, rid: RunId, text: string): System
    requires AtWork(s) && s.worker.left[0] in s.seen && rid in s.runs
  {
    var r := s.runs[rid];
    var g := r.generation + 1;
    var requestKey := if Current(s).Commission? then r.key else s.worker.left[0];
    var r' := r.(report := Some(text), generation := g,
                 delivery := Some(Receipt(Pending, IdempotencyKey(rid, g), requestKey)));
    Next(s.(runs := s.runs[rid := r'], reports := s.reports[(rid, g) := text]), Mailing(rid))
  }

  function Settle(s: System, rid: RunId, r: Run, status: Status): System
    requires AtWork(s) && r.delivery.Some?
  {
    var r' := r.(delivery := Some(r.delivery.value.(status := status)));
    Leave(s.(runs := s.runs[rid := r'], settled := s.settled[(rid, r.generation) := status]), true)
  }

  /**
   `mail_report` up to the provider's answer, which may be lost. A run that is mailed always has a
   report and a delivery record.
   */
  function Mailed(s: System, rid: RunId, needed: bool): System
    requires AtWork(s) && rid in s.runs
  {
    var r := s.runs[rid];
    if r.delivery == None || r.report == None || IsTerminal(r) then Leave(s, true)
    else if !needed then Settle(s, rid, r, NotRequired)
    else
      var sent := Submission(r.delivery.value.idempotencyKey, rid, r.generation, r.report.value);
      Next(s.(provider := s.provider + [sent]), Submitted(rid))
  }

  function Perform(s: System, act: Act): System {
    match act
    case Arrive(id, m) => s.(seen := s.seen[id := m], queue := s.queue + {id})
    case Poll(ids) => s.(worker := Serving(ids, {}, Choosing))
    case Begin(found, random, created) =>
      if AtWork(s) && s.worker.left[0] in s.seen && (found.Some? ==> found.value in s.runs)
      then Started(s, found, random, created) else s
    case Coordinate(outcome) =>
      if AtWork(s) && s.worker.task.Coordinating? && s.worker.task.runId in s.runs
      then Coordinated(s, s.worker.task.runId, outcome) else s
    case Record(text) =>
      if AtWork(s) && s.worker.left[0] in s.seen && !s.worker.task.Choosing? && s.worker.task.runId in s.runs
      then Recorded(s, s.worker.task.runId, text) else s
    case Mail(needed) =>
      if AtWork(s) && s.worker.task.Mailing? && s.worker.task.runId in s.runs
      then Mailed(s, s.worker.task.runId, needed) else s
    case Save =>
      if AtWork(s) && s.worker.task.Submitted? && s.worker.task.runId in s.runs
         && s.runs[s.worker.task.runId].delivery.Some?
      then
        var rid := s.worker.task.runId;
        Settle(s, rid, Touch(s.runs[rid], Some(ReportMail(rid))), Delivered)
      else s
    case Fail => if AtWork(s) then Leave(s, false) else s
    case Ack(reached) =>
      if s.worker.Resting? then s
      else if reached then
        s.(queue := s.queue - s.worker.handled, acked := s.acked + s.worker.handled, worker := Resting)
      else s.(worker := Resting)
    case Crash => s.(worker := Resting)
  }
}
