/**
 The authoritative state of one governed run and the pure steps that src/runner.py
 performs on it: accepted turns, failed turns, Second Wind hand-offs and human notes.
 */
module RunState {
  import opened Common
  import opened Envelope

  /** The reason a run stopped; `Stuck` is "blocked: c1, c2" or "disputed: c1". */
  datatype Halt = Complete | Stuck(state: State, ids: seq<string>) | TurnBudget | NoProgress
                | StoppedByHuman | AgentError | SendCeiling

  datatype Kind = FailedTurn | BlockedItems

  datatype RecoveryStatus = Active | Failed | Unresolved | Recovered

  datatype Recovery = Recovery(
    id: string, turn: nat, kind: Kind, fromActor: string, toActor: string,
    items: set<string>, status: RecoveryStatus)

  datatype Continuity = Continuity(
    secondWind: bool, maximum: nat, used: nat, active: Option<Recovery>, history: seq<Recovery>)

  /** A human note; `stop` says whether its stripped upper-case text starts with STOP. */
  datatype Note = Note(text: string, stop: bool)

  datatype Run = Run(
    turn: nat, actor: string, checklist: seq<Item>, halt: Option<Halt>, note: Option<Note>,
    streak: nat, lastDigest: string, reprompts: nat, continuity: Continuity)

  /** The fleet in its stable order, and the limits of the run. */
  datatype Config = Config(
    fleet: seq<string>, turnsMax: int, rejectionsMax: int, repromptsMax: nat, noProgressHalt: int)

  /** What one dispatch to an agent can produce. The mailer may refuse an accepted turn. */
  datatype Reply = Crashed | NoEnvelope | Proposed(proposed: seq<Proposal>, sendBlocked: bool)

  /** The fleet is a dictionary's keys: non-empty names, each once, at least two (src/agents.py:28). */
  ghost predicate WellFormed(cfg: Config) {
    && |cfg.fleet| >= 2 && "" !in cfg.fleet
    && forall i, j | 0 <= i < j < |cfg.fleet| :: cfg.fleet[i] != cfg.fleet[j]
  }

  // ---------------------------------------------------------------------------------------
  // Pure helpers of envelope.py and runner.py
  // ---------------------------------------------------------------------------------------

  function IndexOf(names: seq<string>, name: string): (i: nat)
    requires name in names
    ensures i < |names| && names[i] == name
  {
    if names[0] == name then 0 else 1 + IndexOf(names[1..], name)
  }

  /** The member after `actor` in cyclic order; an outsider is followed by the first member. */
  function NextActor(cfg: Config, actor: string): string
    requires |cfg.fleet| > 0
  {
    if actor !in cfg.fleet || IndexOf(cfg.fleet, actor) == |cfg.fleet| - 1 then cfg.fleet[0]
    else cfg.fleet[IndexOf(cfg.fleet, actor) + 1]
  }

  predicate IsComplete(items: seq<Item>) {
    items != [] && forall x | x in items :: x.state == Done
  }

  function Blocking(items: seq<Item>): (stuck: seq<Item>)
    ensures forall x :: x in stuck <==> x in items && x.state in {Blocked, Disputed}
  {
    if items == [] then []
    else if items[0].state in {Blocked, Disputed} then [items[0]] + Blocking(items[1..])
    else Blocking(items[1..])
  }

  function StateName(s: State): string {
    match s
    case Open => "open"
    case Claimed => "claimed"
    case Awaiting => "awaiting-verification"
    case Done => "done"
    case Blocked => "blocked"
    case Disputed => "disputed"
    case Unknown(text) => text
  }

  predicate Before(a: string, b: string) {
    b != [] && (a == [] || a[0] < b[0] || (a[0] == b[0] && Before(a[1..], b[1..])))
  }

  function Insert(x: Item, sorted: seq<Item>): seq<Item> {
    if sorted == [] || Before(x.id, sorted[0].id) then [x] + sorted
    else [sorted[0]] + Insert(x, sorted[1..])
  }

  /** `sorted(items, key=id)`: a stable sort. */
  function SortById(items: seq<Item>): seq<Item> {
    if items == [] then [] else Insert(items[|items| - 1], SortById(items[..|items| - 1]))
  }

  function Fingerprints(items: seq<Item>): string {
    if items == [] then ""
    else
      var x := items[0];
      var one := x.id + ":" + StateName(x.state) + ":" + (if x.owner.Some? then x.owner.value else "None");
      if |items| == 1 then one else one + "|" + Fingerprints(items[1..])
  }

  function Digest(items: seq<Item>): string { Fingerprints(SortById(items)) }

  /** The last item carrying an id, as in a dictionary built from the list. */
  function LastWith(items: seq<Item>, id: string): Option<Item> {
    if items == [] then None
    else if items[|items| - 1].id == id then Some(items[|items| - 1])
    else LastWith(items[..|items| - 1], id)
  }

  // ---------------------------------------------------------------------------------------
  // Second Wind
  // ---------------------------------------------------------------------------------------

  datatype Setting = Absent | Unreadable | Number(value: int)

  /** `continuity_policy`, with the per-run override of `Run.create`. */
  function ContinuityPolicy(configured: Setting, enabled: bool, override: Option<bool>): (c: Continuity)
    ensures 0 <= c.maximum <= 8 && c.used == 0 && c.active == None && c.history == []
    ensures c.secondWind <==> c.maximum > 0 && (if override == None then enabled else override == Some(true))
    ensures c.maximum == match configured
                         case Absent => 2
                         case Unreadable => 0
                         case Number(n) => if n < 0 then 0 else if n > 8 then 8 else n
  {
    var asked := match configured case Absent => 2 case Unreadable => 0 case Number(n) => n;
    var maximum := Max(0, Min(asked, 8));
    var wanted := if override.Some? then override.value else enabled;
    Continuity(wanted && maximum > 0, maximum, 0, None, [])
  }

  /** `Run.create`: the first member of the fleet scopes an empty checklist. */
  function Created(cfg: Config, c: Continuity): Run
    requires |cfg.fleet| > 0
  {
    Run(0, cfg.fleet[0], [], None, None, 0, "", 0, c)
  }

  predicate CanRecover(c: Continuity) { c.secondWind && c.used < c.maximum }

  /** Rewrites the status of the latest record with this id. */
  function SetStatus(history: seq<Recovery>, id: string, status: RecoveryStatus): (h: seq<Recovery>)
    ensures |h| == |history|
  {
    if history == [] then []
    else
      var n := |history| - 1;
      if history[n].id == id then history[..n] + [history[n].(status := status)]
      else SetStatus(history[..n], id, status) + [history[n]]
  }

  function RecoveryId(n: nat): string { "sw-" + Decimal(n) }

  function HandOff(s: Run, cfg: Config, kind: Kind, from: string, items: set<string>): Run
    requires |cfg.fleet| > 0
  {
    var c := s.continuity;
    var history := if c.active.Some? then SetStatus(c.history, c.active.value.id, Failed) else c.history;
    var to := NextActor(cfg, from);
    var record := Recovery(RecoveryId(c.used + 1), s.turn, kind, from, to, items, Active);
    s.(actor := to, halt := None, reprompts := 0,
       continuity := c.(used := c.used + 1, active := Some(record), history := history + [record]))
  }

  function UnresolvedItems(s: Run, recovery: Recovery): set<string> {
    set id | id in recovery.items
             && LastWith(s.checklist, id).Some?
             && LastWith(s.checklist, id).value.state in {Blocked, Disputed}
  }

  function Finish(s: Run, actor: string): Run {
    var c := s.continuity;
    if c.active == None || c.active.value.toActor != actor then s
    else
      var outcome := if UnresolvedItems(s, c.active.value) != {} then Unresolved else Recovered;
      s.(continuity := c.(active := None, history := SetStatus(c.history, c.active.value.id, outcome)))
  }

  /** Every item some "blocked" recovery has already been spent on. */
  function Attempted(history: seq<Recovery>): set<string> {
    set r, id | r in history && r.kind == BlockedItems && id in r.items :: id
  }

  function UnrecoveredBlocks(s: Run): set<string> {
    set x | x in s.checklist && x.state == Blocked && x.id !in Attempted(s.continuity.history) :: x.id
  }

  // ---------------------------------------------------------------------------------------
  // One turn
  // ---------------------------------------------------------------------------------------

  function FailTurn(s: Run, cfg: Config): (Run, Option<Halt>)
    requires |cfg.fleet| > 0
  {
    var held := set x | x in s.checklist && x.state == Claimed && x.owner == Some(s.actor) :: x.id;
    if CanRecover(s.continuity) then (HandOff(s, cfg, FailedTurn, s.actor, held), None)
    else (s.(halt := Some(AgentError)), Some(AgentError))
  }

  /** The authority of the acting agent: scope closes after turn 1, recovery items are its own only. */
  function TurnPolicy(s: Run, cfg: Config): Policy {
    var active := s.continuity.active;
    Policy(s.actor, cfg.rejectionsMax, s.turn <= 1,
           if active.Some? && active.value.toActor == s.actor then active.value.items else {})
  }

  function Accept(s: Run, cfg: Config, proposed: seq<Proposal>): Run {
    s.(checklist := Reconciled(s.checklist, proposed, TurnPolicy(s, cfg)).kept, reprompts := 0, note := None)
  }

  /** The bookkeeping after an accepted, mailed turn. */
  function Advance(s: Run, cfg: Config): Run
    requires |cfg.fleet| > 0
  {
    var d := Digest(s.checklist);
    Finish(s.(streak := if d == s.lastDigest then s.streak + 1 else 0, lastDigest := d,
              turn := s.turn + 1, actor := NextActor(cfg, s.actor)),
           s.actor)
  }

  function Settle(s: Run, cfg: Config, actor: string): (Run, Option<Halt>)
    requires |cfg.fleet| > 0
  {
    var stuck := Blocking(s.checklist);
    if IsComplete(s.checklist) then (s, Some(Complete))
    else if stuck != [] then
      if UnrecoveredBlocks(s) != {} && CanRecover(s.continuity) then
        (HandOff(s, cfg, BlockedItems, actor, UnrecoveredBlocks(s)), None)
      else (s, Some(Stuck(stuck[0].state, seq(|stuck|, i requires 0 <= i < |stuck| => stuck[i].id))))
    else if s.turn >= cfg.turnsMax then (s, Some(TurnBudget))
    else if s.streak >= cfg.noProgressHalt then (s, Some(NoProgress))
    else (s, None)
  }

  /** `take_turn` against one arbitrary reply. */
  function Turn(s: Run, cfg: Config, reply: Reply): (Run, Option<Halt>)
    requires |cfg.fleet| > 0
  {
    if s.note.Some? && s.note.value.stop then (s.(halt := Some(StoppedByHuman)), Some(StoppedByHuman))
    else match reply
      case Crashed => FailTurn(s, cfg)
      case NoEnvelope =>
        var s1 := s.(reprompts := s.reprompts + 1);
        if s1.reprompts > cfg.repromptsMax then FailTurn(s1, cfg) else (s1, None)
      case Proposed(proposed, sendBlocked) =>
        var s1 := Accept(s, cfg, proposed);
        if sendBlocked then (s1.(halt := Some(TurnBudget)), Some(SendCeiling))
        else Settle(Advance(s1, cfg), cfg, s.actor)
  }

  // ---------------------------------------------------------------------------------------
  // Human notes
  // ---------------------------------------------------------------------------------------

  function Reopen(x: Item): Item {
    if x.state in {Blocked, Disputed} then x.(state := Open, owner := None, verifiedBy := None) else x
  }

  function ReopenAll(items: seq<Item>): seq<Item> {
    seq(|items|, i requires 0 <= i < |items| => Reopen(items[i]))
  }

  /** The number of an id of the form `c` followed by digits. */
  function ItemNumber(id: string): Option<nat> {
    if |id| > 1 && id[0] == 'c' && AllDigits(id[1..]) then Some(ParseDecimal(id[1..])) else None
  }

  function HighestNumber(items: seq<Item>): nat {
    if items == [] then 0
    else
      var rest := HighestNumber(items[..|items| - 1]);
      var n := ItemNumber(items[|items| - 1].id);
      if n.Some? then Max(n.value, rest) else rest
  }

  function FreshItemId(items: seq<Item>): string { "c" + Decimal(HighestNumber(items) + 1) }

  const FOLLOW_UP := "Apply authenticated human follow-up: "

  function Revision(items: seq<Item>, text: string): Item {
    var description := FOLLOW_UP + text;
    Item(FreshItemId(items), description[..Min(|description|, 420)], Open, None, None, None, 0)
  }

  /** `apply_human_note`; `note.text` has its white space already folded. */
  function ApplyNote(s: Run, note: Note): Run {
    var s1 := s.(note := Some(note));
    if note.stop then s1
    else if Blocking(s.checklist) != [] then
      s1.(checklist := ReopenAll(s.checklist), halt := None, reprompts := 0, streak := 0)
    else if IsComplete(s.checklist) then
      s1.(checklist := s.checklist + [Revision(s.checklist, note.text)], halt := None, reprompts := 0, streak := 0)
    else s1
  }
}
