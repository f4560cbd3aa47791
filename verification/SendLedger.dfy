/**
 The sliding-window send ledger of src/transport.py. The persisted list forgets old sends; the ghost
 history never does, and the ceilings are proved against the full history.
 */
module SendLedger {
  import opened Common

  const HOUR: real := 3600.0
  const DAY: real := 86400.0

  datatype Send = Send(run: string, at: real, key: Option<string>)

  /** The ceilings in force, fixed for the life of the ledger. */
  datatype Limits = Limits(perRun: int, perHour: int, perDay: int)

  datatype Verdict = Reserved | AlreadyReserved | RunCeiling | HourCeiling | DayCeiling

  /** Sends in the half-open window `(end - length, end]`, of one run or of all of them. */
  function Count(sends: seq<Send>, run: Option<string>, end: real, length: real): nat {
    if sends == [] then 0
    else
      var s := sends[|sends| - 1];
      Count(sends[..|sends| - 1], run, end, length)
      + if (run == None || run == Some(s.run)) && end - s.at < length && s.at <= end then 1 else 0
  }

  function Prune(sends: seq<Send>, now: real): (kept: seq<Send>)
    ensures |kept| <= |sends|
    ensures forall s | s in kept :: s in sends
  {
    if sends == [] then []
    else
      var kept := Prune(sends[..|sends| - 1], now);
      var s := sends[|sends| - 1];
      if now - s.at < DAY then kept + [s] else kept
  }

  ghost predicate HasKey(sends: seq<Send>, run: string, key: Option<string>, now: real) {
    key.Some? && key.value != "" && exists s :: s in sends && s.run == run && s.key == key && now - s.at < DAY
  }

  /** The decision as the documentation states it: on everything ever reserved. */
  ghost function Decision(all: seq<Send>, run: string, key: Option<string>, limits: Limits, now: real): Verdict {
    if HasKey(all, run, key, now) then AlreadyReserved
    else if Count(all, Some(run), now, DAY) >= limits.perRun then RunCeiling
    else if Count(all, None, now, HOUR) >= limits.perHour then HourCeiling
    else if Count(all, None, now, DAY) >= limits.perDay then DayCeiling
    else Reserved
  }

  ghost predicate Ordered(sends: seq<Send>) {
    forall i, j | 0 <= i <= j < |sends| :: sends[i].at <= sends[j].at
  }

  // ---------------------------------------------------------------------------------------
  // Counting and pruning
  // ---------------------------------------------------------------------------------------

  lemma {:induction false} AllOldArePruned(sends: seq<Send>, now: real)
    requires forall i | 0 <= i < |sends| :: now - sends[i].at >= DAY
    ensures Prune(sends, now) == []
  {
    if sends != [] { AllOldArePruned(sends[..|sends| - 1], now); }
  }

  /** In an ordered list pruning drops a prefix, namely the sends a day old or more. */
  lemma {:induction false} PruneIsSuffix(sends: seq<Send>, now: real) returns (k: nat)
    requires Ordered(sends)
    ensures k <= |sends| && Prune(sends, now) == sends[k..]
    ensures forall i | 0 <= i < k :: now - sends[i].at >= DAY
    ensures forall i | k <= i < |sends| :: now - sends[i].at < DAY
  {
    if sends == [] || now - sends[|sends| - 1].at >= DAY {
      AllOldArePruned(sends, now);
      return |sends|;
    }
    var front, s := sends[..|sends| - 1], sends[|sends| - 1];
    assert sends == front + [s];
    k := PruneIsSuffix(front, now);
    PruneSnoc(front, s, now);
    SuffixSnoc(front, s, k, now);
  }

  lemma PruneSnoc(front: seq<Send>, s: Send, now: real)
    requires now - s.at < DAY
    ensures Prune(front + [s], now) == Prune(front, now) + [s]
  {
    assert (front + [s])[..|front|] == front;
  }

  lemma SuffixSnoc(front: seq<Send>, s: Send, k: nat, now: real)
    requires k <= |front| && now - s.at < DAY
    requires forall i | 0 <= i < k :: now - front[i].at >= DAY
    requires forall i | k <= i < |front| :: now - front[i].at < DAY
    ensures var sends := front + [s];
            && front[k..] + [s] == sends[k..]
            && (forall i | 0 <= i < k :: now - sends[i].at >= DAY)
            && (forall i | k <= i < |sends| :: now - sends[i].at < DAY)
  {
  }

  /** Sends that left the window do not count. */
  lemma {:induction false} CountSuffix(sends: seq<Send>, k: nat, run: Option<string>, end: real, length: real)
    requires k <= |sends| && forall i | 0 <= i < k :: end - sends[i].at >= length
    ensures Count(sends, run, end, length) == Count(sends[k..], run, end, length)
  {
    if k < |sends| {
      var front := sends[..|sends| - 1];
      CountSuffix(front, k, run, end, length);
      assert sends[k..][..|sends| - k - 1] == front[k..];
    } else if k > 0 {
      CountSuffix(sends[..|sends| - 1], k - 1, run, end, length);
      assert sends[..|sends| - 1][k - 1..] == [] && sends[k..] == [];
    }
  }

  /** With nothing later than `end`, widening the window past all of it counts everything. */
  lemma {:induction false} CountAll(sends: seq<Send>, end: real, length: real)
    requires forall s | s in sends :: end - s.at < length && s.at <= end
    ensures Count(sends, None, end, length) == |sends|
  {
    if sends != [] { CountAll(sends[..|sends| - 1], end, length); }
  }

  lemma CountSnoc(sends: seq<Send>, s: Send, run: Option<string>, end: real, length: real)
    ensures Count(sends + [s], run, end, length) == Count(sends, run, end, length)
      + if (run == None || run == Some(s.run)) && end - s.at < length && s.at <= end then 1 else 0
  {
    assert (sends + [s])[..|sends|] == sends;
  }

  /** A later window over sends no later than `now` sees no more than the window ending at `now`. */
  lemma {:induction false} CountLater(sends: seq<Send>, run: Option<string>, now: real, end: real, length: real)
    requires now <= end && forall s | s in sends :: s.at <= now
    ensures Count(sends, run, end, length) <= Count(sends, run, now, length)
  {
    if sends != [] { CountLater(sends[..|sends| - 1], run, now, end, length); }
  }

  // ---------------------------------------------------------------------------------------
  // The ledger
  // ---------------------------------------------------------------------------------------

  /** The ceilings hold in every window, whenever it ends, over all reservations ever made. */
  ghost predicate WithinLimits(all: seq<Send>, limits: Limits) {
    && (forall end: real :: Count(all, None, end, 86400.0) <= Max(0, limits.perDay))
    && (forall end: real :: Count(all, None, end, 3600.0) <= Max(0, limits.perHour))
    && (forall run: string, end: real :: Count(all, Some(run), end, 86400.0) <= Max(0, limits.perRun))
  }

  /** One idempotency key of one run is charged at most once in any 24 hours. */
  ghost predicate ChargedOnce(all: seq<Send>) {
    forall i, j | 0 <= i < j < |all| && all[i].run == all[j].run && all[i].key == all[j].key
                  && all[i].key.Some? && all[i].key.value != "" ::
      all[j].at - all[i].at >= DAY
  }

  predicate IsReserved(recent: seq<Send>, run: string, key: Option<string>) {
    key.Some? && key.value != "" && exists i :: 0 <= i < |recent| && recent[i].run == run && recent[i].key == key
  }

  method CountRecent(recent: seq<Send>, run: string, now: real) returns (ofRun: nat, lastHour: nat)
    requires forall s | s in recent :: now - s.at < DAY && s.at <= now
    ensures ofRun == Count(recent, Some(run), now, DAY) && lastHour == Count(recent, None, now, HOUR)
  {
    ofRun, lastHour := 0, 0;
    for i := 0 to |recent|
      invariant ofRun == Count(recent[..i], Some(run), now, DAY) && lastHour == Count(recent[..i], None, now, HOUR)
    {
      CountSnoc(recent[..i], recent[i], Some(run), now, DAY);
      CountSnoc(recent[..i], recent[i], None, now, HOUR);
      assert recent[..i + 1] == recent[..i] + [recent[i]];
      if recent[i].run == run { ofRun := ofRun + 1; }
      if now - recent[i].at < HOUR { lastHour := lastHour + 1; }
    }
    assert recent[..|recent|] == recent;
  }

  function Judged(recent: seq<Send>, run: string, limits: Limits, key: Option<string>, now: real): Verdict {
    if IsReserved(recent, run, key) then AlreadyReserved
    else if Count(recent, Some(run), now, DAY) >= limits.perRun then RunCeiling
    else if Count(recent, None, now, HOUR) >= limits.perHour then HourCeiling
    else if |recent| >= limits.perDay then DayCeiling
    else Reserved
  }

  /** The tests of `check_and_reserve` on the pruned list, in their order. */
  method Judge(recent: seq<Send>, run: string, perRun: int, perHour: int, perDay: int, key: Option<string>, now: real)
    returns (verdict: Verdict)
    requires forall s | s in recent :: now - s.at < DAY && s.at <= now
    ensures verdict == Judged(recent, run, Limits(perRun, perHour, perDay), key, now)
  {
    if IsReserved(recent, run, key) { return AlreadyReserved; }
    var ofRun, lastHour := CountRecent(recent, run, now);
    if ofRun >= perRun { return RunCeiling; }
    if lastHour >= perHour { return HourCeiling; }
    if |recent| >= perDay { return DayCeiling; }
    return Reserved;
  }

  /** Pruning the listed suffix of the history leaves a shorter suffix of it. */
  lemma ForgetMore(all: seq<Send>, forgotten: nat, now: real) returns (k: nat)
    requires forgotten <= |all| && Ordered(all) && forall i | 0 <= i < forgotten :: now - all[i].at >= DAY
    ensures k <= |all| && Prune(all[forgotten..], now) == all[k..]
    ensures forall i | 0 <= i < k :: now - all[i].at >= DAY
    ensures forall i | k <= i < |all| :: now - all[i].at < DAY
  {
    var sends := all[forgotten..];
    var dropped := PruneIsSuffix(sends, now);
    k := forgotten + dropped;
    assert sends[dropped..] == all[k..];
    assert forall i | forgotten <= i < |all| :: all[i] == sends[i - forgotten];
  }

  /** The file without its day-old sends answers every question as the full history does. */
  lemma PrunedAgrees(all: seq<Send>, k: nat, run: string, key: Option<string>, now: real)
    requires k <= |all| && Ordered(all) && forall s | s in all :: s.at <= now
    requires forall i | 0 <= i < k :: now - all[i].at >= DAY
    requires forall i | k <= i < |all| :: now - all[i].at < DAY
    ensures Count(all[k..], Some(run), now, DAY) == Count(all, Some(run), now, DAY)
    ensures Count(all[k..], None, now, HOUR) == Count(all, None, now, HOUR)
    ensures |all[k..]| == Count(all, None, now, DAY)
    ensures forall s | s in all[k..] :: now - s.at < DAY && s.at <= now
    ensures HasKey(all, run, key, now) <==>
              IsReserved(all[k..], run, key)
  {
    CountSuffix(all, k, Some(run), now, DAY);
    CountSuffix(all, k, None, now, DAY);
    CountSuffix(all, k, None, now, HOUR);
    CountAll(all[k..], now, DAY);
    if HasKey(all, run, key, now) {
      var s :| s in all && s.run == run && s.key == key && now - s.at < DAY;
      var i :| 0 <= i < |all| && all[i] == s;
      assert all[k..][i - k] == s;
    }
  }

  /** A reservation that the full history allows breaks no ceiling in any window. */
  lemma ReservationFits(all: seq<Send>, s: Send, limits: Limits)
    requires Ordered(all) && (forall t | t in all :: t.at <= s.at) && WithinLimits(all, limits) && ChargedOnce(all)
    requires Decision(all, s.run, s.key, limits, s.at) == Reserved
    ensures Ordered(all + [s]) && WithinLimits(all + [s], limits) && ChargedOnce(all + [s])
  {
    WindowFits(all, s, None, DAY, limits.perDay);
    WindowFits(all, s, None, HOUR, limits.perHour);
    forall run: string, end: real ensures Count(all + [s], Some(run), end, DAY) <= Max(0, limits.perRun) {
      if run == s.run {
        WindowFits(all, s, Some(s.run), DAY, limits.perRun);
      } else {
        CountSnoc(all, s, Some(run), end, DAY);
      }
    }
    ChargedOnceMore(all, s);
  }

  /** One more send fits every window if it fits the one that ends with it. */
  lemma WindowFits(all: seq<Send>, s: Send, run: Option<string>, length: real, limit: int)
    requires (forall t | t in all :: t.at <= s.at) && Count(all, run, s.at, length) < limit
    requires forall end: real :: Count(all, run, end, length) <= Max(0, limit)
    ensures forall end: real :: Count(all + [s], run, end, length) <= Max(0, limit)
  {
    forall end: real ensures Count(all + [s], run, end, length) <= Max(0, limit) {
      CountSnoc(all, s, run, end, length);
      if s.at <= end { CountLater(all, run, s.at, end, length); }
    }
  }

  predicate Concerns(s: Send, run: Option<string>) { run == None || run == Some(s.run) }

  /** The sends that a window ending at `end` sees. */
  ghost function Seen(sends: seq<Send>, run: Option<string>, end: real, length: real): set<int> {
    set i: int | 0 <= i < |sends| && Concerns(sends[i], run) && end - length < sends[i].at <= end
  }

  /** Counting counts them. */
  lemma {:induction false} CountIsSize(sends: seq<Send>, run: Option<string>, end: real, length: real)
    ensures Count(sends, run, end, length) == |Seen(sends, run, end, length)|
  {
    if sends == [] {
      assert Seen(sends, run, end, length) == {};
    } else {
      var front, last := sends[..|sends| - 1], sends[|sends| - 1];
      assert sends == front + [last];
      CountIsSize(front, run, end, length);
      CountSnoc(front, last, run, end, length);
      SeenSnoc(front, last, run, end, length);
    }
  }

  lemma SeenSnoc(front: seq<Send>, last: Send, run: Option<string>, end: real, length: real)
    ensures |Seen(front + [last], run, end, length)|
         == |Seen(front, run, end, length)| + if Concerns(last, run) && end - length < last.at <= end then 1 else 0
  {
    var sends := front + [last];
    assert sends[|front|] == last && forall i: int | 0 <= i < |front| :: sends[i] == front[i];
    assert Seen(sends, run, end, length)
        == Seen(front, run, end, length) + if Concerns(last, run) && end - length < last.at <= end then {|front|} else {};
  }

  /** The reservation would break no ceiling in the windows that end with it. */
  ghost predicate Fits(all: seq<Send>, s: Send, limits: Limits) {
    && |Seen(all + [s], Some(s.run), s.at, 86400.0)| <= limits.perRun
    && |Seen(all + [s], None, s.at, 3600.0)| <= limits.perHour
    && |Seen(all + [s], None, s.at, 86400.0)| <= limits.perDay
  }

  /** The key was charged for this run less than a day before. */
  ghost predicate WasCharged(all: seq<Send>, s: Send) {
    s.key.Some? && s.key.value != "" && exists t :: t in all && t.run == s.run && t.key == s.key && s.at - t.at < 86400.0
  }

  /**
   A reservation is refused only with reason: exactly if its key was charged within a day, or it would
   break a ceiling in a window that ends with it, and the verdict names the first that it breaks.
   */
  lemma ReservedExactlyWhen(all: seq<Send>, s: Send, limits: Limits)
    ensures var v := Decision(all, s.run, s.key, limits, s.at);
            && (v == Reserved <==> !WasCharged(all, s) && Fits(all, s, limits))
            && (v == AlreadyReserved <==> WasCharged(all, s))
            && (v == RunCeiling ==> |Seen(all + [s], Some(s.run), s.at, 86400.0)| > limits.perRun)
            && (v == HourCeiling ==> |Seen(all + [s], None, s.at, 3600.0)| > limits.perHour
                                     && |Seen(all + [s], Some(s.run), s.at, 86400.0)| <= limits.perRun)
            && (v == DayCeiling ==> |Seen(all + [s], None, s.at, 86400.0)| > limits.perDay
                                    && |Seen(all + [s], None, s.at, 3600.0)| <= limits.perHour)
  {
    OneMoreSeen(all, s, Some(s.run), DAY);
    OneMoreSeen(all, s, None, HOUR);
    OneMoreSeen(all, s, None, DAY);
  }

  lemma OneMoreSeen(all: seq<Send>, s: Send, run: Option<string>, length: real)
    requires Concerns(s, run) && length > 0.0
    ensures |Seen(all + [s], run, s.at, length)| == Count(all, run, s.at, length) + 1
  {
    CountIsSize(all + [s], run, s.at, length);
    CountSnoc(all, s, run, s.at, length);
  }

  lemma ChargedOnceMore(all: seq<Send>, s: Send)
    requires ChargedOnce(all) && !HasKey(all, s.run, s.key, s.at)
    ensures ChargedOnce(all + [s])
  {
    forall i | 0 <= i < |all| && all[i].run == s.run && all[i].key == s.key && s.key.Some? && s.key.value != ""
      ensures s.at - all[i].at >= DAY
    {
      assert all[i] in all;
    }
  }

  /** A history in which every reservation was allowed by everything before it, none earlier than the last. */
  ghost predicate Allowed(all: seq<Send>, limits: Limits) {
    all == [] ||
    var front, s := all[..|all| - 1], all[|all| - 1];
    && Allowed(front, limits) && (forall t | t in front :: t.at <= s.at)
    && Decision(front, s.run, s.key, limits, s.at) == Reserved
  }

  /** In such a history every ceiling holds in every window, and every key is charged once a day. */
  lemma {:induction false} EveryWindowIsLimited(all: seq<Send>, limits: Limits)
    requires Allowed(all, limits)
    ensures Ordered(all) && WithinLimits(all, limits) && ChargedOnce(all)
  {
    if all != [] {
      var front, s := all[..|all| - 1], all[|all| - 1];
      EveryWindowIsLimited(front, limits);
      ReservationFits(front, s, limits);
      assert all == front + [s];
    }
  }

  /** The file lists a suffix of an allowed history; what it forgot is a day old. */
  ghost predicate Sound(sends: seq<Send>, all: seq<Send>, forgotten: nat, limits: Limits, clock: real) {
    && forgotten <= |all| && sends == all[forgotten..]
    && Allowed(all, limits) && (forall s | s in all :: s.at <= clock)
    && (forall i | 0 <= i < forgotten :: clock - all[i].at >= DAY)
  }

  lemma TimePasses(sends: seq<Send>, all: seq<Send>, forgotten: nat, limits: Limits, clock: real, now: real)
    requires Sound(sends, all, forgotten, limits, clock) && clock <= now
    ensures Sound(sends, all, forgotten, limits, now)
  {
  }

  /** Pruning then appending an allowed reservation. */
  lemma ReserveKeeps(sends: seq<Send>, all: seq<Send>, forgotten: nat, limits: Limits, entry: Send) returns (k: nat)
    requires Sound(sends, all, forgotten, limits, entry.at)
    requires Decision(all, entry.run, entry.key, limits, entry.at) == Reserved
    ensures Sound(Prune(sends, entry.at) + [entry], all + [entry], k, limits, entry.at)
  {
    EveryWindowIsLimited(all, limits);
    k := ForgetMore(all, forgotten, entry.at);
    assert all[k..] + [entry] == (all + [entry])[k..] && (all + [entry])[..|all|] == all;
  }

  /** The tests on the pruned file come out as they would on the full history. */
  lemma FileDecides(sends: seq<Send>, all: seq<Send>, forgotten: nat, limits: Limits, run: string, key: Option<string>, now: real)
    requires Sound(sends, all, forgotten, limits, now)
    ensures Judged(Prune(sends, now), run, limits, key, now) == Decision(all, run, key, limits, now)
    ensures forall s | s in Prune(sends, now) :: now - s.at < DAY && s.at <= now
  {
    EveryWindowIsLimited(all, limits);
    var k := ForgetMore(all, forgotten, now);
    PrunedAgrees(all, k, run, key, now);
  }

  lemma PrunedAreRecent(sends: seq<Send>, all: seq<Send>, forgotten: nat, limits: Limits, clock: real, now: real)
    requires Sound(sends, all, forgotten, limits, clock) && clock <= now
    ensures forall s | s in Prune(sends, now) :: now - s.at < DAY && s.at <= now
  {
    TimePasses(sends, all, forgotten, limits, clock, now);
    FileDecides(sends, all, forgotten, limits, "", None, now);
  }

  /** Whatever the file decides, the history decides the same and the ledger stays sound. */
  lemma AnyOutcomeKeeps(sends: seq<Send>, all: seq<Send>, forgotten: nat, limits: Limits, clock: real,
                        run: string, key: Option<string>, now: real, verdict: Verdict) returns (forgotten': nat)
    requires Sound(sends, all, forgotten, limits, clock) && clock <= now
    requires verdict == Judged(Prune(sends, now), run, limits, key, now)
    ensures verdict == Decision(all, run, key, limits, now)
    ensures true ==   // an equation, so that the verifier takes the predicate as a whole
            if verdict == Reserved
            then Sound(Prune(sends, now) + [Send(run, now, key)], all + [Send(run, now, key)], forgotten', limits, now)
            else Sound(sends, all, forgotten', limits, now)
  {
    TimePasses(sends, all, forgotten, limits, clock, now);
    FileDecides(sends, all, forgotten, limits, run, key, now);
    forgotten' := forgotten;
    if verdict == Reserved {
      forgotten' := ReserveKeeps(sends, all, forgotten, limits, Send(run, now, key));
    }
  }

  class Ledger {
    var sends: seq<Send>
    ghost var all: seq<Send>   // every reservation ever made
    ghost var forgotten: nat   // how many of them the file no longer lists
    ghost var limits: Limits
    ghost var clock: real

    ghost predicate Valid() reads this { Sound(sends, all, forgotten, limits, clock) }

    constructor (ghost limits: Limits, ghost now: real)
      ensures Valid() && all == [] && this.limits == limits && clock == now
    {
      sends, all, forgotten, this.limits, clock := [], [], 0, limits, now;
    }

    /**
     The clock never runs backwards. The pruned file decides exactly as the full history would, and
     only a reservation is recorded.
     */
    method CheckAndReserve(run: string, perRun: int, perHour: int, perDay: int, key: Option<string>, now: real)
      returns (verdict: Verdict)
      requires Valid() && clock <= now && limits == Limits(perRun, perHour, perDay)
      modifies this
      ensures Valid() == true   // likewise
      ensures clock == now && limits == old(limits)
      ensures verdict == Decision(old(all), run, key, limits, now)
      ensures all == if verdict == Reserved then old(all) + [Send(run, now, key)] else old(all)
    {
      PrunedAreRecent(sends, all, forgotten, limits, clock, now);
      var recent := Prune(sends, now);
      verdict := Judge(recent, run, perRun, perHour, perDay, key, now);
      forgotten := AnyOutcomeKeeps(sends, all, forgotten, limits, clock, run, key, now, verdict);
      clock := now;
      if verdict == Reserved {
        var entry := Send(run, now, key);
        sends, all := recent + [entry], all + [entry];
      }
    }
  }
}
