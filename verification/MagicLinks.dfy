/**
 One-time sign-in links and their rate limit (cloud/magic_links.py), in memory and in Firestore.
 Hashes and signatures are injective: a link is stored under its token, and `genuine` says that the
 token has the right shape and carries Rally's own signature.
 */
module MagicLinks {
  import opened Common

  type Time = real

  const LINK_TTL_SECONDS: real := 600.0
  const RATE_WINDOW_SECONDS: nat := 900
  const EMAIL_RATE_LIMIT: nat := 5
  const GLOBAL_RATE_LIMIT: nat := 10000

  datatype Identity = Identity(uid: string, email: string, name: Option<string>)

  datatype Nonce = OfDelivery(id: string) | Random(n: nat)

  datatype Token = Token(nonce: Nonce, expires: int, email: string, workspace: string, genuine: bool)

  datatype Link = Link(identity: Identity, workspace: string, expiresAt: Time, activeAt: Option<Time>,
                       disabledAt: Option<Time>, consumedAt: Option<Time>)

  type Links = map<Token, Link>

  datatype Op =
    | Issue(identity: Identity, workspace: string, deliveryId: Option<string>, expiresAt: Option<Time>, random: nat)
    | Activate(token: Token)
    | Consume(token: Token, workspace: string)
    | Invalidate(token: Token)

  datatype Answer = Issued(token: Token) | Failed | Updated | Yields(identity: Identity) | Nothing

  // ---------------------------------------------------------------------------------------
  // Links
  // ---------------------------------------------------------------------------------------

  /** `_new_token`. */
  function NewToken(op: Op, now: Time): Option<(Token, Time)>
    requires op.Issue?
  {
    var expiresAt := if op.expiresAt.Some? then op.expiresAt.value else now + LINK_TTL_SECONDS;
    if expiresAt <= now || expiresAt > now + LINK_TTL_SECONDS then None
    else
      var nonce := if op.deliveryId.Some? && op.deliveryId.value != "" then OfDelivery(op.deliveryId.value) else Random(op.random);
      Some((Token(nonce, expiresAt.Floor, op.identity.email, op.workspace, true), expiresAt))
  }

  /** What both stores ask of a link before they give out its identity. */
  predicate IsUsable(links: Links, token: Token, workspace: string, now: Time) {
    && token.genuine && token.expires > now.Floor && token in links
    && var l := links[token];
       && l.workspace == workspace && l.activeAt.Some? && l.disabledAt == None && l.consumedAt == None
       && l.expiresAt > now && token.email == l.identity.email && token.workspace == workspace
  }

  predicate IsComplete(i: Identity) { i.uid != "" && i.email != "" }

  function MemStep(links: Links, op: Op, now: Time): (Links, Answer) {
    match op
    case Issue(identity, workspace, _, _, _) =>
      (match NewToken(op, now)
       case None => (links, Failed)
       case Some((token, expiresAt)) =>
         (if token in links then links else links[token := Link(identity, workspace, expiresAt, None, None, None)],
          Issued(token)))
    case Activate(token) =>
      if token !in links || links[token].consumedAt.Some? then (links, Failed)
      else (links[token := links[token].(activeAt := Some(now), disabledAt := None)], Updated)
    case Consume(token, workspace) =>
      if !IsUsable(links, token, workspace, now) then (links, Nothing)
      else
        (links[token := links[token].(consumedAt := Some(now))],
         if IsComplete(links[token].identity) then Yields(links[token].identity) else Nothing)
    case Invalidate(token) =>
      if token !in links || links[token].consumedAt.Some? then (links, Updated)
      else (links[token := links[token].(activeAt := None, disabledAt := Some(now))], Updated)
  }

  function FireStep(links: Links, op: Op, now: Time): (Links, Answer) {
    match op
    case Issue(identity, workspace, deliveryId, _, _) =>
      (match NewToken(op, now)
       case None => (links, Failed)
       case Some((token, expiresAt)) =>
         if token in links then (links, if deliveryId == None then Failed else Issued(token))
         else (links[token := Link(identity, workspace, expiresAt, None, None, None)], Issued(token)))
    case Activate(token) =>
      if token !in links then (links, Failed)
      else (links[token := links[token].(activeAt := Some(now), disabledAt := None)], Updated)
    case Consume(token, workspace) =>
      if !IsUsable(links, token, workspace, now) || !IsComplete(links[token].identity) then (links, Nothing)
      else (links[token := links[token].(consumedAt := Some(now))], Yields(links[token].identity))
    case Invalidate(token) =>
      if token !in links then (links, Failed)
      else (links[token := links[token].(activeAt := None, disabledAt := Some(now))], Updated)
  }

  datatype Call = Call(op: Op, now: Time)

  datatype Backend = InMemory | Firestore

  function Step(b: Backend, links: Links, c: Call): (Links, Answer) {
    if b.InMemory? then MemStep(links, c.op, c.now) else FireStep(links, c.op, c.now)
  }

  function Answers(b: Backend, links: Links, calls: seq<Call>): (answers: seq<Answer>)
    ensures |answers| == |calls|
    decreases |calls|
  {
    if calls == [] then [] else [Step(b, links, calls[0]).1] + Answers(b, Step(b, links, calls[0]).0, calls[1..])
  }

  /** How many times a token has given out an identity. */
  function Uses(calls: seq<Call>, answers: seq<Answer>, token: Token): nat
    requires |calls| == |answers|
    decreases |calls|
  {
    if calls == [] then 0
    else
      (if calls[0].op.Consume? && calls[0].op.token == token && answers[0].Yields? then 1 else 0)
      + Uses(calls[1..], answers[1..], token)
  }

  predicate IsSpent(links: Links, token: Token) { token in links && links[token].consumedAt.Some? }

  lemma StepSpends(b: Backend, links: Links, c: Call, token: Token)
    ensures IsSpent(links, token) ==> IsSpent(Step(b, links, c).0, token)
    ensures c.op.Consume? && c.op.token == token && Step(b, links, c).1.Yields? ==>
              !IsSpent(links, token) && IsSpent(Step(b, links, c).0, token)
  {
  }

  /** In either store, a token yields at most one identity, and none once it is spent. */
  lemma {:induction false} YieldsOnce(b: Backend, links: Links, calls: seq<Call>, token: Token)
    ensures Uses(calls, Answers(b, links, calls), token) <= if IsSpent(links, token) then 0 else 1
    decreases |calls|
  {
    if calls != [] {
      var links' := Step(b, links, calls[0]).0;
      StepSpends(b, links, calls[0], token);
      YieldsOnce(b, links', calls[1..], token);
      assert Answers(b, links, calls)[1..] == Answers(b, links', calls[1..]);
    }
  }

  /** The stores' records agree until a link is spent; after that only Firestore may still mark it. */
  ghost predicate Represents(m: Links, f: Links) {
    && m.Keys == f.Keys
    && forall t | t in m ::
         if m[t].consumedAt == None then f[t] == m[t]
         else f[t].identity == m[t].identity && (f[t].consumedAt.Some? || !IsComplete(m[t].identity))
  }

  lemma ConsumeRefines(m: Links, f: Links, op: Op, now: Time)
    requires Represents(m, f) && op.Consume?
    ensures Represents(MemStep(m, op, now).0, FireStep(f, op, now).0) && MemStep(m, op, now).1 == FireStep(f, op, now).1
  {
  }

  lemma UpdateRefines(m: Links, f: Links, op: Op, now: Time)
    requires Represents(m, f) && !op.Consume?
    ensures Represents(MemStep(m, op, now).0, FireStep(f, op, now).0)
  {
  }

  lemma StepRefines(m: Links, f: Links, c: Call)
    requires Represents(m, f)
    ensures Represents(Step(InMemory, m, c).0, Step(Firestore, f, c).0)
    ensures c.op.Consume? ==> Step(InMemory, m, c).1 == Step(Firestore, f, c).1
  {
    if c.op.Consume? { ConsumeRefines(m, f, c.op, c.now); } else { UpdateRefines(m, f, c.op, c.now); }
  }

  /** Sign-ins are the same in both stores, whatever is redelivered, activated or invalidated between them. */
  lemma {:induction false} StoresSignInTheSame(m: Links, f: Links, calls: seq<Call>, i: nat)
    requires Represents(m, f) && i < |calls| && calls[i].op.Consume?
    ensures Answers(InMemory, m, calls)[i] == Answers(Firestore, f, calls)[i]
    decreases |calls|
  {
    StepRefines(m, f, calls[0]);
    if i > 0 { StoresSignInTheSame(Step(InMemory, m, calls[0]).0, Step(Firestore, f, calls[0]).0, calls[1..], i - 1); }
  }

  /** Redeliveries without a delivery id, activations of spent links and unknown links to invalidate. */
  predicate Disagreement(m: Links, op: Op, now: Time) {
    match op
    case Issue(_, _, deliveryId, _, _) => deliveryId == None && NewToken(op, now).Some? && NewToken(op, now).value.0 in m
    case Activate(token) => IsSpent(m, token)
    case Consume(_, _) => false
    case Invalidate(token) => token !in m
  }

  /** The two stores answer differently exactly there. */
  lemma AnswersDifferWhen(m: Links, f: Links, op: Op, now: Time)
    requires Represents(m, f)
    ensures MemStep(m, op, now).1 != FireStep(f, op, now).1 <==> Disagreement(m, op, now)
  {
    if op.Consume? { ConsumeRefines(m, f, op, now); }
  }

  // ---------------------------------------------------------------------------------------
  // The rate limit
  // ---------------------------------------------------------------------------------------

  /** A counter: of one email address, or of everyone, in one window. */
  datatype Counter = Counter(email: Option<string>, window: int)

  type Rates = map<Counter, nat>

  datatype Attempt = Attempt(email: string, at: Time, allowed: bool)

  function WindowOf(t: Time): int { t.Floor / RATE_WINDOW_SECONDS }

  function Limit(email: Option<string>): nat { if email.Some? then EMAIL_RATE_LIMIT else GLOBAL_RATE_LIMIT }

  function Used(rates: Rates, c: Counter): nat { if c in rates then rates[c] else 0 }

  function Bump(rates: Rates, c: Counter): Rates { rates[c := Used(rates, c) + 1] }

  predicate IsAllowed(rates: Rates, email: string, window: int) {
    && Used(rates, Counter(Some(email), window)) < EMAIL_RATE_LIMIT
    && Used(rates, Counter(None, window)) < GLOBAL_RATE_LIMIT
  }

  /** Both counters go up whether or not the request is allowed. */
  function Counted(rates: Rates, email: string, window: int): Rates {
    Bump(Bump(rates, Counter(Some(email), window)), Counter(None, window))
  }

  predicate Concerns(a: Attempt, email: Option<string>) { email == None || email == Some(a.email) }

  /** Allowed requests of an address, or of everyone, from `from` to `to` inclusive. */
  function Permitted(log: seq<Attempt>, email: Option<string>, from: Time, to: Time): nat {
    if log == [] then 0
    else
      var a := log[|log| - 1];
      Permitted(log[..|log| - 1], email, from, to) + if a.allowed && Concerns(a, email) && from <= a.at <= to then 1 else 0
  }

  function PermittedIn(log: seq<Attempt>, email: Option<string>, window: int): nat {
    if log == [] then 0
    else
      var a := log[|log| - 1];
      PermittedIn(log[..|log| - 1], email, window)
      + if a.allowed && Concerns(a, email) && WindowOf(a.at) == window then 1 else 0
  }

  /** A counter has seen everything it permitted, and it permits no more than its limit. */
  ghost predicate RatesSound(rates: Rates, log: seq<Attempt>) {
    forall email: Option<string>, window: int ::
      PermittedIn(log, email, window) <= Min(Limit(email), Used(rates, Counter(email, window)))
  }

  lemma AttemptKeepsRates(rates: Rates, log: seq<Attempt>, email: string, now: Time)
    requires RatesSound(rates, log)
    ensures RatesSound(Counted(rates, email, WindowOf(now)), log + [Attempt(email, now, IsAllowed(rates, email, WindowOf(now)))])
  {
    var log' := log + [Attempt(email, now, IsAllowed(rates, email, WindowOf(now)))];
    assert log'[..|log|] == log;
    forall e: Option<string>, window: int
      ensures PermittedIn(log', e, window) <= Min(Limit(e), Used(Counted(rates, email, WindowOf(now)), Counter(e, window)))
    {
      assert PermittedIn(log, e, window) <= Min(Limit(e), Used(rates, Counter(e, window)));
    }
  }

  /** An interval no longer than a window meets at most two windows. */
  lemma TwoWindows(from: Time, t: Time)
    requires from <= t <= from + RATE_WINDOW_SECONDS as real
    ensures WindowOf(t) == WindowOf(from) || WindowOf(t) == WindowOf(from) + 1
  {
    assert from.Floor <= t.Floor <= from.Floor + RATE_WINDOW_SECONDS;
  }

  lemma {:induction false} PermittedSplits(log: seq<Attempt>, email: Option<string>, from: Time, to: Time)
    requires to <= from + RATE_WINDOW_SECONDS as real
    ensures Permitted(log, email, from, to)
         <= PermittedIn(log, email, WindowOf(from)) + PermittedIn(log, email, WindowOf(from) + 1)
  {
    if log != [] {
      var a := log[|log| - 1];
      PermittedSplits(log[..|log| - 1], email, from, to);
      if from <= a.at <= to { TwoWindows(from, a.at); }
    }
  }

  /** Any 900 seconds permit at most twice the limit, of one address and of all of them. */
  lemma IntervalIsLimited(rates: Rates, log: seq<Attempt>, email: Option<string>, from: Time, to: Time)
    requires RatesSound(rates, log) && to <= from + 900.0
    ensures Permitted(log, email, from, to) <= if email.Some? then 10 else 20000
  {
    PermittedSplits(log, email, from, to);
  }

  // ---------------------------------------------------------------------------------------
  // When the limit itself holds
  // ---------------------------------------------------------------------------------------

  datatype Request = Request(email: string, at: Time)

  predicate InOrder(requests: seq<Request>) {
    forall i, j | 0 <= i <= j < |requests| :: requests[i].at <= requests[j].at
  }

  /** The counters and the log. */
  datatype Limiter = Limiter(rates: Rates, log: seq<Attempt>)

  /** One call of `reserve_request`. */
  function Serve(m: Limiter, r: Request): Limiter {
    var window := WindowOf(r.at);
    Limiter(Counted(m.rates, r.email, window), m.log + [Attempt(r.email, r.at, IsAllowed(m.rates, r.email, window))])
  }

  /** A sequence of calls on a new store. */
  function Served(requests: seq<Request>): Limiter {
    if requests == [] then Limiter(map[], [])
    else Serve(Served(requests[..|requests| - 1]), requests[|requests| - 1])
  }

  lemma {:induction false} ServedIsSound(requests: seq<Request>)
    ensures RatesSound(Served(requests).rates, Served(requests).log)
  {
    if requests != [] {
      var front, r := requests[..|requests| - 1], requests[|requests| - 1];
      ServedIsSound(front);
      AttemptKeepsRates(Served(front).rates, Served(front).log, r.email, r.at);
    } else {
      assert forall e: Option<string>, w: int :: PermittedIn([], e, w) == 0;
    }
  }

  lemma PermittedSnoc(log: seq<Attempt>, a: Attempt, email: Option<string>, from: Time, to: Time)
    requires a.allowed && Concerns(a, email) && from <= a.at <= to
    ensures Permitted(log + [a], email, from, to) == Permitted(log, email, from, to) + 1
  {
    assert (log + [a])[..|log|] == log;
  }

  /** Nobody has asked in this window yet. */
  ghost predicate IsQuiet(rates: Rates, window: int) {
    forall email: Option<string> :: Used(rates, Counter(email, window)) == 0
  }

  /** The k-th sender of a burst: one address throughout, or a new one each time. */
  function Sender(email: Option<string>, k: nat): string { if email.Some? then email.value else Decimal(k) }

  /** The burst of `email` (or of everyone) at one moment. */
  function Burst(email: Option<string>, at: Time, n: nat): seq<Request> {
    if n == 0 then [] else Burst(email, at, n - 1) + [Request(Sender(email, n - 1), at)]
  }

  lemma {:induction false} BurstTimes(email: Option<string>, at: Time, n: nat)
    ensures |Burst(email, at, n)| == n && forall r | r in Burst(email, at, n) :: r.at == at
  {
    if n > 0 { BurstTimes(email, at, n - 1); }
  }

  /** What a burst in a quiet window has counted so far. */
  ghost predicate BurstCounts(rates: Rates, email: Option<string>, window: int, n: nat) {
    && Used(rates, Counter(None, window)) == n
    && (email.Some? ==> Used(rates, Counter(email, window)) == n)
    && (email == None ==> forall k: nat | k >= n :: Used(rates, Counter(Some(Decimal(k)), window)) == 0)
  }

  lemma CountsOn(rates: Rates, email: Option<string>, window: int, n: nat)
    requires BurstCounts(rates, email, window, n) && n < Limit(email)
    ensures IsAllowed(rates, Sender(email, n), window)
    ensures BurstCounts(Counted(rates, Sender(email, n), window), email, window, n + 1)
  {
    if email == None {
      forall k: nat | k >= n + 1
        ensures Used(Counted(rates, Decimal(n), window), Counter(Some(Decimal(k)), window)) == 0
      {
        DecimalRoundTrip(k);
        DecimalRoundTrip(n);
      }
    }
  }

  /** The burst served from any state. */
  function BurstServed(m: Limiter, email: Option<string>, at: Time, n: nat): Limiter {
    if n == 0 then m else Serve(BurstServed(m, email, at, n - 1), Request(Sender(email, n - 1), at))
  }

  lemma {:induction false} ServedBurst(before: seq<Request>, email: Option<string>, at: Time, n: nat)
    ensures Served(before + Burst(email, at, n)) == BurstServed(Served(before), email, at, n)
    decreases n
  {
    if n == 0 {
      assert before + [] == before;
    } else {
      var shorter, r := Burst(email, at, n - 1), Request(Sender(email, n - 1), at);
      calc {
        Served(before + Burst(email, at, n));
        Served(before + (shorter + [r]));
        { ServedAppend(before, shorter, r); }
        Serve(Served(before + shorter), r);
        { ServedBurst(before, email, at, n - 1); }
        Serve(BurstServed(Served(before), email, at, n - 1), r);
        BurstServed(Served(before), email, at, n);
      }
    }
  }

  lemma ServedAppend(before: seq<Request>, burst: seq<Request>, r: Request)
    ensures Served(before + (burst + [r])) == Serve(Served(before + burst), r)
  {
    assert before + (burst + [r]) == (before + burst) + [r];
    ServedSnoc(before + burst, r);
  }

  lemma ServedSnoc(requests: seq<Request>, r: Request)
    ensures Served(requests + [r]) == Serve(Served(requests), r)
  {
    assert (requests + [r])[..|requests|] == requests;
  }

  lemma BurstStep(m: Limiter, email: Option<string>, at: Time, n: nat, from: Time, to: Time)
    requires BurstCounts(m.rates, email, WindowOf(at), n) && n < Limit(email) && from <= at <= to
    ensures var more := Serve(m, Request(Sender(email, n), at));
            && BurstCounts(more.rates, email, WindowOf(at), n + 1)
            && Permitted(more.log, email, from, to) == Permitted(m.log, email, from, to) + 1
  {
    CountsOn(m.rates, email, WindowOf(at), n);
    PermittedSnoc(m.log, Attempt(Sender(email, n), at, true), email, from, to);
  }

  /** A burst up to the limit is permitted in full. */
  lemma {:induction false} BurstIsPermitted(m: Limiter, email: Option<string>, at: Time, n: nat, from: Time, to: Time)
    requires BurstCounts(m.rates, email, WindowOf(at), 0) && n <= Limit(email) && from <= at <= to
    ensures var more := BurstServed(m, email, at, n);
            && BurstCounts(more.rates, email, WindowOf(at), n)
            && Permitted(more.log, email, from, to) == Permitted(m.log, email, from, to) + n
    decreases n
  {
    if n > 0 {
      var before := BurstServed(m, email, at, n - 1);
      BurstIsPermitted(m, email, at, n - 1, from, to);
      BurstStep(before, email, at, n - 1, from, to);
      assert BurstServed(m, email, at, n) == Serve(before, Request(Sender(email, n - 1), at));
    }
  }

  /** A burst touches no other window. */
  lemma {:induction false} OtherWindowStaysQuiet(requests: seq<Request>, window: int)
    requires forall r | r in requests :: WindowOf(r.at) != window
    ensures IsQuiet(Served(requests).rates, window)
  {
    if requests != [] {
      var front := requests[..|requests| - 1];
      assert forall r | r in front :: r in requests;
      OtherWindowStaysQuiet(front, window);
    }
  }

  /** Two bursts, one at each end of an interval. */
  function TwoBursts(email: Option<string>, from: Time, to: Time): seq<Request> {
    Burst(email, from, Limit(email)) + Burst(email, to, Limit(email))
  }

  lemma TwoBurstsAreInOrder(email: Option<string>, from: Time, to: Time)
    requires from <= to
    ensures InOrder(TwoBursts(email, from, to))
  {
    var n, requests := Limit(email), TwoBursts(email, from, to);
    BurstTimes(email, from, n);
    BurstTimes(email, to, n);
    forall i | 0 <= i < |requests| ensures requests[i].at == if i < n then from else to {
      if i < n { assert requests[i] in Burst(email, from, n); } else { assert requests[i] in Burst(email, to, n); }
    }
  }

  lemma QuietCounts(rates: Rates, email: Option<string>, window: int)
    requires IsQuiet(rates, window)
    ensures BurstCounts(rates, email, window, 0)
  {
  }

  lemma FirstBurst(email: Option<string>, from: Time, to: Time, n: nat)
    requires from <= to && n <= Limit(email)
    ensures Permitted(Served(Burst(email, from, n)).log, email, from, to) == n
  {
    ServedBurst([], email, from, n);
    assert [] + Burst(email, from, n) == Burst(email, from, n);
    OtherWindowStaysQuiet([], WindowOf(from));
    QuietCounts(Served([]).rates, email, WindowOf(from));
    BurstIsPermitted(Served([]), email, from, n, from, to);
  }

  lemma SecondBurst(first: seq<Request>, email: Option<string>, from: Time, to: Time, n: nat)
    requires from <= to && n <= Limit(email) && IsQuiet(Served(first).rates, WindowOf(to))
    ensures Permitted(Served(first + Burst(email, to, n)).log, email, from, to)
         == Permitted(Served(first).log, email, from, to) + n
  {
    ServedBurst(first, email, to, n);
    QuietCounts(Served(first).rates, email, WindowOf(to));
    BurstIsPermitted(Served(first), email, to, n, from, to);
  }

  lemma TwoBurstsArePermitted(email: Option<string>, from: Time, to: Time)
    requires from <= to && WindowOf(from) != WindowOf(to)
    ensures Permitted(Served(TwoBursts(email, from, to)).log, email, from, to) == 2 * Limit(email)
  {
    var n := Limit(email);
    BurstTimes(email, from, n);
    FirstBurst(email, from, to, n);
    OtherWindowStaysQuiet(Burst(email, from, n), WindowOf(to));
    SecondBurst(Burst(email, from, n), email, from, to, n);
  }

  /** Across a window's edge the limit is permitted twice over, by requests in order of time. */
  lemma EdgeDoubles(email: Option<string>, from: Time, to: Time)
    requires from <= to && from.Floor / 900 != to.Floor / 900
    ensures exists requests :: InOrder(requests)
              && Permitted(Served(requests).log, email, from, to) == if email.Some? then 10 else 20000
  {
    TwoBurstsAreInOrder(email, from, to);
    TwoBurstsArePermitted(email, from, to);
  }

  lemma {:induction false} PermittedInOneWindow(log: seq<Attempt>, email: Option<string>, from: Time, to: Time)
    requires from <= to && WindowOf(from) == WindowOf(to)
    ensures Permitted(log, email, from, to) <= PermittedIn(log, email, WindowOf(from))
  {
    if log != [] {
      PermittedInOneWindow(log[..|log| - 1], email, from, to);
      var t := log[|log| - 1].at;
      if from <= t <= to { assert from.Floor <= t.Floor <= to.Floor; }
    }
  }

  /**
   The limit itself, of one address or of all, holds of an interval for every sequence of requests
   exactly when the interval lies within one window.
   */
  lemma LimitHoldsExactlyWhen(email: Option<string>, from: Time, to: Time)
    requires from <= to
    ensures (forall requests | InOrder(requests) ::
               Permitted(Served(requests).log, email, from, to) <= if email.Some? then 5 else 10000)
            <==> from.Floor / 900 == to.Floor / 900
  {
    if WindowOf(from) == WindowOf(to) {
      forall requests | InOrder(requests) ensures Permitted(Served(requests).log, email, from, to) <= Limit(email) {
        ServedIsSound(requests);
        PermittedInOneWindow(Served(requests).log, email, from, to);
      }
    } else {
      EdgeDoubles(email, from, to);
    }
  }

  // ---------------------------------------------------------------------------------------
  // The stores
  // ---------------------------------------------------------------------------------------

  class MemoryMagicLinkStore {
    var links: Links
    var rates: Rates
    ghost var log: seq<Attempt>

    ghost predicate Valid() reads this { RatesSound(rates, log) }

    constructor ()
      ensures Valid() && links == map[] && log == []
    {
      links, rates, log := map[], map[], [];
    }

    method ReserveRequest(email: string, now: Time) returns (allowed: bool)
      requires Valid()
      modifies this
      ensures Valid() && links == old(links)
      ensures allowed == IsAllowed(old(rates), email, WindowOf(now)) && rates == Counted(old(rates), email, WindowOf(now))
      ensures log == old(log) + [Attempt(email, now, allowed)]
    {
      AttemptKeepsRates(rates, log, email, now);
      var window := WindowOf(now);
      var keys := [Counter(Some(email), window), Counter(None, window)];
      allowed := IsAllowed(rates, email, WindowOf(now));
      for i := 0 to |keys|
        invariant allowed == IsAllowed(old(rates), email, WindowOf(now)) && links == old(links) && log == old(log)
        invariant rates == if i == 0 then old(rates) else if i == 1 then Bump(old(rates), keys[0])
                           else Counted(old(rates), email, WindowOf(now))
      {
        rates := Bump(rates, keys[i]);
      }
      log := log + [Attempt(email, now, allowed)];
    }

    method IssueLink(identity: Identity, workspace: string, deliveryId: Option<string>, expiresAt: Option<Time>,
                     random: nat, now: Time) returns (a: Answer)
      modifies this`links
      ensures (links, a) == MemStep(old(links), Issue(identity, workspace, deliveryId, expiresAt, random), now)
    {
      var minted := NewToken(Issue(identity, workspace, deliveryId, expiresAt, random), now);
      if minted == None { return Failed; }
      var (token, expiry) := minted.value;
      if token !in links { links := links[token := Link(identity, workspace, expiry, None, None, None)]; }
      return Issued(token);
    }

    method ActivateLink(token: Token, now: Time) returns (a: Answer)
      modifies this`links
      ensures (links, a) == MemStep(old(links), Activate(token), now)
    {
      if token !in links || links[token].consumedAt.Some? { return Failed; }
      links := links[token := links[token].(activeAt := Some(now), disabledAt := None)];
      return Updated;
    }

    method ConsumeLink(token: Token, workspace: string, now: Time) returns (a: Answer)
      modifies this`links
      ensures (links, a) == MemStep(old(links), Consume(token, workspace), now)
    {
      if !IsUsable(links, token, workspace, now) { return Nothing; }
      links := links[token := links[token].(consumedAt := Some(now))];
      return if IsComplete(links[token].identity) then Yields(links[token].identity) else Nothing;
    }

    method InvalidateLink(token: Token, now: Time) returns (a: Answer)
      modifies this`links
      ensures (links, a) == MemStep(old(links), Invalidate(token), now)
    {
      if token in links && links[token].consumedAt == None {
        links := links[token := links[token].(activeAt := None, disabledAt := Some(now))];
      }
      return Updated;
    }
  }

  /** The Firestore transaction: both counters are read before either is written. */
  method ReserveBoth(rates: Rates, email: string, window: int) returns (allowed: bool, counted: Rates)
    ensures allowed == IsAllowed(rates, email, window) && counted == Counted(rates, email, window)
  {
    var ofEmail, ofAll := Counter(Some(email), window), Counter(None, window);
    var emailCount, allCount := Used(rates, ofEmail), Used(rates, ofAll);
    allowed := emailCount < EMAIL_RATE_LIMIT && allCount < GLOBAL_RATE_LIMIT;
    counted := rates[ofEmail := emailCount + 1][ofAll := allCount + 1];
  }

  class FirestoreMagicLinkStore {
    var links: Links
    var rates: Rates
    ghost var log: seq<Attempt>

    ghost predicate Valid() reads this { RatesSound(rates, log) }

    constructor ()
      ensures Valid() && links == map[] && log == []
    {
      links, rates, log := map[], map[], [];
    }

    method ReserveRequest(email: string, now: Time) returns (allowed: bool)
      requires Valid()
      modifies this
      ensures Valid() && links == old(links)
      ensures allowed == IsAllowed(old(rates), email, WindowOf(now)) && rates == Counted(old(rates), email, WindowOf(now))
      ensures log == old(log) + [Attempt(email, now, allowed)]
    {
      AttemptKeepsRates(rates, log, email, now);
      allowed, rates := ReserveBoth(rates, email, WindowOf(now));
      log := log + [Attempt(email, now, allowed)];
    }

    method IssueLink(identity: Identity, workspace: string, deliveryId: Option<string>, expiresAt: Option<Time>,
                     random: nat, now: Time) returns (a: Answer)
      modifies this`links
      ensures (links, a) == FireStep(old(links), Issue(identity, workspace, deliveryId, expiresAt, random), now)
    {
      var minted := NewToken(Issue(identity, workspace, deliveryId, expiresAt, random), now);
      if minted == None { return Failed; }
      var (token, expiry) := minted.value;
      if token in links { return if deliveryId == None then Failed else Issued(token); }
      links := links[token := Link(identity, workspace, expiry, None, None, None)];
      return Issued(token);
    }

    method ActivateLink(token: Token, now: Time) returns (a: Answer)
      modifies this`links
      ensures (links, a) == FireStep(old(links), Activate(token), now)
    {
      if token !in links { return Failed; }
      links := links[token := links[token].(activeAt := Some(now), disabledAt := None)];
      return Updated;
    }

    method ConsumeLink(token: Token, workspace: string, now: Time) returns (a: Answer)
      modifies this`links
      ensures (links, a) == FireStep(old(links), Consume(token, workspace), now)
    {
      if !IsUsable(links, token, workspace, now) { return Nothing; }
      var identity := links[token].identity;
      if !IsComplete(identity) { return Nothing; }
      links := links[token := links[token].(consumedAt := Some(now))];
      return Yields(identity);
    }

    method InvalidateLink(token: Token, now: Time) returns (a: Answer)
      modifies this`links
      ensures (links, a) == FireStep(old(links), Invalidate(token), now)
    {
      if token !in links { return Failed; }
      links := links[token := links[token].(activeAt := None, disabledAt := Some(now))];
      return Updated;
    }
  }
}
