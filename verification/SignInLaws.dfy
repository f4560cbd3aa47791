/**
 Who a sign-in link lets in, told by the history of its token: what was issued, activated, disabled and
 used, without the times and fields by which the stores keep track of it.
 */
module SignInLaws {
  import opened Common
  import opened MagicLinks

  /** What has happened to a token so far. */
  datatype Story = Unissued | Told(identity: Identity, workspace: string, expiresAt: Time, active: bool, spent: bool)

  /** A link is issued under an expiry in the next ten minutes, or ten minutes from now if none is asked for. */
  predicate MayIssue(expiresAt: Option<Time>, now: Time) {
    match expiresAt case None => true case Some(t) => now < t <= now + 600.0
  }

  function Expiry(expiresAt: Option<Time>, now: Time): Time {
    match expiresAt case None => now + 600.0 case Some(t) => t
  }

  /** The token of an issue: by its delivery, or at random without one. */
  function TokenOf(op: Op, now: Time): Token
    requires op.Issue?
  {
    Token(match op.deliveryId case Some(id) => (if id == "" then Random(op.random) else OfDelivery(id)) case None => Random(op.random),
          Expiry(op.expiresAt, now).Floor, op.identity.email, op.workspace, true)
  }

  lemma NewTokenExactly(op: Op, now: Time)
    requires op.Issue?
    ensures NewToken(op, now)
         == if MayIssue(op.expiresAt, now) then Some((TokenOf(op, now), Expiry(op.expiresAt, now))) else None
  {
  }

  /** The link lets its identity in: active, not used, for this workspace, and more than a second's fraction before its end. */
  predicate LetsIn(story: Story, workspace: string, now: Time) {
    story.Told? && story.active && !story.spent && story.workspace == workspace && now.Floor < story.expiresAt.Floor
  }

  function Tell(story: Story, token: Token, c: Call): Story {
    match c.op
    case Issue(identity, workspace, _, expiresAt, _) =>
      if story.Unissued? && MayIssue(expiresAt, c.now) && TokenOf(c.op, c.now) == token
      then Told(identity, workspace, Expiry(expiresAt, c.now), false, false) else story
    case Activate(t) => if t == token && story.Told? && !story.spent then story.(active := true) else story
    case Invalidate(t) => if t == token && story.Told? && !story.spent then story.(active := false) else story
    case Consume(t, workspace) => if t == token && LetsIn(story, workspace, c.now) then story.(spent := true) else story
  }

  /** The story of a token after a sequence of calls on a new store. */
  function StoryOf(calls: seq<Call>, token: Token): Story {
    if calls == [] then Unissued else Tell(StoryOf(calls[..|calls| - 1], token), token, calls[|calls| - 1])
  }

  function LinksAfter(calls: seq<Call>): Links {
    if calls == [] then map[]
    else MemStep(LinksAfter(calls[..|calls| - 1]), calls[|calls| - 1].op, calls[|calls| - 1].now).0
  }

  /** The stored link is what the story says. */
  ghost predicate Tells(links: Links, token: Token, story: Story) {
    if story.Unissued? then token !in links
    else
      && token in links && token.genuine
      && var l := links[token];
         && l.identity == story.identity && l.workspace == story.workspace && l.expiresAt == story.expiresAt
         && token.email == l.identity.email && token.workspace == l.workspace && token.expires == l.expiresAt.Floor
         && (l.consumedAt.Some? <==> story.spent)
         && (story.active ==> l.activeAt.Some? && l.disabledAt == None)
         && (!story.active ==> l.activeAt == None || l.disabledAt.Some?)
  }

  lemma UsableExactlyWhen(links: Links, token: Token, story: Story, workspace: string, now: Time)
    requires Tells(links, token, story)
    ensures IsUsable(links, token, workspace, now) <==> LetsIn(story, workspace, now)
  {
  }

  lemma IssueTells(links: Links, c: Call, token: Token, story: Story)
    requires Tells(links, token, story) && c.op.Issue?
    ensures Tells(MemStep(links, c.op, c.now).0, token, Tell(story, token, c))
  {
    NewTokenExactly(c.op, c.now);
  }

  lemma ConsumeTells(links: Links, c: Call, token: Token, story: Story)
    requires Tells(links, token, story) && c.op.Consume?
    ensures Tells(MemStep(links, c.op, c.now).0, token, Tell(story, token, c))
  {
    if c.op.token == token { UsableExactlyWhen(links, token, story, c.op.workspace, c.now); }
  }

  lemma StepTells(links: Links, c: Call, token: Token, story: Story)
    requires Tells(links, token, story)
    ensures Tells(MemStep(links, c.op, c.now).0, token, Tell(story, token, c))
  {
    if c.op.Issue? { IssueTells(links, c, token, story); } else if c.op.Consume? { ConsumeTells(links, c, token, story); }
  }

  lemma {:induction false} RunTells(calls: seq<Call>, token: Token)
    ensures Tells(LinksAfter(calls), token, StoryOf(calls, token))
  {
    if calls != [] {
      var front, c := calls[..|calls| - 1], calls[|calls| - 1];
      RunTells(front, token);
      StepTells(LinksAfter(front), c, token, StoryOf(front, token));
    }
  }

  lemma {:induction false} AnswerAt(links: Links, calls: seq<Call>, i: nat)
    requires i < |calls|
    ensures Answers(InMemory, links, calls)[i] == MemStep(LinksFrom(links, calls[..i]), calls[i].op, calls[i].now).1
    decreases i
  {
    if i > 0 {
      assert calls[..i][1..] == calls[1..][..i - 1];
      AnswerAt(Step(InMemory, links, calls[0]).0, calls[1..], i - 1);
    }
  }

  function LinksFrom(links: Links, calls: seq<Call>): Links
    decreases |calls|
  {
    if calls == [] then links else LinksFrom(MemStep(links, calls[0].op, calls[0].now).0, calls[1..])
  }

  lemma {:induction false} FromIsAfter(links: Links, calls: seq<Call>)
    requires calls != []
    ensures LinksFrom(links, calls)
         == MemStep(LinksFrom(links, calls[..|calls| - 1]), calls[|calls| - 1].op, calls[|calls| - 1].now).0
    decreases |calls|
  {
    var n := |calls| - 1;
    if n == 0 {
      assert calls[1..] == [] && calls[..0] == [];
    } else {
      var next := MemStep(links, calls[0].op, calls[0].now).0;
      FromIsAfter(next, calls[1..]);
      assert calls[1..][..n - 1] == calls[..n][1..];
      assert calls[1..][n - 1] == calls[n];
    }
  }

  lemma {:induction false} AfterIsFromNothing(calls: seq<Call>)
    ensures LinksFrom(map[], calls) == LinksAfter(calls)
  {
    if calls != [] {
      FromIsAfter(map[], calls);
      AfterIsFromNothing(calls[..|calls| - 1]);
    }
  }

  /**
   In either store, from new, a sign-in yields an identity if and only if its token was issued for it,
   activated and not disabled since, never used, for this workspace and not yet at its end; a link
   without a complete identity yields nothing.
   */
  lemma SignInExactlyWhen(b: Backend, calls: seq<Call>, i: nat)
    requires i < |calls| && calls[i].op.Consume?
    ensures var story, op := StoryOf(calls[..i], calls[i].op.token), calls[i].op;
            Answers(b, map[], calls)[i]
            == if LetsIn(story, op.workspace, calls[i].now) && story.identity.uid != "" && story.identity.email != ""
               then Yields(story.identity) else Nothing
  {
    var token := calls[i].op.token;
    if b.Firestore? { StoresSignInTheSame(map[], map[], calls, i); }
    AnswerAt(map[], calls, i);
    AfterIsFromNothing(calls[..i]);
    RunTells(calls[..i], token);
    UsableExactlyWhen(LinksAfter(calls[..i]), token, StoryOf(calls[..i], token), calls[i].op.workspace, calls[i].now);
  }

  /** An issue succeeds in the memory store exactly under an expiry it may have, and names its token. */
  lemma IssuedExactlyWhen(links: Links, op: Op, now: Time)
    requires op.Issue?
    ensures MemStep(links, op, now).1 == if MayIssue(op.expiresAt, now) then Issued(TokenOf(op, now)) else Failed
  {
    NewTokenExactly(op, now);
  }
}
