/** Link sign-ins under any interleaving: requests hold copies of their runs, and share nothing but the token store. */
module LinkProtocol {
  import opened Wrappers
  import opened Json
  import opened FlowRun
  import opened FlowState
  import opened FlowCodes
  import FlowRequests
  import TokenStore

  /** A request under way: the run it loaded or began, and its own copy of the context. */
  datatype Copy = Copy(run: string, ctx: Json)

  datatype Sent = Sent(run: string, user: string)

  /** A link accepted by `verify_link`: in which run, the consumed entry's user, and the user of that run's pending
      link. */
  datatype Acceptance = Acceptance(run: string, token: string, user: string, pendingUser: Option<string>)

  /** `issued`, `sent` and `accepted` record what happened. */
  datatype World = World(
    tokens: TokenStore.Tokens, stored: map<string, Json>, requests: map<nat, Copy>,
    issued: seq<string>, sent: map<string, Sent>, accepted: seq<Acceptance>)

  /** The atomic steps; only `Send` and `Verify` touch a pending link, and other users of the token store may step in
      anywhere. */
  datatype Step =
    | Begin(req: nat, run: string, options: Json)
    | Load(req: nat, run: string)
    | Work(req: nat, ctx: Json)
    | Send(req: nat, masked: string, link: Link, now: nat)
    | Verify(req: nat, token: string)
    | Save(req: nat)
    | Drop(req: nat)
    | Sweep(run: string)
    | OtherInsert(token: string, entry: TokenStore.TokenEntry)
    | OtherConsume(token: string)
    | ResetTokens

  const START := World(TokenStore.NO_TOKENS, map[], map[], [], map[], [])

  predicate Accepts(w: World, s: Step) {
    s.Verify? && s.req in w.requests && LinkAccepted(w.requests[s.req].ctx, w.tokens, Str(s.token))
  }

  function WithCopy(w: World, req: nat, ctx: Json): World
    requires req in w.requests
  {
    w.(requests := w.requests[req := w.requests[req].(ctx := ctx)])
  }

  function Sending(w: World, req: nat, masked: string, link: Link, now: nat): World
    requires req in w.requests && CtxOk(w.requests[req].ctx)
  {
    var sent := WithCopy(w, req, LinkNoted(w.requests[req].ctx, masked, link));
    sent.(tokens := TokenStore.Inserted(w.tokens, link.token, TokenStore.TokenEntry(link.user, TokenStore.Magic, now)),
          issued := w.issued + [link.token],
          sent := w.sent[link.token := Sent(w.requests[req].run, link.user)])
  }

  function Accepting(w: World, req: nat, token: string): World
    requires req in w.requests && LinkAccepted(w.requests[req].ctx, w.tokens, Str(token)) && CtxOk(w.requests[req].ctx)
  {
    var c := w.requests[req];
    var pending := PendingLink(c.ctx);
    WithCopy(w, req, LinkVerified(c.ctx)).(
      tokens := TokenStore.Consumed(w.tokens, token),
      accepted := w.accepted + [Acceptance(c.run, token, w.tokens.entries[token].userId,
                                           if pending.Some? then Some(pending.value.user) else None)])
  }

  /** One step; a step that is not possible changes nothing. */
  function After(w: World, s: Step): World {
    match s
    case Begin(req, run, options) => if req in w.requests then w
                                     else w.(requests := w.requests[req := Copy(run,
                                                                                FlowRequests.FirstContext(options))])
    case Load(req, run) => if req in w.requests || run !in w.stored then w
                           else w.(requests := w.requests[req := Copy(run, w.stored[run])])
    case Work(req, ctx) =>
      if req in w.requests && CtxOk(ctx) && MagicLink(ctx) == MagicLink(w.requests[req].ctx) then WithCopy(w, req, ctx)
      else w
    case Send(req, masked, link, now) =>
      if req in w.requests && CtxOk(w.requests[req].ctx) then Sending(w, req, masked, link, now) else w
    case Verify(req, token) =>
      if Accepts(w, s) && CtxOk(w.requests[req].ctx) then Accepting(w, req, token) else w
    case Save(req) => if req in w.requests
                      then w.(stored := w.stored[w.requests[req].run := w.requests[req].ctx],
                              requests := w.requests - {req}) else w
    case Drop(req) => w.(requests := w.requests - {req})
    case Sweep(run) => w.(stored := w.stored - {run})
    case OtherInsert(token, entry) => w.(tokens := TokenStore.Inserted(w.tokens, token, entry),
                                         issued := w.issued + [token])
    case OtherConsume(token) => w.(tokens := TokenStore.Consumed(w.tokens, token))
    case ResetTokens => w.(tokens := TokenStore.NO_TOKENS)
  }

  function Exec(w: World, steps: seq<Step>): World
    decreases |steps|
  {
    if steps == [] then w else Exec(After(w, steps[0]), steps[1..])
  }

  /** Tokens are drawn at random: never one that was issued before. */
  ghost predicate Fresh(w: World, steps: seq<Step>)
    decreases |steps|
  {
    steps == [] || (FreshStep(w, steps[0]) && Fresh(After(w, steps[0]), steps[1..]))
  }

  ghost predicate FreshStep(w: World, s: Step) {
    (s.Send? ==> s.link.token !in w.issued) && (s.OtherInsert? ==> s.token !in w.issued)
  }

  // ------------------------------------------------------------- invariant

  /** A pending link in this context is one this run sent, to the user it was sent for. */
  ghost predicate OwnLink(sent: map<string, Sent>, run: string, ctx: Json) {
    var token := Child(MagicLink(ctx), "token");
    && CtxOk(ctx)
    && (token.Str? ==>
          PendingLink(ctx).Some? && token.s in sent && sent[token.s] == Sent(run, PendingLink(ctx).value.user))
  }

  /** Contexts hold their own run's links, the store holds sent links for the users they were sent for, and what was
      accepted is gone. */
  ghost predicate Inv(w: World) {
    && TokenStore.Good(w.tokens, w.issued)
    && (forall req | req in w.requests :: OwnLink(w.sent, w.requests[req].run, w.requests[req].ctx))
    && (forall run | run in w.stored :: OwnLink(w.sent, run, w.stored[run]))
    && (forall t | t in w.sent :: t in w.issued)
    && (forall t | t in w.sent && t in w.tokens.entries :: w.tokens.entries[t].userId == w.sent[t].user)
    && AcceptedOk(w)
  }

  ghost predicate AcceptedOk(w: World) {
    && (forall i | 0 <= i < |w.accepted| :: OneAccepted(w, w.accepted[i]))
    && (forall i, j | 0 <= i < j < |w.accepted| :: w.accepted[i].token != w.accepted[j].token)
  }

  ghost predicate OneAccepted(w: World, a: Acceptance) {
    && a.token in w.sent && w.sent[a.token] == Sent(a.run, a.user)
    && a.pendingUser == Some(a.user) && a.token !in w.tokens.entries
  }

  lemma StartOk()
    ensures Inv(START)
  {
    TokenStore.EmptyIsGood();
  }

  /** A new token leaves every other link as it was sent. */
  lemma OwnLinkStays(sent: map<string, Sent>, token: string, x: Sent, run: string, ctx: Json)
    requires OwnLink(sent, run, ctx) && token !in sent
    ensures OwnLink(sent[token := x], run, ctx)
  {
  }

  lemma InsertedEntries(s: TokenStore.Tokens, token: string, entry: TokenStore.TokenEntry)
    ensures var entries := TokenStore.Inserted(s, token, entry).entries;
            token in entries && entries[token] == entry
            && forall t | t in entries && t != token :: t in s.entries && entries[t] == s.entries[t]
  {
  }

  /** Tokens come and go without disturbing what was sent and accepted. */
  lemma TokensKeep(w: World, tokens: TokenStore.Tokens, issued: seq<string>)
    requires Inv(w) && TokenStore.Good(tokens, issued)
    requires forall t | t in w.issued :: t in issued
    requires forall t | t in tokens.entries && t in w.sent ::
               t in w.tokens.entries && tokens.entries[t] == w.tokens.entries[t]
    ensures Inv(w.(tokens := tokens, issued := issued))
  {
    AcceptedStay(w, w.(tokens := tokens, issued := issued));
  }

  lemma InsertKeeps(w: World, tokens: TokenStore.Tokens, token: string, entry: TokenStore.TokenEntry)
    requires Inv(w) && token !in w.issued && tokens == TokenStore.Inserted(w.tokens, token, entry)
    ensures Inv(w.(tokens := tokens, issued := w.issued + [token]))
    ensures token in tokens.entries && tokens.entries[token] == entry
  {
    TokenStore.InsertGood(w.tokens, w.issued, token, entry);
    InsertedEntries(w.tokens, token, entry);
    TokensKeep(w, tokens, w.issued + [token]);
  }

  /** What was accepted stays accepted while its entry is record and its token gone. */
  lemma AcceptedStay(w: World, w': World)
    requires AcceptedOk(w) && w'.accepted == w.accepted
    requires forall t | t in w.sent :: t in w'.sent && w'.sent[t] == w.sent[t]
    requires forall t | t in w'.tokens.entries && t !in w.tokens.entries :: t !in w.sent
    ensures AcceptedOk(w')
  {
    forall i | 0 <= i < |w'.accepted| ensures OneAccepted(w', w'.accepted[i]) {
      assert OneAccepted(w, w.accepted[i]);
    }
  }

  lemma OwnIsOk(sent: map<string, Sent>, run: string, ctx: Json)
    requires OwnLink(sent, run, ctx)
    ensures CtxOk(ctx)
  {
  }

  /** Recording a link just issued as sent, and as the pending one of a copy. */
  lemma RecordKeeps(w: World, req: nat, masked: string, link: Link)
    requires Inv(w) && req in w.requests && link.token in w.issued && link.token !in w.sent
    requires link.token in w.tokens.entries ==> w.tokens.entries[link.token].userId == link.user
    requires forall i | 0 <= i < |w.accepted| :: w.accepted[i].token != link.token
    ensures var c := w.requests[req];
            Inv(w.(requests := w.requests[req := c.(ctx := LinkNoted(c.ctx, masked, link))],
                   sent := w.sent[link.token := Sent(c.run, link.user)]))
  {
    hide OwnLink, OneAccepted, TokenStore.Good, LinkNoted;
    var c := w.requests[req];
    OwnIsOk(w.sent, c.run, c.ctx);
    var x := Sent(c.run, link.user);
    var sent := w.sent[link.token := x];
    var w' := w.(requests := w.requests[req := c.(ctx := LinkNoted(c.ctx, masked, link))], sent := sent);
    forall r | r in w'.requests ensures OwnLink(sent, w'.requests[r].run, w'.requests[r].ctx) {
      if r == req {
        NotedIsOwn(w.sent, c.run, c.ctx, masked, link);
      } else {
        OwnLinkStays(w.sent, link.token, x, w.requests[r].run, w.requests[r].ctx);
      }
    }
    forall r | r in w'.stored ensures OwnLink(sent, r, w'.stored[r]) {
      OwnLinkStays(w.sent, link.token, x, r, w.stored[r]);
    }
    AcceptedStay(w, w');
  }

  /** A link just noted is the copy's own. */
  lemma NotedIsOwn(sent: map<string, Sent>, run: string, ctx: Json, masked: string, link: Link)
    requires CtxOk(ctx)
    ensures OwnLink(sent[link.token := Sent(run, link.user)], run, LinkNoted(ctx, masked, link))
  {
  }

  lemma SendKeeps(w: World, req: nat, masked: string, link: Link, now: nat)
    requires Inv(w) && req in w.requests && link.token !in w.issued
    ensures Inv(Sending(w, req, masked, link, now))
  {
    var entry := TokenStore.TokenEntry(link.user, TokenStore.Magic, now);
    var tokens := TokenStore.Inserted(w.tokens, link.token, entry);
    InsertKeeps(w, tokens, link.token, entry);
    var mid := w.(tokens := tokens, issued := w.issued + [link.token]);
    forall i | 0 <= i < |w.accepted| ensures w.accepted[i].token != link.token {
      assert OneAccepted(w, w.accepted[i]);
    }
    RecordKeeps(mid, req, masked, link);
  }

  lemma ConsumeKeeps(w: World, token: string)
    requires Inv(w)
    ensures Inv(w.(tokens := TokenStore.Consumed(w.tokens, token)))
  {
    TokenStore.StepGood(w.tokens, w.issued, TokenStore.Consume(token));
    TokensKeep(w, TokenStore.Consumed(w.tokens, token), w.issued);
  }

  /** Recording an acceptance of a sent token that is gone now. */
  lemma AcceptKeeps(w: World, req: nat, ctx: Json, a: Acceptance)
    requires Inv(w) && req in w.requests && OwnLink(w.sent, w.requests[req].run, ctx) && OneAccepted(w, a)
    requires forall i | 0 <= i < |w.accepted| :: w.accepted[i].token != a.token
    ensures Inv(WithCopy(w, req, ctx).(accepted := w.accepted + [a]))
  {
    var w' := WithCopy(w, req, ctx).(accepted := w.accepted + [a]);
    forall i | 0 <= i < |w'.accepted| ensures OneAccepted(w', w'.accepted[i]) {
      if i < |w.accepted| { assert OneAccepted(w, w.accepted[i]); }
    }
  }

  lemma VerifyKeeps(w: World, req: nat, token: string)
    requires Inv(w) && req in w.requests && LinkAccepted(w.requests[req].ctx, w.tokens, Str(token))
    ensures Inv(Accepting(w, req, token))
  {
    var c := w.requests[req];
    assert OwnLink(w.sent, c.run, c.ctx);
    VerifiedLink(w.sent, c.run, c.ctx);
    ConsumeKeeps(w, token);
    forall i | 0 <= i < |w.accepted| ensures w.accepted[i].token != token {
      assert OneAccepted(w, w.accepted[i]);
    }
    var user := w.tokens.entries[token].userId;
    AcceptKeeps(w.(tokens := TokenStore.Consumed(w.tokens, token)), req, LinkVerified(c.ctx),
                Acceptance(c.run, token, user, Some(user)));
  }

  lemma VerifiedLink(sent: map<string, Sent>, run: string, ctx: Json)
    requires OwnLink(sent, run, ctx) && MagicLink(ctx).Obj?
    ensures OwnLink(sent, run, LinkVerified(ctx)) && PendingLink(LinkVerified(ctx)) == PendingLink(ctx)
  {
  }

  /** A copy whose link is its own run's may come or change. */
  lemma CopySet(w: World, req: nat, copy: Copy)
    requires Inv(w) && OwnLink(w.sent, copy.run, copy.ctx)
    ensures Inv(w.(requests := w.requests[req := copy]))
  {
    hide OwnLink, OneAccepted, TokenStore.Good;
    AcceptedStay(w, w.(requests := w.requests[req := copy]));
  }

  /** A context with the same pending link is as much the run's own. */
  lemma SameLinkOwn(sent: map<string, Sent>, run: string, ctx: Json, ctx': Json)
    requires OwnLink(sent, run, ctx) && CtxOk(ctx') && MagicLink(ctx') == MagicLink(ctx)
    ensures OwnLink(sent, run, ctx')
  {
  }

  /** Loading, saving, dropping and other work on a copy move contexts around but leave links and tokens alone. */
  lemma CopyKeeps(w: World, s: Step)
    requires Inv(w) && (s.Begin? || s.Load? || s.Work?)
    ensures Inv(After(w, s))
  {
    hide OwnLink, CtxOk, TokenStore.Good, AcceptedOk, FlowRequests.FirstContext;
    match s {
      case Begin(req, run, options) =>
        FirstIsOwn(w.sent, run, options);
        CopySet(w, req, Copy(run, FlowRequests.FirstContext(options)));
      case Load(req, run) =>
        if run in w.stored {
          CopySet(w, req, Copy(run, w.stored[run]));
        }
      case Work(req, ctx) =>
        if req in w.requests && CtxOk(ctx) && MagicLink(ctx) == MagicLink(w.requests[req].ctx) {
          SameLinkOwn(w.sent, w.requests[req].run, w.requests[req].ctx, ctx);
          CopySet(w, req, w.requests[req].(ctx := ctx));
        }
    }
  }

  /** A new run has no link yet. */
  lemma FirstIsOwn(sent: map<string, Sent>, run: string, options: Json)
    ensures OwnLink(sent, run, FlowRequests.FirstContext(options))
  {
  }

  lemma SaveKeeps(w: World, s: Step)
    requires Inv(w) && (s.Save? || s.Drop? || s.Sweep?)
    ensures Inv(After(w, s))
  {
    AcceptedStay(w, After(w, s));
  }

  /** Other users of the token store. */
  lemma OthersKeep(w: World, s: Step)
    requires Inv(w) && FreshStep(w, s) && (s.OtherInsert? || s.OtherConsume? || s.ResetTokens?)
    ensures Inv(After(w, s))
  {
    var tokens := After(w, s).tokens;
    if s.OtherInsert? {
      assert After(w, s) == w.(tokens := tokens, issued := w.issued + [s.token]);
      InsertKeeps(w, tokens, s.token, s.entry);
    } else {
      assert After(w, s) == w.(tokens := tokens);
      TokenStore.StepGood(w.tokens, w.issued, if s.OtherConsume? then TokenStore.Consume(s.token)
                                              else TokenStore.ResetAll);
      TokensKeep(w, tokens, w.issued);
    }
  }

  lemma SendStepKeeps(w: World, s: Step)
    requires Inv(w) && FreshStep(w, s) && s.Send?
    ensures Inv(After(w, s))
  {
    if s.req in w.requests && CtxOk(w.requests[s.req].ctx) {
      var w' := Sending(w, s.req, s.masked, s.link, s.now);
      assert After(w, s) == w';
      SendKeeps(w, s.req, s.masked, s.link, s.now);
    }
  }

  lemma VerifyStepKeeps(w: World, s: Step)
    requires Inv(w) && s.Verify?
    ensures Inv(After(w, s))
  {
    if Accepts(w, s) && CtxOk(w.requests[s.req].ctx) {
      var w' := Accepting(w, s.req, s.token);
      assert After(w, s) == w';
      VerifyKeeps(w, s.req, s.token);
    }
  }

  lemma StepKeeps(w: World, s: Step)
    requires Inv(w) && FreshStep(w, s)
    ensures Inv(After(w, s))
  {
    if s.Send? {
      SendStepKeeps(w, s);
    } else if s.Verify? {
      VerifyStepKeeps(w, s);
    } else if s.OtherInsert? || s.OtherConsume? || s.ResetTokens? {
      OthersKeep(w, s);
    } else if s.Begin? || s.Load? || s.Work? {
      CopyKeeps(w, s);
    } else {
      SaveKeeps(w, s);
    }
  }

  lemma {:induction false} EveryRunKeeps(w: World, steps: seq<Step>)
    requires Inv(w) && Fresh(w, steps)
    ensures Inv(Exec(w, steps))
    decreases |steps|
  {
    if steps != [] {
      StepKeeps(w, steps[0]);
      EveryRunKeeps(After(w, steps[0]), steps[1..]);
    }
  }

  // -------------------------------------------------------------- theorems

  /** However requests interleave, a link is accepted at most once across all runs, only in the run that sent it, and
      for the user of that run's pending link. */
  lemma AcceptedOnceInItsOwnRun(steps: seq<Step>)
    requires Fresh(START, steps)
    ensures var end := Exec(START, steps);
            && (forall i, j | 0 <= i < j < |end.accepted| :: end.accepted[i].token != end.accepted[j].token)
            && (forall i | 0 <= i < |end.accepted| ::
                  var a := end.accepted[i];
                  a.token in end.sent && end.sent[a.token] == Sent(a.run, a.user) && a.pendingUser == Some(a.user))
  {
    StartOk();
    EveryRunKeeps(START, steps);
    var end := Exec(START, steps);
    forall i | 0 <= i < |end.accepted|
      ensures end.accepted[i].token in end.sent
      ensures end.sent[end.accepted[i].token] == Sent(end.accepted[i].run, end.accepted[i].user)
      ensures end.accepted[i].pendingUser == Some(end.accepted[i].user)
    {
      assert OneAccepted(end, end.accepted[i]);
    }
  }

  // ------------------------------------------------------------- liveness

  predicate Issues(s: Step) {
    s.Send? || s.OtherInsert?
  }

  function IssuesIn(steps: seq<Step>): nat {
    if steps == [] then 0 else (if Issues(steps[0]) then 1 else 0) + IssuesIn(steps[1..])
  }

  /** Nobody presents or consumes the token, and the store is not cleared. */
  predicate LeavesAlone(s: Step, token: string) {
    !(s.Verify? && s.token == token) && !(s.OtherConsume? && s.token == token) && !s.ResetTokens?
  }

  /** What a step does to the token store. */
  function TokenOp(w: World, s: Step): Option<TokenStore.Op> {
    match s
    case Send(req, masked, link, now) =>
      if req in w.requests && CtxOk(w.requests[req].ctx)
      then Some(TokenStore.Insert(link.token, TokenStore.TokenEntry(link.user, TokenStore.Magic, now))) else None
    case Verify(req, token) => if Accepts(w, s) && CtxOk(w.requests[req].ctx) then Some(TokenStore.Consume(token))
                               else None
    case OtherInsert(token, entry) => Some(TokenStore.Insert(token, entry))
    case OtherConsume(token) => Some(TokenStore.Consume(token))
    case ResetTokens => Some(TokenStore.ResetAll)
    case _ => None
  }

  lemma TokensFollow(w: World, s: Step)
    ensures After(w, s).tokens == if TokenOp(w, s).Some? then TokenStore.Step(w.tokens, TokenOp(w, s).value)
                                  else w.tokens
  {
  }

  lemma StepStaysLive(w: World, token: string, entry: TokenStore.TokenEntry, n: nat, s: Step) returns (m: nat)
    requires Inv(w) && FreshStep(w, s) && TokenStore.Waits(w.tokens, token, entry, n) && LeavesAlone(s, token)
    requires n + IssuesIn([s]) < TokenStore.TOKEN_STORE_MAX
    ensures TokenStore.Waits(After(w, s).tokens, token, entry, m) && m <= n + IssuesIn([s])
  {
    TokensFollow(w, s);
    assert IssuesIn([s]) == if Issues(s) then 1 else 0;
    m := n;
    if TokenOp(w, s).Some? {
      m := TokenStore.StepWaits(w.tokens, w.issued, token, entry, n, TokenOp(w, s).value);
    }
  }

  lemma {:induction false} LinkStaysLive(w: World, token: string, entry: TokenStore.TokenEntry, n: nat,
                                         steps: seq<Step>)
    requires Inv(w) && Fresh(w, steps) && TokenStore.Waits(w.tokens, token, entry, n)
    requires (forall i | 0 <= i < |steps| :: LeavesAlone(steps[i], token))
             && n + IssuesIn(steps) < TokenStore.TOKEN_STORE_MAX
    ensures token in Exec(w, steps).tokens.entries && Exec(w, steps).tokens.entries[token] == entry
    decreases |steps|
  {
    if steps != [] {
      assert IssuesIn([steps[0]]) == if Issues(steps[0]) then 1 else 0;
      assert LeavesAlone(steps[0], token);
      StepKeeps(w, steps[0]);
      var m := StepStaysLive(w, token, entry, n, steps[0]);
      LinkStaysLive(After(w, steps[0]), token, entry, m, steps[1..]);
    }
  }

  /** A link just sent is accepted from whatever copy of its run presents it first, while fewer tokens than the cap were
      issued since. */
  lemma SentLinkIsAccepted(w: World, req: nat, masked: string, link: Link, now: nat, later: seq<Step>, presenter: nat)
    requires Inv(w) && req in w.requests && link.token !in w.issued && link.token != ""
    requires Fresh(Sending(w, req, masked, link, now), later)
    requires (forall i | 0 <= i < |later| :: LeavesAlone(later[i], link.token))
             && IssuesIn(later) < TokenStore.TOKEN_STORE_MAX
    requires var end := Exec(Sending(w, req, masked, link, now), later);
             presenter in end.requests && PendingLink(end.requests[presenter].ctx) == Some(link)
    ensures var end := Exec(Sending(w, req, masked, link, now), later);
            Accepts(end, Verify(presenter, link.token)) && end.tokens.entries[link.token].userId == link.user
  {
    var entry := TokenStore.TokenEntry(link.user, TokenStore.Magic, now);
    SendKeeps(w, req, masked, link, now);
    TokenStore.JustInsertedWaits(w.tokens, w.issued, link.token, entry);
    LinkStaysLive(Sending(w, req, masked, link, now), link.token, entry, 0, later);
  }
}
