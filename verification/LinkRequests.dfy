/** The engine's requests as steps of the link protocol: whatever a start or a request does to pending links, stored
    runs and tokens, a sequence of the protocol's steps does. */
module LinkRequests {
  import opened Json
  import opened FlowGraph
  import opened FlowRun
  import opened FlowState
  import opened FlowActions
  import opened FlowCodes
  import opened FlowPasskeys
  import opened FlowSso
  import opened FlowPerform
  import opened FlowPath
  import opened LinkProtocol
  import FlowRequests
  import FlowStore
  import TokenStore
  import WebAuthnStore

  // -------------------------------------------- what actions do to links and tokens

  /** Neither tokens nor the pending link changed. */
  ghost predicate LinksStay(a: Snapshot, b: Snapshot) {
    b.stores.tokens == a.stores.tokens && MagicLink(b.view.ctx) == MagicLink(a.view.ctx)
  }

  ghost predicate LinkGoesOut(a: Snapshot, b: Snapshot, masked: string, link: Link, now: nat) {
    && CtxOk(a.view.ctx) && b.view.ctx == LinkNoted(a.view.ctx, masked, link)
    && b.stores.tokens
       == TokenStore.Inserted(a.stores.tokens, link.token, TokenStore.TokenEntry(link.user, TokenStore.Magic, now))
  }

  /** A link is sent, a pending link accepted, another token consumed, or neither touched. */
  ghost predicate TokenStep(action: Action, input: Json, a: Snapshot, b: Snapshot) {
    match action
    case AskLink(_) => LinksStay(a, b) || exists masked, link, now :: LinkGoesOut(a, b, masked, link, now)
    case CheckLink =>
      var token := Child(input, "token");
      if LinkAccepted(a.view.ctx, a.stores.tokens, token) then
        && CtxOk(a.view.ctx) && MagicLink(b.view.ctx) == MagicLink(LinkVerified(a.view.ctx))
        && b.stores.tokens == TokenStore.Consumed(a.stores.tokens, token.s)
      else LinksStay(a, b)
    case CheckSso =>
      && b.stores.tokens == TokenStore.Consumed(a.stores.tokens, ExchangeCode(input))
      && MagicLink(b.view.ctx) == MagicLink(a.view.ctx)
    case _ => LinksStay(a, b)
  }

  lemma LightStays(a: Snapshot, b: Snapshot, o: Outcome)
    requires RiskTaken(a, b, o)
    ensures LinksStay(a, b)
  {
    var score :| b == a.(view := a.view.(ctx := WithRisk(a.view.ctx, score)));
    assert Child(b.view.ctx, "pending") == Child(a.view.ctx, "pending");
  }

  lemma PasswordStays(scope: Scope, task: Task, a: Snapshot, b: Snapshot, o: Outcome)
    requires PasswordTried(scope, task, a, b, o)
    ensures LinksStay(a, b)
  {
    hide Opens, Refusal;
  }

  lemma ResetStays(scope: Scope, a: Snapshot, b: Snapshot, o: Outcome)
    requires PasswordReset(scope, a, b, o)
    ensures LinksStay(a, b)
  {
    hide PasswordSaved;
  }

  lemma AccountStays(scope: Scope, task: Task, a: Snapshot, b: Snapshot, o: Outcome)
    requires PropertiesUpdated(scope, task, a, b, o) || PasswordChanged(scope, a, b, o) || LoginDone(scope, a, b, o)
    ensures LinksStay(a, b)
  {
    hide PasswordSaved, PropertiesStored, LoginOf, LoginStamped;
  }

  lemma CodeStays(scope: Scope, task: Task, channel: Channel, maySignUp: bool, a: Snapshot, b: Snapshot, o: Outcome)
    requires CodeSent(scope, task, channel, maySignUp, a, b, o) || CodeChecked(scope, channel, a, b, o)
    ensures LinksStay(a, b)
  {
    hide CodeGoesTo, OneCode, Address, CodeRefusal, TakenFor;
  }

  lemma CeremonyStays(scope: Scope, task: Task, ceremony: WebAuthnStore.Ceremony, a: Snapshot, b: Snapshot, o: Outcome)
    requires PasskeyAsked(scope, task, ceremony, a, b, o)
    ensures LinksStay(a, b)
  {
    hide OwnerFound, CeremonyFor, CeremonyOptions, AsksBrowser;
    var owner, finish :| OwnerFound(scope, task, ceremony, a.stores, a.view.ctx, owner, finish)
      && AskedFor(scope, owner, finish, ceremony, a, b, o);
  }

  lemma BackStays(scope: Scope, ceremony: WebAuthnStore.Ceremony, input: Json, a: Snapshot, b: Snapshot, o: Outcome)
    requires PasskeyChecked(scope, ceremony, input, a, b, o)
    ensures LinksStay(a, b)
  {
    hide PasskeyAccepted, PasskeysAfter, PasskeyAccount, NamesOpen, FinishedUser, BackRefusal;
  }

  lemma WentOutStep(scope: Scope, task: Task, updateUser: bool, a: Snapshot, b: Snapshot, o: Outcome)
    requires LinkWentOut(scope, task, updateUser, a, b, o)
    ensures LinksStay(a, b) || exists masked, link, now :: LinkGoesOut(a, b, masked, link, now)
  {
    hide LinkFor, Address;
    var target :| LinkFor(scope.host, a.stores.users, a.view.ctx, updateUser, target)
        && LinkSentTo(scope, task, a, b, target, o);
    if target.Some? {
      var token :| LinkNotedFor(scope, a, b, Link(token, target.value));
      var link := Link(token, target.value);
      var masked := scope.host.maskEmail(Address(scope.host, a.stores.users, a.view.ctx, Email, link.user));
      assert LinkGoesOut(a, b, masked, link, scope.moment.now);
    }
  }

  lemma CheckedStep(scope: Scope, input: Json, a: Snapshot, b: Snapshot, o: Outcome)
    requires LinkChecked(scope, input, a, b, o)
    ensures TokenStep(CheckLink, input, a, b)
  {
    hide VerifiedIn;
  }

  lemma ExchangedStep(input: Json, a: Snapshot, b: Snapshot, o: Outcome)
    requires SsoChecked(input, a, b, o)
    ensures TokenStep(CheckSso, input, a, b)
  {
  }

  lemma ActionTokens(scope: Scope, task: Task, action: Action, input: Json, a: Snapshot, b: Snapshot, o: Outcome)
    requires Ran(scope, task, action, input, a, b, o)
    ensures TokenStep(action, input, a, b)
  {
    hide LinksStay, LinkGoesOut, ActionOk, RiskTaken, PropertiesUpdated, PasswordTried, PasswordReset, PasswordChanged,
         CodeSent, CodeChecked, LinkWentOut, LinkChecked, PasskeyAsked, PasskeyChecked, SsoAsked, SsoChecked, LoginDone,
         UnknownAction;
    match action {
      case AssessRisk => LightStays(a, b, o);
      case UpdateProperties => AccountStays(scope, task, a, b, o);
      case TryPassword => PasswordStays(scope, task, a, b, o);
      case ReplacePassword => ResetStays(scope, a, b, o);
      case ChangePassword => AccountStays(scope, task, a, b, o);
      case AskCode(channel, maySignUp) => CodeStays(scope, task, channel, maySignUp, a, b, o);
      case CheckCode(channel) => CodeStays(scope, task, channel, false, a, b, o);
      case AskLink(updateUser) => WentOutStep(scope, task, updateUser, a, b, o);
      case CheckLink => CheckedStep(scope, input, a, b, o);
      case AskPasskey(ceremony) => CeremonyStays(scope, task, ceremony, a, b, o);
      case CheckPasskey(ceremony) => BackStays(scope, ceremony, input, a, b, o);
      case AskSso => AskedStays(scope, task, a, b, o);
      case CheckSso => ExchangedStep(input, a, b, o);
      case Scriptlet => Unmoved(a);
      case EndSignedIn => AccountStays(scope, task, a, b, o);
      case NotRun => Unmoved(a);
    }
  }

  lemma Unmoved(a: Snapshot)
    ensures LinksStay(a, a)
  {
  }

  lemma AskedStays(scope: Scope, task: Task, a: Snapshot, b: Snapshot, o: Outcome)
    requires SsoAsked(scope, task, a, b, o)
    ensures LinksStay(a, b)
  {
    hide SentAway, ProviderUrl, ExchangeStep;
  }

  // ------------------------------------------------ steps of one task

  /** The steps of request `req`, and what any request may do. */
  predicate OwnStep(s: Step, req: nat) {
    match s
    case Begin(r, _, _) => r == req
    case Load(r, _) => r == req
    case Work(r, _) => r == req
    case Send(r, _, _, _) => r == req
    case Verify(r, _) => r == req
    case Save(r) => r == req
    case Sweep(_) => true
    case OtherConsume(_) => true
    case _ => false
  }

  ghost predicate OwnSteps(steps: seq<Step>, req: nat) {
    forall i | 0 <= i < |steps| :: OwnStep(steps[i], req)
  }

  /** The steps lead to a world where the copy of `req` stands at `ctx` and the store at `tokens`, and no run was
      stored. */
  ghost predicate CopyAt(w: World, steps: seq<Step>, req: nat, ctx: Json, tokens: TokenStore.Tokens) {
    && req in w.requests && OwnSteps(steps, req)
    && var end := Exec(w, steps);
    end.tokens == tokens && end.stored == w.stored && end.requests == w.requests[req := w.requests[req].(ctx := ctx)]
  }

  lemma ExecOne(w: World, s: Step)
    ensures Exec(w, [s]) == After(w, s)
  {
    assert [s][1..] == [];
    assert Exec(After(w, s), []) == After(w, s);
  }

  lemma {:induction false} ExecAppend(w: World, steps: seq<Step>, more: seq<Step>)
    ensures Exec(w, steps + more) == Exec(Exec(w, steps), more)
    decreases |steps|
  {
    hide After;
    if steps == [] {
      assert steps + more == more;
    } else {
      assert (steps + more)[0] == steps[0] && (steps + more)[1..] == steps[1..] + more;
      ExecAppend(After(w, steps[0]), steps[1..], more);
    }
  }

  lemma OwnAppend(steps: seq<Step>, more: seq<Step>, req: nat)
    requires OwnSteps(steps, req) && OwnSteps(more, req)
    ensures OwnSteps(steps + more, req)
  {
    hide OwnStep;
    var all := steps + more;
    forall i | 0 <= i < |all| ensures OwnStep(all[i], req) {
      assert i < |steps| ==> all[i] == steps[i];
      assert i >= |steps| ==> all[i] == more[i - |steps|];
    }
  }

  /** One stretch of steps after another. */
  lemma CopyOn(w: World, steps: seq<Step>, ctx: Json, tokens: TokenStore.Tokens, more: seq<Step>, req: nat, ctx': Json,
               tokens': TokenStore.Tokens)
    requires CopyAt(w, steps, req, ctx, tokens) && CopyAt(Exec(w, steps), more, req, ctx', tokens')
    ensures CopyAt(w, steps + more, req, ctx', tokens')
  {
    hide Exec, After;
    ExecAppend(w, steps, more);
    OwnAppend(steps, more, req);
  }

  lemma WorkOnly(w: World, req: nat, ctx: Json)
    requires req in w.requests && CtxOk(ctx) && MagicLink(ctx) == MagicLink(w.requests[req].ctx)
    ensures CopyAt(w, [Work(req, ctx)], req, ctx, w.tokens)
  {
    ExecOne(w, Work(req, ctx));
  }

  lemma SendOnly(w: World, req: nat, masked: string, link: Link, now: nat)
    requires req in w.requests && CtxOk(w.requests[req].ctx)
    ensures CopyAt(w, [Send(req, masked, link, now)], req, LinkNoted(w.requests[req].ctx, masked, link),
                   TokenStore.Inserted(w.tokens, link.token, TokenStore.TokenEntry(link.user, TokenStore.Magic, now)))
  {
    ExecOne(w, Send(req, masked, link, now));
  }

  lemma VerifyOnly(w: World, req: nat, token: string)
    requires Accepts(w, Verify(req, token)) && CtxOk(w.requests[req].ctx)
    ensures CopyAt(w, [Verify(req, token)], req, LinkVerified(w.requests[req].ctx),
                   TokenStore.Consumed(w.tokens, token))
  {
    ExecOne(w, Verify(req, token));
  }

  lemma ConsumeOnly(w: World, req: nat, token: string)
    requires req in w.requests
    ensures CopyAt(w, [OtherConsume(token)], req, w.requests[req].ctx, TokenStore.Consumed(w.tokens, token))
  {
    ExecOne(w, OtherConsume(token));
  }

  /** A step, and then work that leaves the link as the step left it. */
  lemma ThenWork(w: World, s: Step, req: nat, ctx: Json, tokens: TokenStore.Tokens, ctx': Json)
    requires CopyAt(w, [s], req, ctx, tokens) && CtxOk(ctx') && MagicLink(ctx') == MagicLink(ctx)
    ensures CopyAt(w, [s] + [Work(req, ctx')], req, ctx', tokens)
  {
    hide Exec, After;
    WorkOnly(Exec(w, [s]), req, ctx');
    CopyOn(w, [s], ctx, tokens, [Work(req, ctx')], req, ctx', tokens);
  }

  /** An action is, to links and tokens, a link sent, a link accepted, another consumer's step, or none of these, and
      then work on the copy. */
  lemma ActionTakesSteps(w: World, req: nat, action: Action, input: Json, a: Snapshot, b: Snapshot)
    returns (steps: seq<Step>)
    requires req in w.requests && a.view.ctx == w.requests[req].ctx && a.stores.tokens == w.tokens
    requires CtxOk(b.view.ctx) && TokenStep(action, input, a, b)
    ensures CopyAt(w, steps, req, b.view.ctx, b.stores.tokens)
  {
    hide CopyAt, Exec, After, LinkNoted, LinkVerified, TokenStore.Inserted, TokenStore.Consumed;
    var ctx := b.view.ctx;
    if LinksStay(a, b) {
      steps := [Work(req, ctx)];
      WorkOnly(w, req, ctx);
    } else if action.AskLink? {
      var masked, link, now :| LinkGoesOut(a, b, masked, link, now);
      steps := [Send(req, masked, link, now)];
      SendOnly(w, req, masked, link, now);
    } else if action.CheckLink? {
      var token := Child(input, "token").s;
      steps := [Verify(req, token)] + [Work(req, ctx)];
      VerifyOnly(w, req, token);
      ThenWork(w, Verify(req, token), req, LinkVerified(a.view.ctx), TokenStore.Consumed(w.tokens, token), ctx);
    } else {
      var code := ExchangeCode(input);
      steps := [OtherConsume(code)] + [Work(req, ctx)];
      ConsumeOnly(w, req, code);
      ThenWork(w, OtherConsume(code), req, a.view.ctx, TokenStore.Consumed(w.tokens, code), ctx);
    }
  }

  lemma RanCtxOk(means: Means, a: Snapshot, b: Snapshot, o: Outcome)
    requires ActionOk(means, a, b, o)
    ensures CtxOk(b.view.ctx)
  {
  }

  /** Any task that is not a screen. */
  lemma TaskTakesSteps(scope: Scope, task: Task, input: Json, a: Snapshot, b: Snapshot, o: Outcome, w: World, req: nat)
    returns (steps: seq<Step>)
    requires TaskRun(scope, task, input, a, b, o) && CtxOk(a.view.ctx)
    requires req in w.requests && a.view.ctx == w.requests[req].ctx && a.stores.tokens == w.tokens
    ensures CtxOk(b.view.ctx) && CopyAt(w, steps, req, b.view.ctx, b.stores.tokens)
  {
    hide Contract, ActionOk, CopyAt, TokenStep;
    if task.kind == Automated {
      var action := ActionOf(task.action);
      RanCtxOk(MeansFor(action), a, b, o);
      ActionTokens(scope, task, action, input, a, b, o);
      steps := ActionTakesSteps(w, req, action, input, a, b);
    } else {
      steps := [Work(req, b.view.ctx)];
      WorkOnly(w, req, b.view.ctx);
    }
  }

  // ------------------------------------------------ steps of whole requests

  /** The walk of a request, up to any point of it. */
  lemma {:induction false} PathTakesSteps(scope: Scope, path: Path, a: Snapshot, b: Snapshot, i: nat, w: World,
                                          req: nat)
    returns (steps: seq<Step>)
    requires Joined(scope, path, a, b) && i < |path.trail| && CtxOk(a.view.ctx)
    requires req in w.requests && a.view.ctx == w.requests[req].ctx && a.stores.tokens == w.tokens
    ensures CtxOk(path.trail[i].view.ctx)
    ensures CopyAt(w, steps, req, path.trail[i].view.ctx, path.trail[i].stores.tokens)
    decreases i
  {
    hide TaskRun, After;
    if i == 0 {
      steps := [Work(req, a.view.ctx)];
      WorkOnly(w, req, a.view.ctx);
    } else {
      var before := PathTakesSteps(scope, path, a, b, i - 1, w, req);
      var m, n := path.trail[i - 1], path.trail[i];
      assert Stepped(scope, path, i - 1);
      var more := TaskTakesSteps(scope, scope.def.tasks[path.walk[i - 1]], InputAt(scope.def, path, i - 1), m, n,
                                 path.outcomes[i - 1], Exec(w, before), req);
      CopyOn(w, before, m.view.ctx, m.stores.tokens, more, req, n.view.ctx, n.stores.tokens);
      steps := before + more;
    }
  }

  /** What a request does to its copy: work before the walk, the walk, work after it. */
  lemma TrailTakesSteps(scope: Scope, path: Path, before: RunView, after: RunView, s: Stores, t: Stores, w: World,
                        req: nat)
    returns (steps: seq<Step>)
    requires Trailed(scope, path, before, after, s, t)
    requires req in w.requests && before.ctx == w.requests[req].ctx && s.tokens == w.tokens
    ensures CopyAt(w, steps, req, after.ctx, t.tokens)
  {
    hide Stepped, After, Exec;
    var a, b := path.trail[0], path.trail[|path.trail| - 1];
    var first := [Work(req, a.view.ctx)];
    WorkOnly(w, req, a.view.ctx);
    var walk := PathTakesSteps(scope, path, a, b, |path.trail| - 1, Exec(w, first), req);
    CopyOn(w, first, a.view.ctx, s.tokens, walk, req, b.view.ctx, t.tokens);
    var last := [Work(req, after.ctx)];
    WorkOnly(Exec(w, first + walk), req, after.ctx);
    CopyOn(w, first + walk, b.view.ctx, t.tokens, last, req, after.ctx, t.tokens);
    steps := first + walk + last;
  }

  /** The contexts of the stored runs. */
  function Contexts(runs: map<string, FlowStore.StoredRun>): map<string, Json> {
    map id | id in runs :: runs[id].context
  }

  /** The protocol's world shows the emulator's tokens and stored contexts. */
  ghost predicate Mirrors(w: World, emulator: FlowRequests.World) {
    w.tokens == emulator.stores.tokens && w.stored == Contexts(emulator.runs)
  }

  /** Runs dropped one by one. */
  lemma {:induction false} SweepSteps(w: World, ids: set<string>, req: nat) returns (steps: seq<Step>)
    ensures OwnSteps(steps, req) && Exec(w, steps) == w.(stored := w.stored - ids)
    decreases |ids|
  {
    if ids == {} {
      steps := [];
      assert w.stored - ids == w.stored;
    } else {
      var id :| id in ids;
      var rest := SweepSteps(After(w, Sweep(id)), ids - {id}, req);
      steps := [Sweep(id)] + rest;
      assert steps[1..] == rest;
      assert w.stored - {id} - (ids - {id}) == w.stored - ids;
    }
  }

  lemma SaveOnly(w: World, req: nat)
    requires req in w.requests
    ensures Exec(w, [Save(req)]) ==
            w.(stored := w.stored[w.requests[req].run := w.requests[req].ctx], requests := w.requests - {req})
  {
    ExecOne(w, Save(req));
  }

  /** The end of a request: the expired runs go, and its copy is stored. */
  lemma SaveTakesSteps(w: World, ids: set<string>, req: nat) returns (steps: seq<Step>)
    requires req in w.requests
    ensures OwnSteps(steps, req)
    ensures Exec(w, steps) ==
            w.(stored := (w.stored - ids)[w.requests[req].run := w.requests[req].ctx], requests := w.requests - {req})
  {
    hide Exec, After;
    var sweeps := SweepSteps(w, ids, req);
    SaveOnly(Exec(w, sweeps), req);
    ExecAppend(w, sweeps, [Save(req)]);
    OwnAppend(sweeps, [Save(req)], req);
    steps := sweeps + [Save(req)];
  }

  /** The runs a save finds expired. */
  function ExpiredAt(runs: map<string, FlowStore.StoredRun>, now: nat): set<string> {
    runs.Keys - FlowStore.Unexpired(runs, now).Keys
  }

  lemma SavedContexts(runs: map<string, FlowStore.StoredRun>, flowId: string, id: string, v: RunView, now: nat)
    ensures Contexts(FlowRequests.Saved(runs, flowId, id, v, now))
            == (Contexts(runs) - ExpiredAt(runs, now))[id := v.ctx]
  {
  }

  /** A copy just taken, worked on along the path and stored again. */
  lemma CopyTakesSteps(scope: Scope, path: Path, before: RunView, after: RunView, w: FlowRequests.World,
                       w': FlowRequests.World, lw: World, req: nat)
    returns (steps: seq<Step>)
    requires Trailed(scope, path, before, after, w.stores, w'.stores) && FlowRequests.SavedAs(scope, w, w', after)
    requires Mirrors(lw, w) && req in lw.requests && lw.requests[req] == Copy(scope.id, before.ctx)
    ensures OwnSteps(steps, req) && Mirrors(Exec(lw, steps), w') && Exec(lw, steps).requests == lw.requests - {req}
  {
    hide Trailed, Exec, After;
    var work := TrailTakesSteps(scope, path, before, after, w.stores, w'.stores, lw, req);
    var mid := Exec(lw, work);
    var save := SaveTakesSteps(mid, ExpiredAt(w.runs, scope.moment.now), req);
    ExecAppend(lw, work, save);
    OwnAppend(work, save, req);
    SavedContexts(w.runs, scope.def.id, scope.id, after, scope.moment.now);
    assert mid.requests - {req} == lw.requests - {req};
    steps := work + save;
  }

  /** A request is under way that was not before, with this copy. */
  lemma TakenCopy(w: World, s: Step, copy: Copy, req: nat, steps: seq<Step>, emulator: FlowRequests.World)
    requires req !in w.requests && OwnStep(s, req) && After(w, s) == w.(requests := w.requests[req := copy])
    requires OwnSteps(steps, req) && Mirrors(Exec(After(w, s), steps), emulator)
    requires Exec(After(w, s), steps).requests == After(w, s).requests - {req}
    ensures OwnSteps([s] + steps, req) && Mirrors(Exec(w, [s] + steps), emulator)
            && Exec(w, [s] + steps).requests == w.requests
  {
    hide Mirrors, After;
    ExecOne(w, s);
    ExecAppend(w, [s], steps);
    assert OwnSteps([s], req);
    OwnAppend([s], steps, req);
    assert w.requests[req := copy] - {req} == w.requests;
  }

  /** A whole request is a sequence of the protocol's steps: its copy loaded, worked on, sent and accepted with, and
      stored. */
  lemma RequestTakesSteps(host: Host, moment: Moment, def: FlowDef, request: FlowRequests.Request,
                          w: FlowRequests.World, w': FlowRequests.World, reply: Json, path: Path, lw: World, req: nat)
    returns (steps: seq<Step>)
    requires FlowRequests.Requested(host, moment, def, request, w, w', reply, path) && Mirrors(lw, w)
             && req !in lw.requests
    ensures OwnSteps(steps, req) && Mirrors(Exec(lw, steps), w') && Exec(lw, steps).requests == lw.requests
  {
    hide Trailed, FlowRequests.WorkedFrom, Served, FlowRequests.AnswerOk, FlowRequests.Saved;
    var id := request.executionId;
    match FlowRequests.ViewIn(w, id) {
      case None => steps := [];
      case Some(before) =>
        var scope := Scope(host, moment, def, id);
        var after :| FlowRequests.ServedAs(scope, request, w, w', before, after, reply, path);
        var load := Load(req, id);
        var rest := CopyTakesSteps(scope, path, before, after, w, w', After(lw, load), req);
        TakenCopy(lw, load, Copy(id, before.ctx), req, rest, w');
        steps := [load] + rest;
    }
  }

  /** So is a start: a new copy, worked on and stored. */
  lemma StartTakesSteps(scope: Scope, options: Json, input: Json, interaction: string, first: RunView, after: RunView,
                        w: FlowRequests.World, w': FlowRequests.World, reply: Json, path: Path, lw: World, req: nat)
    returns (steps: seq<Step>)
    requires FlowRequests.Started(scope, options, input, interaction, first, after, w, w', reply, path)
    requires Mirrors(lw, w) && req !in lw.requests
    ensures OwnSteps(steps, req) && Mirrors(Exec(lw, steps), w') && Exec(lw, steps).requests == lw.requests
  {
    hide Trailed, FlowRequests.Went, FlowRequests.Handled, FlowRequests.Saved, FlowRequests.FirstContext;
    var begin, work := Begin(req, scope.id, options), Work(req, first.ctx);
    var begun := After(lw, begin);
    assert CtxOk(first.ctx) && MagicLink(first.ctx) == MagicLink(FlowRequests.FirstContext(options));
    var copied := After(begun, work);
    var rest := CopyTakesSteps(scope, path, first, after, w, w', copied, req);
    TakenCopy(lw, begin, Copy(scope.id, FlowRequests.FirstContext(options)), req, [work] + rest, w');
    steps := [begin] + ([work] + rest);
  }
}
