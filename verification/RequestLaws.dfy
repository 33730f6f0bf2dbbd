/** Where requests go: what the widget sends, and where the run stands, decide where the graph is entered and with
    what. */
module RequestLaws {
  import opened Wrappers
  import opened Json
  import opened FlowGraph
  import opened FlowRun
  import opened FlowState
  import opened FlowCodes
  import opened FlowPath
  import opened FlowPerform
  import opened FlowEngine
  import opened FlowRequests
  import opened TaskNames
  import opened LinkRequests
  import TokenStore

  /** The run as the request found it, with the page it came from noted. */
  ghost predicate CameIn(request: Request, before: RunView, v: RunView) {
    v == before.(ctx := v.ctx) && OriginNoted(before.ctx, request.input, v.ctx)
  }

  /** Back from a link or a provider: the request brings a token or a code, and names an automated task. */
  ghost predicate RoundTrip(def: FlowDef, request: Request) {
    && (Lookup(request.input, ["token"]).Some? || Lookup(request.input, ["exchangeCode"]).Some?)
    && request.stepId in def.tasks && def.tasks[request.stepId].kind == Automated
  }

  /** The walk starts at `first` with this input, on the run as it was. */
  ghost predicate StartsAt(path: Path, first: string, given: Option<Json>, v: RunView) {
    path.walk != [] && path.walk[0] == first && path.given == given && Begins(path, v)
  }

  lemma KeyIff(v: Json, key: string)
    ensures HasKey(v, key) <==> Lookup(v, [key]).Some?
  {
    assert [key][1..] == [];
  }

  lemma RoundTripIff(def: FlowDef, request: Request)
    ensures BackToStep(def, request) <==> RoundTrip(def, request)
  {
    KeyIff(request.input, "token");
    KeyIff(request.input, "exchangeCode");
  }

  /** A round trip goes to the step it names, with all the widget sent and the form as it was. */
  lemma RoundTripEnters(scope: Scope, request: Request, path: Path, before: RunView, after: RunView, reply: Json)
    returns (v: RunView)
    requires WorkedFrom(scope, request, path, before, after, reply)
    requires before.status == Waiting && request.interactionId != "polling" && RoundTrip(scope.def, request)
    ensures CameIn(request, before, v) && StartsAt(path, request.stepId, Some(request.input), v)
    ensures Stops(scope, path, after, reply)
  {
    hide Stops, OriginNoted, RoundTrip, BackToStep;
    RoundTripIff(scope.def, request);
    v :| CameIn(request, before, v) && WorkedOn(scope, request, path, v, after, reply);
  }

  lemma CameInSame(request: Request, before: RunView, v: RunView)
    requires CameIn(request, before, v)
    ensures v.taskId == before.taskId && v.status == before.status && v.history == before.history
  {
  }

  lemma SubmittedFirst(scope: Scope, request: Request, path: Path, v: RunView, after: RunView, reply: Json)
    returns (first: RunView)
    requires v.status == Waiting && request.interactionId != "polling"
             && WorkedOn(scope, request, path, v, after, reply)
    ensures FromForm(scope.def, request, v, first)
    ensures Went(scope, Entrance(scope.def, v.taskId, request), Given(scope.def, v.taskId, request), path, first, after,
                 reply)
  {
    hide FromForm, Went, Entrance, Given, Polled;
    first :| FromForm(scope.def, request, v, first)
             && Went(scope, Entrance(scope.def, v.taskId, request), Given(scope.def, v.taskId, request), path, first,
                     after, reply);
  }

  /** Any other submit from the screen the run waits at lands in the form, and goes on past the screen by the
      interaction, without input. */
  lemma SubmitEnters(scope: Scope, request: Request, path: Path, before: RunView, after: RunView, reply: Json)
    returns (v: RunView, first: RunView, order: seq<Field>)
    requires WorkedFrom(scope, request, path, before, after, reply)
    requires before.status == Waiting && request.interactionId != "polling" && !RoundTrip(scope.def, request)
    requires before.taskId in scope.def.tasks && scope.def.tasks[before.taskId].kind == Screen
    ensures CameIn(request, before, v) && first == v.(ctx := first.ctx)
    ensures (if request.input.Obj? then Lists(order, request.input.fields) else order == [])
    ensures first.ctx == MergeFields(v.ctx, order)
    ensures match Follow(scope.def.tasks[before.taskId], request.interactionId)
            case Some(next) => StartsAt(path, next, None, first)
            case None => path.walk == [] && after == first && ErrorCode(reply) == Str("E102103")
  {
    hide Stops, OriginNoted, RoundTrip, BackToStep, Follow, Lists, MergeFields;
    RoundTripIff(scope.def, request);
    v :| CameIn(request, before, v) && WorkedOn(scope, request, path, v, after, reply);
    CameInSame(request, before, v);
    first := SubmittedFirst(scope, request, path, v, after, reply);
    order :| Submitted(v.ctx, request.input, first.ctx, order);
  }

  /** At any other task the run waits for, the walk goes on there, with all the widget sent and the form as it was. */
  lemma ResumeEnters(scope: Scope, request: Request, path: Path, before: RunView, after: RunView, reply: Json)
    returns (v: RunView)
    requires WorkedFrom(scope, request, path, before, after, reply)
    requires before.status == Waiting && request.interactionId != "polling" && !RoundTrip(scope.def, request)
    requires before.taskId in scope.def.tasks ==> scope.def.tasks[before.taskId].kind != Screen
    ensures CameIn(request, before, v)
    ensures if before.taskId in scope.def.tasks then StartsAt(path, before.taskId, Some(request.input), v)
            else path.walk == [] && after == v && ErrorCode(reply) == Str("E102103")
  {
    hide Stops, OriginNoted, RoundTrip, BackToStep;
    RoundTripIff(scope.def, request);
    v :| CameIn(request, before, v) && WorkedOn(scope, request, path, v, after, reply);
  }

  /** A poll: told to wait until the link was opened, then what the run last answered, and only without an answer the
      walk along the polling rule. */
  lemma PollAnswers(scope: Scope, request: Request, path: Path, before: RunView, after: RunView, reply: Json)
    returns (v: RunView)
    requires WorkedFrom(scope, request, path, before, after, reply) && request.interactionId == "polling"
    ensures CameIn(request, before, v)
    ensures GetPath(v.ctx, ["pending", "magicLink", "verified"]) != Bool(true) ==>
              && path.walk == [] && after == v
              && GetPath(reply, ["status"]) == Str("waiting") && GetPath(reply, ["action"]) == Str("poll")
              && GetPath(reply, ["stepId"]) == Str(v.taskId) && GetPath(reply, ["executionId"]) == Str(scope.id)
    ensures GetPath(v.ctx, ["pending", "magicLink", "verified"]) == Bool(true)
            && GetPath(v.ctx, ["lastEnvelope"]) != Null ==>
              path.walk == [] && after == v && reply == GetPath(v.ctx, ["lastEnvelope"])
    ensures GetPath(v.ctx, ["pending", "magicLink", "verified"]) == Bool(true)
            && GetPath(v.ctx, ["lastEnvelope"]) == Null ==>
              match if v.taskId in scope.def.tasks then Follow(scope.def.tasks[v.taskId], "polling") else None
              case Some(next) => StartsAt(path, next, None, v)
              case None => path.walk == [] && after == v && ErrorCode(reply) == Str("E102103")
  {
    hide Stops, OriginNoted, Follow;
    v :| CameIn(request, before, v) && WorkedOn(scope, request, path, v, after, reply);
    ReadThree(v.ctx, "pending", "magicLink", "verified");
    ReadOne(v.ctx, "lastEnvelope");
    ReadOne(reply, "status");
    ReadOne(reply, "action");
    ReadOne(reply, "stepId");
    ReadOne(reply, "executionId");
  }

  /** A request to a run that has ended is told that there is no next task, and changes nothing. */
  lemma EndedAnswers(scope: Scope, request: Request, path: Path, before: RunView, after: RunView, reply: Json)
    returns (v: RunView)
    requires WorkedFrom(scope, request, path, before, after, reply)
    requires before.status != Waiting && request.interactionId != "polling"
    ensures CameIn(request, before, v) && path.walk == [] && after == v && ErrorCode(reply) == Str("E102103")
  {
    hide OriginNoted;
    v :| CameIn(request, before, v) && WorkedOn(scope, request, path, v, after, reply);
  }

  /** A start goes to the start task; when the widget drew the start screen itself and sends its first submit along, it
      goes past that screen, which is remembered as the one to come back to with an error. */
  lemma StartEnters(scope: Scope, options: Json, input: Json, interaction: string, first: RunView, after: RunView,
                    w: World, w': World, reply: Json, path: Path)
    requires Started(scope, options, input, interaction, first, after, w, w', reply, path)
    ensures interaction == "" || StartScreen(scope.def, scope.def.startTask, 4).None? ==>
              StartsAt(path, scope.def.startTask, None, first)
    ensures interaction != "" && StartScreen(scope.def, scope.def.startTask, 4).Some? ==>
              var screen := StartScreen(scope.def, scope.def.startTask, 4).value;
              first.ctx.Obj?
              && var past := first.(ctx := Obj(first.ctx.fields["screenTask" := Str(screen.id)]));
              match Follow(screen, interaction)
              case Some(next) => StartsAt(path, next, None, past)
              case None => path.walk == [] && after == past && ErrorCode(reply) == Str("E102103")
  {
    hide Stops, Trailed, Handled, SavedAs, FirstFilled, Follow, StartScreen;
  }

  // ------------------------------------------------------- a link, opened

  /** No task on the path from `i` on sends a link. */
  ghost predicate SendsNone(def: FlowDef, path: Path, i: nat) {
    forall j | i <= j < |path.walk| && path.walk[j] in def.tasks ::
      def.tasks[path.walk[j]].action !in {"sign-in-magic-linkv3-email", "sign-in-magic-link-email",
                                          "sign-up-or-in-magic-link-email", "update-user-magic-link-email"}
  }

  /** The link's token is gone from the store, and the link is verified. */
  ghost predicate LinkDone(token: string, ctx: Json, tokens: TokenStore.Tokens) {
    && token !in tokens.entries && GetPath(ctx, ["pending", "magicLink", "verified"]) == Bool(true)
    && GetPath(ctx, ["pending", "magicLink", "token"]) == Str(token)
  }

  /** A step that is the first to act, of a task that verifies links, with the token of the pending link while the store
      holds it. */
  lemma VerifyStep(scope: Scope, path: Path, token: string)
    requires Stepped(scope, path, 0) && path.given.Some? && GetPath(path.given.value, ["token"]) == Str(token)
    requires scope.def.tasks[path.walk[0]].kind == Automated
    requires scope.def.tasks[path.walk[0]].action == "verify-magic-link"
    requires token != "" && GetPath(path.trail[0].view.ctx, ["pending", "magicLink", "token"]) == Str(token)
    requires token in path.trail[0].stores.tokens.entries
    ensures path.outcomes[0] == Interaction("success")
    ensures LinkDone(token, path.trail[1].view.ctx, path.trail[1].stores.tokens)
    ensures var user := path.trail[0].stores.tokens.entries[token].userId;
            GetPath(path.trail[1].view.ctx, ["auth", "userId"])
            == if GetPath(path.trail[0].view.ctx, ["auth", "userId"]).Str?
               then GetPath(path.trail[0].view.ctx, ["auth", "userId"]) else Str(user)
  {
    hide TaskRun;
    var task, a, b, o := scope.def.tasks[path.walk[0]], path.trail[0], path.trail[1], path.outcomes[0];
    assert InputAt(scope.def, path, 0) == path.given.value;
    assert RanAs(scope, task, "verify-magic-link", path.given.value, a, b, o);
    CheckLinkTask(scope, task, "verify-magic-link", path.given.value, a, b, o);
    VerifyRead(scope, path.given.value, a, b, o, token);
  }

  lemma VerifyRead(scope: Scope, input: Json, a: Snapshot, b: Snapshot, o: Outcome, token: string)
    requires LinkChecked(scope, input, a, b, o) && GetPath(input, ["token"]) == Str(token) && token != ""
    requires GetPath(a.view.ctx, ["pending", "magicLink", "token"]) == Str(token) && token in a.stores.tokens.entries
    ensures o == Interaction("success") && LinkDone(token, b.view.ctx, b.stores.tokens)
    ensures GetPath(b.view.ctx, ["auth", "userId"])
            == if GetPath(a.view.ctx, ["auth", "userId"]).Str? then GetPath(a.view.ctx, ["auth", "userId"])
               else Str(a.stores.tokens.entries[token].userId)
  {
    hide VerifiedIn;
    ReadOne(input, "token");
    ReadThree(a.view.ctx, "pending", "magicLink", "token");
    ReadThree(b.view.ctx, "pending", "magicLink", "token");
    ReadThree(b.view.ctx, "pending", "magicLink", "verified");
    ReadTwo(a.view.ctx, "auth", "userId");
    ReadTwo(b.view.ctx, "auth", "userId");
    VerifiedToken(a.view.ctx);
  }

  lemma VerifiedToken(ctx: Json)
    requires CtxOk(ctx) && MagicLink(ctx).Obj?
    ensures Child(MagicLink(LinkVerified(ctx)), "token") == Child(MagicLink(ctx), "token")
    ensures Child(MagicLink(LinkVerified(ctx)), "verified") == Bool(true)
  {
  }

  lemma DoneIff(token: string, ctx: Json, tokens: TokenStore.Tokens)
    ensures LinkDone(token, ctx, tokens)
       <==> && token !in tokens.entries && Child(MagicLink(ctx), "verified") == Bool(true)
            && Child(MagicLink(ctx), "token") == Str(token)
  {
    ReadThree(ctx, "pending", "magicLink", "verified");
    ReadThree(ctx, "pending", "magicLink", "token");
  }

  lemma KeptDone(token: string, action: Action, a: Snapshot, b: Snapshot)
    requires LinkDone(token, a.view.ctx, a.stores.tokens) && !action.AskLink? && TokenStep(action, EMPTY, a, b)
    ensures LinkDone(token, b.view.ctx, b.stores.tokens)
  {
    hide LinkDone, MagicLink;
    DoneIff(token, a.view.ctx, a.stores.tokens);
    DoneIff(token, b.view.ctx, b.stores.tokens);
  }

  /** A later step of another kind leaves a verified link as it is. */
  lemma StepKeepsDone(scope: Scope, path: Path, i: nat, token: string)
    requires Stepped(scope, path, i) && InputAt(scope.def, path, i) == EMPTY && SendsNone(scope.def, path, i)
    requires LinkDone(token, path.trail[i].view.ctx, path.trail[i].stores.tokens)
    ensures LinkDone(token, path.trail[i + 1].view.ctx, path.trail[i + 1].stores.tokens)
  {
    hide LinkDone, Ran, TokenStep, InputAt;
    var task, a, b := scope.def.tasks[path.walk[i]], path.trail[i], path.trail[i + 1];
    if task.kind == Automated {
      SendNames(task.action);
      ActionTokens(scope, task, ActionOf(task.action), EMPTY, a, b, path.outcomes[i]);
      KeptDone(token, ActionOf(task.action), a, b);
    }
  }

  lemma {:induction false} DoneAlong(scope: Scope, path: Path, a: Snapshot, b: Snapshot, token: string, i: nat)
    requires Joined(scope, path, a, b) && 0 < i < |path.trail| && SendsNone(scope.def, path, 1)
    requires path.walk != [] && Acts(scope.def, path.walk[0])
    requires LinkDone(token, path.trail[1].view.ctx, path.trail[1].stores.tokens)
    ensures LinkDone(token, path.trail[i].view.ctx, path.trail[i].stores.tokens)
    decreases i
  {
    hide Stepped, LinkDone;
    if i > 1 {
      DoneAlong(scope, path, a, b, token, i - 1);
      assert InputAt(scope.def, path, i - 1) == EMPTY;
      StepKeepsDone(scope, path, i - 1, token);
    }
  }

  /** The first task of a walk that starts at one that acts did run. */
  lemma FirstRan(scope: Scope, path: Path, before: RunView, after: RunView, s: Stores, t: Stores, reply: Json)
    requires Trailed(scope, path, before, after, s, t) && Stops(scope, path, after, reply) && path.walk != []
    requires Acts(scope.def, path.walk[0])
    ensures |path.trail| > 1 && Stepped(scope, path, 0)
  {
    hide Stepped, Shown, Ends, Enters, Leaves;
  }

  lemma LinkBefore(path: Path, v: RunView, before: RunView, token: string)
    requires Begins(path, v) && Enters(before, path.trail[0].view)
    requires GetPath(before.ctx, ["pending", "magicLink", "token"]) == Str(token)
    ensures GetPath(path.trail[0].view.ctx, ["pending", "magicLink", "token"]) == Str(token)
  {
    ReadThree(before.ctx, "pending", "magicLink", "token");
    ReadThree(path.trail[0].view.ctx, "pending", "magicLink", "token");
  }

  lemma LinkAfter(token: string, v: RunView, after: RunView, tokens: TokenStore.Tokens)
    requires Leaves(v, after) && LinkDone(token, v.ctx, tokens)
    ensures LinkDone(token, after.ctx, tokens)
  {
    hide LinkDone;
    DoneIff(token, v.ctx, tokens);
    DoneIff(token, after.ctx, tokens);
  }

  /** A request back from a link, with the token this run waits for while the store still holds it. */
  ghost predicate OpensLink(def: FlowDef, request: Request, before: RunView, s: Stores, token: string) {
    && before.status == Waiting && request.interactionId != "polling" && token != ""
    && GetPath(request.input, ["token"]) == Str(token) && request.stepId in def.tasks
    && def.tasks[request.stepId].kind == Automated && def.tasks[request.stepId].action == "verify-magic-link"
    && GetPath(before.ctx, ["pending", "magicLink", "token"]) == Str(token) && token in s.tokens.entries
  }

  lemma TokenIsRoundTrip(def: FlowDef, request: Request, before: RunView, s: Stores, token: string)
    requires OpensLink(def, request, before, s, token)
    ensures RoundTrip(def, request)
  {
  }

  /** Such a request consumes the token in its first step, verifies the link, and signs in whom the link was for unless
      somebody is; and so it stays, unless the same walk goes on to send another link. */
  lemma OpenedLinkVerifies(scope: Scope, request: Request, w: World, w': World, before: RunView, after: RunView,
                           reply: Json, path: Path, token: string)
    requires OpensLink(scope.def, request, before, w.stores, token)
    requires ServedAs(scope, request, w, w', before, after, reply, path)
    ensures |path.trail| > 1 && LinkDone(token, path.trail[1].view.ctx, path.trail[1].stores.tokens)
    ensures GetPath(path.trail[1].view.ctx, ["auth", "userId"])
            == if GetPath(path.trail[0].view.ctx, ["auth", "userId"]).Str?
               then GetPath(path.trail[0].view.ctx, ["auth", "userId"]) else Str(w.stores.tokens.entries[token].userId)
    ensures SendsNone(scope.def, path, 1) ==> LinkDone(token, after.ctx, w'.stores.tokens)
  {
    hide Stepped, Stops, Leaves, Enters, LinkDone, SendsNone, Served, AnswerOk, WorkedFrom;
    TokenIsRoundTrip(scope.def, request, before, w.stores, token);
    var v := RoundTripEnters(scope, request, path, before, after, reply);
    FirstRan(scope, path, before, after, w.stores, w'.stores, reply);
    LinkBefore(path, v, before, token);
    VerifyStep(scope, path, token);
    if SendsNone(scope.def, path, 1) {
      var a, b := path.trail[0], path.trail[|path.trail| - 1];
      DoneAlong(scope, path, a, b, token, |path.trail| - 1);
      LinkAfter(token, b.view, after, w'.stores.tokens);
    }
  }
}
