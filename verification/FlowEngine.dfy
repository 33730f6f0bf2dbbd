/** The walk over the task graph: what each task does, where the walk goes next, and what it leaves behind when it
    stops. */
module FlowEngine {
  import opened Wrappers
  import opened Json
  import opened FlowGraph
  import opened FlowRun
  import opened FlowConditions
  import opened FlowState
  import opened FlowContext
  import opened FlowPerform
  import opened FlowPath
  import WebAuthnStore

  /** Task ids equal their keys. */
  ghost predicate IdsMatch(def: FlowDef) {
    forall id | id in def.tasks :: def.tasks[id].id == id
  }

  /** Part way through a walk: still waiting, nothing but the context and the history moved on. */
  ghost predicate Walked(before: RunView, now: RunView) {
    && Ready(now) && Open(now.history) && now.status == Waiting
    && now.taskId == before.taskId && before.history <= now.history
    && LastEnvelope(now.ctx) == LastEnvelope(before.ctx)
  }

  /** What a walk leaves behind, and how its answer says so. */
  ghost predicate Answered(def: FlowDef, before: RunView, after: RunView, env: Json) {
    && RunOk(after) && before.history <= after.history && env.Obj?
    && (after.status != Waiting ==> Ended(after, env) && !IsWaiting(env))
    && (if IsWaiting(env) then IdsMatch(def) ==> Child(env, "stepId") == Str(after.taskId)
        else after.taskId == before.taskId)
    && (if IsWaiting(env) || after.status != Waiting then Verified(after.ctx) ==> LastEnvelope(after.ctx) == env
        else LastEnvelope(after.ctx) == LastEnvelope(before.ctx))
    && (after.status == Completed ==> ErrorCode(env) == Null)
    && (after.status == Failed ==> ErrorCode(env) != Null)
  }

  /** The context once an answer went out: kept for other tabs only if the link was opened. */
  function Remembered(ctx: Json, env: Json): (r: Json)
    requires ctx.Obj?
    ensures OnlyKey(ctx, r, "lastEnvelope") && AuthUser(r) == AuthUser(ctx) && MagicLink(r) == MagicLink(ctx)
    ensures LastEnvelope(r) == if Verified(ctx) then env else LastEnvelope(ctx)
  {
    if Verified(ctx) then With(ctx, "lastEnvelope", env) else ctx
  }

  lemma RememberedReady(v: RunView, env: Json)
    requires Ready(v)
    ensures Ready(v.(ctx := Remembered(v.ctx, env)))
  {
    var r := Remembered(v.ctx, env);
    assert Child(r, "pending") == Child(v.ctx, "pending") && Child(r, "sentTo") == Child(v.ctx, "sentTo");
  }

  /** What a step of the walk came to: still walking, or the user in the context was just logged in. */
  ghost predicate CameTo(before: RunView, v: RunView, o: Outcome) {
    if o.Done? then
      && Ready(v) && before.history <= v.history && v.taskId == before.taskId && LoginLast(v)
      && o.envelope.Obj? && !IsWaiting(o.envelope) && ErrorCode(o.envelope) == Null
    else Walked(before, v) && StillOpen(o)
  }

  lemma ActedCameTo(before: RunView, means: Means, a: Snapshot, b: Snapshot, o: Outcome)
    requires Walked(before, a.view) && ActionOk(means, a, b, o)
    ensures CameTo(before, b.view, o)
  {
  }

  /** The walk stops without an answer to wait on or end with. */
  lemma StrandedOk(def: FlowDef, before: RunView, v: RunView, env: Json)
    requires Walked(before, v) && env.Obj? && !IsWaiting(env)
    ensures Answered(def, before, v, env)
  {
  }

  /** The walk stops at `taskId` with a waiting answer. */
  lemma WaitingOk(def: FlowDef, before: RunView, v: RunView, after: RunView, env: Json)
    requires Walked(before, v) && env.Obj? && IsWaiting(env)
    requires after == v.(taskId := after.taskId, ctx := Remembered(v.ctx, env))
    requires IdsMatch(def) ==> Child(env, "stepId") == Str(after.taskId)
    ensures Answered(def, before, after, env)
  {
    RememberedReady(v, env);
  }

  lemma StepIdMatches(def: FlowDef, taskId: string, env: Json)
    requires taskId in def.tasks && Child(env, "stepId") == Str(def.tasks[taskId].id)
    ensures IdsMatch(def) ==> Child(env, "stepId") == Str(taskId)
  {
  }

  lemma EndedByFailure(v: RunView, open: seq<Event>, env: Json)
    requires env.Obj? && v.status == Failed && Open(open) && v.history == open + [Finished(env)]
    requires Verified(v.ctx) ==> LastEnvelope(v.ctx) == env
    ensures Ended(v, env)
  {
    assert EndsWith(v, open, env);
  }

  lemma EndedByLogin(v: RunView, open: seq<Event>, user: string, at: Stores, env: Json)
    requires env.Obj? && v.status == Completed && Open(open)
             && v.history == open + [LoggedIn(user, at)] + [Finished(env)]
    requires AuthUser(v.ctx) == Some(user) && (Verified(v.ctx) ==> LastEnvelope(v.ctx) == env)
    ensures Ended(v, env)
  {
    assert EndsWith(v, open, env);
  }

  /** A run that ended, its context and history agreeing up to the end, stays good with the envelope kept. */
  lemma FinishedReady(v: RunView, status: FlowStatus, env: Json)
    requires Ready(v) && env.Obj?
    ensures Ready(v.(status := status, ctx := Remembered(v.ctx, env), history := v.history + [Finished(env)]))
  {
    Snoc(v.history, Finished(env));
    RememberedReady(v, env);
  }

  lemma FailedOk(def: FlowDef, before: RunView, v: RunView, after: RunView, env: Json)
    requires Walked(before, v) && env.Obj? && !IsWaiting(env) && ErrorCode(env) != Null
    requires after == v.(status := Failed, ctx := Remembered(v.ctx, env), history := v.history + [Finished(env)])
    ensures Answered(def, before, after, env)
  {
    FinishedReady(v, Failed, env);
    EndedByFailure(after, v.history, env);
  }

  lemma CompletedOk(def: FlowDef, before: RunView, v: RunView, after: RunView, env: Json)
    requires Ready(v) && before.history <= v.history && v.taskId == before.taskId && LoginLast(v)
    requires env.Obj? && !IsWaiting(env) && ErrorCode(env) == Null
    requires after == v.(status := Completed, ctx := Remembered(v.ctx, env), history := v.history + [Finished(env)])
    ensures Answered(def, before, after, env)
  {
    FinishedReady(v, Completed, env);
    var open, user, at :| Open(open) && v.history == open + [LoggedIn(user, at)] && AuthUser(v.ctx) == Some(user);
    EndedByLogin(after, open, user, at, env);
  }

  /** The context a screen is drawn from: a new screen is remembered as the one to come back to with an error. */
  function AtScreen(ctx: Json, taskId: string, error: Option<string>): (r: Json)
    requires ctx.Obj?
    ensures r.Obj?
  {
    if error.None? then With(ctx, "screenTask", Str(taskId)) else ctx
  }

  lemma AtScreenOk(before: RunView, v: RunView, taskId: string, error: Option<string>)
    requires Walked(before, v)
    ensures Walked(before, v.(ctx := AtScreen(v.ctx, taskId, error)))
  {
    var r := AtScreen(v.ctx, taskId, error);
    assert Child(r, "pending") == Child(v.ctx, "pending") && Child(r, "sentTo") == Child(v.ctx, "sentTo");
    assert Child(r, "auth") == Child(v.ctx, "auth") && Child(r, "lastEnvelope") == Child(v.ctx, "lastEnvelope");
  }

  method Remember(run: Run, env: Json)
    requires run.ctx.Obj?
    modifies run`ctx
    ensures run.ctx == Remembered(old(run.ctx), env)
  {
    if Verified(run.ctx) {
      run.ctx := With(run.ctx, "lastEnvelope", env);
    }
  }

  /** Stops at a task with a waiting answer. */
  method WaitAt(def: FlowDef, run: Run, taskId: string, ctx: Json, env: Json, ghost before: RunView)
    requires Walked(before, run.View().(ctx := ctx)) && env.Obj? && IsWaiting(env)
    requires IdsMatch(def) ==> Child(env, "stepId") == Str(taskId)
    modifies run`taskId, run`ctx
    ensures Answered(def, before, run.View(), env)
    ensures run.View() == old(run.View()).(taskId := taskId, ctx := Remembered(ctx, env))
  {
    ghost var v := run.View().(ctx := ctx);
    run.taskId, run.ctx := taskId, ctx;
    Remember(run, env);
    WaitingOk(def, before, v, run.View(), env);
  }

  /** Stops at a screen that was drawn. */
  method StayAtScreen(def: FlowDef, run: Run, taskId: string, error: Option<string>, env: Json, ghost before: RunView)
    requires Walked(before, run.View()) && env.Obj? && IsWaiting(env)
    requires taskId in def.tasks && Child(env, "stepId") == Str(def.tasks[taskId].id)
    modifies run`taskId, run`ctx
    ensures Answered(def, before, run.View(), env) && Leaves(old(run.View()), run.View())
    ensures run.View()
            == old(run.View()).(taskId := taskId, ctx := Remembered(AtScreen(old(run.ctx), taskId, error), env))
  {
    ghost var v := run.View();
    AtScreenOk(before, v, taskId, error);
    StepIdMatches(def, taskId, env);
    WaitAt(def, run, taskId, AtScreen(run.ctx, taskId, error), env, before);
    ScreenLeaves(v, run.View(), taskId, error, env);
  }

  lemma ScreenLeaves(v: RunView, after: RunView, taskId: string, error: Option<string>, env: Json)
    requires Ready(v) && after == v.(taskId := taskId, ctx := Remembered(AtScreen(v.ctx, taskId, error), env))
    ensures Leaves(v, after)
  {
    var drawn := AtScreen(v.ctx, taskId, error);
    assert Child(drawn, "pending") == Child(v.ctx, "pending") && Child(drawn, "sentTo") == Child(v.ctx, "sentTo");
    assert Child(after.ctx, "pending") == Child(drawn, "pending")
           && Child(after.ctx, "sentTo") == Child(drawn, "sentTo");
  }

  lemma RememberedLeaves(v: RunView, after: RunView, env: Json)
    requires CtxOk(v.ctx) && after.ctx == Remembered(v.ctx, env)
    requires after.history == v.history || after.history == v.history + [Finished(env)]
    ensures Leaves(v, after)
  {
    assert Child(after.ctx, "pending") == Child(v.ctx, "pending")
           && Child(after.ctx, "sentTo") == Child(v.ctx, "sentTo");
  }

  /** The run stopped at a screen, drawn from the full context of that moment. */
  ghost predicate Shown(scope: Scope, at: Snapshot, after: RunView, taskId: string, error: Option<string>, env: Json) {
    && taskId in scope.def.tasks && at.view.ctx.Obj?
    && var ctx := AtScreen(at.view.ctx, taskId, error);
    && after == at.view.(taskId := taskId, ctx := Remembered(ctx, env))
    && exists full ::
         IsFullContext(scope, at.stores, ctx, full)
           && env == ScreenFor(scope, scope.def.tasks[taskId], ctx, full, error)
  }

  /** Stops at a screen, new or shown again with an error. */
  method ShowScreen(state: EmulatorState, scope: Scope, run: Run, taskId: string, error: Option<string>,
                    ghost before: RunView)
    returns (env: Json)
    requires taskId in scope.def.tasks && state.users.lower == state.host.lower && scope.host == state.host
    requires Walked(before, run.View())
    modifies run`taskId, run`ctx
    ensures Answered(scope.def, before, run.View(), env) && Leaves(old(run.View()), run.View())
            && ErrorCode(env) == Null
    ensures Shown(scope, old(Snap(state, run)), run.View(), taskId, error, env)
  {
    hide ScreenFor, IsFullContext;
    var drawn, full := ScreenEnvelope(state, scope, AtScreen(run.ctx, taskId, error), scope.def.tasks[taskId], error);
    env := drawn;
    StayAtScreen(scope.def, run, taskId, error, env, before);
  }

  method EndRun(run: Run, status: FlowStatus, env: Json)
    requires run.ctx.Obj?
    modifies run
    ensures run.View() == old(run.View()).(status := status, ctx := Remembered(old(run.ctx), env),
                                           history := old(run.history) + [Finished(env)])
  {
    run.status := status;
    run.history := run.history + [Finished(env)];
    Remember(run, env);
  }

  /** How a walk stops where an outcome other than an interaction says. */
  ghost predicate Settled(scope: Scope, at: Snapshot, after: RunView, o: Outcome, env: Json) {
    match o
    case Interaction(_) => false
    case Done(answer) => env == answer && EndedAs(at.view, after, Completed, env)
    case Fail(code, text) => env == FailedEnvelope(scope.id, code, text) && EndedAs(at.view, after, Failed, env)
    case Wait(answer, step) =>
      env == answer && at.view.ctx.Obj? && after == at.view.(taskId := step, ctx := Remembered(at.view.ctx, env))
    case ScreenError(text) =>
      var screenTask := AsText(scope.host, Child(at.view.ctx, "screenTask"));
      if screenTask in scope.def.tasks then Shown(scope, at, after, screenTask, Some(text), env)
      else after == at.view && env == FailedEnvelope(scope.id, "E102104", text)
  }

  /** The run ended with this answer, kept for other tabs if the link was opened. */
  ghost predicate EndedAs(v: RunView, after: RunView, status: FlowStatus, env: Json) {
    v.ctx.Obj? && after == v.(status := status, ctx := Remembered(v.ctx, env), history := v.history + [Finished(env)])
  }

  method SettleError(state: EmulatorState, scope: Scope, run: Run, text: string, ghost before: RunView)
    returns (env: Json)
    requires state.users.lower == state.host.lower && scope.host == state.host && scope.id == run.id
    requires Walked(before, run.View())
    modifies run
    ensures Answered(scope.def, before, run.View(), env) && Leaves(old(run.View()), run.View())
    ensures Settled(scope, old(Snap(state, run)), run.View(), ScreenError(text), env)
            && ErrorCode(env) != Str("E102105")
  {
    hide Answered, Shown;
    var screenTask := AsText(state.host, Child(run.ctx, "screenTask"));
    if screenTask in scope.def.tasks {
      env := ShowScreen(state, scope, run, screenTask, Some(text), before);
    } else {
      env := FailedEnvelope(run.id, "E102104", text);
      StrandedOk(scope.def, before, run.View(), env);
    }
  }

  /** Stops where an outcome other than an interaction says. */
  method Settle(state: EmulatorState, scope: Scope, run: Run, o: Outcome, ghost before: RunView) returns (env: Json)
    requires state.users.lower == state.host.lower && scope.host == state.host && scope.id == run.id
    requires CameTo(before, run.View(), o) && !o.Interaction?
    modifies run
    ensures Answered(scope.def, before, run.View(), env) && Leaves(old(run.View()), run.View())
    ensures Settled(scope, old(Snap(state, run)), run.View(), o, env) && ErrorCode(env) != Str("E102105")
  {
    hide Shown;
    ghost var v := run.View();
    match o {
      case Wait(envelope, awaitTask) =>
        env := envelope;
        WaitAt(scope.def, run, awaitTask, run.ctx, env, before);
        RememberedLeaves(v, run.View(), env);
      case ScreenError(text) => env := SettleError(state, scope, run, text, before);
      case Done(envelope) =>
        env := envelope;
        EndRun(run, Completed, env);
        CompletedOk(scope.def, before, v, run.View(), env);
        RememberedLeaves(v, run.View(), env);
      case Fail(code, description) =>
        env := FailedEnvelope(run.id, code, description);
        EndRun(run, Failed, env);
        FailedOk(scope.def, before, v, run.View(), env);
        RememberedLeaves(v, run.View(), env);
    }
  }

  /** The way a condition task goes on, read off a full context. */
  method Branch(state: EmulatorState, scope: Scope, ctx: Json, task: Task) returns (name: string, ghost full: Json)
    requires ctx.Obj? && state.users.lower == state.host.lower && scope.host == state.host
    ensures IsFullContext(scope, state.Stores(), ctx, full) && name == BranchOf(state.host, task.cases, full)
  {
    var live := FullContext(state, scope, ctx);
    full := live;
    name := EvaluateCondition(state.host, task.cases, live);
  }

  lemma BranchRan(scope: Scope, task: Task, input: Json, a: Snapshot, name: string, full: Json)
    requires task.kind == Condition && IsFullContext(scope, a.stores, a.view.ctx, full)
    requires name == BranchOf(scope.host, task.cases, full)
    ensures TaskRun(scope, task, input, a, a, Interaction(name))
  {
    hide Ran;
  }

  lemma PassedRan(scope: Scope, task: Task, input: Json, a: Snapshot)
    requires task.kind == OtherKind
    ensures TaskRun(scope, task, input, a, a, Interaction(""))
  {
    hide Ran;
  }

  lemma ActionRan(scope: Scope, task: Task, input: Json, a: Snapshot, b: Snapshot, o: Outcome)
    requires task.kind == Automated && WebAuthnStore.Good(a.stores.passkeys)
    requires Ran(scope, task, ActionOf(task.action), input, a, b, o)
    ensures TaskRun(scope, task, input, a, b, o)
  {
    hide Ran;
  }

  lemma RanCameTo(before: RunView, scope: Scope, task: Task, action: Action, input: Json, a: Snapshot, b: Snapshot,
                  o: Outcome)
    requires Walked(before, a.view)
    requires Ran(scope, task, action, input, a, b, o)
    ensures CameTo(before, b.view, o)
  {
    hide Contract;
    ActedCameTo(before, MeansFor(action), a, b, o);
  }

  /** One task that is not a screen. */
  method Step(state: EmulatorState, scope: Scope, run: Run, task: Task, input: Json, ghost before: RunView)
    returns (o: Outcome)
    requires CanRun(state, scope, run) && Walked(before, run.View()) && task.kind != Screen
    modifies run, state.Frame()
    ensures state.Valid() && CameTo(before, run.View(), o) && (task.kind == OtherKind ==> o == Interaction(""))
    ensures TaskRun(scope, task, input, old(Snap(state, run)), Snap(state, run), o)
  {
    hide TaskRun, Ran;
    ghost var a := Snap(state, run);
    match task.kind {
      case Automated =>
        o := Perform(state, scope, run, task, ActionOf(task.action), input);
        RanCameTo(before, scope, task, ActionOf(task.action), input, a, Snap(state, run), o);
        ActionRan(scope, task, input, a, Snap(state, run), o);
      case Condition =>
        var name, full := Branch(state, scope, run.ctx, task);
        o := Interaction(name);
        BranchRan(scope, task, input, a, name, full);
      case OtherKind =>
        o := Interaction("");
        PassedRan(scope, task, input, a);
    }
  }

  /** A walk as long as the cap was over a graph that is not sound. */
  lemma CapOnlyIfUnsound(def: FlowDef, walk: seq<string>)
    requires Walk(def, walk) && |walk| > MAX_STEPS
    ensures !Sound(def)
  {
    assert Edge(def, walk[0], walk[1]);
    if Sound(def) {
      NoWalkReachesTheCap(def, walk);
    }
  }

  /** How a walk stops at the task that ran last, when its outcome leads nowhere. */
  ghost predicate Ends(scope: Scope, taskId: string, at: Snapshot, after: RunView, o: Outcome, env: Json) {
    if o.Interaction?
    then after == at.view && env == FailedEnvelope(scope.id, "E102103", "Task " + taskId + " has no rule for " + o.name)
    else Settled(scope, at, after, o, env)
  }

  /** How a walk stops where there is no task to run: at a screen, or at a task that is missing. */
  ghost predicate Arrives(scope: Scope, taskId: string, at: Snapshot, after: RunView, env: Json) {
    if taskId in scope.def.tasks
    then scope.def.tasks[taskId].kind == Screen && Shown(scope, at, after, taskId, None, env)
    else after == at.view && env == FailedEnvelope(scope.id, "E102103", "The flow has no task " + taskId)
  }

  /** Leaves a task by the rule its outcome takes, or stops there. */
  method Leave(state: EmulatorState, scope: Scope, run: Run, taskId: string, o: Outcome, ghost before: RunView)
    returns (next: Option<string>, env: Json)
    requires state.users.lower == state.host.lower && scope.host == state.host && scope.id == run.id
    requires taskId in scope.def.tasks && CameTo(before, run.View(), o)
    modifies run
    ensures next == if o.Interaction? then Follow(scope.def.tasks[taskId], o.name) else None
    ensures next.Some? ==> Walked(before, run.View()) && run.View() == old(run.View())
    ensures next.None? ==> Answered(scope.def, before, run.View(), env) && ErrorCode(env) != Str("E102105")
    ensures next.None? ==>
            Leaves(old(run.View()), run.View()) && Ends(scope, taskId, old(Snap(state, run)), run.View(), o, env)
  {
    hide Settled;
    next, env := None, Null;
    if o.Interaction? {
      next := Follow(scope.def.tasks[taskId], o.name);
      if next.None? {
        env := FailedEnvelope(run.id, "E102103", "Task " + taskId + " has no rule for " + o.name);
        StrandedOk(scope.def, before, run.View(), env);
      }
    } else {
      env := Settle(state, scope, run, o, before);
    }
  }

  /** One turn of the walk: the task runs as `o` from the moment before to `b`, and either leads on or stops the
      walk. */
  method Turn(state: EmulatorState, scope: Scope, run: Run, taskId: string, input: Json, ghost before: RunView)
    returns (next: Option<string>, env: Json, ghost b: Snapshot, ghost o: Outcome)
    requires state.Valid() && scope.host == state.host && scope.id == run.id && Walked(before, run.View())
    requires taskId in scope.def.tasks && scope.def.tasks[taskId].kind != Screen
    modifies run, state.Frame()
    ensures state.Valid() && b.stores == state.Stores()
    ensures next == if o.Interaction? then Follow(scope.def.tasks[taskId], o.name) else None
    ensures next.Some? ==> Walked(before, run.View()) && b.view == run.View()
    ensures next.None? ==> Answered(scope.def, before, run.View(), env) && ErrorCode(env) != Str("E102105")
    ensures next.None? ==> Leaves(b.view, run.View()) && Ends(scope, taskId, b, run.View(), o, env)
    ensures scope.def.tasks[taskId].kind == OtherKind ==> o == Interaction("")
    ensures TaskRun(scope, scope.def.tasks[taskId], input, old(Snap(state, run)), b, o)
  {
    hide TaskRun, Answered, Leaves, Ends;
    var came := Step(state, scope, run, scope.def.tasks[taskId], input, before);
    o, b := came, Snap(state, run);
    next, env := Leave(state, scope, run, taskId, came, before);
  }

  /** Stops where there is no task to run. */
  method Arrive(state: EmulatorState, scope: Scope, run: Run, taskId: string, ghost before: RunView) returns (env: Json)
    requires state.users.lower == state.host.lower && scope.host == state.host && scope.id == run.id
    requires Walked(before, run.View())
    requires taskId in scope.def.tasks ==> scope.def.tasks[taskId].kind == Screen
    modifies run`taskId, run`ctx
    ensures Answered(scope.def, before, run.View(), env) && Leaves(old(run.View()), run.View())
    ensures Arrives(scope, taskId, old(Snap(state, run)), run.View(), env) && ErrorCode(env) != Str("E102105")
  {
    hide Shown;
    if taskId in scope.def.tasks {
      env := ShowScreen(state, scope, run, taskId, None, before);
    } else {
      env := FailedEnvelope(run.id, "E102103", "The flow has no task " + taskId);
      StrandedOk(scope.def, before, run.View(), env);
    }
  }

  function CapEnvelope(id: string): (env: Json)
    ensures env.Obj? && !IsWaiting(env) && ErrorCode(env) == Str("E102105")
  {
    FailedEnvelope(id, "E102105", "The flow did not reach a screen")
  }

  /** How the path came to its answer: at the last task that ran, at one there was nothing to run for, or at the cap. */
  ghost predicate Stops(scope: Scope, path: Path, after: RunView, env: Json) {
    && path.walk != [] && path.trail != []
    && var taskId, at := path.walk[|path.walk| - 1], path.trail[|path.trail| - 1];
    if |path.outcomes| == |path.walk| then Ends(scope, taskId, at, after, path.outcomes[|path.walk| - 1], env)
    else if |path.walk| <= MAX_STEPS then Arrives(scope, taskId, at, after, env)
    else after == at.view && env == CapEnvelope(scope.id)
  }

  /** What is left of the widget's input at the last task of the walk. */
  ghost function Left(def: FlowDef, walk: seq<string>, given: Option<Json>): Option<Json> {
    if walk != [] && NoneActs(def, walk, |walk| - 1) then given else None
  }

  lemma LeftOn(def: FlowDef, walk: seq<string>, given: Option<Json>, next: string)
    requires walk != []
    ensures Left(def, walk + [next], given) == if Acts(def, walk[|walk| - 1]) then None else Left(def, walk, given)
  {
    var longer := walk + [next];
    assert forall j | 0 <= j < |walk| :: longer[j] == walk[j];
  }

  function InputOf(left: Option<Json>): Json {
    if left.Some? then left.value else EMPTY
  }

  lemma StopsBefore(scope: Scope, path: Path, first: string, taskId: string, a: Snapshot, m: Snapshot, after: RunView,
                    env: Json)
    requires |path.walk| <= MAX_STEPS && Arrives(scope, taskId, m, after, env)
             && Underway(scope, path, first, taskId, a, m)
    ensures Stops(scope, path, after, env)
  {
    hide Stepped, Arrives;
  }

  lemma StopsAt(scope: Scope, path: Path, first: string, taskId: string, a: Snapshot, m: Snapshot, b: Snapshot,
                o: Outcome, after: RunView, env: Json)
    requires Ends(scope, taskId, b, after, o, env) && Underway(scope, path, first, taskId, a, m)
    ensures Stops(scope, StepOn(path, b, o), after, env)
  {
    hide Stepped, Ends;
  }

  lemma StopsAtTheCap(scope: Scope, path: Path, first: string, taskId: string, a: Snapshot, m: Snapshot)
    requires |path.walk| > MAX_STEPS && Underway(scope, path, first, taskId, a, m)
    ensures Stops(scope, path, m.view, CapEnvelope(scope.id))
  {
    hide Stepped, Arrives, Ends;
  }

  /** A walk came to its answer. */
  ghost predicate Over(scope: Scope, path: Path, before: RunView, after: RunView, s: Stores, t: Stores, env: Json) {
    && Trailed(scope, path, before, after, s, t) && Begins(path, before) && Stops(scope, path, after, env)
    && Answered(scope.def, before, after, env)
  }

  /** The end of a walk where there is no task to run. */
  method VisitLast(state: EmulatorState, scope: Scope, run: Run, taskId: string, ghost path: Path, ghost first: string,
                   ghost a: Snapshot) returns (env: Json)
    requires state.Valid() && scope.host == state.host && scope.id == run.id && Walked(a.view, run.View())
    requires taskId in scope.def.tasks ==> scope.def.tasks[taskId].kind == Screen
    requires CtxOk(a.view.ctx) && |path.walk| <= MAX_STEPS && Underway(scope, path, first, taskId, a, Snap(state, run))
    modifies run`taskId, run`ctx
    ensures Over(scope, path, a.view, run.View(), a.stores, state.Stores(), env) && ErrorCode(env) != Str("E102105")
  {
    hide Stepped, Trailed, Begins, Stops, Answered, Leaves, Arrives;
    ghost var m := Snap(state, run);
    env := Arrive(state, scope, run, taskId, a.view);
    TrailedBefore(scope, path, first, taskId, a, m, run.View());
    StopsBefore(scope, path, first, taskId, a, m, run.View(), env);
  }

  /** One turn of the walk; the first task that acts takes what is left of the input. */
  method VisitNext(state: EmulatorState, scope: Scope, run: Run, taskId: string, input: Option<Json>, ghost path: Path,
                   ghost first: string, ghost a: Snapshot)
    returns (next: Option<string>, env: Json, ghost path': Path)
    requires state.Valid() && scope.host == state.host && scope.id == run.id && Walked(a.view, run.View())
    requires taskId in scope.def.tasks && scope.def.tasks[taskId].kind != Screen
    requires CtxOk(a.view.ctx) && path.walk != []
             && (Acts(scope.def, taskId) ==> InputOf(input) == InputAt(scope.def, path, |path.walk| - 1))
    requires Underway(scope, path, first, taskId, a, Snap(state, run))
    modifies run, state.Frame()
    ensures state.Valid() && path'.given == path.given
    ensures next.Some? ==> Walked(a.view, run.View()) && path'.walk == path.walk + [next.value]
    ensures next.None? ==> path'.walk == path.walk && ErrorCode(env) != Str("E102105")
    ensures Passed(scope.def, taskId).Some? ==> next == Passed(scope.def, taskId)
    ensures if next.Some? then Underway(scope, path', first, next.value, a, Snap(state, run))
            else Over(scope, path', a.view, run.View(), a.stores, state.Stores(), env)
  {
    hide TaskRun, Stepped, Underway, Trailed, Begins, Stops, Answered, Leaves, Ends, InputAt, Walked;
    ghost var m := Snap(state, run);
    var given := if scope.def.tasks[taskId].kind == Automated then InputOf(input) else EMPTY;
    ghost var b, o;
    next, env, b, o := Turn(state, scope, run, taskId, given, a.view);
    path' := StepOn(path, b, o);
    if next.Some? {
      UnderwayOn(scope, path, first, taskId, next.value, given, a, m, b, o);
      path' := WalkOn(path', next.value);
    } else {
      TrailedAt(scope, path, first, taskId, given, a, m, b, o, run.View());
      StopsAt(scope, path, first, taskId, a, m, b, o, run.View(), env);
    }
  }

  /** One task of the walk at `taskId`: the end of it, or a turn. */
  method Visit(state: EmulatorState, scope: Scope, run: Run, taskId: string, input: Option<Json>, ghost path: Path,
               ghost first: string, ghost a: Snapshot)
    returns (next: Option<string>, left: Option<Json>, env: Json, ghost path': Path)
    requires state.Valid() && scope.host == state.host && scope.id == run.id && Walked(a.view, run.View())
    requires input == Left(scope.def, path.walk, path.given) && CtxOk(a.view.ctx) && |path.walk| <= MAX_STEPS
    requires Underway(scope, path, first, taskId, a, Snap(state, run))
    modifies run, state.Frame()
    ensures state.Valid() && path'.given == path.given
    ensures next.Some? ==>
              && Walked(a.view, run.View()) && |path'.walk| == |path.walk| + 1
              && left == Left(scope.def, path'.walk, path.given)
    ensures next.None? ==> path'.walk == path.walk && ErrorCode(env) != Str("E102105")
    ensures Passed(scope.def, taskId).Some? ==> next == Passed(scope.def, taskId)
    ensures if next.Some? then Underway(scope, path', first, next.value, a, Snap(state, run))
            else Over(scope, path', a.view, run.View(), a.stores, state.Stores(), env)
  {
    hide Joined, Over, Walked;
    if taskId !in scope.def.tasks || scope.def.tasks[taskId].kind == Screen {
      next, left, path' := None, input, path;
      env := VisitLast(state, scope, run, taskId, path, first, a);
    } else {
      left := if scope.def.tasks[taskId].kind == Automated then None else input;
      next, env, path' := VisitNext(state, scope, run, taskId, input, path, first, a);
      if next.Some? {
        LeftOn(scope.def, path.walk, path.given, next.value);
      }
    }
  }

  lemma OverAtTheCap(scope: Scope, path: Path, first: string, taskId: string, a: Snapshot, m: Snapshot)
    requires CtxOk(a.view.ctx) && Walked(a.view, m.view) && |path.walk| > MAX_STEPS
             && Underway(scope, path, first, taskId, a, m)
    ensures Over(scope, path, a.view, m.view, a.stores, m.stores, CapEnvelope(scope.id))
  {
    hide Joined, Stops;
    StrandedOk(scope.def, a.view, m.view, CapEnvelope(scope.id));
    TrailedBefore(scope, path, first, taskId, a, m, m.view);
    StopsAtTheCap(scope, path, first, taskId, a, m);
  }

  /** Goes from task to task, starting at `first`; what the widget sent goes to the first task that acts. */
  method Drive(state: EmulatorState, scope: Scope, run: Run, first: string, given: Option<Json>)
    returns (env: Json, ghost path: Path)
    requires CanRun(state, scope, run)
    modifies run, state.Frame()
    ensures state.Valid() && Over(scope, path, old(run.View()), run.View(), old(state.Stores()), state.Stores(), env)
    ensures path.walk != [] && path.walk[0] == first && path.given == given
    ensures ErrorCode(env) == Str("E102105") ==> !Sound(scope.def)
    ensures Endless(scope.def, first) ==> ErrorCode(env) == Str("E102105")
  {
    hide Joined, Over;
    ghost var a := Snap(state, run);
    var taskId, input := first, given;
    path := Path([first], given, [a], []);
    UnderwayFirst(scope, path, first, a);
    var n := 0;
    while n < MAX_STEPS
      invariant n <= MAX_STEPS && state.Valid() && Walked(a.view, run.View())
      invariant |path.walk| == n + 1 && path.walk[0] == first && path.given == given
      invariant input == Left(scope.def, path.walk, given)
      invariant Endless(scope.def, first) ==> Endless(scope.def, taskId)
      invariant Underway(scope, path, first, taskId, a, Snap(state, run))
    {
      if Endless(scope.def, taskId) {
        EndlessOn(scope.def, taskId);
      }
      var next;
      next, input, env, path := Visit(state, scope, run, taskId, input, path, first, a);
      if next.None? {
        return;
      }
      taskId, n := next.value, n + 1;
    }
    env := CapEnvelope(run.id);
    CapOnlyIfUnsound(scope.def, path.walk);
    OverAtTheCap(scope, path, first, taskId, a, Snap(state, run));
  }
}
