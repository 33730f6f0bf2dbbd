/** The requests: start a run, advance it, poll it; each loads the run, works on it and stores it again. */
module FlowRequests {
  import opened Wrappers
  import opened Json
  import opened FlowGraph
  import opened FlowRun
  import opened FlowState
  import opened FlowPath
  import opened FlowEngine
  import FlowStore

  datatype Request = Request(executionId: string, interactionId: string, stepId: string, input: Json)

  predicate HasKey(v: Json, key: string) {
    v.Obj? && key in v.fields
  }

  // ----------------------------------------------------- what a request keeps

  lemma OriginOk(v: RunView, ctx: Json)
    requires RunOk(v) && SameButOrigin(v.ctx, ctx)
    ensures RunOk(v.(ctx := ctx)) && Enters(v, v.(ctx := ctx))
  {
    var w := v.(ctx := ctx);
    OriginParts(v.ctx, ctx);
    if v.status != Waiting {
      var env :| Ended(v, env);
      var open :| EndsWith(v, open, env);
      assert EndsWith(w, open, env);
      assert Ended(w, env);
    }
  }

  /** The context with the page the request came from, if it says so. */
  ghost predicate OriginNoted(ctx: Json, input: Json, r: Json) {
    && SameButOrigin(ctx, r)
    && Child(r, "origin") == if Child(input, "origin").Str? then Child(input, "origin") else Child(ctx, "origin")
  }

  method RememberOrigin(ctx: Json, input: Json) returns (r: Json)
    requires ctx.Obj?
    ensures OriginNoted(ctx, input, r)
  {
    var origin := Child(input, "origin");
    r := ctx;
    if origin.Str? {
      r := With(ctx, "origin", origin);
      assert r.fields - {"origin"} == ctx.fields - {"origin"};
    }
  }

  /** A submit reaches nothing but the form. */
  lemma FormParts(a: Json, b: Json)
    requires CtxOk(a) && b.Obj? && forall q | q != [] && q[0] != "form" :: Lookup(b, q) == Lookup(a, q)
    ensures CtxOk(b) && AuthUser(b) == AuthUser(a) && PendingLink(b) == PendingLink(a)
    ensures MagicLink(b) == MagicLink(a) && Verified(b) == Verified(a) && LastEnvelope(b) == LastEnvelope(a)
  {
    forall k | k in {"auth", "pending", "sentTo", "lastEnvelope"} ensures Child(b, k) == Child(a, k) {
      ReadOne(a, k);
      ReadOne(b, k);
      assert [k][0] != "form";
      assert Lookup(b, [k]) == Lookup(a, [k]);
    }
    SameParts(a, b);
  }

  /** The submitted fields were written into the form, in whatever order the object hands them out. */
  ghost predicate Submitted(ctx: Json, input: Json, merged: Json, order: seq<Field>) {
    (if input.Obj? then Lists(order, input.fields) else order == []) && merged == MergeFields(ctx, order)
  }

  /** What the widget submitted lands in the form; the run stays as it is otherwise. */
  method Submit(state: EmulatorState, scope: Scope, run: Run, input: Json) returns (ghost order: seq<Field>)
    requires CanRun(state, scope, run)
    modifies run`ctx
    ensures CanRun(state, scope, run) && Enters(old(run.View()), run.View())
    ensures Submitted(old(run.ctx), input, run.ctx, order) && Verified(run.ctx) == Verified(old(run.ctx))
    ensures forall q | q != [] && q[0] != "form" :: Lookup(run.ctx, q) == Lookup(old(run.ctx), q)
  {
    var merged;
    merged, order := MergeForm(run.ctx, input);
    FormParts(run.ctx, merged);
    run.ctx := merged;
  }

  // --------------------------------------------------------------- handling

  /** The reply is the kept envelope, whatever it says. */
  ghost predicate Replayed(v: RunView, polling: bool) {
    polling && Verified(v.ctx) && LastEnvelope(v.ctx) != Null
  }

  /** A request worked on a loaded run. */
  ghost predicate Handled(def: FlowDef, id: string, before: RunView, after: RunView, polling: bool, reply: Json) {
    && RunOk(after) && before.history <= after.history
    && (before.status != Waiting ==> after == before && reply == EndedReply(id, before, polling))
    && (before.status == Waiting && after.status != Waiting ==> Ended(after, reply))
    && (Replayed(before, polling) ==> after == before && reply == LastEnvelope(before.ctx))
    && (IdsMatch(def) && IsWaiting(reply) && !Replayed(before, polling) ==> Child(reply, "stepId") == Str(after.taskId))
    && (Sound(def) && !Replayed(before, polling) ==> ErrorCode(reply) != Str("E102105"))
  }

  /** The request ran no task, and left the run as it was. */
  ghost predicate Stayed(path: Path, v: RunView, after: RunView) {
    path.walk == [] && Begins(path, v) && after == v
  }

  /** The request went into the graph at `next` with this input, and its answer is that of the walk; or there is no next
      task. */
  ghost predicate Went(scope: Scope, next: Option<string>, given: Option<Json>, path: Path, v: RunView, after: RunView,
                       reply: Json)
  {
    match next
    case None => Stayed(path, v, after) && reply == NoNextTask(scope.id)
    case Some(first) =>
      && path.walk != [] && path.walk[0] == first && path.given == given
      && Begins(path, v) && Stops(scope, path, after, reply)
  }

  lemma StayedOk(def: FlowDef, id: string, v: RunView, polling: bool, reply: Json)
    requires RunOk(v) && !Replayed(v, polling)
    requires v.status != Waiting ==> reply == EndedReply(id, v, polling)
    requires reply == NoNextTask(id) || reply == PollEnvelope(id, v.taskId)
    ensures Handled(def, id, v, v, polling, reply)
  {
  }

  lemma WalkedOk(def: FlowDef, id: string, before: RunView, mid: RunView, after: RunView, polling: bool, reply: Json)
    requires RunOk(before) && before.status == Waiting && !Replayed(before, polling)
    requires before.history == mid.history && Answered(def, mid, after, reply)
    requires ErrorCode(reply) == Str("E102105") ==> !Sound(def)
    ensures Handled(def, id, before, after, polling, reply)
  {
  }

  /** No task on the path is one of the six that sign somebody in. */
  ghost predicate NoSignInTask(def: FlowDef, walk: seq<string>) {
    forall i | 0 <= i < |walk| :: !SignsIn(MeansAt(def, walk[i]))
  }

  /** A request that walks no sign-in task changes nobody's sign-in, whatever it submits, assesses, sends or updates. */
  lemma SignInOnlyAtSignInTasks(scope: Scope, path: Path, before: RunView, after: RunView, s: Stores, t: Stores,
                                polling: bool, reply: Json)
    requires Served(scope.id, before, after, polling, reply) && NoSignInTask(scope.def, path.walk)
    requires Trailed(scope, path, before, after, s, t)
    ensures AuthUser(after.ctx) == AuthUser(before.ctx)
  {
    hide Trailed, Stepped;
    forall k | |before.history| <= k < |after.history| ensures !after.history[k].SignedIn? {
      if after.history[k].SignedIn? {
        var i := GrewOnPath(scope, path, before, after, s, t, k);
        StepAdds(scope, path, i);
        StepIsOnWalk(scope, path, i);
      }
    }
    AuthChangesOnlyBySignIn(before, after);
  }

  lemma StepIsOnWalk(scope: Scope, path: Path, i: nat)
    requires Stepped(scope, path, i)
    ensures i < |path.walk|
  {
    hide TaskRun;
  }

  /** The request found no next task. */
  lemma NowhereOk(scope: Scope, given: Option<Json>, before: RunView, v: RunView, s: Stores, polling: bool)
    requires RunOk(before) && before.status == Waiting && !Replayed(before, polling) && Enters(before, v)
    requires Ready(v) && Open(v.history) && v.status == Waiting
    ensures var path, reply := NoPath(Snapshot(s, v)), NoNextTask(scope.id);
            && Handled(scope.def, scope.id, before, v, polling, reply) && Went(scope, None, given, path, v, v, reply)
            && Trailed(scope, path, before, v, s, s)
  {
    hide Trailed;
    NoPathTrailed(scope, v, s);
    TrailedFrom(scope, NoPath(Snapshot(s, v)), before, v, v, s, s);
  }

  /** The request walked. */
  lemma DroveOk(scope: Scope, first: string, given: Option<Json>, path: Path, before: RunView, mid: RunView,
                after: RunView, s: Stores, t: Stores, polling: bool, reply: Json)
    requires RunOk(before) && before.status == Waiting && !Replayed(before, polling) && Enters(before, mid)
    requires path.walk != [] && path.walk[0] == first && path.given == given
    requires ErrorCode(reply) == Str("E102105") ==> !Sound(scope.def)
    requires Over(scope, path, mid, after, s, t, reply)
    ensures Handled(scope.def, scope.id, before, after, polling, reply)
    ensures Went(scope, Some(first), given, path, mid, after, reply) && Trailed(scope, path, before, after, s, t)
  {
    hide Trailed, Stops, Answered, Handled;
    TrailedFrom(scope, path, before, mid, after, s, t);
    WalkedOk(scope.def, scope.id, before, mid, after, polling, reply);
  }

  /** Enters the graph at `next`, if there is a next task. */
  method Proceed(state: EmulatorState, scope: Scope, run: Run, next: Option<string>, given: Option<Json>,
                 ghost polling: bool, ghost before: RunView)
    returns (reply: Json, ghost path: Path)
    requires CanRun(state, scope, run) && RunOk(before) && before.status == Waiting && !Replayed(before, polling)
    requires Enters(before, run.View())
    modifies run, state.Frame()
    ensures state.Valid() && Handled(scope.def, scope.id, before, run.View(), polling, reply)
    ensures Went(scope, next, given, path, old(run.View()), run.View(), reply)
    ensures Trailed(scope, path, before, run.View(), old(state.Stores()), state.Stores())
  {
    hide Trailed, Handled, Over, Went, Enters;
    ghost var mid, s := run.View(), state.Stores();
    if next.None? {
      reply, path := NoNextTask(run.id), NoPath(Snap(state, run));
      NowhereOk(scope, given, before, mid, s, polling);
    } else {
      reply, path := Drive(state, scope, run, next.value, given);
      DroveOk(scope, next.value, given, path, before, mid, run.View(), s, state.Stores(), polling, reply);
    }
  }

  /** Where a poll may enter the graph. */
  function PollNext(def: FlowDef, taskId: string): Option<string> {
    if taskId in def.tasks then Follow(def.tasks[taskId], "polling") else None
  }

  /** What a poll of this run answers without walking. */
  function PollReply(id: string, v: RunView): Option<Json> {
    if !Verified(v.ctx) then Some(PollEnvelope(id, v.taskId))
    else if LastEnvelope(v.ctx) != Null then Some(LastEnvelope(v.ctx))
    else None
  }

  lemma PollReplyOk(def: FlowDef, id: string, v: RunView)
    requires RunOk(v)
    ensures PollReply(id, v).Some? ==> Handled(def, id, v, v, true, PollReply(id, v).value)
    ensures PollReply(id, v).None? ==> v.status == Waiting && !Replayed(v, true)
  {
    if PollReply(id, v).None? {
      NotEnded(v);
    }
  }

  /** What a poll came to. */
  ghost predicate Polled(scope: Scope, path: Path, v: RunView, after: RunView, reply: Json) {
    match PollReply(scope.id, v)
    case Some(kept) => Stayed(path, v, after) && reply == kept
    case None => Went(scope, PollNext(scope.def, v.taskId), None, path, v, after, reply)
  }

  /** A screen that waits on a link: go on once it was opened, or say where the run ended up. */
  method Poll(state: EmulatorState, scope: Scope, run: Run) returns (reply: Json, ghost path: Path)
    requires state.Valid() && scope.host == state.host && scope.id == run.id && RunOk(run.View())
    modifies run, state.Frame()
    ensures state.Valid() && Handled(scope.def, scope.id, old(run.View()), run.View(), true, reply)
    ensures Polled(scope, path, old(run.View()), run.View(), reply)
    ensures PollReply(run.id, old(run.View())).Some? ==> state.lockouts.history == old(state.lockouts.history)
    ensures Trailed(scope, path, old(run.View()), run.View(), old(state.Stores()), state.Stores())
  {
    hide Trailed, Handled, Stops;
    ghost var before := run.View();
    PollReplyOk(scope.def, run.id, before);
    if !Verified(run.ctx) || LastEnvelope(run.ctx) != Null {
      reply := if !Verified(run.ctx) then PollEnvelope(run.id, run.taskId) else LastEnvelope(run.ctx);
      path := NoPath(Snap(state, run));
      NoPathTrailed(scope, before, state.Stores());
    } else {
      EntersItself(before);
      reply, path := Proceed(state, scope, run, PollNext(scope.def, run.taskId), None, true, before);
    }
  }

  lemma EntersItself(v: RunView)
    requires CtxOk(v.ctx)
    ensures Enters(v, v)
  {
  }

  /** Ended with a verified link means ended with an envelope to replay. */
  lemma NotEnded(v: RunView)
    requires RunOk(v) && Verified(v.ctx) && LastEnvelope(v.ctx) == Null
    ensures v.status == Waiting
  {
  }

  /** The request brings a token or a code, and names the automated task to take it. */
  predicate BackToStep(def: FlowDef, request: Request) {
    && (HasKey(request.input, "token") || HasKey(request.input, "exchangeCode"))
    && request.stepId in def.tasks && def.tasks[request.stepId].kind == Automated
  }

  /** Whether the request is a submit from the screen the run waits at. */
  predicate FromScreen(def: FlowDef, taskId: string, request: Request) {
    !BackToStep(def, request) && taskId in def.tasks && def.tasks[taskId].kind == Screen
  }

  /** Where a request enters the graph of a run that waits at `taskId`: at the step a round trip names, past the screen,
      or at the task it waits for. */
  function Entrance(def: FlowDef, taskId: string, request: Request): Option<string> {
    if BackToStep(def, request) then Some(request.stepId)
    else if taskId !in def.tasks then None
    else if def.tasks[taskId].kind == Screen then Follow(def.tasks[taskId], request.interactionId)
    else Some(taskId)
  }

  /** What a request hands to the first task that acts: its input, unless that went into the form. */
  function Given(def: FlowDef, taskId: string, request: Request): Option<Json> {
    if FromScreen(def, taskId, request) then None else Some(request.input)
  }

  /** The run as it goes into the graph: after a submit from its screen, or as it was. */
  ghost predicate FromForm(def: FlowDef, request: Request, v: RunView, first: RunView) {
    && first == v.(ctx := first.ctx)
    && if FromScreen(def, v.taskId, request) then exists order :: Submitted(v.ctx, request.input, first.ctx, order)
       else first.ctx == v.ctx
  }

  /** What a request other than a poll came to. */
  ghost predicate Advanced(scope: Scope, request: Request, path: Path, v: RunView, after: RunView, reply: Json) {
    exists first: RunView ::
      FromForm(scope.def, request, v, first)
      && Went(scope, Entrance(scope.def, v.taskId, request), Given(scope.def, v.taskId, request), path, first, after,
              reply)
  }

  /** Puts a submit into the form. */
  method TakeForm(state: EmulatorState, scope: Scope, run: Run, request: Request)
    requires CanRun(state, scope, run)
    modifies run`ctx
    ensures CanRun(state, scope, run) && Enters(old(run.View()), run.View())
    ensures FromForm(scope.def, request, old(run.View()), run.View())
  {
    if FromScreen(scope.def, run.taskId, request) {
      var order := Submit(state, scope, run, request.input);
    } else {
      EntersItself(run.View());
    }
  }

  /** A request other than a poll, to a run that waits. */
  method Advance(state: EmulatorState, scope: Scope, run: Run, request: Request) returns (reply: Json, ghost path: Path)
    requires CanRun(state, scope, run)
    modifies run, state.Frame()
    ensures state.Valid() && Handled(scope.def, scope.id, old(run.View()), run.View(), false, reply)
    ensures Advanced(scope, request, path, old(run.View()), run.View(), reply)
    ensures Trailed(scope, path, old(run.View()), run.View(), old(state.Stores()), state.Stores())
  {
    hide Trailed, Handled, Went, FromForm;
    ghost var before := run.View();
    var next, given := Entrance(scope.def, run.taskId, request), Given(scope.def, run.taskId, request);
    TakeForm(state, scope, run, request);
    reply, path := Proceed(state, scope, run, next, given, false, before);
  }

  // --------------------------------------------------------------- requests

  /** The store after a run was saved: expired runs gone, this one as it is now, its age kept. */
  function Saved(runs: map<string, FlowStore.StoredRun>, flowId: string, id: string, v: RunView, now: nat)
    : map<string, FlowStore.StoredRun>
  {
    var createdAt := if id in runs then runs[id].createdAt else now;
    FlowStore.Unexpired(runs, now)[id := FlowStore.StoredRun(id, flowId, v.taskId, v.ctx, v.status, createdAt)]
  }

  lemma SavedOk(runs: map<string, FlowStore.StoredRun>, histories: map<string, seq<Event>>, flowId: string, id: string,
                v: RunView, now: nat)
    requires FlowStore.StoredOk(runs, histories) && RunOk(v)
    ensures FlowStore.StoredOk(Saved(runs, flowId, id, v, now), histories[id := v.history])
    ensures FlowStore.FindIn(Saved(runs, flowId, id, v, now), histories[id := v.history], id) == Some(v)
  {
    var runs', histories' := Saved(runs, flowId, id, v, now), histories[id := v.history];
    forall k | k in runs' ensures runs'[k].executionId == k && RunOk(FlowStore.FindIn(runs', histories', k).value) {
      if k != id {
        assert FlowStore.FindIn(runs', histories', k) == FlowStore.FindIn(runs, histories, k);
      }
    }
  }

  /** Sweeps the expired runs out and puts this one in. */
  method PutRun(flows: FlowStore.FlowStore, now: nat, def: FlowDef, run: Run)
    requires flows.Valid() && RunOk(run.View())
    modifies flows
    ensures flows.Valid() && flows.Find(run.id) == Some(run.View())
    ensures flows.runs == Saved(old(flows.runs), def.id, run.id, run.View(), now)
    ensures flows.histories == old(flows.histories)[run.id := run.history]
  {
    SavedOk(flows.runs, flows.histories, def.id, run.id, run.View(), now);
    var createdAt := if run.id in flows.runs then flows.runs[run.id].createdAt else now;
    flows.SweepExpired(now);
    flows.InsertRun(FlowStore.StoredRun(run.id, def.id, run.taskId, run.ctx, run.status, createdAt), run.history);
  }

  /** Saves the run as it is now. */
  method Save(state: EmulatorState, scope: Scope, run: Run)
    requires state.Valid() && state.flows.Valid() && RunOk(run.View())
    modifies state.flows
    ensures state.Valid() && state.flows.Valid() && state.flows.Find(run.id) == Some(run.View())
    ensures state.Stores() == old(state.Stores()) && state.lockouts.history == old(state.lockouts.history)
    ensures state.flows.runs == Saved(old(state.flows.runs), scope.def.id, run.id, run.View(), scope.moment.now)
    ensures state.flows.histories == old(state.flows.histories)[run.id := run.history]
  {
    PutRun(state.flows, scope.moment.now, scope.def, run);
  }

  method Load(state: EmulatorState, id: string) returns (run: Run)
    requires id in state.flows.runs && state.flows.Valid()
    ensures fresh(run) && run.id == id && old(state.flows.Find(id)) == Some(run.View()) && RunOk(run.View())
  {
    var stored := state.flows.runs[id];
    run := new Run(stored.executionId, stored.taskId, stored.context, stored.status,
                   if id in state.flows.histories then state.flows.histories[id] else []);
  }

  /** What a request made of a loaded run. */
  ghost predicate WorkedOn(scope: Scope, request: Request, path: Path, v: RunView, after: RunView, reply: Json) {
    if request.interactionId == "polling" then Polled(scope, path, v, after, reply)
    else if v.status != Waiting then Stayed(path, v, after) && reply == NoNextTask(scope.id)
    else Advanced(scope, request, path, v, after, reply)
  }

  method Answer(state: EmulatorState, scope: Scope, run: Run, request: Request) returns (reply: Json, ghost path: Path)
    requires state.Valid() && scope.host == state.host && scope.id == run.id && RunOk(run.View())
    modifies run, state.Frame()
    ensures state.Valid() && unchanged(state.flows)
    ensures Handled(scope.def, scope.id, old(run.View()), run.View(), request.interactionId == "polling", reply)
    ensures WorkedOn(scope, request, path, old(run.View()), run.View(), reply)
    ensures old(run.status) != Waiting ==> state.lockouts.history == old(state.lockouts.history)
    ensures Trailed(scope, path, old(run.View()), run.View(), old(state.Stores()), state.Stores())
  {
    hide Trailed, Handled, Polled, Advanced;
    if request.interactionId == "polling" {
      PollReplyOk(scope.def, run.id, run.View());
      reply, path := Poll(state, scope, run);
    } else if run.status != Waiting {
      reply, path := NoNextTask(run.id), NoPath(Snap(state, run));
      StayedOk(scope.def, run.id, run.View(), false, reply);
      NoPathTrailed(scope, run.View(), state.Stores());
    } else {
      reply, path := Advance(state, scope, run, request);
    }
  }

  /** The answer's step and code, when it is not a replay. */
  ghost predicate AnswerOk(def: FlowDef, before: RunView, after: RunView, polling: bool, reply: Json) {
    !Replayed(before, polling) ==>
      && (IdsMatch(def) && IsWaiting(reply) ==> Child(reply, "stepId") == Str(after.taskId))
      && (Sound(def) ==> ErrorCode(reply) != Str("E102105"))
  }

  /** A request worked on the run as stored, with the page it came from noted. */
  ghost predicate WorkedFrom(scope: Scope, request: Request, path: Path, before: RunView, after: RunView, reply: Json) {
    exists v: RunView ::
      v == before.(ctx := v.ctx) && OriginNoted(before.ctx, request.input, v.ctx)
        && WorkedOn(scope, request, path, v, after, reply)
  }

  lemma ServedOk(def: FlowDef, id: string, before: RunView, mid: RunView, after: RunView, polling: bool, reply: Json)
    requires RunOk(before) && mid == before.(ctx := mid.ctx) && SameButOrigin(before.ctx, mid.ctx)
    requires Handled(def, id, mid, after, polling, reply)
    ensures Served(id, before, after, polling, reply) && AnswerOk(def, before, after, polling, reply)
  {
    OriginParts(before.ctx, mid.ctx);
  }

  method Serve(state: EmulatorState, scope: Scope, run: Run, request: Request) returns (reply: Json, ghost path: Path)
    requires state.Valid() && scope.host == state.host && scope.id == run.id && RunOk(run.View())
    modifies run, state.Frame()
    ensures state.Valid() && unchanged(state.flows)
    ensures Served(scope.id, old(run.View()), run.View(), request.interactionId == "polling", reply)
    ensures AnswerOk(scope.def, old(run.View()), run.View(), request.interactionId == "polling", reply)
    ensures old(run.status) != Waiting ==> state.lockouts.history == old(state.lockouts.history)
    ensures WorkedFrom(scope, request, path, old(run.View()), run.View(), reply)
    ensures Trailed(scope, path, old(run.View()), run.View(), old(state.Stores()), state.Stores())
  {
    hide Trailed, Handled, WorkedOn;
    ghost var before, s := run.View(), state.Stores();
    var ctx := RememberOrigin(run.ctx, request.input);
    OriginOk(before, ctx);
    run.ctx := ctx;
    ghost var mid := run.View();
    reply, path := Answer(state, scope, run, request);
    ServedOk(scope.def, run.id, before, mid, run.View(), request.interactionId == "polling", reply);
    TrailedFrom(scope, path, before, mid, run.View(), s, state.Stores());
  }

  /** Everything requests share: the stored runs, what happened in each, and the stores. */
  datatype World = World(runs: map<string, FlowStore.StoredRun>, histories: map<string, seq<Event>>, stores: Stores)

  /** The stored run under `id`. */
  ghost function ViewIn(w: World, id: string): Option<RunView> {
    FlowStore.FindIn(w.runs, w.histories, id)
  }

  ghost function WorldOf(state: EmulatorState): World
    reads state.flows, state.users, state.otps, state.tokens, state.webauthn
  {
    World(state.flows.runs, state.flows.histories, state.Stores())
  }

  /** The world after the run was saved as `v`: other runs stay or expire. */
  ghost predicate SavedAs(scope: Scope, w: World, w': World, v: RunView) {
    && w'.runs == Saved(w.runs, scope.def.id, scope.id, v, scope.moment.now)
    && w'.histories == w.histories[scope.id := v.history] && ViewIn(w', scope.id) == Some(v)
  }

  /** The path of a request to a run that is not stored. */
  const NOWHERE := Path([], None, [], [])

  /** A request served to a stored run, and the run stored again. */
  ghost predicate ServedAs(scope: Scope, request: Request, w: World, w': World, before: RunView, after: RunView,
                           reply: Json, path: Path)
  {
    && SavedAs(scope, w, w', after)
    && Served(scope.id, before, after, request.interactionId == "polling", reply)
    && AnswerOk(scope.def, before, after, request.interactionId == "polling", reply)
    && WorkedFrom(scope, request, path, before, after, reply)
    && Trailed(scope, path, before, after, w.stores, w'.stores)
  }

  /** One request, from one world to the next; for an unknown run nothing changes. */
  ghost predicate Requested(host: Host, moment: Moment, def: FlowDef, request: Request, w: World, w': World,
                            reply: Json, path: Path)
  {
    match ViewIn(w, request.executionId)
    case None => reply == NoNextTask(request.executionId) && w' == w && path == NOWHERE
    case Some(before) =>
      exists after ::
        ServedAs(Scope(host, moment, def, request.executionId), request, w, w', before, after, reply, path)
  }

  /** Saves the run, in a world where nothing but the stores changed since `w`. */
  method Put(state: EmulatorState, scope: Scope, run: Run, ghost w: World)
    requires state.Valid() && state.flows.Valid() && scope.id == run.id && RunOk(run.View())
    requires w.runs == state.flows.runs && w.histories == state.flows.histories
    modifies state.flows
    ensures state.Valid() && state.flows.Valid() && SavedAs(scope, w, WorldOf(state), run.View())
    ensures state.Stores() == old(state.Stores()) && state.lockouts.history == old(state.lockouts.history)
  {
    hide Saved, RunOk;
    Save(state, scope, run);
  }

  lemma ServedRunOk(id: string, before: RunView, after: RunView, polling: bool, reply: Json)
    requires Served(id, before, after, polling, reply)
    ensures RunOk(after)
  {
  }

  method ServeLoaded(state: EmulatorState, scope: Scope, run: Run, request: Request)
    returns (reply: Json, ghost path: Path)
    requires state.Valid() && scope.host == state.host && scope.id == run.id
    requires state.flows.Valid() && RunOk(run.View())
    modifies run, state.flows, state.Frame()
    ensures state.Valid() && state.flows.Valid()
    ensures old(run.status) != Waiting ==> state.lockouts.history == old(state.lockouts.history)
    ensures ServedAs(scope, request, old(WorldOf(state)), WorldOf(state), old(run.View()), run.View(), reply, path)
  {
    hide Trailed, Served, AnswerOk, WorkedFrom, SavedAs;
    ghost var w := WorldOf(state);
    ghost var before := run.View();
    reply, path := Serve(state, scope, run, request);
    assert RunOk(run.View()) by {
      ServedRunOk(scope.id, before, run.View(), request.interactionId == "polling", reply);
    }
    Put(state, scope, run, w);
  }

  /** Serves a request to a stored run and stores the run again. */
  method ServeStored(state: EmulatorState, moment: Moment, def: FlowDef, request: Request)
    returns (reply: Json, ghost path: Path)
    requires state.Valid() && state.flows.Valid() && request.executionId in state.flows.runs
    modifies state.flows, state.Frame()
    ensures state.Valid() && state.flows.Valid()
    ensures Requested(state.host, moment, def, request, old(WorldOf(state)), WorldOf(state), reply, path)
    ensures old(state.flows.Find(request.executionId)).value.status != Waiting ==>
              state.lockouts.history == old(state.lockouts.history)
  {
    hide ServedAs;
    var run := Load(state, request.executionId);
    reply, path := ServeLoaded(state, Scope(state.host, moment, def, run.id), run, request);
  }

  /** One request: served as promised if the run is stored, nothing else touched but by expiry; an ended run changes no
      store. */
  method Next(state: EmulatorState, moment: Moment, def: FlowDef, request: Request)
    returns (reply: Json, ghost path: Path)
    requires state.Valid() && state.flows.Valid()
    modifies state.flows, state.Frame()
    ensures state.Valid() && state.flows.Valid()
    ensures Requested(state.host, moment, def, request, old(WorldOf(state)), WorldOf(state), reply, path)
    ensures var before := old(state.flows.Find(request.executionId));
            before.Some? && before.value.status != Waiting ==> state.lockouts.history == old(state.lockouts.history)
  {
    hide ServedAs;
    if request.executionId in state.flows.runs {
      reply, path := ServeStored(state, moment, def, request);
    } else {
      reply, path := NoNextTask(request.executionId), NOWHERE;
    }
  }

  // ----------------------------------------------------------------- start

  /** A new run knows nobody: an empty form, the widget's options, nothing pending. */
  function FirstContext(options: Json): (ctx: Json)
    ensures CtxOk(ctx) && AuthUser(ctx).None? && MagicLink(ctx) == Null && LastEnvelope(ctx) == Null
  {
    var device := if HasKey(options, "deviceInfo") then Child(options, "deviceInfo") else EMPTY;
    Obj(map["form" := EMPTY, "options" := options, "deviceInfo" := device, "sentTo" := EMPTY, "pending" := EMPTY])
  }

  /** The context a run starts with: the page it came from noted, the widget's fields in the form. */
  ghost predicate FirstFilled(options: Json, input: Json, ctx: Json) {
    exists noted, order :: OriginNoted(FirstContext(options), input, noted) && Submitted(noted, input, ctx, order)
  }

  /** A run as it starts. */
  ghost predicate JustStarted(def: FlowDef, options: Json, input: Json, v: RunView) {
    && v.taskId == def.startTask && v.status == Waiting && v.history == [] && FirstFilled(options, input, v.ctx)
    && RunOk(v) && AuthUser(v.ctx).None? && MagicLink(v.ctx) == Null
  }

  lemma FirstOk(v: RunView)
    requires v.status == Waiting && v.history == []
    requires CtxOk(v.ctx) && AuthUser(v.ctx).None? && MagicLink(v.ctx) == Null
    ensures RunOk(v)
  {
  }

  method FirstRun(def: FlowDef, id: string, options: Json, input: Json) returns (run: Run)
    ensures fresh(run) && run.id == id && JustStarted(def, options, input, run.View())
  {
    var ctx := RememberOrigin(FirstContext(options), input);
    OriginParts(FirstContext(options), ctx);
    var merged, order := MergeForm(ctx, input);
    FormParts(ctx, merged);
    FirstOk(RunView(def.startTask, merged, Waiting, []));
    assert Submitted(ctx, input, merged, order);
    run := new Run(id, def.startTask, merged, Waiting, []);
  }

  /** The screen a start is past: the widget drew it itself and sent its first submit along. */
  function PassedScreen(def: FlowDef, interaction: string): Option<Task> {
    if interaction != "" then StartScreen(def, def.startTask, 4) else None
  }

  /** The task a start walks from. */
  function Entry(def: FlowDef, interaction: string): Option<string> {
    var screen := PassedScreen(def, interaction);
    if screen.Some? then Follow(screen.value, interaction) else Some(def.startTask)
  }

  /** The run as a start walks on with it: a screen it is past is the one to come back to with an error. */
  function AtEntry(def: FlowDef, interaction: string, v: RunView): RunView
    requires v.ctx.Obj?
  {
    var screen := PassedScreen(def, interaction);
    if screen.Some? then v.(ctx := AtScreen(v.ctx, screen.value.id, None)) else v
  }

  lemma EntryOk(def: FlowDef, interaction: string, v: RunView)
    requires Ready(v) && Open(v.history) && v.status == Waiting
    ensures var w := AtEntry(def, interaction, v); Walked(v, w) && Enters(v, w)
  {
    EntersItself(v);
    var screen := PassedScreen(def, interaction);
    if screen.Some? {
      AtScreenOk(v, v, screen.value.id, None);
      var r := AtScreen(v.ctx, screen.value.id, None);
      assert Child(r, "pending") == Child(v.ctx, "pending");
    }
  }

  method Enter(state: EmulatorState, scope: Scope, run: Run, interaction: string)
    returns (reply: Json, ghost path: Path)
    requires CanRun(state, scope, run)
    modifies run, state.Frame()
    ensures state.Valid() && unchanged(state.flows)
    ensures Handled(scope.def, scope.id, old(run.View()), run.View(), false, reply)
    ensures Went(scope, Entry(scope.def, interaction), None, path, AtEntry(scope.def, interaction, old(run.View())),
                 run.View(), reply)
    ensures Trailed(scope, path, old(run.View()), run.View(), old(state.Stores()), state.Stores())
  {
    hide Trailed, Handled, Went;
    ghost var before := run.View();
    EntryOk(scope.def, interaction, before);
    var screen := PassedScreen(scope.def, interaction);
    if screen.Some? {
      run.ctx := AtScreen(run.ctx, screen.value.id, None);
    }
    reply, path := Proceed(state, scope, run, Entry(scope.def, interaction), None, false, before);
  }

  /** A start, from one world to the next: nobody is signed in before the first walk of the run it stores. */
  ghost predicate Started(scope: Scope, options: Json, input: Json, interaction: string, first: RunView, after: RunView,
                          w: World, w': World, reply: Json, path: Path)
  {
    && JustStarted(scope.def, options, input, first) && SavedAs(scope, w, w', after)
    && Handled(scope.def, scope.id, first, after, false, reply)
    && Went(scope, Entry(scope.def, interaction), None, path, AtEntry(scope.def, interaction, first), after, reply)
    && Trailed(scope, path, first, after, w.stores, w'.stores)
  }

  lemma StartedCanRun(def: FlowDef, options: Json, input: Json, v: RunView)
    requires JustStarted(def, options, input, v)
    ensures Ready(v) && Open(v.history) && v.status == Waiting
  {
  }

  lemma HandledOk(def: FlowDef, id: string, before: RunView, after: RunView, reply: Json)
    requires Handled(def, id, before, after, false, reply)
    ensures RunOk(after)
  {
  }

  method StartNew(state: EmulatorState, scope: Scope, run: Run, interaction: string, ghost options: Json,
                  ghost input: Json)
    returns (reply: Json, ghost path: Path)
    requires state.Valid() && scope.host == state.host && scope.id == run.id
    requires state.flows.Valid() && JustStarted(scope.def, options, input, run.View())
    modifies run, state.flows, state.Frame()
    ensures state.Valid() && state.flows.Valid()
    ensures Started(scope, options, input, interaction, old(run.View()), run.View(), old(WorldOf(state)),
                    WorldOf(state), reply, path)
  {
    hide Trailed, Handled, Went, SavedAs, JustStarted;
    ghost var w, first := WorldOf(state), run.View();
    StartedCanRun(scope.def, options, input, first);
    reply, path := Enter(state, scope, run, interaction);
    assert RunOk(run.View()) by {
      HandledOk(scope.def, scope.id, first, run.View(), reply);
    }
    Put(state, scope, run, w);
  }

  /** Starts a run and stores it. */
  method Start(state: EmulatorState, moment: Moment, def: FlowDef, options: Json, input: Json, interaction: string)
    returns (id: string, reply: Json, ghost first: RunView, ghost after: RunView, ghost path: Path)
    requires state.Valid() && state.flows.Valid()
    modifies state.flows, state.Frame()
    ensures state.Valid() && state.flows.Valid()
    ensures Started(Scope(state.host, moment, def, id), options, input, interaction, first, after, old(WorldOf(state)),
                    WorldOf(state),
                    reply, path)
  {
    hide Started;
    var token := RandomText();
    id := def.id + "|#|" + token;
    var run := FirstRun(def, id, options, input);
    first := run.View();
    reply, path := StartNew(state, Scope(state.host, moment, def, id), run, interaction, options, input);
    after := run.View();
  }
}
