/** What a walk answers and what it leaves of the run, spelled out: screens, waits, ends and dead ends. */
module AnswerLaws {
  import opened Wrappers
  import opened Json
  import opened FlowGraph
  import opened FlowRun
  import opened FlowConditions
  import opened FlowState
  import opened FlowContext
  import opened FlowPath
  import opened FlowEngine
  import opened FlowRequests
  import opened ConditionLaws
  import opened ContextLaws
  import FlowStore

  /** The answer is kept for other tabs exactly if the link was opened; of the rest only the keys named may differ. */
  ghost predicate KeepsAnswer(ctx: Json, after: Json, env: Json, keys: set<string>) {
    && OnlyUnder(ctx, after, {"lastEnvelope"} + keys)
    && GetPath(after, ["lastEnvelope"])
       == if GetPath(ctx, ["pending", "magicLink", "verified"]) == Bool(true) then env
          else GetPath(ctx, ["lastEnvelope"])
  }

  lemma RememberedReads(ctx: Json, env: Json)
    requires ctx.Obj?
    ensures KeepsAnswer(ctx, Remembered(ctx, env), env, {})
  {
    var r := Remembered(ctx, env);
    ReadOne(r, "lastEnvelope");
    ReadOne(ctx, "lastEnvelope");
    ReadThree(ctx, "pending", "magicLink", "verified");
    assert r.fields - {"lastEnvelope"} == ctx.fields - {"lastEnvelope"};
    assert {"lastEnvelope"} + {} == {"lastEnvelope"};
    KeysOnly(ctx, r, {"lastEnvelope"});
  }

  /** A new screen is remembered, one shown again with an error was so before. */
  lemma AtScreenReads(ctx: Json, taskId: string, error: Option<string>)
    requires ctx.Obj?
    ensures var r := AtScreen(ctx, taskId, error);
            && OnlyUnder(ctx, r, {"screenTask"})
            && GetPath(r, ["screenTask"]) == if error.None? then Str(taskId) else GetPath(ctx, ["screenTask"])
  {
    var r := AtScreen(ctx, taskId, error);
    ReadOne(r, "screenTask");
    ReadOne(ctx, "screenTask");
    assert r.fields - {"screenTask"} == ctx.fields - {"screenTask"};
    KeysOnly(ctx, r, {"screenTask"});
  }

  /** The run waits at this screen, drawn with the error from the full context. */
  ghost predicate StandsAt(scope: Scope, at: Snapshot, after: RunView, taskId: string, error: Option<string>, env: Json)
  {
    && taskId in scope.def.tasks && after == at.view.(taskId := taskId, ctx := after.ctx)
    && KeepsAnswer(at.view.ctx, after.ctx, env, {"screenTask"})
    && GetPath(after.ctx, ["screenTask"]) == (if error.None? then Str(taskId) else GetPath(at.view.ctx, ["screenTask"]))
    && exists ctx, full ::
         && OnlyUnder(at.view.ctx, ctx, {"screenTask"}) && IsFullContext(scope, at.stores, ctx, full)
         && env == ScreenFor(scope, scope.def.tasks[taskId], ctx, full, error)
  }

  lemma ShownReads(scope: Scope, at: Snapshot, after: RunView, taskId: string, error: Option<string>, env: Json)
    requires Shown(scope, at, after, taskId, error, env)
    ensures StandsAt(scope, at, after, taskId, error, env)
  {
    hide IsFullContext, ScreenFor;
    var ctx := AtScreen(at.view.ctx, taskId, error);
    var full :| IsFullContext(scope, at.stores, ctx, full)
      && env == ScreenFor(scope, scope.def.tasks[taskId], ctx, full, error);
    AtScreenReads(at.view.ctx, taskId, error);
    RememberedReads(ctx, env);
    Composes(at.view.ctx, ctx, after.ctx, env);
  }

  lemma OnlyUnderReads(a: Json, b: Json, keys: set<string>, q: seq<string>)
    requires OnlyUnder(a, b, keys) && q != [] && q[0] !in keys
    ensures GetPath(b, q) == GetPath(a, q)
  {
  }

  lemma OnlyUnderBoth(a: Json, b: Json, c: Json, keys: set<string>, more: set<string>)
    requires OnlyUnder(a, b, keys) && OnlyUnder(b, c, more)
    ensures OnlyUnder(a, c, more + keys)
  {
    hide Lookup;
  }

  lemma Composes(ctx: Json, mid: Json, after: Json, env: Json)
    requires OnlyUnder(ctx, mid, {"screenTask"}) && KeepsAnswer(mid, after, env, {})
    ensures KeepsAnswer(ctx, after, env, {"screenTask"})
    ensures GetPath(after, ["screenTask"]) == GetPath(mid, ["screenTask"])
  {
    hide OnlyUnder, GetPath;
    assert {"lastEnvelope"} + {} == {"lastEnvelope"};
    OnlyUnderBoth(ctx, mid, after, {"screenTask"}, {"lastEnvelope"});
    OnlyUnderReads(ctx, mid, {"screenTask"}, ["lastEnvelope"]);
    OnlyUnderReads(ctx, mid, {"screenTask"}, ["pending", "magicLink", "verified"]);
    OnlyUnderReads(mid, after, {"lastEnvelope"}, ["screenTask"]);
  }

  /** The run is over by this answer. */
  ghost predicate IsOver(v: RunView, after: RunView, status: FlowStatus, env: Json) {
    && after == v.(status := status, ctx := after.ctx, history := v.history + [Finished(env)])
    && KeepsAnswer(v.ctx, after.ctx, env, {})
  }

  /** The walk came to an answer that is a failure of this run. */
  ghost predicate FailsAs(scope: Scope, env: Json, code: string, text: string) {
    && GetPath(env, ["executionId"]) == Str(scope.id) && GetPath(env, ["status"]) == Str("failed")
    && GetPath(env, ["error", "errorCode"]) == Str(code) && GetPath(env, ["error", "errorDescription"]) == Str(text)
  }

  lemma FailsReads(scope: Scope, code: string, text: string)
    ensures FailsAs(scope, FailedEnvelope(scope.id, code, text), code, text)
  {
    hide FailedEnvelope;
    var env := FailedEnvelope(scope.id, code, text);
    FailureReads(scope.id, code, text);
    ReadOne(env, "executionId");
    ReadOne(env, "status");
  }

  /** Where the last outcome of a walk leaves the run: an interaction nothing follows leaves it as it is; a session or a
      failure ends it; a wait awaits its step; an error goes on the screen last shown, and without one is only an
      answer. */
  ghost predicate LeftAs(scope: Scope, taskId: string, at: Snapshot, after: RunView, o: Outcome, screen: string,
                         env: Json)
  {
    match o
    case Interaction(name) =>
      after == at.view && FailsAs(scope, env, "E102103", "Task " + taskId + " has no rule for " + name)
    case Done(answer) => env == answer && IsOver(at.view, after, Completed, env)
    case Fail(code, text) => FailsAs(scope, env, code, text) && IsOver(at.view, after, Failed, env)
    case Wait(answer, step) =>
      && env == answer && after == at.view.(taskId := step, ctx := after.ctx)
      && KeepsAnswer(at.view.ctx, after.ctx, env, {})
    case ScreenError(text) =>
      if screen in scope.def.tasks then StandsAt(scope, at, after, screen, Some(text), env)
      else after == at.view && FailsAs(scope, env, "E102104", text)
  }

  lemma WhereItEnds(scope: Scope, taskId: string, at: Snapshot, after: RunView, o: Outcome, screen: string, env: Json)
    requires Ends(scope, taskId, at, after, o, env) && Reads(scope.host, GetPath(at.view.ctx, ["screenTask"]), screen)
    ensures LeftAs(scope, taskId, at, after, o, screen, env)
  {
    hide Shown, StandsAt, FailsAs, FailedEnvelope, Reads, AsText, Remembered, KeepsAnswer;
    ReadOne(at.view.ctx, "screenTask");
    TextIff(scope.host, GetPath(at.view.ctx, ["screenTask"]), screen);
    match o {
      case Interaction(name) => FailsReads(scope, "E102103", "Task " + taskId + " has no rule for " + name);
      case Done(_) => RememberedReads(at.view.ctx, env);
      case Fail(code, text) =>
        FailsReads(scope, code, text);
        RememberedReads(at.view.ctx, env);
      case Wait(_, _) => RememberedReads(at.view.ctx, env);
      case ScreenError(text) =>
        FailsReads(scope, "E102104", text);
        if screen in scope.def.tasks {
          ShownReads(scope, at, after, screen, Some(text), env);
        }
    }
  }

  /** A walk ends where the last of its tasks left it, at a screen, at a task that is missing, or after two hundred
      tasks. */
  lemma WhatAWalkAnswers(scope: Scope, path: Path, after: RunView, screen: string, env: Json)
    requires Stops(scope, path, after, env)
    requires Reads(scope.host, GetPath(path.trail[|path.trail| - 1].view.ctx, ["screenTask"]), screen)
    ensures var n, at := |path.walk|, path.trail[|path.trail| - 1];
            var last := path.walk[n - 1];
            if |path.outcomes| == n then LeftAs(scope, last, at, after, path.outcomes[n - 1], screen, env)
            else if n > 200 then
              after == at.view && FailsAs(scope, env, "E102105", "The flow did not reach a screen")
            else if last in scope.def.tasks then
              scope.def.tasks[last].kind == Screen && StandsAt(scope, at, after, last, None, env)
            else after == at.view && FailsAs(scope, env, "E102103", "The flow has no task " + last)
  {
    hide Shown, LeftAs, StandsAt, FailsAs, FailedEnvelope, Reads, Ends;
    var n, at := |path.walk|, path.trail[|path.trail| - 1];
    var last := path.walk[n - 1];
    if |path.outcomes| == n {
      WhereItEnds(scope, last, at, after, path.outcomes[n - 1], screen, env);
    } else if n > 200 {
      FailsReads(scope, "E102105", "The flow did not reach a screen");
    } else if last in scope.def.tasks {
      ShownReads(scope, at, after, last, None, env);
    } else {
      FailsReads(scope, "E102103", "The flow has no task " + last);
    }
  }

  // ------------------------------------------------------------ the store

  /** A saved run is stored as it is, with its first age; of the others those stay that are younger than ten minutes. */
  lemma WhatASaveKeeps(runs: map<string, FlowStore.StoredRun>, flowId: string, id: string, v: RunView, now: nat,
                       k: string)
    ensures var saved := Saved(runs, flowId, id, v, now);
            && id in saved
            && saved[id] == FlowStore.StoredRun(id, flowId, v.taskId, v.ctx, v.status,
                                                if id in runs then runs[id].createdAt else now)
            && (k != id ==> (k in saved <==> k in runs && now < runs[k].createdAt + 600))
            && (k != id && k in saved ==> saved[k] == runs[k])
  {
  }

  /** A new run has an empty form, the widget's options and device, and nothing sent, pending, signed in or shown. */
  lemma WhatARunStartsWith(options: Json)
    ensures var ctx := FirstContext(options);
            && GetPath(ctx, ["options"]) == options
            && GetPath(ctx, ["form"]) == GetPath(ctx, ["sentTo"]) == GetPath(ctx, ["pending"]) == Obj(map[])
            && GetPath(ctx, ["deviceInfo"])
               == (if Lookup(options, ["deviceInfo"]).Some? then GetPath(options, ["deviceInfo"]) else Obj(map[]))
            && forall k | k !in {"form", "options", "deviceInfo", "sentTo", "pending"} :: Lookup(ctx, [k]).None?
  {
    var ctx := FirstContext(options);
    ReadOne(ctx, "options");
    ReadOne(ctx, "form");
    ReadOne(ctx, "sentTo");
    ReadOne(ctx, "pending");
    ReadOne(ctx, "deviceInfo");
    ReadOne(options, "deviceInfo");
    assert ["deviceInfo"][1..] == [];
  }

  /** The page a request came from is noted, if it says so by text; nothing else of the run is touched by it. */
  lemma OriginReads(ctx: Json, input: Json, r: Json)
    requires OriginNoted(ctx, input, r) && ctx.Obj?
    ensures GetPath(r, ["origin"])
            == if GetPath(input, ["origin"]).Str? then GetPath(input, ["origin"]) else GetPath(ctx, ["origin"])
    ensures OnlyUnder(ctx, r, {"origin"})
  {
    ReadOne(r, "origin");
    ReadOne(input, "origin");
    ReadOne(ctx, "origin");
    KeysOnly(ctx, r, {"origin"});
  }

  /** A run starts at the start task, with nothing behind it: the widget's options, the page it came from, every field
      it sent under a plain name in the form, and nobody signed in or waited for. */
  lemma WhatAStartHolds(def: FlowDef, options: Json, input: Json, v: RunView, key: string)
    requires JustStarted(def, options, input, v) && (input.Obj? ==> PlainNames(input.fields)) && '.' !in key
    requires key !in {"origin", "transactionId", "response", "failure", "failureReason", "failureMessage", "token",
                      "exchangeCode", "exchangeError", "idpInitiated"}
    ensures v.taskId == def.startTask && v.status == Waiting && v.history == []
    ensures GetPath(v.ctx, ["options"]) == options && GetPath(v.ctx, ["pending"]) == Obj(map[])
    ensures Lookup(v.ctx, ["form", key])
            == if input.Obj? && key in input.fields then Some(input.fields[key]) else None
    ensures GetPath(v.ctx, ["origin"]) == if GetPath(input, ["origin"]).Str? then GetPath(input, ["origin"]) else Null
    ensures GetPath(v.ctx, ["auth"]) == Null
  {
    hide RunOk, OriginNoted, Lists, PlainNames, FirstContext, MergeFields;
    var noted, order :|
      OriginNoted(FirstContext(options), input, noted) && Submitted(noted, input, v.ctx, order);
    OriginReads(FirstContext(options), input, noted);
    StartForm(options, noted, order, input, v.ctx, key);
    forall k | k in ["options", "pending", "origin", "auth"] ensures GetPath(v.ctx, [k]) == GetPath(noted, [k]) {
      MergeKeepsOutsideForm(noted, order, [k]);
    }
    WhatARunStartsWith(options);
    forall k | k in ["options", "pending", "auth"] ensures GetPath(noted, [k]) == GetPath(FirstContext(options), [k]) {
      OnlyUnderReads(FirstContext(options), noted, {"origin"}, [k]);
    }
  }

  lemma StartForm(options: Json, noted: Json, order: seq<Field>, input: Json, ctx: Json, key: string)
    requires OnlyUnder(FirstContext(options), noted, {"origin"}) && Submitted(noted, input, ctx, order)
    requires (input.Obj? ==> PlainNames(input.fields)) && '.' !in key
    requires key !in {"origin", "transactionId", "response", "failure", "failureReason", "failureMessage", "token",
                      "exchangeCode", "exchangeError", "idpInitiated"}
    ensures Lookup(ctx, ["form", key]) == if input.Obj? && key in input.fields then Some(input.fields[key]) else None
  {
    hide Lists, PlainNames, MergeFields;
    if input.Obj? {
      SubmitReads(noted, order, input.fields, key);
    } else {
      NoFields(noted, order);
    }
    NothingTyped(options, key);
    assert Lookup(noted, ["form", key]) == Lookup(FirstContext(options), ["form", key]);
  }

  lemma NoFields(ctx: Json, order: seq<Field>)
    requires order == []
    ensures MergeFields(ctx, order) == ctx
  {
  }

  lemma NothingTyped(options: Json, key: string)
    ensures Lookup(FirstContext(options), ["form", key]).None?
  {
    var path := ["form", key];
    assert path[1..] == [key] && Child(FirstContext(options), "form") == EMPTY;
  }
}
