/** How a request went through the graph: its steps, each with the run and the stores before and after it. */
module FlowPath {
  import opened Wrappers
  import opened Json
  import opened FlowGraph
  import opened FlowRun
  import opened FlowConditions
  import opened FlowState
  import opened FlowContext
  import opened FlowPerform
  import WebAuthnStore

  predicate Acts(def: FlowDef, id: string) {
    id in def.tasks && def.tasks[id].kind == Automated
  }

  /** What the task under `id` may do about the signed-in user. */
  ghost function MeansAt(def: FlowDef, id: string): Means {
    if Acts(def, id) then MeansFor(ActionOf(def.tasks[id].action)) else NoMeans
  }

  /** A task that is not a screen: its action by its contract, the branch its conditions take on the full context, or
      nothing. Only an action changes the run or a store. */
  ghost predicate TaskRun(scope: Scope, task: Task, input: Json, a: Snapshot, b: Snapshot, o: Outcome) {
    match task.kind
    case Automated => WebAuthnStore.Good(a.stores.passkeys) && Ran(scope, task, ActionOf(task.action), input, a, b, o)
    case Condition =>
      && b == a
      && exists full ::
           IsFullContext(scope, a.stores, a.view.ctx, full) && o == Interaction(BranchOf(scope.host, task.cases, full))
    case OtherKind => b == a && o == Interaction("")
    case Screen => false
  }

  /** The rule a task's outcome takes. */
  ghost predicate LeadsTo(task: Task, o: Outcome, next: string) {
    o.Interaction? && Follow(task, o.name) == Some(next)
  }

  /** The tasks a request came to, what the widget sent for the first of them that acts, the run and the stores before
      each task and after the last, and how each came out. */
  datatype Path = Path(walk: seq<string>, given: Option<Json>, trail: seq<Snapshot>, outcomes: seq<Outcome>)

  /** No task before `i` acts. */
  ghost predicate NoneActs(def: FlowDef, walk: seq<string>, i: nat)
    requires i <= |walk|
  {
    forall j | 0 <= j < i :: !Acts(def, walk[j])
  }

  /** What the i-th task on the path gets of the widget's input: the first that acts all of it, any other none. */
  ghost function InputAt(def: FlowDef, path: Path, i: nat): Json
    requires i < |path.walk|
  {
    if path.given.Some? && NoneActs(def, path.walk, i) then path.given.value else EMPTY
  }

  /** The i-th task of the path ran, and its outcome led to the next task, if there is one. */
  ghost predicate Stepped(scope: Scope, path: Path, i: nat) {
    && i < |path.walk| && i + 1 < |path.trail| && i < |path.outcomes|
    && var id, o := path.walk[i], path.outcomes[i];
    && id in scope.def.tasks
    && (i + 1 < |path.walk| ==> LeadsTo(scope.def.tasks[id], o, path.walk[i + 1]))
    && TaskRun(scope, scope.def.tasks[id], InputAt(scope.def, path, i), path.trail[i], path.trail[i + 1], o)
  }

  /** Step by step along the path, from `a` to `b`. */
  ghost predicate Joined(scope: Scope, path: Path, a: Snapshot, b: Snapshot) {
    && |path.trail| == |path.outcomes| + 1 <= |path.walk| + 1
    && path.trail[0] == a && path.trail[|path.outcomes|] == b
    && forall i | 0 <= i < |path.outcomes| :: Stepped(scope, path, i)
  }

  /** The path of a request that runs no task. */
  ghost function NoPath(a: Snapshot): Path {
    Path([], None, [a], [])
  }

  /** The path after one more step, to `b` with the outcome `o`. */
  ghost function StepOn(path: Path, b: Snapshot, o: Outcome): Path {
    path.(trail := path.trail + [b], outcomes := path.outcomes + [o])
  }

  /** The path at its next task. */
  ghost function WalkOn(path: Path, next: string): Path {
    path.(walk := path.walk + [next])
  }

  /** A step of a path whose walk and trail are longer, but the same up to and after that step. */
  lemma SteppedStays(scope: Scope, path: Path, path': Path, i: nat)
    requires path.walk <= path'.walk && path.trail <= path'.trail && path.outcomes <= path'.outcomes
    requires path'.given == path.given && (i + 1 < |path'.walk| ==> i + 1 < |path.walk|)
    requires Stepped(scope, path, i)
    ensures Stepped(scope, path', i)
  {
    hide TaskRun;
    assert path'.walk[i] == path.walk[i] && path'.outcomes[i] == path.outcomes[i];
    assert path'.trail[i] == path.trail[i] && path'.trail[i + 1] == path.trail[i + 1];
    assert NoneActs(scope.def, path'.walk, i) == NoneActs(scope.def, path.walk, i) by {
      assert forall j | 0 <= j < i :: path'.walk[j] == path.walk[j];
    }
  }

  /** The last task of the walk took its step. */
  lemma JoinedStep(scope: Scope, path: Path, a: Snapshot, m: Snapshot, b: Snapshot, o: Outcome)
    requires |path.walk| == |path.outcomes| + 1 && path.walk[|path.outcomes|] in scope.def.tasks
    requires TaskRun(scope, scope.def.tasks[path.walk[|path.outcomes|]], InputAt(scope.def, path, |path.outcomes|), m,
                     b, o)
    requires Joined(scope, path, a, m)
    ensures Joined(scope, StepOn(path, b, o), a, b)
  {
    hide TaskRun;
    var path' := StepOn(path, b, o);
    forall i | 0 <= i < |path'.outcomes| ensures Stepped(scope, path', i) {
      if i < |path.outcomes| {
        SteppedStays(scope, path, path', i);
      } else {
        assert InputAt(scope.def, path', i) == InputAt(scope.def, path, i);
      }
    }
  }

  /** The walk goes on to one more task. */
  lemma JoinedLonger(scope: Scope, path: Path, next: string, a: Snapshot, b: Snapshot)
    requires 0 < |path.walk| == |path.outcomes|
    requires var id := path.walk[|path.walk| - 1];
             id in scope.def.tasks && LeadsTo(scope.def.tasks[id], path.outcomes[|path.walk| - 1], next)
    requires Joined(scope, path, a, b)
    ensures Joined(scope, WalkOn(path, next), a, b)
  {
    hide TaskRun;
    var path' := WalkOn(path, next);
    forall i | 0 <= i < |path'.outcomes| ensures Stepped(scope, path', i) {
      assert Stepped(scope, path, i);
      if i + 1 < |path.walk| {
        SteppedStays(scope, path, path', i);
      } else {
        LastLeadsOn(scope, path, next, i);
      }
    }
  }

  lemma LastLeadsOn(scope: Scope, path: Path, next: string, i: nat)
    requires i + 1 == |path.walk| == |path.outcomes| && |path.trail| == |path.outcomes| + 1
    requires path.walk[i] in scope.def.tasks && LeadsTo(scope.def.tasks[path.walk[i]], path.outcomes[i], next)
    requires Stepped(scope, path, i)
    ensures Stepped(scope, WalkOn(path, next), i)
  {
    hide TaskRun;
    var path' := WalkOn(path, next);
    assert path'.walk[i] == path.walk[i] && path'.walk[i + 1] == next;
    assert NoneActs(scope.def, path'.walk, i) == NoneActs(scope.def, path.walk, i) by {
      assert forall j | 0 <= j < i :: path'.walk[j] == path.walk[j];
    }
  }

  // -------------------------------------------------- what a path added

  /** The step added the event under `k` to the history. */
  ghost predicate Grew(path: Path, k: nat, i: nat) {
    i + 1 < |path.trail| && |path.trail[i].view.history| == k < |path.trail[i + 1].view.history|
  }

  /** An event more at most, of the kind the task may add, between the stores around it. */
  lemma StepAdds(scope: Scope, path: Path, i: nat)
    requires Stepped(scope, path, i)
    ensures var a, b := path.trail[i], path.trail[i + 1];
            AddsOnly(a.view.history, b.view.history, MeansAt(scope.def, path.walk[i]), a.stores, b.stores)
  {
    hide Contract, IsFullContext, BranchOf;
  }

  /** The history only grows along a path. */
  lemma {:induction false} HistoryAlong(scope: Scope, path: Path, a: Snapshot, b: Snapshot, i: nat, j: nat)
    requires Joined(scope, path, a, b) && i <= j < |path.trail|
    ensures path.trail[i].view.history <= path.trail[j].view.history
    decreases j
  {
    hide Stepped;
    if i < j {
      HistoryAlong(scope, path, a, b, i, j - 1);
      StepAdds(scope, path, j - 1);
    }
  }

  /** An event the path added up to a point was added by one of the steps up to there. */
  lemma {:induction false} GrewBefore(scope: Scope, path: Path, a: Snapshot, b: Snapshot, k: nat, j: nat)
    returns (i: nat)
    requires Joined(scope, path, a, b) && j < |path.trail| && |a.view.history| <= k < |path.trail[j].view.history|
    ensures i < j && Grew(path, k, i)
  {
    hide Stepped;
    if k < |path.trail[j - 1].view.history| {
      i := GrewBefore(scope, path, a, b, k, j - 1);
    } else {
      StepAdds(scope, path, j - 1);
      i := j - 1;
    }
  }

  /** What stands earlier in the history was added by an earlier step. */
  lemma GrewInOrder(scope: Scope, path: Path, a: Snapshot, b: Snapshot, k: nat, i: nat, l: nat, j: nat)
    requires Joined(scope, path, a, b) && Grew(path, k, i) && Grew(path, l, j) && k < l
    ensures i < j
  {
    hide Stepped;
    if j <= i {
      HistoryAlong(scope, path, a, b, j, i);
    }
  }

  // ------------------------------------------------------- whole requests

  /** Nothing about the pending link changed. */
  ghost predicate SameLink(c: Json, d: Json) {
    CtxOk(c) && CtxOk(d) && MagicLink(d) == MagicLink(c)
  }

  /** What a request does before it walks leaves history and pending link. */
  ghost predicate Enters(before: RunView, v: RunView) {
    SameLink(before.ctx, v.ctx) && v.history == before.history
  }

  /** What a request does after its walk leaves the pending link, and notes at most that the run finished. */
  ghost predicate Leaves(v: RunView, after: RunView) {
    && SameLink(v.ctx, after.ctx)
    && (after.history == v.history || exists env :: after.history == v.history + [Finished(env)])
  }

  /** The path leads from what the request found to what it left; all but perhaps the last of its tasks ran. */
  ghost predicate Trailed(scope: Scope, path: Path, before: RunView, after: RunView, s: Stores, t: Stores) {
    && 0 < |path.trail| && |path.walk| <= |path.trail|
    && var a, b := path.trail[0], path.trail[|path.trail| - 1];
    && a.stores == s && b.stores == t && Enters(before, a.view) && Leaves(b.view, after)
    && Joined(scope, path, a, b)
  }

  /** The run as the first task of the path found it. */
  ghost predicate Begins(path: Path, v: RunView) {
    path.trail != [] && path.trail[0].view == v
  }

  lemma NoPathTrailed(scope: Scope, v: RunView, s: Stores)
    requires CtxOk(v.ctx)
    ensures Trailed(scope, NoPath(Snapshot(s, v)), v, v, s, s)
  {
    hide Stepped;
  }

  /** The walk so far: from `first` to `taskId`, which is yet to run. */
  ghost predicate Underway(scope: Scope, path: Path, first: string, taskId: string, a: Snapshot, now: Snapshot) {
    && path.walk != [] && path.walk[0] == first && path.walk[|path.walk| - 1] == taskId && Walk(scope.def, path.walk)
    && |path.trail| == |path.walk| && Joined(scope, path, a, now)
  }

  lemma UnderwayFirst(scope: Scope, path: Path, first: string, a: Snapshot)
    requires path.walk == [first] && path.trail == [a] && path.outcomes == []
    ensures Underway(scope, path, first, first, a, a)
  {
    hide Stepped;
  }

  lemma LongerWalk(def: FlowDef, walk: seq<string>, next: string)
    requires Walk(def, walk) && walk != [] && Edge(def, walk[|walk| - 1], next)
    ensures Walk(def, walk + [next])
  {
    var longer := walk + [next];
    forall i | 0 <= i < |longer| - 1 ensures Edge(def, longer[i], longer[i + 1]) {
      if i < |walk| - 1 {
        assert Edge(def, walk[i], walk[i + 1]);
      }
    }
  }

  /** The task at the end of the walk ran, and led on. */
  lemma UnderwayOn(scope: Scope, path: Path, first: string, taskId: string, next: string, input: Json, a: Snapshot,
                   m: Snapshot, b: Snapshot, o: Outcome)
    requires taskId in scope.def.tasks && scope.def.tasks[taskId].kind != Screen
             && LeadsTo(scope.def.tasks[taskId], o, next)
    requires |path.walk| > 0 && (Acts(scope.def, taskId) ==> input == InputAt(scope.def, path, |path.walk| - 1))
    requires Underway(scope, path, first, taskId, a, m) && TaskRun(scope, scope.def.tasks[taskId], input, m, b, o)
    ensures Underway(scope, WalkOn(StepOn(path, b, o), next), first, next, a, b)
  {
    hide Stepped, TaskRun;
    AnyInput(scope, path, taskId, input, m, b, o);
    JoinedStep(scope, path, a, m, b, o);
    JoinedLonger(scope, StepOn(path, b, o), next, a, b);
    assert Edge(scope.def, taskId, next);
    LongerWalk(scope.def, path.walk, next);
  }

  /** A task that does not act does not look at its input. */
  lemma AnyInput(scope: Scope, path: Path, taskId: string, input: Json, m: Snapshot, b: Snapshot, o: Outcome)
    requires 0 < |path.walk| && taskId in scope.def.tasks
    requires Acts(scope.def, taskId) ==> input == InputAt(scope.def, path, |path.walk| - 1)
    requires TaskRun(scope, scope.def.tasks[taskId], input, m, b, o)
    ensures TaskRun(scope, scope.def.tasks[taskId], InputAt(scope.def, path, |path.walk| - 1), m, b, o)
  {
    hide Ran, IsFullContext, BranchOf;
  }

  /** The walk stops before its last task. */
  lemma TrailedBefore(scope: Scope, path: Path, first: string, taskId: string, a: Snapshot, b: Snapshot, after: RunView)
    requires CtxOk(a.view.ctx) && Leaves(b.view, after)
    requires Underway(scope, path, first, taskId, a, b)
    ensures Trailed(scope, path, a.view, after, a.stores, b.stores) && Begins(path, a.view)
  {
    hide Stepped;
  }

  /** The walk stops at its last task. */
  lemma TrailedAt(scope: Scope, path: Path, first: string, taskId: string, input: Json, a: Snapshot, m: Snapshot,
                  b: Snapshot, o: Outcome, after: RunView)
    requires taskId in scope.def.tasks && CtxOk(a.view.ctx) && Leaves(b.view, after)
    requires |path.walk| > 0 && (Acts(scope.def, taskId) ==> input == InputAt(scope.def, path, |path.walk| - 1))
    requires Underway(scope, path, first, taskId, a, m) && TaskRun(scope, scope.def.tasks[taskId], input, m, b, o)
    ensures Trailed(scope, StepOn(path, b, o), a.view, after, a.stores, b.stores) && Begins(StepOn(path, b, o), a.view)
  {
    hide Stepped, TaskRun;
    AnyInput(scope, path, taskId, input, m, b, o);
    JoinedStep(scope, path, a, m, b, o);
  }

  /** What a request did before it walked, put in front. */
  lemma TrailedFrom(scope: Scope, path: Path, before: RunView, v: RunView, after: RunView, s: Stores, t: Stores)
    requires Enters(before, v) && Trailed(scope, path, v, after, s, t)
    ensures Trailed(scope, path, before, after, s, t)
  {
    hide Joined;
  }

  /** The history after the request is that of the path, and perhaps the note that the run finished. */
  lemma TrailHistory(scope: Scope, path: Path, before: RunView, after: RunView, s: Stores, t: Stores)
    requires Trailed(scope, path, before, after, s, t)
    ensures var last := path.trail[|path.trail| - 1].view.history;
            && before.history <= last <= after.history && path.trail[0].view.history == before.history
            && forall k | |last| <= k < |after.history| :: after.history[k].Finished?
  {
    hide Stepped;
    HistoryAlong(scope, path, path.trail[0], path.trail[|path.trail| - 1], 0, |path.trail| - 1);
  }

  /** An event the request added, other than its end, was added by one step of its path. */
  lemma GrewOnPath(scope: Scope, path: Path, before: RunView, after: RunView, s: Stores, t: Stores, k: nat)
    returns (i: nat)
    requires Trailed(scope, path, before, after, s, t)
    requires |before.history| <= k < |after.history| && !after.history[k].Finished?
    ensures Stepped(scope, path, i) && Grew(path, k, i) && path.trail[i + 1].view.history[k] == after.history[k]
  {
    hide Stepped;
    var a, b := path.trail[0], path.trail[|path.trail| - 1];
    TrailHistory(scope, path, before, after, s, t);
    i := GrewBefore(scope, path, a, b, k, |path.trail| - 1);
    HistoryAlong(scope, path, a, b, i + 1, |path.trail| - 1);
  }
}
