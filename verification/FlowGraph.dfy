/** The task graph of an exported flow, the edge an interaction takes, and why a walk over a sound graph stops. */
module FlowGraph {
  import opened Wrappers
  import opened Json

  /** How many tasks one request may walk before the engine gives up. */
  const MAX_STEPS: nat := 200

  datatype Rule = Rule(interactionId: string, taskId: Option<string>)

  datatype Atom = Atom(operator: string, target: Json, predicate_: Json)

  datatype Case = Case(interactionId: string, atoms: seq<Atom>)

  datatype Kind = Screen | Condition | Automated | OtherKind

  /** A task as the engine reads it; a field it finds missing or ill-typed reads as its default. */
  datatype Task = Task(
    id: string, kind: Kind, action: string, rules: Option<seq<Rule>>, arguments: Json,
    cases: seq<Case>, contextKeys: seq<string>, name: Json, screenId: string)

  datatype FlowDef = FlowDef(id: string, startTask: string, tasks: map<string, Task>)

  /** The tasks that finish what this task started. */
  function OwnSteps(task: Task): set<string> {
    StepNamed(task, "verifyStepId") + StepNamed(task, "finishStepId") + StepNamed(task, "exchangeStepId")
  }

  function StepNamed(task: Task, name: string): set<string> {
    var v := GetPath(task.arguments, [name, "value"]);
    if v.Str? then {v.s} else {}
  }

  predicate Applies(rule: Rule, interaction: string, own: set<string>) {
    (interaction == "" || rule.interactionId == interaction) && rule.taskId.Some? && rule.taskId.value !in own
  }

  function FirstRule(rules: seq<Rule>, interaction: string, own: set<string>): (r: Option<string>)
    ensures r.None? ==> forall i | 0 <= i < |rules| :: !Applies(rules[i], interaction, own)
    ensures r.Some? ==> exists i | 0 <= i < |rules| ::
              Applies(rules[i], interaction, own) && rules[i].taskId == r
              && forall j | 0 <= j < i :: !Applies(rules[j], interaction, own)
  {
    if rules == [] then None
    else if Applies(rules[0], interaction, own) then rules[0].taskId
    else
      var rest := FirstRule(rules[1..], interaction, own);
      assert forall j | 1 <= j < |rules| :: rules[j] == rules[1..][j - 1];
      assert rest.Some? ==> exists i | 0 <= i < |rules| ::
          Applies(rules[i], interaction, own) && rules[i].taskId == rest
          && forall j | 0 <= j < i :: !Applies(rules[j], interaction, own) by {
        if rest.Some? {
          var k :| 0 <= k < |rules[1..]| && Applies(rules[1..][k], interaction, own) && rules[1..][k].taskId == rest
                   && forall j | 0 <= j < k :: !Applies(rules[1..][j], interaction, own);
          assert Applies(rules[k + 1], interaction, own) && rules[k + 1].taskId == rest;
          assert forall j | 0 <= j < k + 1 :: !Applies(rules[j], interaction, own);
        }
      }
      rest
  }

  /** Where an interaction leads; an empty one takes whatever rule comes first. Finish steps are left to requests that
      name them. */
  function Follow(task: Task, interaction: string): Option<string> {
    if task.rules.None? then None else FirstRule(task.rules.value, interaction, OwnSteps(task))
  }

  /** A step that only a request may name: the one this task's own action finishes in. */
  ghost predicate FinishedBy(task: Task, id: string) {
    || GetPath(task.arguments, ["verifyStepId", "value"]) == Str(id)
    || GetPath(task.arguments, ["finishStepId", "value"]) == Str(id)
    || GetPath(task.arguments, ["exchangeStepId", "value"]) == Str(id)
  }

  /** The i-th rule may be taken on this interaction, to `id`. */
  ghost predicate LeadsFor(task: Task, interaction: string, i: nat, id: string) {
    && task.rules.Some? && i < |task.rules.value| && task.rules.value[i].taskId == Some(id)
    && (interaction == "" || task.rules.value[i].interactionId == interaction)
    && !FinishedBy(task, id)
  }

  lemma OwnStepsIff(task: Task, id: string)
    ensures id in OwnSteps(task) <==> FinishedBy(task, id)
  {
  }

  /** An interaction is followed to where the first rule leads that names it, passing over the task's own finish steps;
      an empty one to where the first rule at all leads. */
  lemma FollowIff(task: Task, interaction: string, id: string)
    ensures Follow(task, interaction) == Some(id)
       <==> exists i: nat :: LeadsFor(task, interaction, i, id)
                             && forall j: nat, other | j < i :: !LeadsFor(task, interaction, j, other)
  {
    hide OwnSteps, FinishedBy;
    if task.rules.Some? {
      var rules, own := task.rules.value, OwnSteps(task);
      forall other ensures other in own <==> FinishedBy(task, other) { OwnStepsIff(task, other); }
      forall i: nat ensures i < |rules| && Applies(rules[i], interaction, own) <==>
                            exists other :: LeadsFor(task, interaction, i, other)
      {
        if i < |rules| && Applies(rules[i], interaction, own) {
          assert LeadsFor(task, interaction, i, rules[i].taskId.value);
        }
      }
      FirstRuleIff(rules, interaction, own, id);
    }
  }

  lemma FirstRuleIff(rules: seq<Rule>, interaction: string, own: set<string>, id: string)
    ensures FirstRule(rules, interaction, own) == Some(id)
       <==> exists i: nat :: i < |rules| && Applies(rules[i], interaction, own) && rules[i].taskId == Some(id)
                             && forall j | 0 <= j < i :: !Applies(rules[j], interaction, own)
  {
    var r := FirstRule(rules, interaction, own);
    if i: nat :| i < |rules| && Applies(rules[i], interaction, own) && rules[i].taskId == Some(id)
                 && forall j | 0 <= j < i :: !Applies(rules[j], interaction, own) {
      var k :| 0 <= k < |rules| && Applies(rules[k], interaction, own) && rules[k].taskId == r
               && forall j | 0 <= j < k :: !Applies(rules[j], interaction, own);
      assert k == i;
    }
  }

  /** The first screen, at most four tasks in along first rules. */
  function StartScreen(def: FlowDef, id: string, left: nat): Option<Task>
    decreases left
  {
    if left == 0 || id !in def.tasks then None
    else
      var task := def.tasks[id];
      if task.kind == Screen then Some(task)
      else if task.rules.None? || task.rules.value == [] || task.rules.value[0].taskId.None? then None
      else StartScreen(def, task.rules.value[0].taskId.value, left - 1)
  }

  /** Tasks in a row, each the target of the first rule of the one before, none before the last a screen. */
  ghost predicate FirstRules(def: FlowDef, ids: seq<string>) {
    && ids != [] && (forall i | 0 <= i < |ids| :: ids[i] in def.tasks)
    && forall i | 0 <= i < |ids| - 1 :: FirstLeads(def, ids[i], ids[i + 1])
  }

  ghost predicate FirstLeads(def: FlowDef, id: string, next: string) {
    && id in def.tasks && def.tasks[id].kind != Screen && def.tasks[id].rules.Some?
    && def.tasks[id].rules.value != [] && def.tasks[id].rules.value[0].taskId == Some(next)
  }

  /** At most `left` tasks along first rules end in this screen. */
  ghost predicate LeadsToScreen(def: FlowDef, ids: seq<string>, id: string, left: nat, screen: Task) {
    FirstRules(def, ids) && ids[0] == id && |ids| <= left && def.tasks[ids[|ids| - 1]] == screen
      && screen.kind == Screen
  }

  lemma FirstRulesOn(def: FlowDef, id: string, ids: seq<string>)
    requires FirstRules(def, ids) && FirstLeads(def, id, ids[0])
    ensures FirstRules(def, [id] + ids)
  {
    var longer := [id] + ids;
    forall i | 0 <= i < |longer| - 1 ensures FirstLeads(def, longer[i], longer[i + 1]) {
      assert i > 0 ==> FirstLeads(def, ids[i - 1], ids[i]);
    }
  }

  lemma FirstRulesAfter(def: FlowDef, ids: seq<string>)
    requires FirstRules(def, ids) && |ids| > 1
    ensures FirstLeads(def, ids[0], ids[1]) && FirstRules(def, ids[1..])
  {
    var rest := ids[1..];
    forall i | 0 <= i < |rest| - 1 ensures FirstLeads(def, rest[i], rest[i + 1]) {
      assert FirstLeads(def, ids[i + 1], ids[i + 2]);
    }
  }

  lemma {:induction false} StartScreenLed(def: FlowDef, id: string, left: nat) returns (ids: seq<string>)
    requires StartScreen(def, id, left).Some?
    ensures LeadsToScreen(def, ids, id, left, StartScreen(def, id, left).value)
    decreases left
  {
    if def.tasks[id].kind == Screen {
      ids := [id];
    } else {
      var rest := StartScreenLed(def, def.tasks[id].rules.value[0].taskId.value, left - 1);
      FirstRulesOn(def, id, rest);
      ids := [id] + rest;
    }
  }

  lemma {:induction false} LedToStartScreen(def: FlowDef, ids: seq<string>, id: string, left: nat, screen: Task)
    requires LeadsToScreen(def, ids, id, left, screen)
    ensures StartScreen(def, id, left) == Some(screen)
    decreases left
  {
    if |ids| > 1 {
      FirstRulesAfter(def, ids);
      LedToStartScreen(def, ids[1..], ids[1], left - 1, screen);
    }
  }

  /** The start screen is the screen that at most `left` tasks along first rules lead to. */
  lemma StartScreenIff(def: FlowDef, id: string, left: nat, screen: Task)
    ensures StartScreen(def, id, left) == Some(screen) <==> exists ids :: LeadsToScreen(def, ids, id, left, screen)
  {
    hide LeadsToScreen;
    if StartScreen(def, id, left) == Some(screen) {
      var ids := StartScreenLed(def, id, left);
    }
    forall ids | LeadsToScreen(def, ids, id, left, screen) ensures StartScreen(def, id, left) == Some(screen) {
      LedToStartScreen(def, ids, id, left, screen);
    }
  }

  // --------------------------------------------------------------- walks

  ghost predicate Walks(def: FlowDef, id: string) {
    id in def.tasks && def.tasks[id].kind != Screen
  }

  ghost predicate Edge(def: FlowDef, a: string, b: string) {
    Walks(def, a) && exists interaction :: Follow(def.tasks[a], interaction) == Some(b)
  }

  /** Consecutive tasks joined by rules; all but perhaps the last are not screens. */
  ghost predicate Walk(def: FlowDef, walk: seq<string>) {
    forall i | 0 <= i < |walk| - 1 :: Edge(def, walk[i], walk[i + 1])
  }

  ghost predicate Acyclic(def: FlowDef) {
    forall walk: seq<string> | |walk| > 1 && Walk(def, walk) && Walks(def, walk[|walk| - 1]) ::
      walk[0] != walk[|walk| - 1]
  }

  ghost predicate TargetsExist(def: FlowDef) {
    forall id, i | id in def.tasks && def.tasks[id].rules.Some? && 0 <= i < |def.tasks[id].rules.value| ::
      def.tasks[id].rules.value[i].taskId.Some? ==> def.tasks[id].rules.value[i].taskId.value in def.tasks
  }

  /** At most 200 tasks, every rule's target exists, and no cycle among tasks that are not screens. */
  ghost predicate Sound(def: FlowDef) {
    |def.tasks| <= MAX_STEPS && TargetsExist(def) && Acyclic(def)
  }

  lemma EdgeTargetExists(def: FlowDef, a: string, b: string)
    requires TargetsExist(def) && Edge(def, a, b)
    ensures b in def.tasks
  {
  }

  lemma {:induction false} Pigeonhole(items: seq<string>, holes: set<string>)
    requires forall i | 0 <= i < |items| :: items[i] in holes
    requires forall i, j | 0 <= i < j < |items| :: items[i] != items[j]
    ensures |items| <= |holes|
  {
    if items != [] {
      var last := items[|items| - 1];
      Pigeonhole(items[..|items| - 1], holes - {last});
    }
  }

  lemma Repeats(def: FlowDef, walk: seq<string>) returns (i: nat, j: nat)
    requires |walk| > |def.tasks| && forall k | 0 <= k < |walk| :: walk[k] in def.tasks
    ensures i < j < |walk| && walk[i] == walk[j]
  {
    if forall i, j | 0 <= i < j < |walk| :: walk[i] != walk[j] {
      Pigeonhole(walk, def.tasks.Keys);
    }
    i, j :| 0 <= i < j < |walk| && walk[i] == walk[j];
  }

  lemma AllExist(def: FlowDef, walk: seq<string>)
    requires TargetsExist(def) && walk != [] && walk[0] in def.tasks && Walk(def, walk)
    ensures forall k | 0 <= k < |walk| :: walk[k] in def.tasks
  {
    forall k | 0 <= k < |walk| ensures walk[k] in def.tasks {
      if k > 0 {
        assert Edge(def, walk[k - 1], walk[k - 1 + 1]);
        EdgeTargetExists(def, walk[k - 1], walk[k]);
      }
    }
  }

  lemma PartOfWalk(def: FlowDef, walk: seq<string>, i: nat, j: nat)
    requires Walk(def, walk) && i < j < |walk|
    ensures Walk(def, walk[i..j + 1]) && Walks(def, walk[i])
  {
    var part := walk[i..j + 1];
    forall k | 0 <= k < |part| - 1 ensures Edge(def, part[k], part[k + 1]) {
      assert part[k] == walk[i + k] && part[k + 1] == walk[i + k + 1];
      assert Edge(def, walk[i + k], walk[i + k + 1]);
    }
    assert Edge(def, walk[i], walk[i + 1]);
  }

  /** On a sound graph no walk makes as many steps as the cap allows. */
  lemma NoWalkReachesTheCap(def: FlowDef, walk: seq<string>)
    requires Sound(def) && walk != [] && walk[0] in def.tasks && Walk(def, walk)
    ensures |walk| <= MAX_STEPS
  {
    if |walk| > MAX_STEPS {
      AllExist(def, walk);
      var i, j := Repeats(def, walk);
      NoRepeats(def, walk, i, j);
    }
  }

  lemma NoRepeats(def: FlowDef, walk: seq<string>, i: nat, j: nat)
    requires Acyclic(def) && Walk(def, walk) && i < j < |walk|
    ensures walk[i] != walk[j]
  {
    PartOfWalk(def, walk, i, j);
    var part := walk[i..j + 1];
    assert part[0] == walk[i] && part[|part| - 1] == walk[j];
  }

  /** Where a task of a kind the engine passes through leads. */
  function Passed(def: FlowDef, id: string): Option<string> {
    if id in def.tasks && def.tasks[id].kind == OtherKind then Follow(def.tasks[id], "") else None
  }

  /** Nothing stops a walk from here for `left` steps. */
  predicate Strays(def: FlowDef, id: string, left: nat)
    decreases left
  {
    left == 0 || (Passed(def, id).Some? && Strays(def, Passed(def, id).value, left - 1))
  }

  /** Nothing but a cap ever stops a walk from here. */
  ghost predicate Endless(def: FlowDef, id: string) {
    forall left: nat :: Strays(def, id, left)
  }

  lemma EndlessOn(def: FlowDef, id: string)
    requires Endless(def, id)
    ensures Passed(def, id).Some? && Endless(def, Passed(def, id).value)
  {
    assert Strays(def, id, 1);
    forall left: nat ensures Strays(def, Passed(def, id).value, left) {
      assert Strays(def, id, left + 1);
    }
  }

  /** Tasks that lead around among themselves. */
  ghost predicate Ring(def: FlowDef, ring: set<string>) {
    forall id {:trigger Passed(def, id)} | id in ring :: Passed(def, id).Some? && Passed(def, id).value in ring
  }

  lemma {:induction false} RingStrays(def: FlowDef, ring: set<string>, id: string, left: nat)
    requires Ring(def, ring) && id in ring
    ensures Strays(def, id, left)
    decreases left
  {
    if left > 0 {
      RingStrays(def, ring, Passed(def, id).value, left - 1);
    }
  }

  /** A walk that enters a ring never leaves it. */
  lemma RingIsEndless(def: FlowDef, ring: set<string>, id: string)
    requires Ring(def, ring) && id in ring
    ensures Endless(def, id)
  {
    forall left: nat ensures Strays(def, id, left) {
      RingStrays(def, ring, id, left);
    }
  }

  /** A task whose first rule leads back to itself is the smallest ring, and makes a graph unsound. */
  lemma SelfLoopReachesTheCap(def: FlowDef, id: string)
    requires id in def.tasks && def.tasks[id].kind == OtherKind && Follow(def.tasks[id], "") == Some(id)
    ensures Endless(def, id) && !Sound(def)
  {
    RingIsEndless(def, {id}, id);
    var twice := [id, id];
    assert Edge(def, id, id);
    assert Walk(def, twice) && Walks(def, twice[1]);
  }
}
