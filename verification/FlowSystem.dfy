/** The emulator over time: any sequence of starts, requests and other calls, and what holds of every run in it. */
module FlowSystem {
  import opened Wrappers
  import opened Json
  import opened FlowGraph
  import opened FlowRun
  import opened FlowState
  import opened FlowPath
  import opened FlowEvidence
  import opened TaskNames
  import opened FlowRequests
  import UserStore

  /** One call on the emulator: a start, a request to a run, or anything else it serves. */
  datatype Call =
    | Starting(moment: Moment, def: FlowDef, options: Json, input: Json, interaction: string, id: string,
               first: RunView,
               after: RunView, reply: Json, path: Path)
    | Serving(moment: Moment, def: FlowDef, request: Request, reply: Json, path: Path)
    | Elsewhere

  /** What one call makes of the world. An execution id is never drawn twice; calls elsewhere may change the stores as
      they like, and drop runs, but work on none. */
  ghost predicate CallOk(host: Host, w: World, call: Call, w': World) {
    match call
    case Starting(moment, def, options, input, interaction, id, first, after, reply, path) =>
      && id !in w.histories
      && Started(Scope(host, moment, def, id), options, input, interaction, first, after, w, w', reply, path)
    case Serving(moment, def, request, reply, path) => Requested(host, moment, def, request, w, w', reply, path)
    case Elsewhere => w'.histories == w.histories && forall id | id in w'.runs ::
                                                       id in w.runs && w'.runs[id] == w.runs[id]
  }

  ghost predicate Joins(host: Host, worlds: seq<World>, calls: seq<Call>, i: nat)
    requires i < |calls| && |worlds| == |calls| + 1
  {
    CallOk(host, worlds[i], calls[i], worlds[i + 1])
  }

  /** The calls led through these worlds, from one without runs. */
  ghost predicate Trace(host: Host, worlds: seq<World>, calls: seq<Call>) {
    && |worlds| == |calls| + 1 && worlds[0].runs == map[] && worlds[0].histories == map[]
    && forall i | 0 <= i < |calls| :: Joins(host, worlds, calls, i)
  }

  /** The call starts the run, or is served by it. */
  ghost predicate Concerns(call: Call, w: World, id: string) {
    match call
    case Starting(_, _, _, _, _, started, _, _, _, _) => started == id
    case Serving(_, _, request, _, _) => request.executionId == id && ViewIn(w, id).Some?
    case Elsewhere => false
  }

  predicate Polls(call: Call) {
    call.Serving? && call.request.interactionId == "polling"
  }

  // ------------------------------------------------------ what calls do to runs

  /** The run a call works on, as the call found it: as stored, or just started. */
  ghost function Found(w: World, call: Call): Option<RunView> {
    match call
    case Starting(_, _, _, _, _, _, first, _, _, _) => Some(first)
    case Serving(_, _, request, _, _) => ViewIn(w, request.executionId)
    case Elsewhere => None
  }

  function Target(call: Call): string {
    match call
    case Starting(_, _, _, _, _, id, _, _, _, _) => id
    case Serving(_, _, request, _, _) => request.executionId
    case Elsewhere => ""
  }

  /** The run found is served and stored again; every other run stays, or is dropped. */
  ghost predicate RunServed(w: World, call: Call, w': World, before: RunView, after: RunView) {
    && !call.Elsewhere? && (call.Starting? ==> call.id !in w.histories)
    && w'.histories == w.histories[Target(call) := after.history] && ViewIn(w', Target(call)) == Some(after)
    && (forall id | id in w'.runs && id != Target(call) :: id in w.runs && w'.runs[id] == w.runs[id])
    && Served(Target(call), before, after, Polls(call), call.reply)
  }

  /** What a call does to the runs. */
  ghost predicate RunsOk(w: World, call: Call, w': World) {
    match Found(w, call)
    case Some(before) => exists after :: RunServed(w, call, w', before, after)
    case None => w'.histories == w.histories && forall id | id in w'.runs :: id in w.runs && w'.runs[id] == w.runs[id]
  }

  lemma StartServes(host: Host, w: World, call: Call, w': World)
    requires CallOk(host, w, call, w') && call.Starting?
    ensures RunServed(w, call, w', call.first, call.after)
  {
    hide Trailed, Went;
  }

  lemma RequestServes(host: Host, w: World, call: Call, w': World)
    requires CallOk(host, w, call, w') && call.Serving?
    ensures RunsOk(w, call, w')
  {
    hide Trailed, WorkedFrom, Served, AnswerOk;
    match ViewIn(w, call.request.executionId) {
      case None =>
      case Some(before) =>
        var scope := Scope(host, call.moment, call.def, call.request.executionId);
        var after :| ServedAs(scope, call.request, w, w', before, after, call.reply, call.path);
        assert RunServed(w, call, w', before, after);
    }
  }

  lemma CallServes(host: Host, w: World, call: Call, w': World)
    requires CallOk(host, w, call, w')
    ensures RunsOk(w, call, w')
  {
    hide RunServed, Started, Requested;
    match call {
      case Starting(_, _, _, _, _, _, _, _, _, _) => StartServes(host, w, call, w');
      case Serving(_, _, _, _, _) => RequestServes(host, w, call, w');
      case Elsewhere =>
    }
  }

  ghost predicate RunsJoin(worlds: seq<World>, calls: seq<Call>, i: nat)
    requires i < |calls| && |worlds| == |calls| + 1
  {
    RunsOk(worlds[i], calls[i], worlds[i + 1])
  }

  /** The runs through a trace of calls. */
  ghost predicate Runs(worlds: seq<World>, calls: seq<Call>) {
    && |worlds| == |calls| + 1 && worlds[0].runs == map[] && worlds[0].histories == map[]
    && forall i | 0 <= i < |calls| :: RunsJoin(worlds, calls, i)
  }

  lemma TraceRuns(host: Host, worlds: seq<World>, calls: seq<Call>)
    requires Trace(host, worlds, calls)
    ensures Runs(worlds, calls)
  {
    hide CallOk, RunsOk;
    forall i | 0 <= i < |calls| ensures RunsJoin(worlds, calls, i) {
      assert Joins(host, worlds, calls, i);
      CallServes(host, worlds[i], calls[i], worlds[i + 1]);
    }
  }

  // ----------------------------------------------------------- the run's log

  /** A call as the run under `id` served it. */
  ghost function ExchangeOf(w: World, call: Call, w': World, id: string): Exchange
    requires Found(w, call).Some? && ViewIn(w', id).Some? && !call.Elsewhere?
  {
    Exchange(Found(w, call).value, ViewIn(w', id).value, Polls(call), call.reply)
  }

  /** The log after one more call. */
  ghost function Logged(log: seq<Exchange>, w: World, call: Call, w': World, id: string): seq<Exchange> {
    if Concerns(call, w, id) && ViewIn(w', id).Some? then log + [ExchangeOf(w, call, w', id)] else log
  }

  /** The calls the run served, from its start on, after `n` calls. */
  ghost function LogOf(worlds: seq<World>, calls: seq<Call>, id: string, n: nat): seq<Exchange>
    requires n <= |calls| < |worlds|
  {
    if n == 0 then [] else Logged(LogOf(worlds, calls, id, n - 1), worlds[n - 1], calls[n - 1], worlds[n], id)
  }

  /** The log is a chain from the start on, and its end is the run as it is stored, as long as it is. */
  ghost predicate LogOk(w: World, id: string, log: seq<Exchange>) {
    && (log != [] <==> id in w.histories) && Chain(id, log)
    && (ViewIn(w, id).Some? ==> log != [] && ViewIn(w, id) == Some(log[|log| - 1].after))
  }

  /** A call that does not concern the run leaves it as it was, or drops it. */
  lemma OthersLeave(w: World, call: Call, w': World, id: string)
    requires RunsOk(w, call, w') && !Concerns(call, w, id)
    ensures ViewIn(w', id) == ViewIn(w, id) || ViewIn(w', id).None?
    ensures id in w'.histories <==> id in w.histories
    ensures id in w.histories ==> w'.histories[id] == w.histories[id]
  {
    hide Served;
  }

  /** A call that concerns the run serves it and stores it again; a start is the first to do so. */
  lemma ConcernedServed(w: World, call: Call, w': World, id: string)
    requires RunsOk(w, call, w') && Concerns(call, w, id)
    ensures Found(w, call).Some? && ViewIn(w', id).Some? && Exchanged(id, ExchangeOf(w, call, w', id))
    ensures id in w'.histories && w'.histories[id] == ViewIn(w', id).value.history
    ensures if call.Starting? then id !in w.histories else ViewIn(w, id) == Found(w, call)
  {
    hide Served;
    var after :| RunServed(w, call, w', Found(w, call).value, after);
    assert ExchangeOf(w, call, w', id) == Exchange(Found(w, call).value, after, Polls(call), call.reply);
  }

  lemma ChainLonger(id: string, served: seq<Exchange>, e: Exchange)
    requires Chain(id, served) && Exchanged(id, e) && (served != [] ==> e.before == served[|served| - 1].after)
    ensures Chain(id, served + [e])
  {
    hide Exchanged;
    var longer := served + [e];
    forall i | 0 <= i < |longer| ensures Exchanged(id, longer[i]) && (i > 0 ==> Follows(longer, i)) {
      if i < |served| {
        assert longer[i] == served[i] && Exchanged(id, served[i]) && (i > 0 ==> Follows(served, i));
      }
    }
  }

  lemma LogStep(w: World, call: Call, w': World, id: string, log: seq<Exchange>)
    requires RunsOk(w, call, w') && LogOk(w, id, log)
    ensures LogOk(w', id, Logged(log, w, call, w', id))
  {
    hide RunsOk, Exchanged, Chain;
    if Concerns(call, w, id) {
      ConcernedServed(w, call, w', id);
      ChainLonger(id, log, ExchangeOf(w, call, w', id));
    } else {
      OthersLeave(w, call, w', id);
    }
  }

  lemma {:induction false} LogIsChain(worlds: seq<World>, calls: seq<Call>, id: string, n: nat)
    requires Runs(worlds, calls) && n <= |calls|
    ensures LogOk(worlds[n], id, LogOf(worlds, calls, id, n))
  {
    hide RunsOk, Exchanged, Chain;
    if n > 0 {
      LogIsChain(worlds, calls, id, n - 1);
      assert RunsJoin(worlds, calls, n - 1);
      LogStep(worlds[n - 1], calls[n - 1], worlds[n], id, LogOf(worlds, calls, id, n - 1));
    } else {
      EmptyChain(id);
    }
  }

  lemma EmptyChain(id: string)
    ensures Chain(id, [])
  {
  }

  /** Whatever calls the emulator serves, its start and the requests served to one run form a chain, and the run as
      stored is the end of it. */
  lemma RequestsFormAChain(host: Host, worlds: seq<World>, calls: seq<Call>, id: string, n: nat)
    requires Trace(host, worlds, calls) && n <= |calls|
    ensures LogOk(worlds[n], id, LogOf(worlds, calls, id, n))
  {
    hide *;
    TraceRuns(host, worlds, calls);
    LogIsChain(worlds, calls, id, n);
  }

  lemma LogGrowsStep(worlds: seq<World>, calls: seq<Call>, id: string, n: nat)
    requires Runs(worlds, calls) && 0 < n <= |calls| && id in worlds[n - 1].histories
    ensures id in worlds[n].histories && LogOf(worlds, calls, id, n - 1) <= LogOf(worlds, calls, id, n)
  {
    hide RunsOk, Exchanged;
    var w, call, w' := worlds[n - 1], calls[n - 1], worlds[n];
    assert RunsJoin(worlds, calls, n - 1);
    if Concerns(call, w, id) {
      ConcernedServed(w, call, w', id);
    } else {
      OthersLeave(w, call, w', id);
    }
  }

  /** A run once started stays in the histories, and its log only grows. */
  lemma {:induction false} LogGrows(worlds: seq<World>, calls: seq<Call>, id: string, m: nat, n: nat)
    requires Runs(worlds, calls) && m <= n <= |calls| && id in worlds[m].histories
    ensures id in worlds[n].histories && LogOf(worlds, calls, id, m) <= LogOf(worlds, calls, id, n)
    decreases n - m
  {
    hide RunsOk, LogOf;
    if m < n {
      LogGrows(worlds, calls, id, m, n - 1);
      LogGrowsStep(worlds, calls, id, n);
    }
  }

  lemma EndInLog(id: string, a: seq<Exchange>, b: seq<Exchange>)
    requires a != [] && a <= b && Chain(id, b) && a[|a| - 1].after.status != Waiting
    ensures SameEnd(a[|a| - 1].after, b[|b| - 1].after)
  {
    hide Exchanged;
    if |a| < |b| {
      assert Follows(b, |a|);
      EndedStaysEnded(id, b, |a|, |b| - 1);
    }
  }

  /** A run that ended stays as it ended for as long as it is stored, whatever is asked of it or of the emulator. */
  lemma EndedRunStays(host: Host, worlds: seq<World>, calls: seq<Call>, id: string, m: nat, n: nat)
    requires Trace(host, worlds, calls) && m <= n <= |calls|
    requires ViewIn(worlds[m], id).Some? && ViewIn(worlds[m], id).value.status != Waiting && ViewIn(worlds[n], id).Some?
    ensures SameEnd(ViewIn(worlds[m], id).value, ViewIn(worlds[n], id).value)
  {
    hide Joins, SameEnd, Chain, LogOf, Runs;
    TraceRuns(host, worlds, calls);
    LogIsChain(worlds, calls, id, m);
    LogIsChain(worlds, calls, id, n);
    LogGrows(worlds, calls, id, m, n);
    EndInLog(id, LogOf(worlds, calls, id, m), LogOf(worlds, calls, id, n));
  }

  /** A call that concerns the run is the next entry of its log. */
  lemma ServedEntry(worlds: seq<World>, calls: seq<Call>, id: string, m: nat)
    requires Runs(worlds, calls) && m < |calls| && Concerns(calls[m], worlds[m], id)
    ensures Found(worlds[m], calls[m]).Some? && ViewIn(worlds[m + 1], id).Some? && id in worlds[m + 1].histories
    ensures LogOf(worlds, calls, id, m + 1) ==
            LogOf(worlds, calls, id, m) + [ExchangeOf(worlds[m], calls[m], worlds[m + 1], id)]
  {
    hide RunsOk, Exchanged;
    assert RunsJoin(worlds, calls, m);
    ConcernedServed(worlds[m], calls[m], worlds[m + 1], id);
  }

  /** The call found the run waiting and ended it. */
  ghost predicate EndsIt(w: World, call: Call, w': World, id: string) {
    && Concerns(call, w, id) && Found(w, call).Some? && Found(w, call).value.status == Waiting
    && ViewIn(w', id).Some? && ViewIn(w', id).value.status != Waiting
  }

  /** The call that ended a run, its own start perhaps, said how; every later poll of that run gets the very same
      envelope if the link was verified, and is told to wait if not. */
  lemma PollsOfAnEndedRun(host: Host, worlds: seq<World>, calls: seq<Call>, id: string, m: nat, n: nat)
    requires Trace(host, worlds, calls) && m < n < |calls|
    requires EndsIt(worlds[m], calls[m], worlds[m + 1], id) && Concerns(calls[n], worlds[n], id) && Polls(calls[n])
    ensures var ended := ViewIn(worlds[m + 1], id).value;
            calls[n].reply == if Verified(ended.ctx) then calls[m].reply else PollEnvelope(id, ended.taskId)
  {
    hide Joins, Chain, LogOf, Runs, Verified, PollEnvelope;
    TraceRuns(host, worlds, calls);
    ServedEntry(worlds, calls, id, m);
    ServedEntry(worlds, calls, id, n);
    LogGrows(worlds, calls, id, m + 1, n);
    LogIsChain(worlds, calls, id, n + 1);
    PollsAfterTheEnd(id, LogOf(worlds, calls, id, n + 1), |LogOf(worlds, calls, id, m)|, |LogOf(worlds, calls, id, n)|);
  }

  // ------------------------------------------------------ where events come from

  ghost function HistoryOf(w: World, id: string): seq<Event> {
    if id in w.histories then w.histories[id] else []
  }

  lemma HistoryStep(worlds: seq<World>, calls: seq<Call>, id: string, m: nat)
    requires Runs(worlds, calls) && m < |calls|
    ensures HistoryOf(worlds[m], id) <= HistoryOf(worlds[m + 1], id)
    ensures !Concerns(calls[m], worlds[m], id) ==> HistoryOf(worlds[m + 1], id) == HistoryOf(worlds[m], id)
  {
    hide RunsOk;
    assert RunsJoin(worlds, calls, m);
    if Concerns(calls[m], worlds[m], id) {
      ConcernedServed(worlds[m], calls[m], worlds[m + 1], id);
      if calls[m].Serving? {
        StoredHistory(worlds, calls, id, m);
      }
    } else {
      OthersLeave(worlds[m], calls[m], worlds[m + 1], id);
    }
  }

  /** A stored run is good, and its history is the one kept for it. */
  lemma StoredHistory(worlds: seq<World>, calls: seq<Call>, id: string, n: nat)
    requires Runs(worlds, calls) && n <= |calls| && ViewIn(worlds[n], id).Some?
    ensures RunOk(ViewIn(worlds[n], id).value) && ViewIn(worlds[n], id).value.history == HistoryOf(worlds[n], id)
  {
    hide RunsJoin, RunOk;
    LogIsChain(worlds, calls, id, n);
    var log := LogOf(worlds, calls, id, n);
    assert Exchanged(id, log[|log| - 1]);
  }

  lemma {:induction false} HistoriesGrow(worlds: seq<World>, calls: seq<Call>, id: string, m: nat, n: nat)
    requires Runs(worlds, calls) && m <= n <= |calls|
    ensures HistoryOf(worlds[m], id) <= HistoryOf(worlds[n], id)
    decreases n - m
  {
    hide RunsJoin, HistoryOf;
    if m < n {
      HistoriesGrow(worlds, calls, id, m, n - 1);
      HistoryStep(worlds, calls, id, n - 1);
    }
  }

  /** The event under `k` was added by that call. */
  ghost predicate AddedBy(worlds: seq<World>, id: string, k: nat, call: nat) {
    call + 1 < |worlds| && |HistoryOf(worlds[call], id)| <= k < |HistoryOf(worlds[call + 1], id)|
  }

  /** Every event of a run was added by one call, which concerned the run. */
  lemma {:induction false} EventAdded(worlds: seq<World>, calls: seq<Call>, id: string, n: nat, k: nat) returns (m: nat)
    requires Runs(worlds, calls) && n <= |calls| && k < |HistoryOf(worlds[n], id)|
    ensures m < n && AddedBy(worlds, id, k, m) && Concerns(calls[m], worlds[m], id)
    ensures HistoryOf(worlds[m + 1], id)[k] == HistoryOf(worlds[n], id)[k]
  {
    hide RunsJoin, Concerns;
    HistoryStep(worlds, calls, id, n - 1);
    if k < |HistoryOf(worlds[n - 1], id)| {
      m := EventAdded(worlds, calls, id, n - 1, k);
    } else {
      m := n - 1;
    }
  }

  lemma CallsInOrder(worlds: seq<World>, calls: seq<Call>, id: string, k: nat, m: nat, l: nat, n: nat)
    requires Runs(worlds, calls) && AddedBy(worlds, id, k, m) && AddedBy(worlds, id, l, n) && k < l
    ensures m <= n
  {
    hide RunsJoin, HistoryOf;
    if n < m {
      HistoriesGrow(worlds, calls, id, n + 1, m);
    }
  }

  // ------------------------------------------------------ who gets signed in

  ghost function ScopeOf(host: Host, call: Call): Scope
    requires !call.Elsewhere?
  {
    Scope(host, call.moment, call.def, Target(call))
  }

  /** The call's path, from the run as the call found it to the run as it is stored, and between the emulator's
      stores. */
  lemma PathOfCall(host: Host, w: World, call: Call, w': World, id: string)
    requires CallOk(host, w, call, w') && Concerns(call, w, id)
    ensures Target(call) == id && Found(w, call).Some? && ViewIn(w', id).Some? && !call.Elsewhere?
    ensures Trailed(ScopeOf(host, call), call.path, Found(w, call).value, ViewIn(w', id).value, w.stores, w'.stores)
  {
    hide Trailed, Went, WorkedFrom, Served, AnswerOk, Handled, JustStarted;
    if call.Serving? {
      var before := ViewIn(w, id).value;
      var scope := Scope(host, call.moment, call.def, id);
      var after :| ServedAs(scope, call.request, w, w', before, after, call.reply, call.path);
    }
  }

  /** What the path was given for its first task that acts is the request's own input; a start gives none. */
  lemma GivenByTheRequest(host: Host, w: World, call: Call, w': World, id: string)
    requires CallOk(host, w, call, w') && Concerns(call, w, id) && call.path.walk != [] && call.path.given.Some?
    ensures call.Serving? && call.path.given == Some(call.request.input)
  {
    hide Trailed, Served, AnswerOk, Handled, JustStarted, OriginNoted, FromForm, PollReply, Entrance, PollNext;
    if call.Serving? {
      var before := ViewIn(w, id).value;
      var scope := Scope(host, call.moment, call.def, id);
      var after :| ServedAs(scope, call.request, w, w', before, after, call.reply, call.path);
      var v: RunView :| v == before.(ctx := v.ctx) && WorkedOn(scope, call.request, call.path, v, after, call.reply);
    }
  }

  /** A step on the path of a call. */
  datatype Place = Place(call: nat, step: nat)

  predicate Earlier(a: Place, b: Place) {
    a.call < b.call || (a.call == b.call && a.step < b.step)
  }

  /** The path leads from these stores to those. */
  ghost predicate Between(scope: Scope, path: Path, s: Stores, t: Stores) {
    && 0 < |path.trail| && path.trail[0].stores == s && path.trail[|path.trail| - 1].stores == t
    && Joined(scope, path, path.trail[0], path.trail[|path.trail| - 1])
  }

  /** The step ran by its task's contract and added `e` to the history under `k`. */
  ghost predicate StepAdded(scope: Scope, path: Path, k: nat, e: Event, step: nat) {
    Stepped(scope, path, step) && Grew(path, k, step) && path.trail[step + 1].view.history[k] == e
  }

  /** A call of the run added `e` under `k`, in this step of a path that began with the emulator's stores as the call
      found them and ended with those it left. */
  ghost predicate HappenedAt(host: Host, worlds: seq<World>, calls: seq<Call>, id: string, k: nat, e: Event, at: Place)
  {
    && at.call < |calls| && |worlds| == |calls| + 1
    && var w, call, w' := worlds[at.call], calls[at.call], worlds[at.call + 1];
    && Concerns(call, w, id) && !call.Elsewhere?
    && Between(ScopeOf(host, call), call.path, w.stores, w'.stores)
    && StepAdded(ScopeOf(host, call), call.path, k, e, at.step)
  }

  lemma FoundHistory(host: Host, w: World, call: Call, w': World, id: string)
    requires CallOk(host, w, call, w') && Concerns(call, w, id)
    ensures Found(w, call).Some? && Found(w, call).value.history == HistoryOf(w, id)
    ensures ViewIn(w', id).Some? && ViewIn(w', id).value.history == HistoryOf(w', id)
  {
    hide CallOk, RunsOk, Served;
    CallServes(host, w, call, w');
    ConcernedServed(w, call, w', id);
    if call.Starting? {
      StartsEmpty(host, w, call, w');
    }
  }

  lemma StartsEmpty(host: Host, w: World, call: Call, w': World)
    requires CallOk(host, w, call, w') && call.Starting?
    ensures call.first.history == []
  {
    hide Trailed, Went, Handled, RunOk;
  }

  lemma TrailBetween(scope: Scope, path: Path, before: RunView, after: RunView, s: Stores, t: Stores)
    requires Trailed(scope, path, before, after, s, t)
    ensures Between(scope, path, s, t)
  {
    hide Joined;
  }

  lemma CallAdds(host: Host, w: World, call: Call, w': World, id: string, k: nat) returns (step: nat)
    requires CallOk(host, w, call, w') && Concerns(call, w, id) && !call.Elsewhere?
    requires |HistoryOf(w, id)| <= k < |HistoryOf(w', id)| && !HistoryOf(w', id)[k].Finished?
    ensures Between(ScopeOf(host, call), call.path, w.stores, w'.stores)
    ensures StepAdded(ScopeOf(host, call), call.path, k, HistoryOf(w', id)[k], step)
  {
    hide CallOk, Trailed, Stepped, Between, HistoryOf, ViewIn, Found;
    FoundHistory(host, w, call, w', id);
    PathOfCall(host, w, call, w', id);
    var before, after := Found(w, call).value, ViewIn(w', id).value;
    TrailBetween(ScopeOf(host, call), call.path, before, after, w.stores, w'.stores);
    step := GrewOnPath(ScopeOf(host, call), call.path, before, after, w.stores, w'.stores, k);
  }

  /** Every event of every run happened in some step of some call. */
  lemma EventHappened(host: Host, worlds: seq<World>, calls: seq<Call>, id: string, n: nat, k: nat, e: Event)
    returns (at: Place)
    requires Trace(host, worlds, calls) && n <= |calls| && k < |HistoryOf(worlds[n], id)|
    requires HistoryOf(worlds[n], id)[k] == e && !e.Finished?
    ensures HappenedAt(host, worlds, calls, id, k, e, at) && AddedBy(worlds, id, k, at.call) && at.call < n
  {
    hide CallOk, Between, StepAdded, HistoryOf, Runs;
    TraceRuns(host, worlds, calls);
    var m := EventAdded(worlds, calls, id, n, k);
    assert Joins(host, worlds, calls, m);
    var step := CallAdds(host, worlds[m], calls[m], worlds[m + 1], id, k);
    at := Place(m, step);
  }

  /** What stands earlier in a history happened earlier. */
  lemma HappenedInOrder(host: Host, worlds: seq<World>, calls: seq<Call>, id: string, k: nat, e: Event, a: Place,
                        l: nat, f: Event, b: Place)
    requires Runs(worlds, calls) && k < l
    requires HappenedAt(host, worlds, calls, id, k, e, a) && AddedBy(worlds, id, k, a.call)
    requires HappenedAt(host, worlds, calls, id, l, f, b) && AddedBy(worlds, id, l, b.call)
    ensures Earlier(a, b)
  {
    hide Stepped, HistoryOf, Concerns, RunsJoin, Joined, Grew;
    CallsInOrder(worlds, calls, id, k, a.call, l, b.call);
    if a.call == b.call {
      var path := calls[a.call].path;
      GrewInOrder(ScopeOf(host, calls[a.call]), path, path.trail[0], path.trail[|path.trail| - 1], k, a.step, l,
                  b.step);
    }
  }

  /** The stores at the step, and after it. */
  ghost function StoresAt(calls: seq<Call>, at: Place): Stores
    requires at.call < |calls| && !calls[at.call].Elsewhere? && at.step < |calls[at.call].path.trail|
  {
    calls[at.call].path.trail[at.step].stores
  }

  ghost function StoresAfter(calls: seq<Call>, at: Place): Stores
    requires at.call < |calls| && !calls[at.call].Elsewhere? && at.step + 1 < |calls[at.call].path.trail|
  {
    calls[at.call].path.trail[at.step + 1].stores
  }

  /** The task that ran at the step. */
  ghost function TaskAt(calls: seq<Call>, at: Place): Task
    requires at.call < |calls| && !calls[at.call].Elsewhere? && at.step < |calls[at.call].path.walk|
    requires calls[at.call].path.walk[at.step] in calls[at.call].def.tasks
  {
    calls[at.call].def.tasks[calls[at.call].path.walk[at.step]]
  }

  /** The request itself brought the evidence, and it was there in the emulator's stores as the request found them. */
  ghost predicate BroughtWith(worlds: seq<World>, calls: seq<Call>, e: Event, at: Place)
    requires e.SignedIn? && at.call < |calls| < |worlds|
  {
    calls[at.call].Serving? && Carries(calls[at.call].request.input, e.evidence) && e.before == worlds[at.call].stores
  }

  /** `e` signed `user` in at that step, in a task whose name says that it does so that way, on evidence that held in
      the stores right then. */
  ghost predicate SignedInAt(host: Host, worlds: seq<World>, calls: seq<Call>, id: string, k: nat, e: Event,
                             user: string, at: Place)
  {
    && HappenedAt(host, worlds, calls, id, k, e, at)
    && e.SignedIn? && e.user == user && EvidenceHolds(host, e)
    && e.before == StoresAt(calls, at) && e.after == StoresAfter(calls, at)
    && MeansAt(calls[at.call].def, calls[at.call].path.walk[at.step]) == MeansOf(e.evidence)
    && SignsInOn(TaskAt(calls, at).action, e.evidence)
    && (Presented(e.evidence) ==> BroughtWith(worlds, calls, e, at))
  }

  /** `e` logged `user` in at that step, the last of its path: stored and not disabled right then, and in the emulator's
      stores as the call left them, with the login noted. */
  ghost predicate LoggedInAt(host: Host, worlds: seq<World>, calls: seq<Call>, id: string, k: nat, e: Event,
                             user: string, at: Place)
  {
    && HappenedAt(host, worlds, calls, id, k, e, at)
    && e == LoggedIn(user, StoresAt(calls, at))
    && MeansAt(calls[at.call].def, calls[at.call].path.walk[at.step]) == Login
    && TaskAt(calls, at).action == "logged-in"
    && LoggedInFrom(user, calls[at.call].moment.now, StoresAt(calls, at), worlds[at.call + 1].stores)
    && StoredEnabled(worlds[at.call + 1].stores.users, user, calls[at.call].moment.now)
  }

  predicate StoredEnabled(users: UserStore.Users, user: string, lastLogin: nat) {
    && user in users.byUserId && users.byUserId[user].status != "disabled"
    && users.byUserId[user].lastLogin == Some(lastLogin)
  }

  lemma SignInBrought(host: Host, worlds: seq<World>, calls: seq<Call>, id: string, k: nat, e: Event, at: Place)
    requires HappenedAt(host, worlds, calls, id, k, e, at) && e.SignedIn? && Presented(e.evidence)
    requires e.before == StoresAt(calls, at) && Joins(host, worlds, calls, at.call)
    ensures BroughtWith(worlds, calls, e, at)
  {
    hide CallOk, TaskRun, Presented, Carries, Concerns, NoneActs;
    var w, call, w' := worlds[at.call], calls[at.call], worlds[at.call + 1];
    var scope, path := ScopeOf(host, call), call.path;
    BroughtToTheFirst(scope, path, k, at.step);
    GivenByTheRequest(host, w, call, w', id);
    NothingActed(scope, path, path.trail[0], path.trail[|path.trail| - 1], at.step);
  }

  /** What a step that added a sign-in says of it. */
  lemma SignInStep(scope: Scope, path: Path, k: nat, e: Event, i: nat)
    requires StepAdded(scope, path, k, e, i) && e.SignedIn?
    ensures i < |path.walk| && i + 1 < |path.trail| && path.walk[i] in scope.def.tasks
    ensures SignsInOn(scope.def.tasks[path.walk[i]].action, e.evidence)
    ensures EvidenceHolds(scope.host, e) && MeansAt(scope.def, path.walk[i]) == MeansOf(e.evidence)
    ensures e.before == path.trail[i].stores && e.after == path.trail[i + 1].stores
  {
    hide TaskRun, EvidenceHolds, MeansAt, SignsInOn;
    StepByName(scope, path, i);
    StepEvidence(scope, path, i);
    StepAdds(scope, path, i);
  }

  lemma SignInHappened(host: Host, worlds: seq<World>, calls: seq<Call>, id: string, k: nat, e: Event, at: Place)
    requires HappenedAt(host, worlds, calls, id, k, e, at) && e.SignedIn? && Joins(host, worlds, calls, at.call)
    ensures SignedInAt(host, worlds, calls, id, k, e, e.user, at)
  {
    hide CallOk, StepAdded, Between, EvidenceHolds, MeansAt, SignsInOn, BroughtWith, Concerns, Presented;
    SignInStep(ScopeOf(host, calls[at.call]), calls[at.call].path, k, e, at.step);
    if Presented(e.evidence) {
      SignInBrought(host, worlds, calls, id, k, e, at);
    }
  }

  lemma LoginHappened(host: Host, worlds: seq<World>, calls: seq<Call>, id: string, k: nat, e: Event, at: Place)
    requires HappenedAt(host, worlds, calls, id, k, e, at) && e.LoggedIn?
    ensures LoggedInAt(host, worlds, calls, id, k, e, e.user, at)
  {
    hide TaskRun, EvidenceHolds, Concerns;
    var call := calls[at.call];
    var scope, path := ScopeOf(host, call), call.path;
    StepAdds(scope, path, at.step);
    StepByName(scope, path, at.step);
    LoginIsLast(scope, path, k, at.step);
  }

  /** A run of a flow completes only for a user who was signed in by one of the six ways in one step of one call for
      that run, on evidence that held in the stores at that step; a link, a response or a provider's code came with the
      request and was good in the emulator's stores as the request found them. At a later step, the last of its call,
      with no sign-in since, the user was stored and not disabled, and is so in the emulator's stores as that call left
      them. All this whatever else the emulator served meanwhile. */
  lemma WhoGetsSignedIn(host: Host, worlds: seq<World>, calls: seq<Call>, id: string, n: nat)
    returns (i: nat, j: nat, a: Place, b: Place)
    requires Trace(host, worlds, calls) && n <= |calls|
    requires ViewIn(worlds[n], id).Some? && ViewIn(worlds[n], id).value.status == Completed
    ensures var v := ViewIn(worlds[n], id).value;
            && AuthUser(v.ctx).Some? && i < j < |v.history|
            && SignedInAt(host, worlds, calls, id, i, v.history[i], AuthUser(v.ctx).value, a)
            && LoggedInAt(host, worlds, calls, id, j, v.history[j], AuthUser(v.ctx).value, b)
            && Earlier(a, b) && b.call < n
            && forall k | i < k < |v.history| :: !v.history[k].SignedIn?
  {
    hide CallOk, Runs, RunOk, SignedInAt, LoggedInAt, HappenedAt, AddedBy, Joins, AuthUser, HistoryOf;
    var v := ViewIn(worlds[n], id).value;
    TraceRuns(host, worlds, calls);
    StoredHistory(worlds, calls, id, n);
    i, j := CompletedAfterSignIn(v);
    a := EventHappened(host, worlds, calls, id, n, i, v.history[i]);
    b := EventHappened(host, worlds, calls, id, n, j, v.history[j]);
    SignInHappened(host, worlds, calls, id, i, v.history[i], a);
    LoginHappened(host, worlds, calls, id, j, v.history[j], b);
    HappenedInOrder(host, worlds, calls, id, i, v.history[i], a, j, v.history[j], b);
  }
}
