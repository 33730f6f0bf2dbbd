/** The stored runs of exported flows, and the risk scores tests can set. */
module FlowStore {
  import opened Clock
  import opened Wrappers
  import opened Json
  import opened FlowRun

  /** How long a run lives, whatever happens in it. */
  const FLOW_TTL_SECS: nat := 600

  datatype StoredRun = StoredRun(
    executionId: string, flowId: string, taskId: string, context: Json, status: FlowStatus, createdAt: nat)

  function Unexpired(runs: map<string, StoredRun>, now: nat): map<string, StoredRun> {
    map id | id in runs && Elapsed(now, runs[id].createdAt) < FLOW_TTL_SECS :: runs[id]
  }

  function FirstScore(scores: map<string, real>, lower: string -> string, loginIds: seq<string>): Option<real> {
    if loginIds == [] then None
    else if lower(loginIds[0]) in scores then Some(scores[lower(loginIds[0])])
    else FirstScore(scores, lower, loginIds[1..])
  }

  /** The first known score among the login ids, else the default, else none at all. */
  function ScoreOf(scores: map<string, real>, default: Option<real>, lower: string -> string, loginIds: seq<string>)
    : real
  {
    var known := FirstScore(scores, lower, loginIds);
    if known.Some? then known.value else if default.Some? then default.value else 0.0
  }

  ghost function FindIn(runs: map<string, StoredRun>, histories: map<string, seq<Event>>, id: string): Option<RunView> {
    if id !in runs then None
    else Some(RunView(runs[id].taskId, runs[id].context, runs[id].status, if id in histories then histories[id]
                                                                          else []))
  }

  ghost predicate StoredOk(runs: map<string, StoredRun>, histories: map<string, seq<Event>>) {
    forall id | id in runs :: runs[id].executionId == id && RunOk(FindIn(runs, histories, id).value)
  }

  class FlowStore {
    var runs: map<string, StoredRun>
    var riskScores: map<string, real>
    var defaultRiskScore: Option<real>
    /** What happened in each run so far. */
    ghost var histories: map<string, seq<Event>>

    /** The stored run under `id`, as requests see it. */
    ghost function Find(id: string): Option<RunView>
      reads this
    {
      FindIn(runs, histories, id)
    }

    ghost predicate Valid()
      reads this
    {
      StoredOk(runs, histories)
    }

    constructor ()
      ensures Valid() && runs == map[]
    {
      runs, riskScores, defaultRiskScore, histories := map[], map[], None, map[];
    }

    method SweepExpired(now: nat)
      modifies this`runs
      ensures runs == Unexpired(old(runs), now)
    {
      runs := map id | id in runs && Elapsed(now, runs[id].createdAt) < FLOW_TTL_SECS :: runs[id];
    }

    method InsertRun(run: StoredRun, ghost history: seq<Event>)
      modifies this`runs, this`histories
      ensures runs == old(runs)[run.executionId := run]
      ensures histories == old(histories)[run.executionId := history]
    {
      runs := runs[run.executionId := run];
      histories := histories[run.executionId := history];
    }

    method RiskScore(lower: string -> string, loginIds: seq<string>) returns (score: real)
      ensures score == ScoreOf(riskScores, defaultRiskScore, lower, loginIds)
    {
      var i := 0;
      while i < |loginIds|
        invariant 0 <= i <= |loginIds|
        invariant FirstScore(riskScores, lower, loginIds) == FirstScore(riskScores, lower, loginIds[i..])
      {
        assert loginIds[i..][0] == loginIds[i] && loginIds[i..][1..] == loginIds[i + 1..];
        if lower(loginIds[i]) in riskScores {
          return riskScores[lower(loginIds[i])];
        }
        i := i + 1;
      }
      assert loginIds[i..] == [];
      return if defaultRiskScore.Some? then defaultRiskScore.value else 0.0;
    }
  }

  /** The last sign-in link sent to a login id. */
  datatype SentLink = SentLink(token: string, link: string, executionId: string)

  class SentLinks {
    const lower: string -> string
    var links: map<string, SentLink>

    constructor (lower: string -> string)
      ensures this.lower == lower && links == map[]
    {
      this.lower, links := lower, map[];
    }

    /** Under each of the two ids; a later link to the same id replaces an earlier one. */
    method Record(email: string, loginId: string, link: SentLink)
      modifies this
      ensures links == old(links)[lower(email) := link][lower(loginId) := link]
    {
      links := links[lower(email) := link];
      links := links[lower(loginId) := link];
    }
  }
}
