/** `airflow-dag-check`: choose the DAG ids (the configured list, or every
    id the server lists), evaluate each DAG on its own, and aggregate the
    per-DAG states into one. */
module DagCheck {
  import opened Plugin

  /** The settings of this binary: the shared ones and the `--dag` list. */
  datatype Config = Config(settings: Settings, dags: seq<string>)

  datatype Dag = Dag(dagId: string, isPaused: bool)

  /** The decoded `/dags` answer: one page of DAGs and the server's total. */
  datatype DagList = DagList(dags: seq<Dag>, totalEntries: int)

  datatype DagRun = DagRun(state: string)

  /** The decoded `/dags/{id}/dagRuns` answer. */
  datatype DagRunList = DagRunList(dagRuns: seq<DagRun>, totalEntries: int)

  /** A `GET /dags/{id}/dagRuns?limit=..&offset=..` request. */
  datatype RunsQuery = RunsQuery(dagId: string, limit: int, offset: int)

  /** What the server answers to each request of this check: the DAG list,
      a DAG by id, and a page of runs. */
  datatype Airflow = Airflow(
    allDags: Result<DagList, FetchError>,
    dag: string -> Result<Dag, FetchError>,
    dagRuns: RunsQuery -> Result<DagRunList, FetchError>)

  const FailedState := "failed"

  // ---------------------------------------------------------------------
  // The DAG ids to check

  /** The id list built from the `/dags` answer: a list of `totalEntries`
      ids whose first entries are the returned DAGs' ids and whose remaining
      entries stay empty. `None` when building it panics: a negative total
      (the allocation) or more DAGs than the total (the indexing). */
  function DiscoveredIds(list: DagList): (r: Option<seq<string>>)
    ensures r.None? <==> list.totalEntries < 0 || |list.dags| > list.totalEntries
    ensures r.Some? ==> |r.value| == list.totalEntries
    ensures r.Some? ==> forall i :: 0 <= i < |list.dags| ==> r.value[i] == list.dags[i].dagId
    ensures r.Some? ==> forall i :: |list.dags| <= i < |r.value| ==> r.value[i] == ""
  {
    if list.totalEntries < 0 || |list.dags| > list.totalEntries then None
    else Some(seq(list.totalEntries, i requires 0 <= i < list.totalEntries =>
      if i < |list.dags| then list.dags[i].dagId else ""))
  }

  /** The id list as the source builds it: a slice of `totalEntries` empty
      strings filled by index from the returned DAGs. */
  method FillDagIds(list: DagList) returns (ids: Option<seq<string>>)
    ensures ids == DiscoveredIds(list)
  {
    if list.totalEntries < 0 {
      return None;
    }
    var dags := new string[list.totalEntries](_ => "");
    for i := 0 to |list.dags|
      invariant i <= dags.Length
      invariant forall k :: 0 <= k < i ==> dags[k] == list.dags[k].dagId
      invariant forall k :: i <= k < dags.Length ==> dags[k] == ""
    {
      if i >= dags.Length {
        return None;
      }
      dags[i] := list.dags[i].dagId;
    }
    ghost var expected := DiscoveredIds(list).value;
    assert forall k :: 0 <= k < dags.Length ==> dags[..][k] == expected[k];
    assert dags[..] == expected;
    return Some(dags[..]);
  }

  /** A page shorter than the total puts an empty id on the list. */
  lemma ShortPageAddsEmptyId()
    ensures DiscoveredIds(DagList([Dag("a", false)], 2)) == Some(["a", ""])
  {
    var ids := DiscoveredIds(DagList([Dag("a", false)], 2)).value;
    assert |ids| == 2 && ids[0] == "a" && ids[1] == "";
    assert ids == ["a", ""];
  }

  // ---------------------------------------------------------------------
  // The latest run of one DAG

  /** The answer of `getLatestDagRun` and the run requests it made. */
  datatype RunLookup = RunLookup(latest: Result<Option<DagRun>, FetchError>, queries: seq<RunsQuery>)

  /** `getLatestDagRun`: one run at offset 0 learns the total; a zero total
      means no run yet, otherwise the run at offset total - 1 is fetched. */
  function LatestDagRun(dagId: string, dagRuns: RunsQuery -> Result<DagRunList, FetchError>): (r: RunLookup)
    ensures 1 <= |r.queries| <= 2 && r.queries[0] == RunsQuery(dagId, 1, 0)
    ensures |r.queries| == 2 <==>
      dagRuns(r.queries[0]).Success? && dagRuns(r.queries[0]).value.totalEntries != 0
    ensures |r.queries| == 2 ==>
      r.queries[1] == RunsQuery(dagId, 1, dagRuns(r.queries[0]).value.totalEntries - 1)
    ensures r.latest.Failure? <==> dagRuns(r.queries[|r.queries| - 1]).Failure?
    ensures r.latest.Failure? ==> r.latest.error == dagRuns(r.queries[|r.queries| - 1]).error
    ensures r.latest.Success? && r.latest.value.Some? ==>
      |r.queries| == 2 && dagRuns(r.queries[1]).Success? &&
      |dagRuns(r.queries[1]).value.dagRuns| > 0 &&
      r.latest.value.value == dagRuns(r.queries[1]).value.dagRuns[0]
    ensures r.latest == Success(None) <==>
      || (|r.queries| == 1 && dagRuns(r.queries[0]).Success?)
      || (|r.queries| == 2 && dagRuns(r.queries[1]).Success? && dagRuns(r.queries[1]).value.dagRuns == [])
  {
    var first := RunsQuery(dagId, 1, 0);
    match dagRuns(first)
    case Failure(e) => RunLookup(Failure(e), [first])
    case Success(page) =>
      if page.totalEntries == 0 then RunLookup(Success(None), [first])
      else
        var last := RunsQuery(dagId, 1, page.totalEntries - 1);
        match dagRuns(last)
        case Failure(e) => RunLookup(Failure(e), [first, last])
        case Success(runs) =>
          if |runs.dagRuns| == 0 then RunLookup(Success(None), [first, last])
          else RunLookup(Success(Some(runs.dagRuns[0])), [first, last])
  }

  /** The page a server holding the runs `history`, oldest first, answers
      for `limit` runs from `offset`. */
  function Page(history: seq<DagRun>, limit: int, offset: int): DagRunList
    requires 1 <= limit && 0 <= offset
  {
    var from := if offset < |history| then offset else |history|;
    var to := if offset + limit < |history| then offset + limit else |history|;
    DagRunList(history[from..to], |history|)
  }

  /** `dagRuns` answers every well-formed run request for `dagId` with the
      pages of `history`. */
  ghost predicate ServesHistory(dagRuns: RunsQuery -> Result<DagRunList, FetchError>, dagId: string, history: seq<DagRun>)
  {
    forall limit: int, offset: int :: 1 <= limit && 0 <= offset ==>
      dagRuns(RunsQuery(dagId, limit, offset)) == Success(Page(history, limit, offset))
  }

  /** Against a server that keeps runs in creation order, the two requests
      find the newest run: none when there is no run, otherwise the last one,
      and the second page then holds exactly that one run. */
  lemma LatestRunIsNewest(dagId: string, dagRuns: RunsQuery -> Result<DagRunList, FetchError>, history: seq<DagRun>)
    requires ServesHistory(dagRuns, dagId, history)
    ensures LatestDagRun(dagId, dagRuns).latest ==
      Success(if history == [] then None else Some(history[|history| - 1]))
    ensures history != [] ==>
      dagRuns(RunsQuery(dagId, 1, |history| - 1)) == Success(DagRunList([history[|history| - 1]], |history|))
  {
    var first := dagRuns(RunsQuery(dagId, 1, 0));
    assert first == Success(Page(history, 1, 0));
    if history != [] {
      var n := |history|;
      assert dagRuns(RunsQuery(dagId, 1, n - 1)) == Success(Page(history, 1, n - 1));
      assert history[n - 1..n] == [history[n - 1]];
    }
  }

  // ---------------------------------------------------------------------
  // One DAG

  /** Why a DAG is not OK. */
  datatype DagError =
    | DagUnavailable(dagId: string, cause: FetchError)
    | DagPaused(dagId: string)
    | RunsUnavailable(cause: FetchError)
    | LastRunFailed(dagId: string)

  /** The evaluation of one DAG. */
  datatype Health = Health(dagId: string, status: Status, error: Option<DagError>)

  /** The evaluation of one DAG and the run requests it made. */
  datatype Evaluation = Evaluation(health: Health, runQueries: seq<RunsQuery>)

  /** The body of the loop in `checkDags`, as a function of the server's
      answers: a DAG that cannot be fetched is critical; in explicit mode a
      paused DAG is a warning and its runs are not looked up; otherwise a
      failed run lookup or a latest run in state "failed" is critical, and
      anything else is OK. */
  function EvaluateDag(dagId: string, explicit: bool, api: Airflow): (e: Evaluation)
    ensures e.health.dagId == dagId
    ensures e.health.status != Unknown
    ensures e.health.status == Ok <==> e.health.error.None?
    ensures api.dag(dagId).Failure? ==>
      e == Evaluation(Health(dagId, Critical, Some(DagUnavailable(dagId, api.dag(dagId).error))), [])
    ensures e.health.status == Warning <==>
      api.dag(dagId).Success? && explicit && api.dag(dagId).value.isPaused
    ensures e.health.status == Warning ==> e.health.error == Some(DagPaused(dagId)) && e.runQueries == []
    ensures api.dag(dagId).Success? && !(explicit && api.dag(dagId).value.isPaused) ==>
      var lookup := LatestDagRun(dagId, api.dagRuns);
      && e.runQueries == lookup.queries
      && (lookup.latest.Failure? ==> e.health.error == Some(RunsUnavailable(lookup.latest.error)))
      && (e.health.status == Critical && lookup.latest.Success? ==> e.health.error == Some(LastRunFailed(dagId)))
      && (e.health.status == Critical <==>
           lookup.latest.Failure? || (lookup.latest.value.Some? && lookup.latest.value.value.state == FailedState))
  {
    match api.dag(dagId)
    case Failure(e) => Evaluation(Health(dagId, Critical, Some(DagUnavailable(dagId, e))), [])
    case Success(dag) =>
      if explicit && dag.isPaused then Evaluation(Health(dagId, Warning, Some(DagPaused(dagId))), [])
      else
        var lookup := LatestDagRun(dagId, api.dagRuns);
        var health :=
          match lookup.latest
          case Failure(e) => Health(dagId, Critical, Some(RunsUnavailable(e)))
          case Success(run) =>
            if run.Some? && run.value.state == FailedState then Health(dagId, Critical, Some(LastRunFailed(dagId)))
            else Health(dagId, Ok, None);
        Evaluation(health, lookup.queries)
  }

  /** In discovery mode a paused DAG is not a warning: its runs are looked
      up like those of any other DAG. */
  lemma PausedCheckedInDiscovery(dagId: string, api: Airflow)
    requires api.dag(dagId).Success? && api.dag(dagId).value.isPaused
    ensures EvaluateDag(dagId, false, api).health.status != Warning
    ensures EvaluateDag(dagId, false, api).runQueries == LatestDagRun(dagId, api.dagRuns).queries
  {
  }

  /** `checkDags`: one evaluation per id, in the order given. */
  method CheckDags(dags: seq<string>, explicit: bool, api: Airflow) returns (result: seq<Health>)
    ensures |result| == |dags|
    ensures forall i :: 0 <= i < |dags| ==> result[i] == EvaluateDag(dags[i], explicit, api).health
  {
    result := [];
    for k := 0 to |dags|
      invariant |result| == k
      invariant forall i :: 0 <= i < k ==> result[i] == EvaluateDag(dags[i], explicit, api).health
    {
      var dagId := dags[k];
      var health := Health(dagId, Ok, None);
      match api.dag(dagId) {
        case Failure(e) =>
          health := Health(dagId, Critical, Some(DagUnavailable(dagId, e)));
        case Success(dag) =>
          if explicit && dag.isPaused {
            health := Health(dagId, Warning, Some(DagPaused(dagId)));
          } else {
            var lookup := LatestDagRun(dagId, api.dagRuns);
            if lookup.latest.Failure? {
              health := Health(dagId, Critical, Some(RunsUnavailable(lookup.latest.error)));
            } else if lookup.latest.value.Some? && lookup.latest.value.value.state == FailedState {
              health := Health(dagId, Critical, Some(LastRunFailed(dagId)));
            }
          }
      }
      result := result + [health];
    }
  }

  // ---------------------------------------------------------------------
  // Aggregation

  /** Critical and Unknown both make the whole check critical. */
  predicate Severe(s: Status)
  {
    s == Critical || s == Unknown
  }

  /** The worse of two states, Unknown counting as Critical. */
  function Combine(a: Status, b: Status): (r: Status)
  {
    if Severe(a) || Severe(b) then Critical
    else if a == Warning || b == Warning then Warning
    else Ok
  }

  /** The aggregate state of a list of evaluations, folding `Combine`. */
  function Aggregate(hs: seq<Health>): Status
  {
    if hs == [] then Ok else Combine(Aggregate(hs[..|hs| - 1]), hs[|hs| - 1].status)
  }

  /** The aggregate is critical iff some evaluation is critical or unknown,
      a warning iff none is but some is a warning, and OK otherwise. */
  lemma {:induction false} AggregateDominance(hs: seq<Health>)
    ensures Aggregate(hs) != Unknown
    ensures Aggregate(hs) == Critical <==> exists i :: 0 <= i < |hs| && Severe(hs[i].status)
    ensures Aggregate(hs) == Warning <==>
      (forall i :: 0 <= i < |hs| ==> !Severe(hs[i].status)) && exists i :: 0 <= i < |hs| && hs[i].status == Warning
    ensures Aggregate(hs) == Ok <==> forall i :: 0 <= i < |hs| ==> hs[i].status == Ok
  {
    if hs != [] {
      var init := hs[..|hs| - 1];
      AggregateDominance(init);
      assert forall i :: 0 <= i < |init| ==> init[i] == hs[i];
    }
  }

  /** Aggregating a concatenation combines the two aggregates. */
  lemma {:induction false} AggregateConcat(hs: seq<Health>, ks: seq<Health>)
    ensures Aggregate(hs + ks) == Combine(Aggregate(hs), Aggregate(ks))
  {
    if ks == [] {
      assert hs + ks == hs;
      AggregateDominance(hs);
    } else {
      var init := ks[..|ks| - 1];
      assert (hs + ks)[..|hs + ks| - 1] == hs + init;
      AggregateConcat(hs, init);
      AggregateDominance(hs);
      AggregateDominance(init);
    }
  }

  /** The order in which two groups of DAGs are evaluated does not change
      the aggregate. */
  lemma AggregateSwap(hs: seq<Health>, ks: seq<Health>)
    ensures Aggregate(hs + ks) == Aggregate(ks + hs)
  {
    AggregateConcat(hs, ks);
    AggregateConcat(ks, hs);
  }

  /** The number of evaluations with state `s`. */
  function Count(hs: seq<Health>, s: Status): nat
  {
    if hs == [] then 0
    else Count(hs[..|hs| - 1], s) + (if hs[|hs| - 1].status == s then 1 else 0)
  }

  /** The counters that `executeCheck` keeps decide the same state as the
      fold. */
  lemma {:induction false} CountsDecideAggregate(hs: seq<Health>)
    ensures Aggregate(hs) == Critical <==> Count(hs, Critical) > 0 || Count(hs, Unknown) > 0
    ensures Aggregate(hs) == Warning <==>
      Count(hs, Critical) == 0 && Count(hs, Unknown) == 0 && Count(hs, Warning) > 0
  {
    if hs != [] {
      CountsDecideAggregate(hs[..|hs| - 1]);
    }
  }

  lemma CountSnoc(hs: seq<Health>, i: nat, s: Status)
    requires i < |hs|
    ensures Count(hs[..i + 1], s) == Count(hs[..i], s) + (if hs[i].status == s then 1 else 0)
  {
    assert hs[..i + 1][..i] == hs[..i];
  }

  // ---------------------------------------------------------------------
  // The whole check

  /** A line the check prints. */
  datatype Diagnostic =
    | DagStatus(dagId: string, status: Status)
    | DagErrorReport(error: DagError)
    | AllDagsOk
    | NoDagsLoaded

  /** The error returned when the DAG list cannot be fetched. */
  datatype CheckError = DagsUnavailable(cause: FetchError)

  /** How a run of the check ends: it returns a state, an optional error and
      what it printed, or it panics while building the id list. */
  datatype Outcome = Returned(status: Status, error: Option<CheckError>, output: seq<Diagnostic>) | Panicked

  /** The lines printed for one evaluation: its state unless OK, then its
      error if any. */
  function DagLines(h: Health): seq<Diagnostic>
  {
    (if h.status == Ok then [] else [DagStatus(h.dagId, h.status)])
    + (if h.error.Some? then [DagErrorReport(h.error.value)] else [])
  }

  function Lines(hs: seq<Health>): seq<Diagnostic>
  {
    if hs == [] then [] else Lines(hs[..|hs| - 1]) + DagLines(hs[|hs| - 1])
  }

  lemma LinesSnoc(hs: seq<Health>, i: nat)
    requires i < |hs|
    ensures Lines(hs[..i + 1]) == Lines(hs[..i]) + DagLines(hs[i])
  {
    assert hs[..i + 1][..i] == hs[..i];
  }

  /** The reference outcome of the aggregation: the folded state, the lines
      of every evaluation and, when OK, one closing message that depends on
      whether any DAG was evaluated. */
  function Summary(hs: seq<Health>): Outcome
  {
    var s := Aggregate(hs);
    Returned(s, None, Lines(hs) + (if s == Ok then [if hs == [] then NoDagsLoaded else AllDagsOk] else []))
  }

  /** The aggregation loop of `executeCheck`: count the states, print the
      non-OK ones and the errors, then decide by the counters. */
  method Summarize(health: seq<Health>) returns (out: Outcome)
    ensures out == Summary(health)
  {
    var oks, warnings, criticals, unknowns := 0, 0, 0, 0;
    var found := false;
    var output: seq<Diagnostic> := [];
    for i := 0 to |health|
      invariant oks == Count(health[..i], Ok) && warnings == Count(health[..i], Warning)
      invariant criticals == Count(health[..i], Critical) && unknowns == Count(health[..i], Unknown)
      invariant found == (i > 0)
      invariant output == Lines(health[..i])
    {
      var h := health[i];
      found := true;
      CountSnoc(health, i, Ok);
      CountSnoc(health, i, Warning);
      CountSnoc(health, i, Critical);
      CountSnoc(health, i, Unknown);
      LinesSnoc(health, i);
      match h.status {
        case Ok =>
          oks := oks + 1;
        case Warning =>
          warnings := warnings + 1;
          output := output + [DagStatus(h.dagId, Warning)];
        case Critical =>
          criticals := criticals + 1;
          output := output + [DagStatus(h.dagId, Critical)];
        case Unknown =>
          unknowns := unknowns + 1;
          output := output + [DagStatus(h.dagId, Unknown)];
      }
      if h.error.Some? {
        output := output + [DagErrorReport(h.error.value)];
      }
    }
    assert health[..|health|] == health;
    CountsDecideAggregate(health);
    if criticals > 0 || unknowns > 0 {
      return Returned(Critical, None, output);
    } else if warnings > 0 {
      return Returned(Warning, None, output);
    }
    AggregateDominance(health);
    if found {
      output := output + [AllDagsOk];
    } else {
      output := output + [NoDagsLoaded];
    }
    return Returned(Ok, None, output);
  }

  /** The evaluations of a list of ids, in order. */
  function Evaluations(ids: seq<string>, explicit: bool, api: Airflow): seq<Health>
  {
    seq(|ids|, i requires 0 <= i < |ids| => EvaluateDag(ids[i], explicit, api).health)
  }

  /** The reference outcome of the whole check. The configured list is used
      as given (explicit mode) when it is non-empty; otherwise the DAG list
      is fetched, and a failed fetch ends the check at once. */
  function DagCheckOutcome(c: Config, api: Airflow): Outcome
  {
    if c.dags != [] then Summary(Evaluations(c.dags, true, api))
    else
      match api.allDags
      case Failure(e) => Returned(Critical, Some(DagsUnavailable(e)), [])
      case Success(list) =>
        match DiscoveredIds(list)
        case None => Panicked
        case Some(ids) => Summary(Evaluations(ids, false, api))
  }

  /** `executeCheck`, given the server's answers. */
  method ExecuteCheck(c: Config, api: Airflow) returns (out: Outcome)
    ensures out == DagCheckOutcome(c, api)
  {
    var explicit := true;
    var dags := c.dags;
    if |dags| == 0 {
      explicit := false;
      match api.allDags {
        case Failure(e) =>
          return Returned(Critical, Some(DagsUnavailable(e)), []);
        case Success(dagList) =>
          var ids := FillDagIds(dagList);
          if ids.None? {
            return Panicked;
          }
          dags := ids.value;
      }
    }
    var health := CheckDags(dags, explicit, api);
    assert health == Evaluations(dags, explicit, api);
    out := Summarize(health);
  }

  // ---------------------------------------------------------------------
  // Properties of the whole check

  /** A check that returns normally without an error is critical iff some
      evaluated DAG is critical, a warning iff none is and some is a
      warning, and otherwise OK with "No DAGs loaded" exactly when no DAG was
      evaluated. */
  lemma SummaryProperties(hs: seq<Health>)
    ensures Summary(hs).Returned? && Summary(hs).error.None?
    ensures Summary(hs).status == Critical <==> exists i :: 0 <= i < |hs| && Severe(hs[i].status)
    ensures Summary(hs).status == Warning <==>
      (forall i :: 0 <= i < |hs| ==> !Severe(hs[i].status)) && exists i :: 0 <= i < |hs| && hs[i].status == Warning
    ensures Summary(hs).status == Ok ==>
      Summary(hs).output[|Summary(hs).output| - 1] == (if hs == [] then NoDagsLoaded else AllDagsOk)
    ensures NoDagsLoaded in Summary(hs).output <==> hs == []
  {
    AggregateDominance(hs);
    NoClosingLineInLines(hs);
  }

  lemma {:induction false} NoClosingLineInLines(hs: seq<Health>)
    ensures NoDagsLoaded !in Lines(hs) && AllDagsOk !in Lines(hs)
  {
    if hs != [] {
      NoClosingLineInLines(hs[..|hs| - 1]);
    }
  }

  /** A failed discovery fetch is fatal: the check is critical with that
      error, prints nothing, and no DAG answer can change that. */
  lemma DiscoveryFailureIsFatal(c: Config, api: Airflow, other: Airflow)
    requires c.dags == [] && api.allDags.Failure? && other.allDags == api.allDags
    ensures DagCheckOutcome(c, api) == Returned(Critical, Some(DagsUnavailable(api.allDags.error)), [])
    ensures DagCheckOutcome(c, other) == DagCheckOutcome(c, api)
  {
  }

  /** With a configured list the DAG list is never consulted, and the
      evaluations are done in explicit mode. */
  lemma ExplicitIgnoresDiscovery(c: Config, api: Airflow, list: Result<DagList, FetchError>)
    requires c.dags != []
    ensures DagCheckOutcome(c, api.(allDags := list)) == DagCheckOutcome(c, api)
    ensures DagCheckOutcome(c, api) == Summary(Evaluations(c.dags, true, api))
  {
    assert Evaluations(c.dags, true, api.(allDags := list)) == Evaluations(c.dags, true, api);
  }

  /** One critical DAG of the configured list makes the whole check critical, whatever the other
      DAGs report. */
  lemma OneCriticalDagSuffices(c: Config, api: Airflow, k: nat)
    requires k < |c.dags| && EvaluateDag(c.dags[k], true, api).health.status == Critical
    ensures DagCheckOutcome(c, api).Returned? && DagCheckOutcome(c, api).status == Critical
  {
    var hs := Evaluations(c.dags, true, api);
    assert Severe(hs[k].status);
    SummaryProperties(hs);
  }

  /** The same in discovery mode: one critical DAG among the discovered ids
      makes the whole check critical. */
  lemma OneCriticalDiscoveredDagSuffices(c: Config, api: Airflow, ids: seq<string>, k: nat)
    requires c.dags == [] && api.allDags.Success? && DiscoveredIds(api.allDags.value) == Some(ids)
    requires k < |ids| && EvaluateDag(ids[k], false, api).health.status == Critical
    ensures DagCheckOutcome(c, api).Returned? && DagCheckOutcome(c, api).status == Critical
  {
    var hs := Evaluations(ids, false, api);
    assert Severe(hs[k].status);
    SummaryProperties(hs);
  }

  /** The empty id that a short page leaves on the list is evaluated like a
      real one, after the returned DAG. */
  lemma EmptyIdIsChecked(s: Settings, api: Airflow)
    requires api.allDags == Success(DagList([Dag("a", false)], 2))
    ensures DagCheckOutcome(Config(s, []), api) ==
      Summary([EvaluateDag("a", false, api).health, EvaluateDag("", false, api).health])
  {
    ShortPageAddsEmptyId();
    assert Evaluations(["a", ""], false, api) ==
      [EvaluateDag("a", false, api).health, EvaluateDag("", false, api).health];
  }

  /** An explicit list where "a" is paused and the latest run of "b" failed
      is critical, with a warning for "a" and a critical for "b". */
  lemma PausedAndFailedExample(s: Settings)
    ensures var api := Airflow(
        Failure(RequestFailed("unused")),
        id => Success(Dag(id, id == "a")),
        q => Success(DagRunList([DagRun(FailedState)], 1)));
      var out := DagCheckOutcome(Config(s, ["a", "b"]), api);
      && out.Returned? && out.status == Critical
      && out.output == [DagStatus("a", Warning), DagErrorReport(DagPaused("a")),
                        DagStatus("b", Critical), DagErrorReport(LastRunFailed("b"))]
  {
    var api := Airflow(
      Failure(RequestFailed("unused")),
      id => Success(Dag(id, id == "a")),
      q => Success(DagRunList([DagRun(FailedState)], 1)));
    var hs := Evaluations(["a", "b"], true, api);
    assert hs[0] == Health("a", Warning, Some(DagPaused("a")));
    assert hs[1] == Health("b", Critical, Some(LastRunFailed("b")));
    assert hs[..1] == [hs[0]];
    assert hs[..1][..0] == [];
    assert Lines(hs[..1]) == [DagStatus("a", Warning), DagErrorReport(DagPaused("a"))];
    assert Aggregate(hs[..1]) == Warning;
  }

  /** No configured DAGs and an empty DAG list: OK with "No DAGs loaded". */
  lemma NoDagsExample(s: Settings, api: Airflow)
    requires api.allDags == Success(DagList([], 0))
    ensures DagCheckOutcome(Config(s, []), api) == Returned(Ok, None, [NoDagsLoaded])
  {
    assert Evaluations([], false, api) == [];
  }

  /** A DAG list with more DAGs than its total makes the check panic. */
  lemma OverfullListPanics(s: Settings, api: Airflow)
    requires api.allDags.Success? && |api.allDags.value.dags| > api.allDags.value.totalEntries
    ensures DagCheckOutcome(Config(s, []), api) == Panicked
  {
  }
}
