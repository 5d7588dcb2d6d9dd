/** `airflow-check`: the import-errors answer and the `/health` answer each
    contribute critical conditions; the check is critical iff there is at
    least one. */
module AirflowCheck {
  import opened Plugin
  import opened Imports

  datatype MetaDatabaseHealth = MetaDatabaseHealth(status: string)
  datatype SchedulerHealth = SchedulerHealth(status: string, latestSchedulerHeartbeat: string)

  /** The decoded `/health` answer. */
  datatype Health = Health(metaDatabase: MetaDatabaseHealth, scheduler: SchedulerHealth)

  const Healthy := "healthy"

  /** A diagnostic line of this check. */
  datatype Diagnostic =
    | Import(report: ImportDiagnostic)
    | HealthUnavailable(cause: FetchError)
    | MetaDatabaseInTrouble
    | SchedulerInTrouble

  /** One condition that adds a critical. */
  datatype Trouble =
    | ImportsFetchFailed
    | DagImportsFailed
    | HealthFetchFailed
    | MetaDatabaseUnhealthy
    | SchedulerUnhealthy

  /** The conditions found in the import-errors answer. */
  function ImportTroubles(importErrors: Result<ImportErrors, FetchError>): seq<Trouble>
  {
    match importErrors
    case Failure(_) => [ImportsFetchFailed]
    case Success(ie) => if ie.totalEntries > 0 then [DagImportsFailed] else []
  }

  /** The conditions found in the health answer: a failed fetch alone, or
      each of the two components that is not healthy. */
  function HealthTroubles(health: Result<Health, FetchError>): seq<Trouble>
  {
    match health
    case Failure(_) => [HealthFetchFailed]
    case Success(h) =>
      (if h.metaDatabase.status != Healthy then [MetaDatabaseUnhealthy] else [])
      + (if h.scheduler.status != Healthy then [SchedulerUnhealthy] else [])
  }

  /** Every condition that adds a critical, in the order they are checked. */
  function Troubles(importErrors: Result<ImportErrors, FetchError>, health: Result<Health, FetchError>): seq<Trouble>
  {
    ImportTroubles(importErrors) + HealthTroubles(health)
  }

  /** The import diagnostics as lines of this check. */
  function Lift(ds: seq<ImportDiagnostic>): (r: seq<Diagnostic>)
  {
    if ds == [] then [] else Lift(ds[..|ds| - 1]) + [Import(ds[|ds| - 1])]
  }

  /** The diagnostics printed about the health answer. */
  function HealthReport(health: Result<Health, FetchError>): seq<Diagnostic>
  {
    match health
    case Failure(e) => [HealthUnavailable(e)]
    case Success(h) =>
      (if h.metaDatabase.status != Healthy then [MetaDatabaseInTrouble] else [])
      + (if h.scheduler.status != Healthy then [SchedulerInTrouble] else [])
  }

  /** Everything the check prints, import errors first. */
  function Report(importErrors: Result<ImportErrors, FetchError>, health: Result<Health, FetchError>): seq<Diagnostic>
  {
    Lift(ImportReport(importErrors)) + HealthReport(health)
  }

  /** `executeCheck`, given the answers of `getImportErrors` and `getHealth`:
      a counter of criticals is incremented once per trouble found, and the
      result is critical iff the counter is positive. */
  method ExecuteCheck(importErrors: Result<ImportErrors, FetchError>, health: Result<Health, FetchError>)
    returns (status: Status, output: seq<Diagnostic>)
    ensures status == Ok || status == Critical
    ensures status == Critical <==> |Troubles(importErrors, health)| > 0
    ensures output == Report(importErrors, health)
  {
    var criticals := 0;
    output := [];
    match importErrors {
      case Failure(e) =>
        output := output + [Import(ImportsUnavailable(e))];
        criticals := criticals + 1;
      case Success(ie) =>
        if ie.totalEntries > 0 {
          criticals := criticals + 1;
          var errs := ie.importErrors;
          for i := 0 to |errs|
            invariant output == Lift(Failures(errs[..i]))
          {
            var line := DagImportFailed(errs[i].fileName, errs[i].stackTrace);
            FailuresSnoc(errs, i);
            LiftSnoc(Failures(errs[..i]), line);
            output := output + [Import(line)];
          }
          assert errs[..|errs|] == errs;
        }
    }
    assert criticals == |ImportTroubles(importErrors)|;
    assert output == Lift(ImportReport(importErrors));
    ghost var importOutput := output;

    match health {
      case Failure(e) =>
        output := output + [HealthUnavailable(e)];
        criticals := criticals + 1;
      case Success(h) =>
        if h.metaDatabase.status != Healthy {
          output := output + [MetaDatabaseInTrouble];
          criticals := criticals + 1;
        }
        if h.scheduler.status != Healthy {
          output := output + [SchedulerInTrouble];
          criticals := criticals + 1;
        }
    }
    assert criticals == |Troubles(importErrors, health)|;
    assert output == importOutput + HealthReport(health);

    status := Ok;
    if criticals > 0 {
      status := Critical;
    }
  }

  lemma LiftSnoc(ds: seq<ImportDiagnostic>, d: ImportDiagnostic)
    ensures Lift(ds + [d]) == Lift(ds) + [Import(d)]
  {
  }

  /** At most three criticals are ever counted: one for import errors and,
      for health, either the failed fetch or the two components. */
  lemma AtMostThreeCriticals(importErrors: Result<ImportErrors, FetchError>, health: Result<Health, FetchError>)
    ensures |Troubles(importErrors, health)| <= 3
    ensures |ImportTroubles(importErrors)| <= 1
    ensures health.Failure? ==> HealthTroubles(health) == [HealthFetchFailed]
  {
  }

  /** The check is healthy exactly when both fetches succeed, no import
      error is counted and both components report "healthy". */
  lemma OkIffAllHealthy(importErrors: Result<ImportErrors, FetchError>, health: Result<Health, FetchError>)
    ensures |Troubles(importErrors, health)| == 0 <==>
      && importErrors.Success? && importErrors.value.totalEntries <= 0
      && health.Success? && health.value.metaDatabase.status == Healthy
      && health.value.scheduler.status == Healthy
    ensures (|ImportTroubles(importErrors)| == 1) == ImportsCritical(importErrors)
  {
  }

  /** The import-error entries never change the count: only the fetch
      outcome and the server's total do. */
  lemma ImportEntriesDoNotCount(a: seq<ImportError>, b: seq<ImportError>, total: int, health: Result<Health, FetchError>)
    ensures Troubles(Success(ImportErrors(a, total)), health) == Troubles(Success(ImportErrors(b, total)), health)
  {
  }

  /** The two component statuses are checked independently: each unhealthy
      one adds its own critical. */
  lemma ComponentsIndependent(h: Health)
    ensures (MetaDatabaseUnhealthy in HealthTroubles(Success(h))) <==> h.metaDatabase.status != Healthy
    ensures (SchedulerUnhealthy in HealthTroubles(Success(h))) <==> h.scheduler.status != Healthy
    ensures HealthFetchFailed !in HealthTroubles(Success(h))
  {
  }
}
