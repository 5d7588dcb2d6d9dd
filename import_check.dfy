/** `airflow-import-check`: one fetch of `/importErrors`, critical iff the
    fetch failed or the server counts at least one import error. */
module ImportCheck {
  import opened Plugin
  import opened Imports

  /** `executeCheck`, given the answer of `getImportErrors`: the `critical`
      flag is raised by a failed fetch or a positive count, and each
      returned entry is printed when the count is positive. */
  method ExecuteCheck(importErrors: Result<ImportErrors, FetchError>)
    returns (status: Status, output: seq<ImportDiagnostic>)
    ensures status == Ok || status == Critical
    ensures status == Critical <==> ImportsCritical(importErrors)
    ensures output == ImportReport(importErrors)
  {
    var critical := false;
    output := [];
    match importErrors {
      case Failure(e) =>
        output := output + [ImportsUnavailable(e)];
        critical := true;
      case Success(ie) =>
        if ie.totalEntries > 0 {
          critical := true;
          var errs := ie.importErrors;
          for i := 0 to |errs|
            invariant output == Failures(errs[..i])
          {
            FailuresSnoc(errs, i);
            output := output + [DagImportFailed(errs[i].fileName, errs[i].stackTrace)];
          }
          assert errs[..|errs|] == errs;
        }
    }
    if critical {
      return Critical, output;
    }
    return Ok, output;
  }

  /** Only the count decides: a positive count with no entries returned is
      critical, and a zero count is healthy whatever entries came back. */
  lemma OnlyTotalDecides(entries: seq<ImportError>, total: int)
    ensures ImportsCritical(Success(ImportErrors(entries, total))) <==> total > 0
    ensures ImportsCritical(Success(ImportErrors([], 1)))
    ensures ImportReport(Success(ImportErrors(entries, 0))) == []
  {
  }
}
