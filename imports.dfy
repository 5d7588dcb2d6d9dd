/** The `/importErrors` endpoint as both `airflow-check` and
    `airflow-import-check` read it: the decoded records, when the answer
    counts as critical, and the diagnostics printed for it. */
module Imports {
  import opened Plugin

  /** One DAG source file that Airflow failed to import. */
  datatype ImportError = ImportError(timeStamp: string, fileName: string, stackTrace: string)

  /** One page of import errors and the server's total count. */
  datatype ImportErrors = ImportErrors(importErrors: seq<ImportError>, totalEntries: int)

  /** A diagnostic line about import errors: the fetch failed, or one DAG
      file did not import. */
  datatype ImportDiagnostic =
    | ImportsUnavailable(cause: FetchError)
    | DagImportFailed(fileName: string, stackTrace: string)

  /** The import-errors answer is critical when the fetch failed or the
      server's count is positive; the entries themselves are not looked at. */
  predicate ImportsCritical(r: Result<ImportErrors, FetchError>)
  {
    r.Failure? || r.value.totalEntries > 0
  }

  /** The diagnostics for a list of import errors, one per entry. */
  function Failures(errs: seq<ImportError>): seq<ImportDiagnostic>
  {
    if errs == [] then []
    else Failures(errs[..|errs| - 1]) + [DagImportFailed(errs[|errs| - 1].fileName, errs[|errs| - 1].stackTrace)]
  }

  /** Exactly one diagnostic per import error, in order, naming its file and
      carrying its stack trace. */
  lemma {:induction false} FailuresOnePerEntry(errs: seq<ImportError>)
    ensures |Failures(errs)| == |errs|
    ensures forall i :: 0 <= i < |errs| ==>
      Failures(errs)[i] == DagImportFailed(errs[i].fileName, errs[i].stackTrace)
  {
    if errs != [] {
      FailuresOnePerEntry(errs[..|errs| - 1]);
    }
  }

  /** What a check prints about the import-errors answer: the error when the
      fetch failed, every entry when the count is positive, nothing
      otherwise. */
  function ImportReport(r: Result<ImportErrors, FetchError>): seq<ImportDiagnostic>
  {
    match r
    case Failure(e) => [ImportsUnavailable(e)]
    case Success(ie) => if ie.totalEntries > 0 then Failures(ie.importErrors) else []
  }

  /** Nothing is printed about a healthy answer; a failed fetch prints its
      error alone; a positive count prints one line per returned entry. */
  lemma ImportReportShape(r: Result<ImportErrors, FetchError>)
    ensures !ImportsCritical(r) ==> ImportReport(r) == []
    ensures r.Failure? ==> ImportReport(r) == [ImportsUnavailable(r.error)]
    ensures r.Success? && r.value.totalEntries > 0 ==>
      |ImportReport(r)| == |r.value.importErrors| &&
      forall i :: 0 <= i < |r.value.importErrors| ==>
        ImportReport(r)[i] == DagImportFailed(r.value.importErrors[i].fileName, r.value.importErrors[i].stackTrace)
  {
    if r.Success? {
      FailuresOnePerEntry(r.value.importErrors);
    }
  }

  /** The prefix step of `Failures` used by the printing loops. */
  lemma FailuresSnoc(errs: seq<ImportError>, i: nat)
    requires i < |errs|
    ensures Failures(errs[..i + 1]) == Failures(errs[..i]) + [DagImportFailed(errs[i].fileName, errs[i].stackTrace)]
  {
    assert errs[..i + 1][..i] == errs[..i];
  }
}
