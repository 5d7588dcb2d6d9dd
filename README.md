# Airflow monitoring checks, modelled in Dafny

This project models three of the repository's monitoring-check binaries.
Each polls an Airflow scheduler's REST API and turns what it reports into
one check state: OK, WARNING, CRITICAL or UNKNOWN.

- `airflow-check` reads `/importErrors` and `/health`.
- `airflow-import-check` reads `/importErrors`.
- `airflow-dag-check` reads `/dags`, `/dags/{id}` and `/dags/{id}/dagRuns`.

Each binary first validates its arguments (`checkArgs`). It then fetches
JSON and decides on a state (`executeCheck`).

This project models the decision logic of all three. The server's answers
are inputs. Each fetch is a `Result` of an already-decoded record, or a
`FetchError`. For the DAG check, the server is a value
`Airflow(allDags, dag, dagRuns)`: the answer to the DAG-list request, a
function from DAG id to its answer, and a function from a run request
(`RunsQuery(dagId, limit, offset)`) to its answer.

Modules:

- `Plugin` (plugin.dfy): the check states, `Result`/`Option`, `FetchError`,
  `checkArgs` and `getAirflowApiUrl`. The three binaries carry identical
  copies of these two functions (only the message capitalisation differs).
  They are modelled once here.
- `Imports` (imports.dfy): the import-error records that two binaries decode,
  when such an answer is critical, and the lines printed for it.
- `ImportCheck` (import_check.dfy): `executeCheck` of `airflow-import-check`.
- `AirflowCheck` (airflow_check.dfy): `executeCheck` of `airflow-check`.
- `DagCheck` (dag_check.dfy): id selection, `getLatestDagRun`, `checkDags`
  and the aggregation in `executeCheck` of `airflow-dag-check`.

Loops in the source are `method`s with loop invariants. Each method is
proved equal to a reference function:

- `ImportCheck.ExecuteCheck` against `ImportReport` and `ImportsCritical`.
- `AirflowCheck.ExecuteCheck` against `Troubles` and `Report`.
- `DagCheck.FillDagIds` against `DiscoveredIds`.
- `DagCheck.CheckDags` against `EvaluateDag`.
- `DagCheck.Summarize` against `Summary`, which folds a combine operator
  (`Aggregate`). The source counts states instead.
- `DagCheck.ExecuteCheck` against `DagCheckOutcome`.

Printed lines are modelled as a sequence of diagnostic values, not as text.

Behaviour of the code that the model keeps:

- `airflow-check` requires a username and a password
  (cmd/airflow-check/main.go:84-90). It sends basic authentication with
  every request (cmd/airflow-check/main.go:162, :199).
- In discovery mode the id list has `total_entries` slots, and slots past
  the returned page stay `""` (cmd/airflow-dag-check/main.go:121-124).
  Those empty ids are then checked like real ones (`EmptyIdIsChecked`).
  A page with more DAGs than `total_entries`, or a negative total, makes the
  Go code panic (`Panicked`).
- When the latest-run total is non-zero, an empty second page means "no
  run", which is OK (cmd/airflow-dag-check/main.go:298-299). Only a total of
  exactly zero skips the second request (cmd/airflow-dag-check/main.go:290),
  so a negative total leads to a request at a negative offset.

## Model

| member | source | states |
|---|---|---|
| `Plugin.CheckArgs` | cmd/airflow-dag-check/main.go:88-103 | The result is WARNING or OK. It is OK with no error iff the URL parses and the username and password are both non-empty. Otherwise the first failing check, in the order URL, username, password, is the reported error. |
| `Plugin.CheckArgsReportsFirstFailure` | cmd/airflow-check/main.go:78-93 | `CheckArgs` reports exactly the head of the ordered list of all failing checks, or no error when that list is empty. |
| `Plugin.MissingUsernameIsWarning` | cmd/airflow-import-check/main.go:84-86 | With a parsable URL and a non-empty password, an empty username gives WARNING with the missing-username error. |
| `Plugin.TrimSuffix` | cmd/airflow-dag-check/main.go:333 | Removes the suffix once when the string ends with it, and otherwise returns the string unchanged. |
| `Plugin.ApiUrl` | cmd/airflow-dag-check/main.go:331-334 | The result ends with `/api/v1`. What comes before it is the base URL minus exactly one trailing slash when it has one, and the whole base URL otherwise. |
| `Plugin.ApiUrlIgnoresTrailingSlash` | cmd/airflow-check/main.go:218-221 | For a base URL without a trailing slash, adding one slash does not change the API URL. |
| `Plugin.ApiUrlDoubleSlash` | cmd/airflow-import-check/main.go:133-136 | The API URL has `//api/v1` at its end iff the base URL ends with two slashes, because only one slash is removed. |
| `Plugin.EndpointUrl` | cmd/airflow-check/main.go:156 | A request URL is the base URL minus one trailing slash, then `/api/v1`, then the endpoint path. |
| `Plugin.HealthUrlExample` | cmd/airflow-check/main.go:156 | `http://x/` and `http://x` both give the health URL `http://x/api/v1/health`. |
| `Imports.FailuresOnePerEntry` | cmd/airflow-import-check/main.go:111-113 | Exactly one diagnostic per import-error entry, in order, each with that entry's file name and stack trace. |
| `Imports.ImportReportShape` | cmd/airflow-import-check/main.go:106-114 | Nothing is printed for a non-critical answer. A failed fetch prints only its error. A positive total prints one line per returned entry. |
| `ImportCheck.ExecuteCheck` | cmd/airflow-import-check/main.go:95-120 | Never WARNING. CRITICAL iff the fetch failed or `TotalEntries > 0`, otherwise OK. The printed lines are exactly `ImportReport`. |
| `ImportCheck.OnlyTotalDecides` | cmd/airflow-import-check/main.go:109 | Only the total decides severity. A positive total with no entries is critical. A zero total prints nothing, whatever entries came back. |
| `AirflowCheck.ExecuteCheck` | cmd/airflow-check/main.go:95-139 | Never WARNING. CRITICAL iff at least one trouble is found (failed import fetch or positive import total, failed health fetch, each unhealthy component). The printed lines are the import lines followed by the health lines. |
| `AirflowCheck.AtMostThreeCriticals` | cmd/airflow-check/main.go:100-132 | At most three criticals. The import part adds at most one. A failed health fetch adds exactly one and skips both status checks. |
| `AirflowCheck.OkIffAllHealthy` | cmd/airflow-check/main.go:106-138 | No critical iff both fetches succeed, the import total is not positive, and both statuses are `"healthy"`. The import part adds one iff the import answer is critical. |
| `AirflowCheck.ImportEntriesDoNotCount` | cmd/airflow-check/main.go:109-114 | The import-error entries never change the criticals; only the fetch outcome and the total do. |
| `AirflowCheck.ComponentsIndependent` | cmd/airflow-check/main.go:122-132 | The metadatabase and the scheduler each add their own critical iff their status is not `"healthy"`. |
| `DagCheck.DiscoveredIds` | cmd/airflow-dag-check/main.go:121-124 | Panics (`None`) iff the total is negative or there are more DAGs than the total. Otherwise the list has length `TotalEntries`, entry `i` is the `i`-th returned DAG's id, and the remaining entries are empty. |
| `DagCheck.FillDagIds` | cmd/airflow-dag-check/main.go:121-124 | Filling an array of `TotalEntries` empty strings by index gives `DiscoveredIds`, including the panic cases. |
| `DagCheck.ShortPageAddsEmptyId` | cmd/airflow-dag-check/main.go:121-124 | One returned DAG with a total of two gives the ids `["a", ""]`. |
| `DagCheck.EmptyIdIsChecked` | cmd/airflow-dag-check/main.go:114-128 | With one returned DAG `a` and a total of two, the check evaluates `a` and then the empty id `""` in discovery mode, and summarises both. |
| `DagCheck.LatestDagRun` | cmd/airflow-dag-check/main.go:286-303 | The first request is `limit=1, offset=0`. A second request is made iff the first succeeds with a non-zero total, and it is `limit=1, offset=total-1`. An error is the error of the last request. A run is returned only as the first entry of a non-empty second page. "No run" iff the total is zero or the second page is empty. |
| `DagCheck.LatestRunIsNewest` | cmd/airflow-dag-check/main.go:286-303 | Against a server that pages its runs oldest first, the lookup returns the newest run, or no run when there is none. The second page then holds exactly that one run. |
| `DagCheck.EvaluateDag` | cmd/airflow-dag-check/main.go:181-210 | The health carries the DAG's id and is never UNKNOWN. It is OK iff it has no error. A DAG that cannot be fetched is CRITICAL with no run request. WARNING iff explicit mode and paused, with no run request. Otherwise the run lookup's requests are made, and it is CRITICAL iff the lookup failed (error `RunsUnavailable`) or the latest run is `"failed"` (error `LastRunFailed`). |
| `DagCheck.PausedCheckedInDiscovery` | cmd/airflow-dag-check/main.go:193-207 | In discovery mode a paused DAG is not a warning, and its runs are looked up. |
| `DagCheck.CheckDags` | cmd/airflow-dag-check/main.go:178-213 | Exactly one health per input id, in input order, each equal to that id's evaluation. |
| `DagCheck.AggregateDominance` | cmd/airflow-dag-check/main.go:157-161 | The aggregate is never UNKNOWN. It is CRITICAL iff some health is CRITICAL or UNKNOWN; WARNING iff none is and some is a warning; OK iff all are OK. |
| `DagCheck.AggregateConcat` | cmd/airflow-dag-check/main.go:136-161 | The aggregate of a concatenation combines the two aggregates. |
| `DagCheck.AggregateSwap` | cmd/airflow-dag-check/main.go:136-161 | Swapping two groups of evaluated DAGs does not change the aggregate state. |
| `DagCheck.CountsDecideAggregate` | cmd/airflow-dag-check/main.go:130-161 | The critical, unknown and warning counters decide the same state as the aggregate. |
| `DagCheck.Summarize` | cmd/airflow-dag-check/main.go:130-169 | The counting loop returns the reference summary: the aggregate state, the lines for every non-OK state and every error, and one closing message when OK. |
| `DagCheck.SummaryProperties` | cmd/airflow-dag-check/main.go:157-169 | No error. CRITICAL iff some health is CRITICAL or UNKNOWN; WARNING iff none is and some is a warning. When OK, the last line is "No DAGs loaded" iff the list is empty, and "All OK" otherwise. |
| `DagCheck.ExecuteCheck` | cmd/airflow-dag-check/main.go:105-170 | Equals the reference outcome `DagCheckOutcome`: explicit mode iff the configured list is non-empty; otherwise discovery, where a failed fetch is CRITICAL with its error and a bad list panics; then the evaluations are summarised. |
| `DagCheck.DiscoveryFailureIsFatal` | cmd/airflow-dag-check/main.go:114-119 | With no configured DAGs, a failed list fetch gives CRITICAL with that error and no output, whatever the per-DAG answers. |
| `DagCheck.ExplicitIgnoresDiscovery` | cmd/airflow-dag-check/main.go:111-128 | With configured DAGs the list answer is irrelevant, and the DAGs are evaluated in explicit mode. |
| `DagCheck.OneCriticalDagSuffices` | cmd/airflow-dag-check/main.go:157-158 | One CRITICAL DAG of a configured list makes the check CRITICAL, whatever the other DAGs report. |
| `DagCheck.OneCriticalDiscoveredDagSuffices` | cmd/airflow-dag-check/main.go:114-158 | In discovery mode, one CRITICAL DAG among the discovered ids makes the check CRITICAL, whatever the other DAGs report. |
| `DagCheck.PausedAndFailedExample` | cmd/airflow-dag-check/main.go:128-161 | Explicit `["a", "b"]` with "a" paused and b's latest run failed gives CRITICAL. The lines are a WARNING for "a" and a CRITICAL for "b", each followed by its error. |
| `DagCheck.NoDagsExample` | cmd/airflow-dag-check/main.go:163-167 | No configured DAGs and an empty list with total zero give OK with the single line "No DAGs loaded". |
| `DagCheck.OverfullListPanics` | cmd/airflow-dag-check/main.go:121-123 | A list with more DAGs than its total makes the check panic. |

## Left out

- HTTP: building requests, basic-auth headers, `client.Do`, the status-code test, the shared `http.DefaultClient` and its timeout. Each `get*` helper is an input `Result`. A non-200 answer, a transport error and a decode error are the three `FetchError` cases.
- The `getDag` request for each DAG is not traced. Only the run requests of `getLatestDagRun` are recorded, in `RunLookup.queries` and `Evaluation.runQueries`.
- JSON decoding: the decoded records are modelled directly.
- `url.Parse`: a foreign library call. It is the parameter `parses` of `CheckArgs`.
- The plugin framework: option tables and their defaults, `main`, the framework's running of `executeCheck` only after `checkArgs` returns OK, and the mapping of states to exit codes.
- Text of messages. Printed lines and returned errors are datatype values; the exact `fmt` text is not modelled.
- Changing server state: each request is answered by a fixed function of the request. A server whose answers change between two identical requests, such as a duplicated explicit id, is not modelled.
- Integer width: `TotalEntries` is an unbounded `int`. Go's 64-bit `int` could wrap in `TotalEntries-1` only at the minimum value, and allocating a huge slice could fail for lack of memory; neither is modelled.
- `Config.settings` in the DAG check only feeds `checkArgs` and the HTTP layer. `Settings.timeout` only configures the HTTP client.
