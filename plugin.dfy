/** What the three check binaries share: the check states of the monitoring
    framework, the shape of a fetch result, validation of the plugin
    arguments and the normalisation of the API base URL. Each binary carries
    its own identical copy of `checkArgs` and `getAirflowApiUrl`; they are
    modelled once here. */
module Plugin {

  /** The check states of the monitoring framework, as an enumeration. */
  datatype Status = Ok | Warning | Critical | Unknown

  datatype Option<+T> = None | Some(value: T)

  datatype Result<+T, +E> = Success(value: T) | Failure(error: E)

  /** Why a `get*` helper returned an error: building or sending the request
      failed (including a timeout), the server answered with a status other
      than 200, or the body did not decode. */
  datatype FetchError =
    | RequestFailed(cause: string)
    | BadStatus(status: string)
    | DecodeFailed(cause: string)

  /** The plugin settings every binary reads (the request timeout is only
      handed to the HTTP client). */
  datatype Settings = Settings(apiUrl: string, username: string, password: string, timeout: int)

  /** The three misconfigurations `checkArgs` reports. */
  datatype ArgError = UnparsableUrl(url: string) | MissingUsername | MissingPassword

  /** The pair `(state, error)` that `checkArgs` returns. */
  datatype ArgCheck = ArgCheck(status: Status, error: Option<ArgError>)

  /** Every argument check that fails, in the order `checkArgs` runs them;
      `parses` stands for `url.Parse` succeeding. */
  function ArgFailures(s: Settings, parses: string -> bool): seq<ArgError>
  {
    (if parses(s.apiUrl) then [] else [UnparsableUrl(s.apiUrl)])
    + (if s.username == "" then [MissingUsername] else [])
    + (if s.password == "" then [MissingPassword] else [])
  }

  /** `checkArgs`: the URL must parse, then the username and then the
      password must be non-empty; the first failure is reported as a
      warning. */
  function CheckArgs(s: Settings, parses: string -> bool): (r: ArgCheck)
    ensures r.status == Ok || r.status == Warning
    ensures r.status == Ok <==> r.error == None
    ensures r.status == Ok <==> parses(s.apiUrl) && s.username != "" && s.password != ""
    ensures r.error == Some(UnparsableUrl(s.apiUrl)) <==> !parses(s.apiUrl)
    ensures r.error == Some(MissingUsername) <==> parses(s.apiUrl) && s.username == ""
    ensures r.error == Some(MissingPassword) <==> parses(s.apiUrl) && s.username != "" && s.password == ""
  {
    if !parses(s.apiUrl) then ArgCheck(Warning, Some(UnparsableUrl(s.apiUrl)))
    else if s.username == "" then ArgCheck(Warning, Some(MissingUsername))
    else if s.password == "" then ArgCheck(Warning, Some(MissingPassword))
    else ArgCheck(Ok, None)
  }

  /** The first failing check wins: `CheckArgs` reports exactly the head of
      the list of all failing checks, and succeeds iff that list is empty. */
  lemma CheckArgsReportsFirstFailure(s: Settings, parses: string -> bool)
    ensures var fs := ArgFailures(s, parses);
      CheckArgs(s, parses).error == (if fs == [] then None else Some(fs[0]))
  {
  }

  /** A missing username is reported even when the password is present. */
  lemma MissingUsernameIsWarning(url: string, password: string, timeout: int, parses: string -> bool)
    requires parses(url) && password != ""
    ensures CheckArgs(Settings(url, "", password, timeout), parses) == ArgCheck(Warning, Some(MissingUsername))
  {
  }

  predicate HasSuffix(s: string, suffix: string)
  {
    |suffix| <= |s| && s[|s| - |suffix|..] == suffix
  }

  /** `strings.TrimSuffix`: `s` without `suffix` when it ends with it,
      otherwise `s` unchanged. */
  function TrimSuffix(s: string, suffix: string): (r: string)
    ensures HasSuffix(s, suffix) ==> r + suffix == s
    ensures !HasSuffix(s, suffix) ==> r == s
  {
    if HasSuffix(s, suffix) then s[..|s| - |suffix|] else s
  }

  const ApiPath := "/api/v1"

  /** `getAirflowApiUrl`: one trailing slash of the base URL is dropped and
      the API path appended. */
  function ApiUrl(base: string): (r: string)
    ensures HasSuffix(r, ApiPath)
    ensures |r| == |base| + |ApiPath| - (if HasSuffix(base, "/") then 1 else 0)
    ensures HasSuffix(base, "/") ==> r[..|r| - |ApiPath|] + "/" == base
    ensures !HasSuffix(base, "/") ==> r[..|r| - |ApiPath|] == base
  {
    var stem := TrimSuffix(base, "/");
    assert (stem + ApiPath)[..|stem|] == stem;
    stem + ApiPath
  }

  /** A base URL with and without one trailing slash gives the same API
      URL. */
  lemma ApiUrlIgnoresTrailingSlash(base: string)
    requires !HasSuffix(base, "/")
    ensures ApiUrl(base + "/") == ApiUrl(base)
  {
  }

  /** Only one slash is removed: the API URL has a doubled slash in front of
      the API path exactly when the base URL ends with two slashes. */
  lemma ApiUrlDoubleSlash(base: string)
    ensures HasSuffix(ApiUrl(base), "/" + ApiPath) <==> HasSuffix(base, "//")
  {
    var stem := TrimSuffix(base, "/");
    var u := ApiUrl(base);
    assert u == stem + ApiPath;
    assert HasSuffix(u, "/" + ApiPath) <==> HasSuffix(stem, "/") by {
      if |stem| >= 1 {
        assert u[|u| - |"/" + ApiPath|..] == [stem[|stem| - 1]] + ApiPath;
      }
    }
    if HasSuffix(base, "/") {
      assert base == stem + "/";
      if |stem| >= 1 {
        assert base[|base| - 2..] == [stem[|stem| - 1]] + "/";
      }
    }
  }

  /** The request URL for one API endpoint, such as `/health`. */
  function EndpointUrl(base: string, endpoint: string): (r: string)
    ensures HasSuffix(r, ApiPath + endpoint)
    ensures r[..|r| - |ApiPath + endpoint|] == TrimSuffix(base, "/")
  {
    var u := ApiUrl(base);
    assert (u + endpoint)[|u| - |ApiPath|..] == ApiPath + endpoint;
    u + endpoint
  }

  /** Both spellings of a base URL reach the same health endpoint. */
  lemma HealthUrlExample()
    ensures EndpointUrl("http://x/", "/health") == EndpointUrl("http://x", "/health") == "http://x/api/v1/health"
  {
    ApiUrlIgnoresTrailingSlash("http://x");
    assert "http://x" + "/" == "http://x/";
  }
}
