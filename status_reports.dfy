/** The audit trail of attempts to report a run's status to the SCM: one
    `SCMStatusReport` per attempt, with the caller's options reduced to an
    allow-list. */
module StatusReports {
  import opened Ruby

  /** `PERMITTED_OPTIONS`: GitHub's keys, GitLab's keys (`commit_sha` is listed
      for both) and the shared ones. Options are keyed by symbol name. */
  const PERMITTED_OPTIONS: seq<string> := [
    "api_endpoint", "target_repository_full_name", "commit_sha",
    "endpoint", "project_id", "commit_sha",
    "state", "status_options"
  ]

  /** The status of one report: `success` is the default. */
  datatype ReportStatus = ReportSuccess | ReportFail

  /** One `SCMStatusReport`; `requestParameters` is the hash that gets
      serialised, not its JSON text. */
  datatype Report = Report(status: ReportStatus, requestParameters: map<string, Value>, responseBody: Option<string>)

  /** `Hash#slice(*keys)`: the entries whose key is among `keys`. */
  function Slice(options: map<string, Value>, keys: seq<string>): (r: map<string, Value>)
    ensures forall k :: k in r <==> k in options && k in keys
    ensures forall k :: k in r ==> r[k] == options[k]
  {
    map k | k in options && k in keys :: options[k]
  }

  /** `options.slice(*PERMITTED_OPTIONS)`. */
  function PermittedParameters(options: map<string, Value>): (r: map<string, Value>)
    ensures Permitted(r)
    ensures r.Keys <= options.Keys
    ensures forall k :: k in options && k in PERMITTED_OPTIONS ==> k in r && r[k] == options[k]
  {
    Slice(options, PERMITTED_OPTIONS)
  }

  /** Only allow-listed keys. */
  predicate Permitted(parameters: map<string, Value>) {
    forall k :: k in parameters ==> k in PERMITTED_OPTIONS
  }

  /** The filter keeps exactly the permitted options, with their values, and
      filtering twice changes nothing. */
  lemma PermittedParametersFilter(options: map<string, Value>)
    ensures Permitted(PermittedParameters(options))
    ensures forall k :: k in options && k in PERMITTED_OPTIONS ==>
      k in PermittedParameters(options) && PermittedParameters(options)[k] == options[k]
    ensures PermittedParameters(PermittedParameters(options)) == PermittedParameters(options)
    ensures Permitted(options) ==> PermittedParameters(options) == options
  {
  }

  /** A secret passed next to an endpoint is dropped, the endpoint kept. */
  lemma SecretTokenDropped()
    ensures PermittedParameters(map["api_endpoint" := Str("a"), "secret_token" := Str("s")]) ==
      map["api_endpoint" := Str("a")]
  {
    var r := PermittedParameters(map["api_endpoint" := Str("a"), "secret_token" := Str("s")]);
    assert "secret_token" !in PERMITTED_OPTIONS;
    assert "api_endpoint" in PERMITTED_OPTIONS;
    assert r.Keys == {"api_endpoint"};
  }

  /** The report `save_scm_report_success` creates. */
  function SuccessReport(options: map<string, Value>): Report {
    Report(ReportSuccess, PermittedParameters(options), None)
  }

  /** The report `save_scm_report_failure` creates. */
  function FailureReport(message: string, options: map<string, Value>): Report {
    Report(ReportFail, PermittedParameters(options), Some(message))
  }

  /** `last_response_body`: the response body of the latest report, nil when
      there is none. */
  function LastResponseBody(reports: seq<Report>): (r: Option<string>)
    ensures |reports| == 0 ==> r.None?
    ensures |reports| > 0 ==> r == reports[|reports| - 1].responseBody
  {
    if |reports| == 0 then None else reports[|reports| - 1].responseBody
  }

  /** After a failure report the latest response body is its message; after
      a success report there is none. */
  lemma LastResponseBodyAfterReport(reports: seq<Report>, message: string, options: map<string, Value>)
    ensures LastResponseBody(reports + [FailureReport(message, options)]) == Some(message)
    ensures LastResponseBody(reports + [SuccessReport(options)]) == None
  {
  }
}
