/** Names and one-line summaries derived from a workflow run's attributes. */
module Naming {
  import opened Ruby
  import opened Attributes

  /** `repository_full_name`: `owner/name`, or nil unless both parts are set.
      An empty string is not nil, so it still yields a full name. */
  function RepositoryFullName(a: Attrs): (r: Option<string>)
    ensures r.None? <==> a.repositoryOwner.None? || a.repositoryName.None?
    ensures r.Some? ==> r.value == a.repositoryOwner.value + "/" + a.repositoryName.value
  {
    if a.repositoryOwner.Some? && a.repositoryName.Some? then
      Some(a.repositoryOwner.value + "/" + a.repositoryName.value)
    else
      None
  }

  /** Splits a string at its first `/`. */
  function SplitAtSlash(s: string): Option<(string, string)> {
    if |s| == 0 then None
    else if s[0] == '/' then Some(("", s[1..]))
    else
      match SplitAtSlash(s[1..])
      case None => None
      case Some(parts) => Some(([s[0]] + parts.0, parts.1))
  }

  /** For an owner without a `/` the full name determines owner and name:
      splitting it at its first `/` gives them back. A GitLab namespace with
      subgroups does contain `/`, and then the split is not unique. */
  lemma {:induction false} FullNameSplits(a: Attrs)
    requires a.repositoryOwner.Some? && a.repositoryName.Some?
    requires '/' !in a.repositoryOwner.value
    ensures SplitAtSlash(RepositoryFullName(a).value) ==
      Some((a.repositoryOwner.value, a.repositoryName.value))
  {
    SplitRoundTrip(a.repositoryOwner.value, a.repositoryName.value);
  }

  lemma {:induction false} SplitRoundTrip(owner: string, name: string)
    requires '/' !in owner
    ensures SplitAtSlash(owner + "/" + name) == Some((owner, name))
  {
    if |owner| == 0 {
      assert owner + "/" + name == "/" + name;
    } else {
      assert (owner + "/" + name)[1..] == owner[1..] + "/" + name;
      SplitRoundTrip(owner[1..], name);
      assert [owner[0]] + owner[1..] == owner;
    }
  }

  /** The hook events whose event source is a pull or merge request number. */
  predicate IsRequestHook(hookEvent: Option<string>) {
    hookEvent == Some("pull_request") || hookEvent == Some("Merge Request Hook")
  }

  /** `formatted_event_source_name`: `#` before the event source name for a
      pull request or merge request hook; the name unchanged otherwise. */
  function FormattedEventSourceName(a: Attrs): (r: Option<string>)
    ensures IsRequestHook(a.hookEvent) ==> r == Some("#" + OptToS(a.eventSourceName))
    ensures !IsRequestHook(a.hookEvent) ==> r == a.eventSourceName
  {
    if IsRequestHook(a.hookEvent) then Some("#" + OptToS(a.eventSourceName))
    else a.eventSourceName
  }

  /** `hook_event&.humanize || 'unknown'`. */
  function HookEventLabel(hookEvent: Option<string>, lib: Library): (r: string)
    ensures hookEvent.None? ==> r == "unknown"
    ensures hookEvent.Some? ==> r == lib.humanize(hookEvent.value)
  {
    match hookEvent
    case None => "unknown"
    case Some(h) => lib.humanize(h)
  }

  /** The first part of the summary, before any action. */
  function SummaryHead(a: Attrs, lib: Library): string {
    HookEventLabel(a.hookEvent, lib) + " " + OptToS(FormattedEventSourceName(a))
  }

  /** `summary`: the humanized hook event and the formatted event source,
      followed by `, ` and the humanized, downcased action when there is one. */
  function Summary(a: Attrs, lib: Library): (r: string)
    ensures SummaryHead(a, lib) <= r
    ensures Present(a.hookAction) <==> |r| > |SummaryHead(a, lib)|
  {
    var head := SummaryHead(a, lib);
    if Present(a.hookAction) then head + ", " + lib.downcase(lib.humanize(a.hookAction.value))
    else head
  }

  /** The summary always begins with the hook event label and the formatted
      event source; the action is appended exactly when it is present. */
  lemma SummaryShape(a: Attrs, lib: Library)
    ensures SummaryHead(a, lib) <= Summary(a, lib)
    ensures Blank(a.hookAction) <==> Summary(a, lib) == SummaryHead(a, lib)
    ensures Present(a.hookAction) ==>
      Summary(a, lib)[|SummaryHead(a, lib)|..] == ", " + lib.downcase(lib.humanize(a.hookAction.value))
  {
  }

  /** The summary of a run without a hook event starts with `unknown `. */
  lemma SummaryWithoutHookEvent(a: Attrs, lib: Library)
    requires a.hookEvent.None?
    ensures "unknown " <= Summary(a, lib)
  {
    assert "unknown " <= SummaryHead(a, lib);
    SummaryShape(a, lib);
  }

  /** The first example in the source: `Pull request #234, opened`. */
  lemma SummaryOfOpenedPullRequest(a: Attrs, lib: Library)
    requires a.hookEvent == Some("pull_request") && a.eventSourceName == Some("234")
    requires a.hookAction == Some("opened")
    requires lib.humanize("pull_request") == "Pull request"
    requires lib.humanize("opened") == "Opened" && lib.downcase("Opened") == "opened"
    ensures Summary(a, lib) == "Pull request #234, opened"
  {
    assert !IsSpace(a.hookAction.value[0]);
  }

  /** The third example in the source: a push has no `#` and no action. */
  lemma SummaryOfPush(a: Attrs, lib: Library, sha: string)
    requires a.hookEvent == Some("push") && a.eventSourceName == Some(sha)
    requires a.hookAction.None?
    requires lib.humanize("push") == "Push"
    ensures Summary(a, lib) == "Push " + sha
  {
  }

  /** The values of a list with `presence` applied, nil ones dropped
      (`filter_map(&:presence)`). */
  function PresentValues(xs: seq<Option<string>>): (r: seq<string>)
    ensures forall i :: 0 <= i < |r| ==> Present(Some(r[i]))
    ensures |r| == 0 <==> forall i :: 0 <= i < |xs| ==> Blank(xs[i])
    ensures |r| > 0 ==>
      exists i :: 0 <= i < |xs| && xs[i] == Some(r[0]) && (forall j :: 0 <= j < i ==> Blank(xs[j]))
  {
    if |xs| == 0 then []
    else if Present(xs[0]) then [xs[0].value] + PresentValues(xs[1..])
    else PresentValues(xs[1..])
  }

  /** `configuration_source`: the first present one of
      `workflow_configuration_url` and `workflow_configuration_path`. */
  function ConfigurationSource(a: Attrs): (r: Option<string>)
    ensures Present(a.workflowConfigurationUrl) ==> r == a.workflowConfigurationUrl
    ensures Blank(a.workflowConfigurationUrl) && Present(a.workflowConfigurationPath) ==>
      r == a.workflowConfigurationPath
    ensures Blank(a.workflowConfigurationUrl) && Blank(a.workflowConfigurationPath) ==> r.None?
  {
    var candidates := [a.workflowConfigurationUrl, a.workflowConfigurationPath];
    assert candidates[1..] == [a.workflowConfigurationPath] && candidates[1..][1..] == [];
    assert PresentValues(candidates[1..]) ==
      if Present(a.workflowConfigurationPath) then [a.workflowConfigurationPath.value] else [];
    var found := PresentValues(candidates);
    if |found| == 0 then None else Some(found[0])
  }
}
