/** The status lifecycle of a workflow run as a function of its state: what a
    save persists, when the after-save hook publishes a failure event, and
    what the three recording operations do. */
module Lifecycle {
  import opened Ruby
  import opened Attributes
  import opened Naming
  import opened StatusReports

  /** `event_parameters`: what a failure event carries. */
  datatype EventParams = EventParams(
    id: int,
    tokenId: Option<int>,
    hookEvent: string,
    summary: string,
    repositoryFullName: Option<string>)

  function EventParameters(a: Attrs, lib: Library): (e: EventParams)
    ensures e.id == a.id && e.tokenId == a.tokenId
    ensures e.hookEvent == HookEventLabel(a.hookEvent, lib)
    ensures e.summary == Summary(a, lib) && e.repositoryFullName == RepositoryFullName(a)
  {
    EventParams(a.id, a.tokenId, HookEventLabel(a.hookEvent, lib), Summary(a, lib), RepositoryFullName(a))
  }

  /** A run as ActiveRecord holds it: the attribute values in memory, the
      values last persisted, the persisted reports and the failure events
      published so far. */
  datatype RunState = RunState(attrs: Attrs, saved: Attrs, reports: seq<Report>, events: seq<EventParams>)

  /** `status_changed_to_fail?`: the save changed `status`, and to `fail`. */
  predicate StatusChangedToFail(before: Status, after: Status)
    ensures StatusChangedToFail(before, after) <==> before != Fail && after == Fail
  {
    before != after && after == Fail
  }

  /** `save`: when the in-memory attributes are valid they are persisted and,
      if that moved `status` to `fail`, one failure event is published;
      otherwise nothing is persisted and nothing published. */
  function Save(s: RunState, lib: Library): (r: (bool, RunState))
    ensures r.0 == Valid(s.attrs)
    ensures !r.0 ==> r.1 == s
    ensures r.1.attrs == s.attrs && r.1.reports == s.reports
    ensures r.0 ==> r.1.saved == s.attrs
    ensures r.0 && StatusChangedToFail(s.saved.status, s.attrs.status) ==>
      r.1.events == s.events + [EventParameters(s.attrs, lib)]
    ensures !StatusChangedToFail(s.saved.status, s.attrs.status) ==> r.1.events == s.events
  {
    if !Valid(s.attrs) then (false, s)
    else
      var published := if StatusChangedToFail(s.saved.status, s.attrs.status)
                       then [EventParameters(s.attrs, lib)] else [];
      (true, s.(saved := s.attrs, events := s.events + published))
  }

  /** A save publishes exactly one event when it is valid and moves the
      persisted status from something else to `fail`, and none otherwise; an
      invalid save changes nothing at all. */
  lemma SavePublishesOnFailEdge(s: RunState, lib: Library)
    ensures Save(s, lib).0 == Valid(s.attrs)
    ensures !Valid(s.attrs) ==> Save(s, lib).1 == s
    ensures s.events <= Save(s, lib).1.events
    ensures |Save(s, lib).1.events| == |s.events| + 1 <==>
      Valid(s.attrs) && s.saved.status != Fail && s.attrs.status == Fail
    ensures |Save(s, lib).1.events| <= |s.events| + 1
    ensures |Save(s, lib).1.events| == |s.events| + 1 ==>
      Save(s, lib).1.events[|s.events|] == EventParameters(s.attrs, lib)
  {
  }

  /** `update_as_failed(message)`: assign `response_body` and `status` and
      save. The in-memory assignment stands even when the save is refused. */
  function UpdateAsFailed(s: RunState, message: string, lib: Library): (r: (bool, RunState))
    ensures r.1.attrs == s.attrs.(responseBody := Some(message), status := Fail)
    ensures r.0 == Valid(s.attrs)
    ensures r.0 ==> r.1.saved == r.1.attrs
    ensures !r.0 ==> r.1.saved == s.saved && r.1.events == s.events
    ensures r.1.reports == s.reports
    ensures r.0 && s.saved.status != Fail ==> r.1.events == s.events + [EventParameters(r.1.attrs, lib)]
    ensures s.saved.status == Fail ==> r.1.events == s.events
  {
    ValidIgnoresOutcome(s.attrs, Some(message), Fail);
    Save(s.(attrs := s.attrs.(responseBody := Some(message), status := Fail)), lib)
  }

  /** `save_scm_report_failure(message, options)`: mark the run failed, then
      append a failed report with the message and the permitted options,
      whether or not the run itself could be saved. */
  function SaveScmReportFailure(s: RunState, message: string, options: map<string, Value>, lib: Library): (r: RunState)
    ensures r.attrs == s.attrs.(responseBody := Some(message), status := Fail)
    ensures |r.reports| == |s.reports| + 1 && r.reports[..|s.reports|] == s.reports
    ensures r.reports[|s.reports|].status == ReportFail
    ensures r.reports[|s.reports|].responseBody == Some(message)
    ensures r.reports[|s.reports|].requestParameters == PermittedParameters(options)
    ensures LastResponseBody(r.reports) == Some(message)
    ensures r.saved == (if Valid(s.attrs) then r.attrs else s.saved)
    ensures r.events == if Valid(s.attrs) && s.saved.status != Fail
      then s.events + [EventParameters(r.attrs, lib)] else s.events
  {
    var (_, t) := UpdateAsFailed(s, message, lib);
    t.(reports := t.reports + [FailureReport(message, options)])
  }

  /** `save_scm_report_success(options)`: append one successful report with
      the permitted options; the run itself is not touched. */
  function SaveScmReportSuccess(s: RunState, options: map<string, Value>): (r: RunState)
    ensures r.attrs == s.attrs && r.saved == s.saved && r.events == s.events
    ensures |r.reports| == |s.reports| + 1 && r.reports[..|s.reports|] == s.reports
    ensures r.reports[|s.reports|].status == ReportSuccess
    ensures r.reports[|s.reports|].responseBody.None?
    ensures r.reports[|s.reports|].requestParameters == PermittedParameters(options)
  {
    s.(reports := s.reports + [SuccessReport(options)])
  }

  /** Calling `update_as_failed` on a running, valid run publishes one event;
      calling it again publishes none. */
  lemma FailingTwicePublishesOnce(s: RunState, first: string, second: string, lib: Library)
    requires Valid(s.attrs) && s.saved.status != Fail
    ensures var (_, t) := UpdateAsFailed(s, first, lib);
      |t.events| == |s.events| + 1 &&
      UpdateAsFailed(t, second, lib).1.events == t.events
  {
    var (_, t) := UpdateAsFailed(s, first, lib);
    assert t.saved.status == Fail;
  }

  /** Two failure reports in a row on a running, valid run leave two report
      rows and one failure event. */
  lemma TwoFailureReports(s: RunState, m1: string, m2: string, o1: map<string, Value>, o2: map<string, Value>, lib: Library)
    requires Valid(s.attrs) && s.saved.status != Fail
    ensures var t := SaveScmReportFailure(SaveScmReportFailure(s, m1, o1, lib), m2, o2, lib);
      |t.reports| == |s.reports| + 2 && |t.events| == |s.events| + 1
  {
    var t1 := SaveScmReportFailure(s, m1, o1, lib);
    ValidIgnoresOutcome(s.attrs, Some(m1), Fail);
    assert Valid(t1.attrs) && t1.saved.status == Fail;
  }

  /** The entry points that change a run: a generic `update` assigning new
      attribute values, and the three recording operations. */
  datatype Op =
    | Update(next: Attrs)
    | MarkFailed(message: string)
    | RecordFailure(message: string, options: map<string, Value>)
    | RecordSuccess(options: map<string, Value>)

  function Apply(s: RunState, op: Op, lib: Library): RunState {
    match op
    case Update(next) => Save(s.(attrs := next), lib).1
    case MarkFailed(message) => UpdateAsFailed(s, message, lib).1
    case RecordFailure(message, options) => SaveScmReportFailure(s, message, options, lib)
    case RecordSuccess(options) => SaveScmReportSuccess(s, options)
  }

  function Run(s: RunState, ops: seq<Op>, lib: Library): RunState
    decreases |ops|
  {
    if |ops| == 0 then s else Run(Apply(s, ops[0], lib), ops[1..], lib)
  }

  /** The persisted status before each operation and after the last one. */
  function PersistedStatuses(s: RunState, ops: seq<Op>, lib: Library): (t: seq<Status>)
    ensures |t| == |ops| + 1 && t[0] == s.saved.status
    ensures forall i :: 0 <= i < |t| ==> t[i] == Run(s, ops[..i], lib).saved.status
    decreases |ops|
  {
    assert ops[..0] == [];
    assert forall i :: 0 < i <= |ops| ==> ops[..i][0] == ops[0] && ops[..i][1..] == ops[1..][..i - 1];
    [s.saved.status] + (if |ops| == 0 then [] else PersistedStatuses(Apply(s, ops[0], lib), ops[1..], lib))
  }

  /** How many times a status history moves from a non-`fail` value to `fail`. */
  function FailEdges(t: seq<Status>): nat {
    if |t| < 2 then 0
    else (if t[0] != Fail && t[1] == Fail then 1 else 0) + FailEdges(t[1..])
  }

  /** How many operations append a report. */
  function ReportingOps(ops: seq<Op>): nat {
    if |ops| == 0 then 0
    else (if ops[0].RecordFailure? || ops[0].RecordSuccess? then 1 else 0) + ReportingOps(ops[1..])
  }

  /** One operation publishes an event exactly when it moves the persisted
      status to `fail` from something else. */
  lemma ApplyPublishesOnFailEdge(s: RunState, op: Op, lib: Library)
    ensures s.events <= Apply(s, op, lib).events
    ensures |Apply(s, op, lib).events| == |s.events| +
      (if s.saved.status != Fail && Apply(s, op, lib).saved.status == Fail then 1 else 0)
  {
    match op
    case Update(next) =>
      SavePublishesOnFailEdge(s.(attrs := next), lib);
    case MarkFailed(message) =>
    case RecordFailure(message, options) =>
      var (_, t) := UpdateAsFailed(s, message, lib);
      assert Apply(s, op, lib).events == t.events && Apply(s, op, lib).saved == t.saved;
    case RecordSuccess(options) =>
  }

  /** Over any sequence of operations, the failure events published are
      exactly as many as the times the persisted status became `fail`: an
      event per became-fail edge, never a second one for the same edge. */
  lemma {:induction false} EventsMatchFailEdges(s: RunState, ops: seq<Op>, lib: Library)
    ensures s.events <= Run(s, ops, lib).events
    ensures |Run(s, ops, lib).events| == |s.events| + FailEdges(PersistedStatuses(s, ops, lib))
    decreases |ops|
  {
    if |ops| > 0 {
      var next := Apply(s, ops[0], lib);
      ApplyPublishesOnFailEdge(s, ops[0], lib);
      EventsMatchFailEdges(next, ops[1..], lib);
      var t := PersistedStatuses(s, ops, lib);
      assert t[1..] == PersistedStatuses(next, ops[1..], lib);
      assert t[1] == next.saved.status;
    }
  }

  /** Reports are only ever appended: the earlier ones stay as they were,
      one is added per recording operation, and every added one carries only
      allow-listed parameters. */
  lemma {:induction false} ReportsAppendOnly(s: RunState, ops: seq<Op>, lib: Library)
    ensures s.reports <= Run(s, ops, lib).reports
    ensures |Run(s, ops, lib).reports| == |s.reports| + ReportingOps(ops)
    ensures forall i :: |s.reports| <= i < |Run(s, ops, lib).reports| ==>
      Permitted(Run(s, ops, lib).reports[i].requestParameters)
    decreases |ops|
  {
    if |ops| > 0 {
      var next := Apply(s, ops[0], lib);
      ReportsAppendOnly(next, ops[1..], lib);
      var r := Run(s, ops, lib).reports;
      assert r == Run(next, ops[1..], lib).reports;
      match ops[0]
      case Update(_) =>
      case MarkFailed(_) =>
      case RecordFailure(message, options) =>
        PermittedParametersFilter(options);
        assert next.reports == s.reports + [next.reports[|s.reports|]];
      case RecordSuccess(options) =>
        PermittedParametersFilter(options);
        assert next.reports == s.reports + [next.reports[|s.reports|]];
    }
  }
}
