/** The `WorkflowRun` record: the object whose attributes the recording
    operations update in place, whose saves run the validations and the
    after-save hook, and whose status reports accumulate. */
module WorkflowRuns {
  import opened Ruby
  import opened Attributes
  import opened StatusReports
  import L = Lifecycle

  class WorkflowRun {
    /** The attribute values held in memory. */
    var attrs: Attrs
    /** The attribute values as last persisted. */
    var saved: Attrs
    /** The persisted `scm_status_reports`, oldest first. */
    var reports: seq<Report>
    /** The `Event::WorkflowRunFail` events published, oldest first. */
    ghost var events: seq<L.EventParams>
    /** The string inflections the summary uses. */
    const lib: Library

    ghost function State(): L.RunState
      reads this
    {
      L.RunState(attrs, saved, reports, events)
    }

    /** A run loaded from the store, with its reports; nothing published yet. */
    constructor (stored: Attrs, storedReports: seq<Report>, lib: Library)
      ensures State() == L.RunState(stored, stored, storedReports, [])
      ensures this.lib == lib
    {
      attrs := stored;
      saved := stored;
      reports := storedReports;
      events := [];
      this.lib := lib;
    }

    /** `save`, with the `after_save :create_event, if: :status_changed_to_fail?`
        hook. */
    method Save() returns (ok: bool)
      modifies this
      ensures (ok, State()) == L.Save(old(State()), lib)
      ensures ok == Valid(old(attrs))
      ensures attrs == old(attrs) && reports == old(reports)
      ensures ok ==> saved == attrs
      ensures !ok ==> saved == old(saved) && events == old(events)
      ensures |events| == |old(events)| + (if ok && L.StatusChangedToFail(old(saved).status, attrs.status) then 1 else 0)
    {
      assert events + [] == events;
      ok := Valid(attrs);
      if ok {
        var changedToFail := L.StatusChangedToFail(saved.status, attrs.status);
        saved := attrs;
        if changedToFail {
          events := events + [L.EventParameters(attrs, lib)];
        }
      }
    }

    /** `update_as_failed(message)`: `update(response_body: message, status: 'fail')`. */
    method UpdateAsFailed(message: string) returns (ok: bool)
      modifies this
      ensures (ok, State()) == L.UpdateAsFailed(old(State()), message, lib)
      ensures attrs.status == Fail && attrs.responseBody == Some(message)
      ensures old(saved).status == Fail ==> events == old(events)
      ensures ok && old(saved).status != Fail ==> |events| == |old(events)| + 1
    {
      attrs := attrs.(responseBody := Some(message), status := Fail);
      ok := Save();
    }

    /** `save_scm_report_failure(message, options)`; the result of marking
        the run failed is not looked at, so the report is created either way. */
    method SaveScmReportFailure(message: string, options: map<string, Value>) returns (report: Report)
      modifies this
      ensures State() == L.SaveScmReportFailure(old(State()), message, options, lib)
      ensures report == FailureReport(message, options) && reports == old(reports) + [report]
      ensures Permitted(report.requestParameters)
    {
      var _ := UpdateAsFailed(message);
      report := FailureReport(message, options);
      PermittedParametersFilter(options);
      reports := reports + [report];
    }

    /** `save_scm_report_success(options)`. */
    method SaveScmReportSuccess(options: map<string, Value>) returns (report: Report)
      modifies this
      ensures State() == L.SaveScmReportSuccess(old(State()), options)
      ensures report == SuccessReport(options) && reports == old(reports) + [report]
      ensures attrs == old(attrs) && saved == old(saved) && events == old(events)
      ensures Permitted(report.requestParameters)
    {
      report := SuccessReport(options);
      PermittedParametersFilter(options);
      reports := reports + [report];
    }
  }
}
