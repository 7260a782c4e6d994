# WorkflowRun: a Dafny model of Open Build Service's workflow run record

A workflow run is the record Open Build Service keeps for each SCM webhook
delivery (GitHub, Gitea, GitLab). This project models the `WorkflowRun`
ActiveRecord model and proves properties about it. The model has three parts:

- **Status lifecycle.** A run is `running`, `success` or `fail`.
  `update_as_failed` stores a diagnostic message and sets `fail`. Every save
  runs the validations first. After a save, the `after_save` hook publishes a
  failure event exactly when that save moved the persisted `status` to `fail`.
- **Audit trail.** `save_scm_report_success` and `save_scm_report_failure`
  each append one `SCMStatusReport`. Its `request_parameters` are the
  caller's options cut down to the `PERMITTED_OPTIONS` allow-list.
- **Derivations.** Pure functions of the attributes and the parsed
  payload: `repository_full_name`, `formatted_event_source_name`, `summary`,
  `configuration_source`, `repository_url`, `event_source_url`,
  `event_source_message` and its helpers, and `last_response_body`.

Layout, one module per file:

- `ruby.dfy` (`Ruby`): the Ruby behaviour the record depends on.
  - Values as `JSON.parse` builds them; `nil` is `Null`.
  - `dig` and `[]`, including the exceptions they raise on a scalar.
  - `blank?`/`presence` and string interpolation.
  - A `Library` value that holds `humanize`, `downcase` and `inspect` as
    uninterpreted functions.
- `payload_mapper.dfy` (`PayloadMapper`): `payload` (the parsed document,
  the `unparseable` sentinel, or the raising blank source),
  `SOURCE_URL_PAYLOAD_MAPPING`, `repository_url` and `event_source_url`.
- `attributes.dfy` (`Attributes`): the status enum and its integer coding,
  the attribute record and the validations.
- `naming.dfy` (`Naming`): full name, formatted event source, summary and
  configuration source.
- `event_messages.dfy` (`EventMessages`): `event_source_message` as written,
  its three helpers, and a corrected dispatch (see Findings).
- `status_reports.dfy` (`StatusReports`): the allow-list, the reports and
  `last_response_body`.
- `lifecycle.dfy` (`Lifecycle`): the run's state as a value.
  - A save, `update_as_failed` and the two recording operations as
    functions of the old state.
  - Lemmas over any sequence of these operations.
- `workflow_run.dfy` (`WorkflowRuns`): the `WorkflowRun` class.
  - Fields: the in-memory attributes, the persisted attributes, the reports,
    and a ghost sequence of published events.
  - Its methods update these fields in place. Each method's `ensures` ties
    the new state to the `Lifecycle` function.

Inputs the model takes as parameters:

- The JSON parser that `payload` calls is given as a function from text to
  an optional `Value` (none when the text is not JSON). Each run's `payload`
  is stored as the outcome: a `Value`, the `Unparseable` sentinel, or
  `BlankSource`.
- The inflections are given as a `Library` argument.
- Published events are recorded in a ghost field instead of being sent.

Behaviour a reader might expect that the code does not have:

- Status is not kept monotonic. A `success` or `running` status can be
  overwritten by a later `update`, and the model allows it.
- `event_source_message` dispatches by value only on `pull_request`. This is
  modelled as written and listed under Findings.
- `dig` raises `TypeError` when an intermediate value is a string or a
  number. The model keeps the exception as `Raise(TypeError)`.
- A blank `request_payload` does not give an empty payload. `presence` turns
  it into nil, so `JSON.parse` gets the Hash `{}` and raises `TypeError`.
  The `rescue JSON::ParserError` does not catch that error. So `payload` and
  every lookup into it raise. The model's `BlankSource` carries this.

## Model

| member | source | states |
|---|---|---|
| `Ruby.Presence` | src/api/app/models/workflow_run.rb:99 | `presence` gives the value back exactly when it is present (not nil, not only white space), nil otherwise |
| `Ruby.ToS` | src/api/app/models/workflow_run.rb:141 | interpolation `"#{v}"`: nil reads as empty, a string as itself, a boolean as `true`/`false`, an integer as decimal digits that read back (by `Ruby.DigitsValue`) as its magnitude, with a leading `-` exactly when negative |
| `Ruby.DigitsValueOfDigits` | src/api/app/models/workflow_run.rb:141 | the digits `Integer#to_s` writes for a natural number read back as that number |
| `Ruby.Dig` | src/api/app/models/workflow_run.rb:80 | `dig` on a receiver that is neither a Hash nor an Array raises NoMethodError |
| `Ruby.DigCompose` | src/api/app/models/workflow_run.rb:80 | digging along `p + q` equals digging along `p` and then continuing along `q`: it stops at nil, descends into hashes and arrays, and raises TypeError on any other value |
| `Ruby.Bracket` | src/api/app/models/workflow_run.rb:160 | `payload['ref']`: a hash lookup (nil when the key is missing); raises NoMethodError on nil or a boolean and TypeError on an array or an integer |
| `PayloadMapper.PayloadOf` | src/api/app/models/workflow_run.rb:61-65 | a blank `request_payload` gives the raising `BlankSource`; present text the parser rejects gives the `unparseable` sentinel; otherwise the parsed document |
| `PayloadMapper.PayloadDig` | src/api/app/models/workflow_run.rb:61-65 | the `unparseable` sentinel yields nil for every path; a blank source raises TypeError; an object payload missing the first key yields nil |
| `PayloadMapper.PayloadBracket` | src/api/app/models/workflow_run.rb:160 | `payload['ref']`: nil for the sentinel, TypeError for a blank source, the key's value (nil when missing) for an object payload, an exception for a payload that is neither an object nor a string |
| `PayloadMapper.BlankRequestPayloadRaises` | src/api/app/models/workflow_run.rb:61-65 | for a blank `request_payload`, `repository_url`, the event source URL of every mapped hook event and `payload[key]` all raise TypeError |
| `PayloadMapper.RepositoryUrl` | src/api/app/models/workflow_run.rb:73-76 | `repository.html_url` when it is truthy; otherwise `project.web_url`; an exception from the first lookup propagates; nil for the sentinel; TypeError for a blank source |
| `PayloadMapper.GitLabRepositoryUrl` | src/api/app/models/workflow_run.rb:75 | a payload with no `repository` key and a `project.web_url` yields that web URL |
| `PayloadMapper.EventSourceUrl` | src/api/app/models/workflow_run.rb:78-81 | nil for a nil hook event or one outside the four keys of `SOURCE_URL_PAYLOAD_MAPPING`; otherwise exactly the payload dug along the mapped, non-empty path |
| `PayloadMapper.PullRequestSourceUrl` | src/api/app/models/workflow_run.rb:5 | for a `pull_request` hook the event source URL is `pull_request.html_url` |
| `PayloadMapper.PushHookWithoutCommits` | src/api/app/models/workflow_run.rb:8 | any `Push Hook` payload whose `commits` array is empty has a nil event source URL (index 0 past the end is nil) |
| `Attributes.StatusCode` | src/api/app/models/workflow_run.rb:36-40 | every status is stored as an integer from 0 to 2 |
| `Attributes.StatusOfCode` | src/api/app/models/workflow_run.rb:36-40 | a stored integer names a status exactly when it is 0, 1 or 2 |
| `Attributes.StatusCodeRoundTrip` | src/api/app/models/workflow_run.rb:36-40 | decoding the code of a status gives the status back, and encoding a decodable code gives the code back |
| `Attributes.Valid` | src/api/app/models/workflow_run.rb:20-25 | the body is the conjunction of the validations: ten string attributes of at most 255 characters (nil passes), `request_headers` present, `workflow_configuration` of at most 65,535 characters. The ensures spell out a few consequences: a valid run has present `request_headers`, a bounded `workflow_configuration`, `hook_event` and `event_source_name`; a blank `request_headers` makes a run invalid |
| `Attributes.ValidIgnoresOutcome` | src/api/app/models/workflow_run.rb:20-25 | no validation looks at `response_body` or `status`, so setting them never changes whether the record is valid |
| `Naming.RepositoryFullName` | src/api/app/models/workflow_run.rb:67-71 | nil exactly when owner or name is nil; otherwise `owner + "/" + name` |
| `Naming.FullNameSplits` | src/api/app/models/workflow_run.rb:67-71 | when the owner has no `/`, splitting the full name at its first `/` gives back the owner and the name |
| `Naming.FormattedEventSourceName` | src/api/app/models/workflow_run.rb:102-109 | `"#" + event_source_name` (nil reads as empty) for `pull_request` and `Merge Request Hook`; the name unchanged for every other hook event |
| `Naming.HookEventLabel` | src/api/app/models/workflow_run.rb:117 | `unknown` for a nil hook event, otherwise the humanized hook event |
| `Naming.Summary` | src/api/app/models/workflow_run.rb:116-120 | the summary starts with the hook event label and the formatted event source, and is longer than that exactly when `hook_action` is present |
| `Naming.SummaryShape` | src/api/app/models/workflow_run.rb:116-120 | the summary starts with the label, a space and the formatted event source; it equals that head exactly when `hook_action` is blank, and otherwise continues with `", "` and the downcased humanized action |
| `Naming.SummaryWithoutHookEvent` | src/api/app/models/workflow_run.rb:117 | without a hook event the summary starts with `unknown ` |
| `Naming.SummaryOfOpenedPullRequest` | src/api/app/models/workflow_run.rb:112 | hook `pull_request`, source `234` and action `opened` give `Pull request #234, opened`, given the usual inflections of those words |
| `Naming.SummaryOfPush` | src/api/app/models/workflow_run.rb:114 | a push with no action gives `Push <sha>` |
| `Naming.PresentValues` | src/api/app/models/workflow_run.rb:99 | `filter_map(&:presence)`: every value kept is present; nothing is kept exactly when every element is blank; the first value kept is the first present element |
| `Naming.ConfigurationSource` | src/api/app/models/workflow_run.rb:98-100 | the URL when it is present; otherwise the path when it is present; otherwise nil |
| `EventMessages.TitleAndBody` | src/api/app/models/workflow_run.rb:141 | `"#{title}\n#{body}"`: when both lookups return, the interpolated title, a newline and the interpolated body; an exception from the title lookup, else from the body lookup, propagates |
| `EventMessages.PullRequestMessage` | src/api/app/models/workflow_run.rb:136-147 | for github and gitea, the title and body from `pull_request.title` and `pull_request.body`; for gitlab, from `object_attributes.title` and `object_attributes.description`; nil for any other vendor; a non-nil result is a string holding the newline |
| `EventMessages.PullRequestMessageOfGitHub` | src/api/app/models/workflow_run.rb:138-141 | a GitHub pull request titled `Fix` with body `Details` gives `"Fix\nDetails"` |
| `EventMessages.PushMessage` | src/api/app/models/workflow_run.rb:149-156 | `head_commit.message` for github and gitea; the first commit's message for gitlab; nil otherwise |
| `EventMessages.TagPushMessage` | src/api/app/models/workflow_run.rb:158-161 | `Tag <ref> got pushed` with the interpolated `payload['ref']`; raises when that lookup raises |
| `EventMessages.EventSourceMessageAsWritten` | src/api/app/models/workflow_run.rb:83-92 | the pull request message for `pull_request`; nil for every other generic event type, `push` and `tag_push` included |
| `EventMessages.PushMessageUnreachable` | src/api/app/models/workflow_run.rb:87-88 | a GitHub push with head commit message `Fix`: `push_message` returns it, `event_source_message` as written returns nil |
| `EventMessages.TagPushMessageUnreachable` | src/api/app/models/workflow_run.rb:89-90 | a tag push with ref `v1`: `tag_push_message` says `Tag v1 got pushed`, `event_source_message` as written returns nil |
| `EventMessages.EventSourceMessage` | src/api/app/models/workflow_run.rb:83-92 | corrected dispatch: `pull_request`, `push` and `tag_push` each give their helper's message; every other value gives nil |
| `EventMessages.CorrectedExtendsAsWritten` | src/api/app/models/workflow_run.rb:83-92 | where the written dispatch gives something non-nil, the corrected one gives the same; on a tag push the two always differ |
| `StatusReports.Slice` | src/api/app/models/workflow_run.rb:52 | `Hash#slice`: a key is kept exactly when it is in both the options and the key list, and its value is kept with it |
| `StatusReports.PermittedParameters` | src/api/app/models/workflow_run.rb:52 | `options.slice(*PERMITTED_OPTIONS)`: only allow-listed keys, only keys of the options, and every allow-listed option with its value |
| `StatusReports.PermittedParametersFilter` | src/api/app/models/workflow_run.rb:11-18 | the filtered options hold only allow-listed keys and every allow-listed option with its value; filtering is idempotent and changes nothing on allow-listed options |
| `StatusReports.SecretTokenDropped` | src/api/app/models/workflow_run.rb:58 | `{api_endpoint: "a", secret_token: "s"}` is stored as `{api_endpoint: "a"}` |
| `StatusReports.LastResponseBody` | src/api/app/models/workflow_run.rb:94-96 | nil without reports; otherwise the response body of the last report |
| `StatusReports.LastResponseBodyAfterReport` | src/api/app/models/workflow_run.rb:94-96 | after a failure report the last response body is its message; after a success report it is nil |
| `Lifecycle.EventParameters` | src/api/app/models/workflow_run.rb:124-126 | the event carries the run's id and token id, its hook event label, its summary and its full name |
| `Lifecycle.StatusChangedToFail` | src/api/app/models/workflow_run.rb:132-134 | the save changed `status` to `fail`: exactly when the status before was not `fail` and the status after is `fail` |
| `Lifecycle.Save` | src/api/app/models/workflow_run.rb:32 | a save succeeds exactly when the record is valid; an invalid save changes nothing; a valid one persists the in-memory attributes; it appends the run's event parameters exactly when the status changes to `fail`; attributes and reports are untouched |
| `Lifecycle.SavePublishesOnFailEdge` | src/api/app/models/workflow_run.rb:132-134 | a save succeeds exactly when the record is valid; an invalid save changes nothing; a save publishes at most one event, and one exactly when it is valid and moves the persisted status from non-`fail` to `fail`; that event holds the run's parameters |
| `Lifecycle.UpdateAsFailed` | src/api/app/models/workflow_run.rb:43-45 | sets `response_body` to the message and `status` to `fail` in memory; it persists them when valid; it publishes one event when valid and the persisted status was not `fail`; it publishes none when the run was already `fail` |
| `Lifecycle.FailingTwicePublishesOnce` | src/api/app/models/workflow_run.rb:43-45 | on a valid run that is not yet failed, the first `update_as_failed` publishes one event and a second one publishes none |
| `Lifecycle.SaveScmReportFailure` | src/api/app/models/workflow_run.rb:49-54 | the in-memory attributes change only in `response_body` (the message) and `status` (`fail`); exactly one report is appended (status fail, the message, the permitted options); earlier reports are unchanged; the run's event is published exactly when it was valid and not yet failed |
| `Lifecycle.SaveScmReportSuccess` | src/api/app/models/workflow_run.rb:57-59 | exactly one report is appended (status success, no response body, the permitted options); status, response body, persisted values and events are unchanged |
| `Lifecycle.TwoFailureReports` | src/api/app/models/workflow_run.rb:49-54 | two failure reports in a row on a valid, unfailed run give two report rows and one event |
| `Lifecycle.PersistedStatuses` | src/api/app/models/workflow_run.rb:32 | the persisted status history: one entry per operation plus one; entry `i` is the persisted status after the first `i` operations |
| `Lifecycle.ApplyPublishesOnFailEdge` | src/api/app/models/workflow_run.rb:32 | each operation publishes an event exactly when it moves the persisted status from non-`fail` to `fail`, and never removes an event |
| `Lifecycle.EventsMatchFailEdges` | src/api/app/models/workflow_run.rb:32 | over any sequence of operations, the number of new events equals the number of non-`fail`-to-`fail` edges in the persisted status history |
| `Lifecycle.ReportsAppendOnly` | src/api/app/models/workflow_run.rb:51-58 | over any sequence of operations, the old reports stay a prefix, one report is added per recording operation, and every added report holds only allow-listed keys |
| `WorkflowRuns.WorkflowRun.Save` | src/api/app/models/workflow_run.rb:32 | the in-place save: persists the attributes exactly when they are valid, and appends one event exactly when the persisted status changes to `fail` |
| `WorkflowRuns.WorkflowRun.UpdateAsFailed` | src/api/app/models/workflow_run.rb:43-45 | the fields become the state `Lifecycle.UpdateAsFailed` describes; an already failed run publishes nothing |
| `WorkflowRuns.WorkflowRun.SaveScmReportFailure` | src/api/app/models/workflow_run.rb:49-54 | the fields become the state `Lifecycle.SaveScmReportFailure` describes; the returned report is appended and holds only permitted keys |
| `WorkflowRuns.WorkflowRun.SaveScmReportSuccess` | src/api/app/models/workflow_run.rb:57-59 | appends the returned success report and changes no other field |

## Findings

| source | as written | input that shows it | evidently intended | confidence | as-written member | corrected member |
|---|---|---|---|---|---|---|
| src/api/app/models/workflow_run.rb:87-90 | `when generic_event_type == 'push'` and `when generic_event_type == 'tag_push'` hold a boolean. `case` compares it by `===` with a string or nil, which never matches. | `generic_event_type = 'push'`, `scm_vendor = 'github'`, payload `{"head_commit": {"message": "Fix"}}` gives nil instead of `Fix`. `generic_event_type = 'tag_push'` with `{"ref": "v1"}` gives nil instead of `Tag v1 got pushed`. | `when 'push'` and `when 'tag_push'` | not executed; high (the `when` values are evaluated booleans) | `EventMessages.EventSourceMessageAsWritten`, `EventMessages.PushMessageUnreachable`, `EventMessages.TagPushMessageUnreachable` | `EventMessages.EventSourceMessage` |

## Left out

- JSON parsing is a foreign call. `PayloadOf` takes the parser as a function, and its `ParserError` is the parser returning none.
- JSON numbers are integers only. Floats are not modelled.
- `JSON.generate` of the filtered options is not modelled. A report holds the filtered hash.
- Option keys are modelled by symbol name. A string key such as `'state'` would not pass `slice` with the symbol list in Ruby. The model does not tell the two apart.
- `humanize`, `downcase` and the `inspect` text of arrays and hashes are ActiveSupport and Ruby string operations. They are uninterpreted functions in `Ruby.Library`.
- In `blank?`, white space is the Unicode White_Space set written out in `Ruby.IsSpace`. Ruby's own character tables are not modelled.
- ActiveRecord persistence is reduced to two attribute records, in memory and persisted. Left out:
  - transactions and database errors, such as a `response_body` longer than its column;
  - associations and `dependent: :destroy` cascades;
  - `belongs_to :token`, artifacts, event subscriptions and `paginates_per`.
- `Event::WorkflowRunFail.create` is an external channel. A published event is recorded as its `event_parameters` in a ghost sequence.
- `SCMStatusReport` and its validations are not part of this model. Creating a report is assumed to succeed.
- Assigning a status name outside the enum raises `ArgumentError` in Rails. The model's `Status` type has only the three values, so neither that assignment nor a nil status arises.
- Creating a run (upstream of this record) is not modelled. The class constructor loads an existing run.
- Concurrency and row locking: the source has none, and the model is sequential. Two failure reports in a row are covered by `Lifecycle.TwoFailureReports`.
- `WorkflowRunRowComponent` (presentation) only reads the record's accessors and is not modelled.
