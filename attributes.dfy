/** The stored attributes of a workflow run and the validations ActiveRecord
    runs on them before every save. */
module Attributes {
  import opened Ruby
  import opened PayloadMapper

  /** The `status` enum: running = 0, success = 1, fail = 2. A value outside
      these three cannot be assigned to an enum attribute; the type says so. */
  datatype Status = Running | Success | Fail

  /** The integer each status is stored as. */
  function StatusCode(s: Status): (code: nat)
    ensures code <= 2
  {
    match s
    case Running => 0
    case Success => 1
    case Fail => 2
  }

  /** Reading a stored integer back into the enum. */
  function StatusOfCode(code: int): (s: Option<Status>)
    ensures s.Some? <==> 0 <= code <= 2
  {
    if code == 0 then Some(Running)
    else if code == 1 then Some(Success)
    else if code == 2 then Some(Fail)
    else None
  }

  /** The enum's integer coding is a bijection between the three statuses
      and 0, 1, 2. */
  lemma StatusCodeRoundTrip(s: Status, code: int)
    ensures StatusOfCode(StatusCode(s)) == Some(s)
    ensures StatusOfCode(code).Some? ==> StatusCode(StatusOfCode(code).value) == code
  {
  }

  /** The attribute values of one workflow run. `payload` is the result of
      parsing `request_payload`. */
  datatype Attrs = Attrs(
    id: int,
    tokenId: Option<int>,
    scmVendor: Option<string>,
    responseUrl: Option<string>,
    workflowConfigurationPath: Option<string>,
    workflowConfigurationUrl: Option<string>,
    hookEvent: Option<string>,
    hookAction: Option<string>,
    genericEventType: Option<string>,
    repositoryName: Option<string>,
    repositoryOwner: Option<string>,
    eventSourceName: Option<string>,
    requestHeaders: Option<string>,
    payload: Payload,
    responseBody: Option<string>,
    workflowConfiguration: Option<string>,
    status: Status)

  const MAX_STRING_LENGTH := 255
  const MAX_CONFIGURATION_LENGTH := 65_535

  /** `length: { maximum: max }`: nil passes, a string passes when it has at
      most `max` characters. */
  predicate WithinLength(s: Option<string>, max: nat) {
    s.None? || |s.value| <= max
  }

  /** The validations: ten string attributes of at most 255 characters,
      `request_headers` present, `workflow_configuration` of at most 65,535
      characters. `status` is always present, as the enum has no nil. */
  predicate Valid(a: Attrs)
    ensures Valid(a) ==> Present(a.requestHeaders)
    ensures Valid(a) ==> |OptToS(a.workflowConfiguration)| <= MAX_CONFIGURATION_LENGTH
    ensures Valid(a) ==> |OptToS(a.hookEvent)| <= MAX_STRING_LENGTH && |OptToS(a.eventSourceName)| <= MAX_STRING_LENGTH
    ensures Blank(a.requestHeaders) ==> !Valid(a)
  {
    && WithinLength(a.scmVendor, MAX_STRING_LENGTH)
    && WithinLength(a.responseUrl, MAX_STRING_LENGTH)
    && WithinLength(a.workflowConfigurationPath, MAX_STRING_LENGTH)
    && WithinLength(a.workflowConfigurationUrl, MAX_STRING_LENGTH)
    && WithinLength(a.hookEvent, MAX_STRING_LENGTH)
    && WithinLength(a.hookAction, MAX_STRING_LENGTH)
    && WithinLength(a.genericEventType, MAX_STRING_LENGTH)
    && WithinLength(a.repositoryName, MAX_STRING_LENGTH)
    && WithinLength(a.repositoryOwner, MAX_STRING_LENGTH)
    && WithinLength(a.eventSourceName, MAX_STRING_LENGTH)
    && Present(a.requestHeaders)
    && WithinLength(a.workflowConfiguration, MAX_CONFIGURATION_LENGTH)
  }

  /** No validation looks at `status` or `response_body`, so marking a run
      failed never turns a valid record into an invalid one or back. */
  lemma ValidIgnoresOutcome(a: Attrs, message: Option<string>, status: Status)
    ensures Valid(a.(responseBody := message, status := status)) == Valid(a)
  {
  }
}
