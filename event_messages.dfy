/** The message of a run's event source (pull request title and body, commit
    message, tag push note), drawn from the payload per SCM vendor. */
module EventMessages {
  import opened Ruby
  import opened PayloadMapper
  import opened Attributes

  predicate IsGitHubLike(vendor: Option<string>) {
    vendor == Some("github") || vendor == Some("gitea")
  }

  predicate IsGitLab(vendor: Option<string>) {
    vendor == Some("gitlab")
  }

  /** `"#{title}\n#{body}"` once both lookups have returned. */
  function TitleAndBody(title: Outcome<Value>, body: Outcome<Value>, lib: Library): (r: Outcome<Value>)
    ensures title.Ok? && body.Ok? ==> r == Ok(Str(ToS(title.value, lib) + "\n" + ToS(body.value, lib)))
    ensures title.Raise? ==> r == title
    ensures title.Ok? && body.Raise? ==> r == body
  {
    match title
    case Raise(e) => Raise(e)
    case Ok(t) =>
      match body
      case Raise(e) => Raise(e)
      case Ok(b) => Ok(Str(ToS(t, lib) + "\n" + ToS(b, lib)))
  }

  /** `pull_request_message`: title and body of `pull_request` for GitHub and
      Gitea, title and description of `object_attributes` for GitLab, nil for
      any other vendor. */
  function PullRequestMessage(a: Attrs, lib: Library): (r: Outcome<Value>)
    ensures IsGitHubLike(a.scmVendor) ==>
      r == TitleAndBody(PayloadDig(a.payload, [Key("pull_request"), Key("title")]),
                        PayloadDig(a.payload, [Key("pull_request"), Key("body")]), lib)
    ensures IsGitLab(a.scmVendor) ==>
      r == TitleAndBody(PayloadDig(a.payload, [Key("object_attributes"), Key("title")]),
                        PayloadDig(a.payload, [Key("object_attributes"), Key("description")]), lib)
    ensures !IsGitHubLike(a.scmVendor) && !IsGitLab(a.scmVendor) ==> r == Ok(Null)
    ensures r.Ok? && r.value != Null ==> r.value.Str? && '\n' in r.value.s
  {
    if IsGitHubLike(a.scmVendor) then
      TitleAndBody(PayloadDig(a.payload, [Key("pull_request"), Key("title")]),
                   PayloadDig(a.payload, [Key("pull_request"), Key("body")]), lib)
    else if IsGitLab(a.scmVendor) then
      TitleAndBody(PayloadDig(a.payload, [Key("object_attributes"), Key("title")]),
                   PayloadDig(a.payload, [Key("object_attributes"), Key("description")]), lib)
    else
      Ok(Null)
  }

  /** A GitHub pull request titled `Fix` with body `Details` gives the
      message `"Fix\nDetails"`; the same fields under `object_attributes` do
      not count for GitHub. */
  lemma PullRequestMessageOfGitHub(a: Attrs, lib: Library)
    requires a.scmVendor == Some("github")
    requires a.payload == Parsed(Obj(map["pull_request" := Obj(map["title" := Str("Fix"), "body" := Str("Details")])]))
    ensures PullRequestMessage(a, lib) == Ok(Str("Fix\nDetails"))
  {
    var pr := Obj(map["title" := Str("Fix"), "body" := Str("Details")]);
    assert Fetch(a.payload.doc, Key("pull_request")) == Ok(pr);
    assert DigFrom(pr, [Key("title")]) == Ok(Str("Fix"));
    assert DigFrom(pr, [Key("body")]) == Ok(Str("Details"));
    assert "Fix" + "\n" + "Details" == "Fix\nDetails";
  }

  /** `push_message`: `head_commit.message` for GitHub and Gitea, the first
      commit's message for GitLab, nil for any other vendor. */
  function PushMessage(a: Attrs): (r: Outcome<Value>)
    ensures IsGitHubLike(a.scmVendor) ==> r == PayloadDig(a.payload, [Key("head_commit"), Key("message")])
    ensures IsGitLab(a.scmVendor) ==> r == PayloadDig(a.payload, [Key("commits"), Index(0), Key("message")])
    ensures !IsGitHubLike(a.scmVendor) && !IsGitLab(a.scmVendor) ==> r == Ok(Null)
  {
    if IsGitHubLike(a.scmVendor) then PayloadDig(a.payload, [Key("head_commit"), Key("message")])
    else if IsGitLab(a.scmVendor) then PayloadDig(a.payload, [Key("commits"), Index(0), Key("message")])
    else Ok(Null)
  }

  /** `tag_push_message`: a note naming the pushed ref, whatever the vendor. */
  function TagPushMessage(a: Attrs, lib: Library): (r: Outcome<Value>)
    ensures PayloadBracket(a.payload, "ref").Ok? ==>
      r == Ok(Str("Tag " + ToS(PayloadBracket(a.payload, "ref").value, lib) + " got pushed"))
    ensures PayloadBracket(a.payload, "ref").Raise? ==> r.Raise?
  {
    match PayloadBracket(a.payload, "ref")
    case Raise(e) => Raise(e)
    case Ok(v) => Ok(Str("Tag " + ToS(v, lib) + " got pushed"))
  }

  /** `generic_event_type` as the Ruby object `case` compares against. */
  function Subject(s: Option<string>): Value {
    match s
    case None => Null
    case Some(t) => Str(t)
  }

  /** `pattern === subject` for a string, boolean or nil pattern: equality. */
  predicate CaseMatches(pattern: Value, subject: Value)
    requires pattern.Str? || pattern.Bool? || pattern.Null?
  {
    pattern == subject
  }

  /** `event_source_message` as written: the second and third `when` clauses
      hold the booleans `generic_event_type == 'push'` and
      `generic_event_type == 'tag_push'`, and a boolean is never `===` to a
      string or to nil. */
  function EventSourceMessageAsWritten(a: Attrs, lib: Library): (r: Outcome<Value>)
    ensures a.genericEventType == Some("pull_request") ==> r == PullRequestMessage(a, lib)
    ensures a.genericEventType != Some("pull_request") ==> r == Ok(Null)
  {
    var subject := Subject(a.genericEventType);
    if CaseMatches(Str("pull_request"), subject) then PullRequestMessage(a, lib)
    else if CaseMatches(Bool(a.genericEventType == Some("push")), subject) then PushMessage(a)
    else if CaseMatches(Bool(a.genericEventType == Some("tag_push")), subject) then TagPushMessage(a, lib)
    else Ok(Null)
  }

  /** A GitHub push whose head commit has a message: the push branch would
      return it, yet the method as written returns nil. */
  lemma PushMessageUnreachable(a: Attrs, lib: Library)
    requires a.genericEventType == Some("push") && a.scmVendor == Some("github")
    requires a.payload == Parsed(Obj(map["head_commit" := Obj(map["message" := Str("Fix")])]))
    ensures PushMessage(a) == Ok(Str("Fix"))
    ensures EventSourceMessageAsWritten(a, lib) == Ok(Null)
  {
    var commit := Obj(map["message" := Str("Fix")]);
    assert Fetch(a.payload.doc, Key("head_commit")) == Ok(commit);
    assert DigFrom(commit, [Key("message")]) == Ok(Str("Fix"));
  }

  /** A tag push whose payload names the ref: the tag branch would say so,
      yet the method as written returns nil. */
  lemma TagPushMessageUnreachable(a: Attrs, lib: Library)
    requires a.genericEventType == Some("tag_push")
    requires a.payload == Parsed(Obj(map["ref" := Str("v1")]))
    ensures TagPushMessage(a, lib) == Ok(Str("Tag v1 got pushed"))
    ensures EventSourceMessageAsWritten(a, lib) == Ok(Null)
  {
    assert PayloadBracket(a.payload, "ref") == Ok(Str("v1"));
    assert "Tag " + "v1" + " got pushed" == "Tag v1 got pushed";
  }

  /** `event_source_message` with every branch compared by value, as the
      three helper methods evidently intend. */
  function EventSourceMessage(a: Attrs, lib: Library): (r: Outcome<Value>)
    ensures a.genericEventType == Some("pull_request") ==> r == PullRequestMessage(a, lib)
    ensures a.genericEventType == Some("push") ==> r == PushMessage(a)
    ensures a.genericEventType == Some("tag_push") ==> r == TagPushMessage(a, lib)
    ensures a.genericEventType !in {Some("pull_request"), Some("push"), Some("tag_push")} ==> r == Ok(Null)
  {
    var subject := Subject(a.genericEventType);
    if CaseMatches(Str("pull_request"), subject) then PullRequestMessage(a, lib)
    else if CaseMatches(Str("push"), subject) then PushMessage(a)
    else if CaseMatches(Str("tag_push"), subject) then TagPushMessage(a, lib)
    else Ok(Null)
  }

  /** The corrected dispatch agrees with the written one wherever the written
      one returns something other than nil, and always differs from it on a
      tag push (whose note is never nil). */
  lemma CorrectedExtendsAsWritten(a: Attrs, lib: Library)
    ensures EventSourceMessageAsWritten(a, lib) != Ok(Null) ==>
      EventSourceMessage(a, lib) == EventSourceMessageAsWritten(a, lib)
    ensures a.genericEventType == Some("tag_push") ==>
      EventSourceMessage(a, lib) != EventSourceMessageAsWritten(a, lib)
  {
  }
}
