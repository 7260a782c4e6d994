/** Lookups into the webhook payload of a workflow run: the repository URL
    and the URL of the event source, found through a fixed table of `dig`
    paths per hook event. */
module PayloadMapper {
  import opened Ruby

  /** What `payload` gives for a run's `request_payload`. `Unparseable` is the
      sentinel `{payload: 'unparseable'}` that stands in when the text is not
      JSON; its only key is a Symbol, so no string or integer lookup finds it.
      `BlankSource` is a blank `request_payload`: `presence` turns it into nil,
      `JSON.parse` is then handed the Hash `{}` and raises TypeError, which the
      `rescue JSON::ParserError` does not catch, so `payload` itself raises. */
  datatype Payload = Parsed(doc: Value) | Unparseable | BlankSource

  /** `payload`: parse the present `request_payload` text, with the parser
      given as `parse` (nil when the text is not JSON). */
  function PayloadOf(requestPayload: Option<string>, parse: string -> Option<Value>): (r: Payload)
    ensures r.BlankSource? <==> Blank(requestPayload)
    ensures r.Unparseable? <==> Present(requestPayload) && parse(requestPayload.value).None?
    ensures r.Parsed? ==> r.doc == parse(requestPayload.value).value
  {
    match Presence(requestPayload)
    case None => BlankSource
    case Some(text) =>
      match parse(text)
      case None => Unparseable
      case Some(doc) => Parsed(doc)
  }

  /** `SOURCE_URL_PAYLOAD_MAPPING`: where each hook event keeps the URL of
      its event source. */
  const SOURCE_URL_PAYLOAD_MAPPING: map<string, seq<Seg>> := map[
    "pull_request" := [Key("pull_request"), Key("html_url")],
    "Merge Request Hook" := [Key("object_attributes"), Key("url")],
    "push" := [Key("head_commit"), Key("url")],
    "Push Hook" := [Key("commits"), Index(0), Key("url")]
  ]

  /** The hook events the table knows. */
  const MAPPED_HOOK_EVENTS: set<string> := {"pull_request", "Merge Request Hook", "push", "Push Hook"}

  /** `payload.dig(*path)`. */
  function PayloadDig(p: Payload, path: seq<Seg>): (r: Outcome<Value>)
    requires |path| > 0
    ensures p.Unparseable? ==> r == Ok(Null)
    ensures p.BlankSource? ==> r == Raise(TypeError)
    ensures p.Parsed? && p.doc.Obj? && path[0].Key? && path[0].name !in p.doc.fields ==> r == Ok(Null)
  {
    match p
    case Parsed(doc) => Dig(doc, path)
    case Unparseable => Ok(Null)
    case BlankSource => Raise(TypeError)
  }

  /** `payload[key]`. */
  function PayloadBracket(p: Payload, key: string): (r: Outcome<Value>)
    ensures p.Unparseable? ==> r == Ok(Null)
    ensures p.BlankSource? ==> r == Raise(TypeError)
    ensures p.Parsed? && p.doc.Obj? ==> r == Ok(if key in p.doc.fields then p.doc.fields[key] else Null)
    ensures p.Parsed? && !p.doc.Obj? && !p.doc.Str? ==> r.Raise?
  {
    match p
    case Parsed(doc) => Bracket(doc, key)
    case Unparseable => Ok(Null)
    case BlankSource => Raise(TypeError)
  }

  /** `repository_url`: `repository.html_url` (GitHub, Gitea) unless that is
      nil or false, then `project.web_url` (GitLab). */
  function RepositoryUrl(p: Payload): (r: Outcome<Value>)
    ensures PayloadDig(p, [Key("repository"), Key("html_url")]).Raise? ==>
      r == PayloadDig(p, [Key("repository"), Key("html_url")])
    ensures PayloadDig(p, [Key("repository"), Key("html_url")]).Ok? ==>
      var first := PayloadDig(p, [Key("repository"), Key("html_url")]).value;
      r == if Truthy(first) then Ok(first) else PayloadDig(p, [Key("project"), Key("web_url")])
    ensures p.Unparseable? ==> r == Ok(Null)
    ensures p.BlankSource? ==> r == Raise(TypeError)
  {
    match PayloadDig(p, [Key("repository"), Key("html_url")])
    case Raise(e) => Raise(e)
    case Ok(v) => if Truthy(v) then Ok(v) else PayloadDig(p, [Key("project"), Key("web_url")])
  }

  /** `event_source_url`: nil for a hook event outside the table, otherwise
      the payload dug along the mapped path. */
  function EventSourceUrl(hookEvent: Option<string>, p: Payload): (r: Outcome<Value>)
    ensures (hookEvent.None? || hookEvent.value !in MAPPED_HOOK_EVENTS) ==> r == Ok(Null)
    ensures hookEvent.Some? && hookEvent.value in MAPPED_HOOK_EVENTS ==>
      |SOURCE_URL_PAYLOAD_MAPPING[hookEvent.value]| > 0 &&
      r == PayloadDig(p, SOURCE_URL_PAYLOAD_MAPPING[hookEvent.value])
  {
    if hookEvent.Some? && hookEvent.value in SOURCE_URL_PAYLOAD_MAPPING then
      PayloadDig(p, SOURCE_URL_PAYLOAD_MAPPING[hookEvent.value])
    else
      Ok(Null)
  }

  /** A GitLab push payload whose `commits` array is empty has no event
      source URL: indexing past the end gives nil, and dig stops there. */
  lemma PushHookWithoutCommits(rest: map<string, Value>)
    ensures EventSourceUrl(Some("Push Hook"), Parsed(Obj(rest["commits" := Arr([])]))) == Ok(Null)
  {
    var doc := Obj(rest["commits" := Arr([])]);
    assert Fetch(doc, Key("commits")) == Ok(Arr([]));
    assert DigFrom(Arr([]), [Index(0), Key("url")]) == Ok(Null);
  }

  /** For a GitHub pull request event, the URL is `pull_request.html_url`. */
  lemma PullRequestSourceUrl(rest: map<string, Value>, pr: map<string, Value>, url: string)
    ensures EventSourceUrl(Some("pull_request"),
      Parsed(Obj(rest["pull_request" := Obj(pr["html_url" := Str(url)])]))) == Ok(Str(url))
  {
    var inner := Obj(pr["html_url" := Str(url)]);
    var doc := Obj(rest["pull_request" := inner]);
    assert Fetch(doc, Key("pull_request")) == Ok(inner);
    assert DigFrom(inner, [Key("html_url")]) == Ok(Str(url));
  }

  /** A payload shaped like GitLab's, with no `repository` key, gives the
      project's web URL. */
  lemma GitLabRepositoryUrl(rest: map<string, Value>, project: map<string, Value>, url: string)
    requires "repository" !in rest
    ensures RepositoryUrl(Parsed(Obj(rest["project" := Obj(project["web_url" := Str(url)])]))) == Ok(Str(url))
  {
    var inner := Obj(project["web_url" := Str(url)]);
    var doc := Obj(rest["project" := inner]);
    assert "repository" !in doc.fields;
    assert Fetch(doc, Key("project")) == Ok(inner);
    assert DigFrom(inner, [Key("web_url")]) == Ok(Str(url));
  }

  /** A blank `request_payload` makes every lookup into the payload raise:
      the repository URL, the event source URL of every mapped hook event and
      any single key. */
  lemma BlankRequestPayloadRaises(requestPayload: Option<string>, parse: string -> Option<Value>,
                                  hookEvent: string, key: string)
    requires Blank(requestPayload)
    ensures RepositoryUrl(PayloadOf(requestPayload, parse)) == Raise(TypeError)
    ensures hookEvent in MAPPED_HOOK_EVENTS ==>
      EventSourceUrl(Some(hookEvent), PayloadOf(requestPayload, parse)) == Raise(TypeError)
    ensures PayloadBracket(PayloadOf(requestPayload, parse), key) == Raise(TypeError)
  {
  }
}
