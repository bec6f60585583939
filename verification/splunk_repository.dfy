/**
 The Splunk side: the detection rule model, the repository's two requests
 against the saved-searches endpoint, and how each reply is classified.
 Both operations catch `HTTPStatusError` and `RequestError`; a transport
 failure is logged and raised again.
 */
module SplunkRepository {
  import opened Base
  import opened Http

  /** `SplunkDetectionRule`; keys beyond the three fields are kept. */
  datatype SplunkDetectionRule = SplunkDetectionRule(
    name: string, description: string, search: string, extra: map<string, Json>)

  const RULE_FIELDS: set<string> := {"name", "description", "search"}

  /** `SplunkDetectionRule.model_validate` of a specification, reporting the
      first missing or non-string field in declaration order. */
  function ParseDetectionRule(spec: map<string, Json>): (r: Result<SplunkDetectionRule, string>)
    ensures r.Ok? <==> forall k :: k in RULE_FIELDS ==> k in spec && spec[k].JStr?
    ensures r.Ok? ==> && spec["name"] == JStr(r.value.name)
                      && spec["description"] == JStr(r.value.description)
                      && spec["search"] == JStr(r.value.search)
    ensures r.Ok? ==> forall k :: k in r.value.extra <==> k in spec && k !in RULE_FIELDS
    ensures r.Ok? ==> forall k :: k in r.value.extra ==> r.value.extra[k] == spec[k]
    ensures r.Err? ==> r.error in RULE_FIELDS && (r.error !in spec || !spec[r.error].JStr?)
  {
    if "name" !in spec || !spec["name"].JStr? then Err("name")
    else if "description" !in spec || !spec["description"].JStr? then Err("description")
    else if "search" !in spec || !spec["search"].JStr? then Err("search")
    else
      Ok(SplunkDetectionRule(spec["name"].s, spec["description"].s, spec["search"].s,
                             map k | k in spec && k !in RULE_FIELDS :: spec[k]))
  }

  /** The repository's constructor arguments. The port is kept as the text the
      configuration holds. */
  datatype SplunkSettings = SplunkSettings(protocol: string, host: string, port: string, token: string, verify: bool)

  /** `protocol://host:port`. */
  function BaseUrl(settings: SplunkSettings): (url: string)
    ensures IsPrefix(settings.protocol + "://", url)
    ensures url[|settings.protocol| + 3..] == settings.host + ":" + settings.port
  {
    var url := settings.protocol + "://" + settings.host + ":" + settings.port;
    assert url[..|settings.protocol| + 3] == settings.protocol + "://";
    url
  }

  datatype SplunkRequest =
    | GetSavedSearch(name: string)                    // GET  {base}/services/saved/searches/{name}
    | CreateSavedSearch(form: map<string, string>)    // POST {base}/services/saved/searches

  /** What the Splunk endpoint answers to each request. */
  type SplunkUpstream = SplunkRequest -> Reply

  /** The form body of a creation: the name, description and search only. */
  function CreateForm(rule: SplunkDetectionRule): (form: map<string, string>)
    ensures form.Keys == RULE_FIELDS
    ensures form["name"] == rule.name && form["description"] == rule.description && form["search"] == rule.search
  {
    map["name" := rule.name, "description" := rule.description, "search" := rule.search]
  }

  /** `create_splunk_detection_rule`: a 409 means the rule already exists and
      is tolerated; every other failure is raised. */
  function ClassifyCreate(reply: Reply): (r: Outcome<()>)
    ensures r.Success? <==> reply.Reply? && IsSuccess(reply.status)
    ensures r.Swallowed? <==> HasStatus(reply, 409)
    ensures r.Swallowed? ==> r.conflict == AlreadyExists
    ensures r.Raise? <==> reply.TransportFailure? || (IsErrorStatus(reply) && reply.status != 409)
    ensures r.Raise? ==> r.fault == FaultOf(reply)
  {
    match reply
    case TransportFailure => Raise(TransportError)
    case Reply(status, _, _) =>
      if IsSuccess(status) then Success(())
      else if status == 409 then Swallowed(AlreadyExists)
      else Raise(HttpStatusError(status))
  }

  /** The lookup and its classification. */
  function GetDetectionRule(upstream: SplunkUpstream, name: string): Outcome<Json> {
    ClassifyLookup(upstream(GetSavedSearch(name)))
  }

  /** The creation and its classification. */
  function CreateDetectionRule(upstream: SplunkUpstream, rule: SplunkDetectionRule): Outcome<()> {
    ClassifyCreate(upstream(CreateSavedSearch(CreateForm(rule))))
  }

  /** Two rules that differ only in their extra fields send the same creation. */
  lemma CreateIgnoresExtraFields(rule: SplunkDetectionRule, extra: map<string, Json>)
    ensures CreateSavedSearch(CreateForm(rule)) == CreateSavedSearch(CreateForm(rule.(extra := extra)))
  {
  }
}
