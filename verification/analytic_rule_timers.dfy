/**
 The analytic rule handlers. The timer handler synchronises one
 `MicrosoftSentinelAnalyticRule` resource: it skips resources outside its
 allow-list, builds the service for the resource's namespace, validates the
 specification, injects macros into the query, then the text under
 "queryPrefix", then the text under "querySuffix", upserts the rule and reports
 its upstream status. The delete handler removes the rule upstream.
 */
module AnalyticRuleTimers {
  import opened Base
  import opened Http
  import opened MacroScan
  import opened Cluster
  import opened SentinelModels
  import opened SentinelRepository
  import opened SentinelService
  import opened Providers
  import opened Reconcile

  const ALLOWED_NAMESPACES: seq<string> := ["a1b2c3d4", "ce06ce71"]

  const ALLOWED_RULE_NAMES: seq<string> := [
    "example-analytic-rule-1", "example-analytic-rule-2", "example-analytic-rule-3"]

  /** The handler's status record; `ruleType` is free text. */
  datatype AnalyticRuleStatus = AnalyticRuleStatus(
    deployed: Deployment, enabled: Enablement, ruleType: string, message: string)

  /** The record every pass starts from. */
  const INITIAL_STATUS: AnalyticRuleStatus := AnalyticRuleStatus(DeploymentUnknown, EnablementUnknown, "Unknown", "")

  /** The record of a pass that ends early with `message`. */
  function Failed(message: string): AnalyticRuleStatus {
    INITIAL_STATUS.(message := message)
  }

  type AnalyticPass = Pass<AnalyticRuleStatus, Request>

  predicate Allowed(namespace: string, ruleName: string) {
    ruleName in ALLOWED_RULE_NAMES && namespace in ALLOWED_NAMESPACES
  }

  /** `spec.get("properties", {})`. */
  function PropertiesOf(spec: map<string, Json>): map<string, Json> {
    if "properties" in spec && spec["properties"].JObj? then spec["properties"].fields else map[]
  }

  /** `properties.get(key, "")`, read from the raw specification rather than
      from the validated model. */
  function RawText(properties: map<string, Json>, key: string): string {
    if key in properties && properties[key].JStr? then properties[key].s else ""
  }

  // ---------------------------------------------------------------------------
  // Macro injection into the three query texts

  /** The three injected texts, named by the raw keys they were read from. */
  datatype Queries = Queries(query: string, prefix: string, suffix: string)

  datatype QueryInjection = QueryInjection(stage: Stage<Queries, AnalyticRuleStatus>, lookups: seq<ClusterRead>)

  /** One injection: an invalid macro escapes, a missing one ends the pass with
      its message. */
  function InjectStep(inj: Injection): Stage<string, AnalyticRuleStatus> {
    match inj.outcome
    case Err(fault) => Stop(Throw(fault))
    case Ok(result) => if result.success then Continue(result.query) else Stop(Report(Failed(result.message)))
  }

  /** The three injections in order; each runs only if the one before
      succeeded. */
  function InjectQueries(service: SentinelService, ruleName: string, properties: map<string, Json>): (r: QueryInjection)
    requires LiteralMacros(service.cluster)
    ensures ReadsWithin(r.lookups, service.namespace)
  {
    var q := InjectMacros(service, RawText(properties, "query"), ruleName);
    InjectReadsWithin(service, RawText(properties, "query"), ruleName);
    match InjectStep(q)
    case Stop(ending) => QueryInjection(Stop(ending), q.lookups)
    case Continue(query) =>
      var p := InjectMacros(service, RawText(properties, "queryPrefix"), ruleName);
      InjectReadsWithin(service, RawText(properties, "queryPrefix"), ruleName);
      ReadsWithinJoin(q.lookups, p.lookups, service.namespace);
      match InjectStep(p)
      case Stop(ending) => QueryInjection(Stop(ending), q.lookups + p.lookups)
      case Continue(prefix) =>
        var s := InjectMacros(service, RawText(properties, "querySuffix"), ruleName);
        InjectReadsWithin(service, RawText(properties, "querySuffix"), ruleName);
        ReadsWithinJoin(q.lookups + p.lookups, s.lookups, service.namespace);
        match InjectStep(s)
        case Stop(ending) => QueryInjection(Stop(ending), q.lookups + p.lookups + s.lookups)
        case Continue(suffix) => QueryInjection(Continue(Queries(query, prefix, suffix)), q.lookups + p.lookups + s.lookups)
  }

  /** The validated payload with the injected texts in place: the text read
      under "queryPrefix" becomes the query prefix and the one under
      "querySuffix" the suffix, whichever way validation filled them. */
  function WithQueries(payload: CreateScheduledAlertRule, qs: Queries): CreateScheduledAlertRule {
    payload.(properties := payload.properties.(query := qs.query, queryPrefix := qs.prefix, querySuffix := qs.suffix))
  }

  // ---------------------------------------------------------------------------
  // Upsert and status

  /** The handler's record of the service-level status. */
  function StatusRecord(status: AnalyticsRuleStatus): AnalyticRuleStatus {
    AnalyticRuleStatus(if status.deployed then Deployed else NotDeployed,
                       if status.enabled then Enabled else Disabled,
                       RuleTypeName(status.ruleType), "")
  }

  type AnalyticPartial = Partial<AnalyticRuleStatus, Request>

  /** The upsert, whose every failure is caught and reported, then the status
      lookup, whose failure is not caught. */
  function UpsertAndReport(service: SentinelService, ruleName: string, payload: CreateScheduledAlertRule)
    : (r: AnalyticPartial)
    ensures r.clusterReads == []
  {
    var upsert := CreateOrUpdateAnalyticsRule(service, ruleName, payload);
    if upsert.outcome.Raise? then Partial(Report(Failed(ANALYTICS_RULE_CREATE_ERROR)), [], upsert.sent)
    else
      var status := RuleStatus(service, AnalyticsRuleId(ruleName));
      var ending := if status.outcome.Success? then Report(StatusRecord(status.outcome.value))
                    else Throw(status.outcome.fault);
      Partial(ending, [], upsert.sent + status.sent)
  }

  // ---------------------------------------------------------------------------
  // The handlers

  /** The pass from validation on, for a configured service. */
  function SyncRule(service: SentinelService, ruleName: string, spec: map<string, Json>): (r: AnalyticPartial)
    requires LiteralMacros(service.cluster)
    ensures ReadsWithin(r.clusterReads, service.namespace)
    ensures r.requests != [] ==> ParseRule(spec).Ok?
  {
    match ParseRule(spec)
    case Err(e) => Partial(Report(Failed(ValidationMessage("CreateScheduledAlertRule", e))), [], [])
    case Ok(payload) => SyncPayload(service, ruleName, PropertiesOf(spec), payload)
  }

  /** The pass from macro injection on, for a validated payload. */
  function SyncPayload(service: SentinelService, ruleName: string, properties: map<string, Json>,
                       payload: CreateScheduledAlertRule): (r: AnalyticPartial)
    requires LiteralMacros(service.cluster)
    ensures ReadsWithin(r.clusterReads, service.namespace)
  {
    var injected := InjectQueries(service, ruleName, properties);
    match injected.stage
    case Stop(ending) => Partial(ending, injected.lookups, [])
    case Continue(qs) =>
      var sync := UpsertAndReport(service, ruleName, WithQueries(payload, qs));
      Partial(sync.ending, injected.lookups, sync.requests)
  }

  /** `create_analytic_rule` for the resource `ruleName` of `namespace`. */
  function CreateAnalyticRule(cluster: Cluster, upstream: Upstream, namespace: string, ruleName: string,
                              spec: map<string, Json>): (r: AnalyticPass)
    requires LiteralMacros(cluster)
    // only a resource outside the allow-list is skipped, and it is skipped untouched
    ensures r.result.NoStatus? <==> !Allowed(namespace, ruleName)
    ensures !Allowed(namespace, ruleName) ==> r.clusterReads == [] && r.requests == []
    // otherwise the configuration map is read first, and nothing outside the namespace is read
    ensures Allowed(namespace, ruleName) ==>
              |r.clusterReads| >= 1 && r.clusterReads[0] == ConfigMapRead(ObjectKey(namespace, SENTINEL_CONFIGURATION))
    ensures ReadsWithin(r.clusterReads, namespace)
    // nothing is sent upstream for an unconfigured namespace or an invalid specification
    ensures r.requests != [] ==> GetSentinelService(cluster, namespace).provision.Ready? && ParseRule(spec).Ok?
  {
    if !Allowed(namespace, ruleName) then Pass(NoStatus, [], [])
    else
      var provided := GetSentinelService(cluster, namespace);
      match provided.provision
      case ConfigurationError => Pass(Reported(Failed(INITIALIZATION_ERROR)), provided.clusterReads, [])
      case Crashed(fault) => Pass(Escaped(fault), provided.clusterReads, [])
      case Ready(settings) =>
        var sync := SyncRule(SentinelService(settings.namespace, cluster, upstream), ruleName, spec);
        ReadsWithinJoin(provided.clusterReads, sync.clusterReads, namespace);
        Pass(Ended(sync.ending), provided.clusterReads + sync.clusterReads, sync.requests)
  }

  /** `remove_analytic_rule`: there is no allow-list, and the record always
      says "Deployed", also once the rule is gone. A failed removal is
      reported with the provider initialisation message. */
  function RemoveAnalyticRule(cluster: Cluster, upstream: Upstream, namespace: string, ruleName: string)
    : (r: AnalyticPass)
    ensures !r.result.NoStatus?
    ensures r.result.Reported? ==> r.result.status.deployed == Deployed
    ensures r.result.Reported? ==> r.result.status.message in {"", INITIALIZATION_ERROR}
    ensures r.result.Reported? && r.result.status.message == "" <==>
              && GetSentinelService(cluster, namespace).provision.Ready?
              && RemoveAnalyticsRule(SentinelService(namespace, cluster, upstream), ruleName).outcome.Success?
    ensures r.result.Escaped? <==> GetSentinelService(cluster, namespace).provision.Crashed?
    ensures r.requests != [] ==> GetSentinelService(cluster, namespace).provision.Ready?
  {
    var initial := INITIAL_STATUS.(deployed := Deployed);
    var provided := GetSentinelService(cluster, namespace);
    match provided.provision
    case ConfigurationError => Pass(Reported(initial.(message := INITIALIZATION_ERROR)), provided.clusterReads, [])
    case Crashed(fault) => Pass(Escaped(fault), provided.clusterReads, [])
    case Ready(settings) =>
      var removal := RemoveAnalyticsRule(SentinelService(settings.namespace, cluster, upstream), ruleName);
      var message := if removal.outcome.Raise? then INITIALIZATION_ERROR else "";
      Pass(Reported(initial.(message := message)), provided.clusterReads, removal.sent)
  }

  // ---------------------------------------------------------------------------
  // Properties of the timer handler

  /** An unconfigured namespace is reported with the initialisation message,
      after reading nothing but its configuration. */
  lemma UnconfiguredNamespaceReported(cluster: Cluster, upstream: Upstream, namespace: string, ruleName: string,
                                      spec: map<string, Json>)
    requires LiteralMacros(cluster) && Allowed(namespace, ruleName)
    requires GetSentinelService(cluster, namespace).provision == ConfigurationError
    ensures CreateAnalyticRule(cluster, upstream, namespace, ruleName, spec)
         == Pass(Reported(Failed(INITIALIZATION_ERROR)), GetSentinelService(cluster, namespace).clusterReads, [])
  {
  }

  /** An invalid specification is reported with the validation message, before
      any macro is read or any request sent. */
  lemma InvalidRuleReported(service: SentinelService, ruleName: string, spec: map<string, Json>)
    requires LiteralMacros(service.cluster)
    requires ParseRule(spec).Err?
    ensures SyncRule(service, ruleName, spec)
         == Partial(Report(Failed(ValidationMessage("CreateScheduledAlertRule", ParseRule(spec).error))), [], [])
  {
  }

  /** A missing macro in the query ends the pass with its message; the texts
      under "queryPrefix" and "querySuffix" are not looked at. */
  lemma QueryInjectionComesFirst(service: SentinelService, ruleName: string, properties: map<string, Json>)
    requires LiteralMacros(service.cluster)
    ensures var q := InjectMacros(service, RawText(properties, "query"), ruleName);
      q.outcome.Ok? && !q.outcome.value.success ==>
        InjectQueries(service, ruleName, properties) == QueryInjection(Stop(Report(Failed(q.outcome.value.message))), q.lookups)
    ensures var q := InjectMacros(service, RawText(properties, "query"), ruleName);
      q.outcome.Err? ==> InjectQueries(service, ruleName, properties) == QueryInjection(Stop(Throw(q.outcome.error)), q.lookups)
  {
  }

  /** The three injections go on only while each succeeds, and their results
      are the three texts in place. */
  lemma InjectionsInOrder(service: SentinelService, ruleName: string, properties: map<string, Json>)
    requires LiteralMacros(service.cluster)
    ensures var q := InjectMacros(service, RawText(properties, "query"), ruleName);
      var p := InjectMacros(service, RawText(properties, "queryPrefix"), ruleName);
      var s := InjectMacros(service, RawText(properties, "querySuffix"), ruleName);
      var r := InjectQueries(service, ruleName, properties);
      && (r.stage.Continue? <==> && q.outcome.Ok? && q.outcome.value.success
                                 && p.outcome.Ok? && p.outcome.value.success
                                 && s.outcome.Ok? && s.outcome.value.success)
      && (r.stage.Continue? ==>
            && r.stage.value == Queries(q.outcome.value.query, p.outcome.value.query, s.outcome.value.query)
            && r.lookups == q.lookups + p.lookups + s.lookups)
  {
  }

  /** The query text a request upserts, if it is an analytics rule upsert. */
  predicate CarriesQuery(request: Request, query: string) {
    && request.PutAlertRule?
    && request.payload.JObj? && "properties" in request.payload.fields
    && var properties := request.payload.fields["properties"];
       properties.JObj? && "query" in properties.fields && properties.fields["query"] == JStr(query)
  }

  /** After a successful token exchange, the upsert goes to the rule's id and
      carries the query assembled from the payload's prefix, query and suffix. */
  lemma UpsertSendsAssembledQuery(service: SentinelService, ruleName: string, payload: CreateScheduledAlertRule)
    requires WellFormedRule(payload)
    requires ClassifyToken(service.upstream(TokenRequest)).Success?
    ensures var r := UpsertAndReport(service, ruleName, payload);
      var p := payload.properties;
      && |r.requests| >= 2 && r.requests[0] == TokenRequest
      && r.requests[1].PutAlertRule? && r.requests[1].id == AnalyticsRuleId(ruleName)
      && CarriesQuery(r.requests[1], AssembleQuery(p.queryPrefix, p.query, p.querySuffix))
  {
    var p := payload.properties;
    var assembled := payload.(properties := p.(query := AssembleQuery(p.queryPrefix, p.query, p.querySuffix)));
    AuthenticatesFirst(service.upstream, PutAlertRule(AnalyticsRuleId(ruleName), DumpRule(assembled)), ClassifyScheduledUpsert);
    AnalyticsUpsertPayload(service, ruleName, payload);
  }

  /** Validation puts the text under "queryPrefix" into the suffix attribute,
      but the handler overwrites both attributes from the raw keys: for texts
      without macros, the rule is upserted with the "queryPrefix" text before
      the query and the "querySuffix" text after it. */
  lemma RawPrefixComesFirst(service: SentinelService, ruleName: string, spec: map<string, Json>,
                            payload: CreateScheduledAlertRule)
    requires LiteralMacros(service.cluster)
    requires ParseRule(spec) == Ok(payload)
    requires ClassifyToken(service.upstream(TokenRequest)).Success?
    requires !Occurs(OPENING, RawText(PropertiesOf(spec), "query"))
    requires !Occurs(OPENING, RawText(PropertiesOf(spec), "queryPrefix"))
    requires !Occurs(OPENING, RawText(PropertiesOf(spec), "querySuffix"))
    ensures payload.properties.querySuffix == RawText(PropertiesOf(spec), "queryPrefix")
    ensures var r := SyncPayload(service, ruleName, PropertiesOf(spec), payload);
      var properties := PropertiesOf(spec);
      && |r.requests| >= 2
      && CarriesQuery(r.requests[1], AssembleQuery(RawText(properties, "queryPrefix"), RawText(properties, "query"),
                                                   RawText(properties, "querySuffix")))
  {
    var properties := PropertiesOf(spec);
    var query, prefix, suffix := RawText(properties, "query"), RawText(properties, "queryPrefix"), RawText(properties, "querySuffix");
    InjectWithoutMacros(service, query, ruleName);
    InjectWithoutMacros(service, prefix, ruleName);
    InjectWithoutMacros(service, suffix, ruleName);
    InjectionsInOrder(service, ruleName, properties);
    var qs := Queries(query, prefix, suffix);
    assert InjectQueries(service, ruleName, properties).stage == Continue(qs);
    UpsertSendsAssembledQuery(service, ruleName, WithQueries(payload, qs));
  }

  /** A failed upsert is reported with the create message and the status is
      never looked up. */
  lemma UpsertFailureReported(service: SentinelService, ruleName: string, payload: CreateScheduledAlertRule)
    requires CreateOrUpdateAnalyticsRule(service, ruleName, payload).outcome.Raise?
    ensures var r := UpsertAndReport(service, ruleName, payload);
      && r.ending == Report(Failed(ANALYTICS_RULE_CREATE_ERROR))
      && forall i :: 0 <= i < |r.requests| ==> !r.requests[i].GetAlertRule?
  {
  }

  /** A conflict on the upsert is not an error: the status of the rule is
      looked up and reported as usual. */
  lemma ConflictStillReportsStatus(service: SentinelService, ruleName: string, payload: CreateScheduledAlertRule)
    requires ClassifyToken(service.upstream(TokenRequest)).Success?
    requires HasStatus(service.upstream(PutAlertRule(AnalyticsRuleId(ruleName), DumpRule(payload.(properties :=
               payload.properties.(query := AssembleQuery(payload.properties.queryPrefix, payload.properties.query,
                                                          payload.properties.querySuffix)))))), 409)
    ensures var r := UpsertAndReport(service, ruleName, payload);
      && r.requests == CreateOrUpdateAnalyticsRule(service, ruleName, payload).sent
                       + RuleStatus(service, AnalyticsRuleId(ruleName)).sent
      && (RuleStatus(service, AnalyticsRuleId(ruleName)).outcome.Success? ==>
            r.ending == Report(StatusRecord(RuleStatus(service, AnalyticsRuleId(ruleName)).outcome.value)))
  {
    var p := payload.properties;
    var assembled := payload.(properties := p.(query := AssembleQuery(p.queryPrefix, p.query, p.querySuffix)));
    AuthenticatesFirst(service.upstream, PutAlertRule(AnalyticsRuleId(ruleName), DumpRule(assembled)), ClassifyScheduledUpsert);
  }

  /** A rule the upstream does not know (404 on the lookup) is reported as not
      deployed, disabled and of unknown type, with no message. */
  lemma MissingUpstreamRuleReported(service: SentinelService, ruleName: string, payload: CreateScheduledAlertRule)
    requires CreateOrUpdateAnalyticsRule(service, ruleName, payload).outcome.Returned()
    requires ClassifyToken(service.upstream(TokenRequest)).Success?
    requires HasStatus(service.upstream(GetAlertRule(AnalyticsRuleId(ruleName))), 404)
    ensures UpsertAndReport(service, ruleName, payload).ending
         == Report(AnalyticRuleStatus(NotDeployed, Disabled, "Unknown", ""))
  {
    StatusOfMissingRule(service, AnalyticsRuleId(ruleName));
  }
}
