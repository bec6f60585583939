/**
 The automation rule timer handler. It has no allow-list: every
 `MicrosoftSentinelAutomationRule` resource is synchronised by sending its
 `properties` object, as given, as the automation rule of its name.
 */
module AutomationRuleTimers {
  import opened Base
  import opened Http
  import opened Cluster
  import opened SentinelRepository
  import opened SentinelService
  import opened Providers
  import opened Reconcile

  /** The handler's status record; it has no rule type. */
  datatype AutomationRuleStatus = AutomationRuleStatus(deployed: Deployment, enabled: Enablement, message: string)

  const INITIAL_STATUS: AutomationRuleStatus := AutomationRuleStatus(DeploymentUnknown, EnablementUnknown, "")

  type AutomationPass = Pass<AutomationRuleStatus, Request>

  /** The upsert's payload: the specification's `properties` under the same key. */
  function AutomationPayload(spec: map<string, Json>): Json
    requires "properties" in spec
  {
    JObj(map["properties" := spec["properties"]])
  }

  /** The pass once the service exists, for a given way of sending the upsert.
      A missing `properties` key raises inside the `try` and is reported like a
      failed upsert, with the analytics rule message the handler uses for
      both. */
  function SyncAutomation(spec: map<string, Json>, upsert: Json -> Call<()>): (r: Partial<AutomationRuleStatus, Request>)
    ensures r.clusterReads == [] && r.ending.Report?
    ensures "properties" !in spec ==> r.requests == []
    ensures "properties" in spec ==> r.requests == upsert(AutomationPayload(spec)).sent
    ensures r.ending.status == if "properties" in spec && upsert(AutomationPayload(spec)).outcome.Returned()
                               then INITIAL_STATUS.(deployed := Deployed)
                               else INITIAL_STATUS.(message := ANALYTICS_RULE_CREATE_ERROR)
  {
    if "properties" !in spec then Partial(Report(INITIAL_STATUS.(message := ANALYTICS_RULE_CREATE_ERROR)), [], [])
    else
      var call := upsert(AutomationPayload(spec));
      var status := if call.outcome.Raise? then INITIAL_STATUS.(message := ANALYTICS_RULE_CREATE_ERROR)
                    else INITIAL_STATUS.(deployed := Deployed);
      Partial(Report(status), [], call.sent)
  }

  /** The handler around a given way of sending the upsert. */
  function AutomationHandler(cluster: Cluster, namespace: string, spec: map<string, Json>,
                             upsert: Json -> Call<()>): (r: AutomationPass)
    ensures !r.result.NoStatus?
    ensures r.result.Escaped? <==> GetSentinelService(cluster, namespace).provision.Crashed?
    ensures r.result.Reported? ==> r.result.status.enabled == EnablementUnknown
    ensures r.requests != [] ==> GetSentinelService(cluster, namespace).provision.Ready? && "properties" in spec
  {
    var provided := GetSentinelService(cluster, namespace);
    match provided.provision
    case ConfigurationError => Pass(Reported(INITIAL_STATUS.(message := INITIALIZATION_ERROR)), provided.clusterReads, [])
    case Crashed(fault) => Pass(Escaped(fault), provided.clusterReads, [])
    case Ready(_) =>
      var sync := SyncAutomation(spec, upsert);
      Pass(Ended(sync.ending), provided.clusterReads, sync.requests)
  }

  /** `create_automation_rule` for the resource `ruleName` of `namespace`, as
      intended: its upsert is the corrected `create_or_update_automation_rule`,
      which tolerates every 409. `CreateAutomationRuleAsWritten` below is the
      handler with the upsert as the code has it. */
  function CreateAutomationRule(cluster: Cluster, upstream: Upstream, namespace: string, ruleName: string,
                                spec: map<string, Json>): (r: AutomationPass)
    ensures !r.result.NoStatus?
    // the only upsert sent is the automation rule of the resource's name, with the properties as given
    ensures forall i :: 0 <= i < |r.requests| ==>
              r.requests[i] == TokenRequest
              || ("properties" in spec && r.requests[i] == PutAutomationRule(AutomationRuleId(ruleName), AutomationPayload(spec)))
  {
    var service := SentinelService(namespace, cluster, upstream);
    AutomationHandler(cluster, namespace, spec, payload => CreateOrUpdateAutomationRule(service, ruleName, payload))
  }

  /** As intended (corrected upsert): for a configured namespace and a valid
      token, the rule is reported deployed exactly when the upstream accepts
      the upsert or answers 409; every other reply is reported as a failed
      creation. `AutomationDeployedIffAsWritten` states the handler as written. */
  lemma AutomationDeployedIff(cluster: Cluster, upstream: Upstream, namespace: string, ruleName: string,
                              spec: map<string, Json>)
    requires GetSentinelService(cluster, namespace).provision.Ready?
    requires "properties" in spec
    requires ClassifyToken(upstream(TokenRequest)).Success?
    ensures var reply := upstream(PutAutomationRule(AutomationRuleId(ruleName), AutomationPayload(spec)));
      var r := CreateAutomationRule(cluster, upstream, namespace, ruleName, spec).result;
      && (r == Reported(INITIAL_STATUS.(deployed := Deployed)) <==>
            reply.Reply? && (IsSuccess(reply.status) || reply.status == 409))
      && (r != Reported(INITIAL_STATUS.(deployed := Deployed)) ==>
            r == Reported(INITIAL_STATUS.(message := ANALYTICS_RULE_CREATE_ERROR)))
  {
    AuthenticatesFirst(upstream, PutAutomationRule(AutomationRuleId(ruleName), AutomationPayload(spec)),
                       ClassifyAutomationUpsert);
  }

  /** The handler as written, whose upsert raises on a conflict reporting a
      recent deletion. */
  function CreateAutomationRuleAsWritten(cluster: Cluster, upstream: Upstream, namespace: string, ruleName: string,
                                         spec: map<string, Json>): (r: AutomationPass)
    ensures !r.result.NoStatus?
  {
    AutomationHandler(cluster, namespace, spec, payload => UpsertAutomationRuleAsWritten(upstream, AutomationRuleId(ruleName), payload))
  }

  /** As written: for a configured namespace and a valid token, the rule is
      reported deployed exactly when the upstream accepts the upsert or answers
      409 without reporting a recent deletion; a 409 that does report one
      raises inside the upsert and, like every other failure, is reported as a
      failed creation. */
  lemma AutomationDeployedIffAsWritten(cluster: Cluster, upstream: Upstream, namespace: string, ruleName: string,
                                       spec: map<string, Json>)
    requires GetSentinelService(cluster, namespace).provision.Ready?
    requires "properties" in spec
    requires ClassifyToken(upstream(TokenRequest)).Success?
    ensures var reply := upstream(PutAutomationRule(AutomationRuleId(ruleName), AutomationPayload(spec)));
      var r := CreateAutomationRuleAsWritten(cluster, upstream, namespace, ruleName, spec).result;
      && (r == Reported(INITIAL_STATUS.(deployed := Deployed)) <==>
            reply.Reply? && (IsSuccess(reply.status) || (reply.status == 409 && !Occurs(RECENTLY_DELETED, reply.text))))
      && (r != Reported(INITIAL_STATUS.(deployed := Deployed)) ==>
            r == Reported(INITIAL_STATUS.(message := ANALYTICS_RULE_CREATE_ERROR)))
  {
    AuthenticatesFirst(upstream, PutAutomationRule(AutomationRuleId(ruleName), AutomationPayload(spec)),
                       ClassifyAutomationUpsertAsWritten);
  }

  /** The two differ in what the status says after a 409 reporting a recent
      deletion: as written the handler reports a failed creation, as intended
      the rule is reported deployed. */
  lemma RecentlyDeletedConflictReported(cluster: Cluster, upstream: Upstream, namespace: string,
                                        ruleName: string, spec: map<string, Json>)
    requires GetSentinelService(cluster, namespace).provision.Ready?
    requires "properties" in spec
    requires ClassifyToken(upstream(TokenRequest)).Success?
    requires var reply := upstream(PutAutomationRule(AutomationRuleId(ruleName), AutomationPayload(spec)));
      HasStatus(reply, 409) && Occurs(RECENTLY_DELETED, reply.text)
    ensures CreateAutomationRuleAsWritten(cluster, upstream, namespace, ruleName, spec).result
         == Reported(INITIAL_STATUS.(message := ANALYTICS_RULE_CREATE_ERROR))
    ensures CreateAutomationRule(cluster, upstream, namespace, ruleName, spec).result
         == Reported(INITIAL_STATUS.(deployed := Deployed))
  {
    var request := PutAutomationRule(AutomationRuleId(ruleName), AutomationPayload(spec));
    AuthenticatesFirst(upstream, request, ClassifyAutomationUpsertAsWritten);
    AuthenticatesFirst(upstream, request, ClassifyAutomationUpsert);
  }
}
