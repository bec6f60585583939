/**
 The Splunk detection rule timer handler. It never reports a status: it
 returns nothing when the namespace has no Splunk configuration, and otherwise
 validates the specification and creates the rule if it is absent. Every
 failure on the way escapes the handler.
 */
module DetectionRuleTimerHandlers {
  import opened Base
  import opened Http
  import opened Cluster
  import opened SplunkRepository
  import opened SplunkService
  import opened Providers
  import opened Reconcile

  type DetectionPass = Pass<(), SplunkRequest>

  /** `create_splunk_detection_rule` for a resource of `namespace`. */
  function CreateSplunkDetectionRule(cluster: Cluster, upstream: SplunkUpstream, namespace: string,
                                     spec: map<string, Json>): (r: DetectionPass)
    // no status record is ever reported
    ensures !r.result.Reported?
    // a namespace without configuration is skipped before anything is sent
    ensures GetSplunkService(cluster, namespace).provision == Ready(None) ==> r == Pass(NoStatus, r.clusterReads, [])
    // a missing secret escapes as the configuration exception
    ensures GetSplunkService(cluster, namespace).provision == ConfigurationError ==>
              r.result == Escaped(ServiceConfiguration) && r.requests == []
    // an invalid specification escapes as a validation error, before any request
    ensures GetSplunkService(cluster, namespace).provision.Ready? && GetSplunkService(cluster, namespace).provision.value.Some?
            && ParseDetectionRule(spec).Err? ==>
              r.result.Escaped? && r.result.fault.ValidationFailed? && r.requests == []
    // a valid one goes through create-if-absent exactly once
    ensures r.requests != [] <==>
              GetSplunkService(cluster, namespace).provision.Ready?
              && GetSplunkService(cluster, namespace).provision.value.Some?
              && ParseDetectionRule(spec).Ok?
    ensures r.requests != [] ==> r.requests == CreateOrUpdateDetectionRule(upstream, ParseDetectionRule(spec).value).sent
    ensures r.clusterReads == GetSplunkService(cluster, namespace).clusterReads
  {
    var provided := GetSplunkService(cluster, namespace);
    match provided.provision
    case ConfigurationError => Pass(Escaped(ServiceConfiguration), provided.clusterReads, [])
    case Crashed(fault) => Pass(Escaped(fault), provided.clusterReads, [])
    case Ready(None) => Pass(NoStatus, provided.clusterReads, [])
    case Ready(Some(_)) =>
      match ParseDetectionRule(spec)
      case Err(field) =>
        Pass(Escaped(ValidationFailed("SplunkDetectionRule." + field)), provided.clusterReads, [])
      case Ok(rule) =>
        var call := CreateOrUpdateDetectionRule(upstream, rule);
        var result := if call.outcome.Raise? then Escaped(call.outcome.fault) else NoStatus;
        Pass(result, provided.clusterReads, call.sent)
  }

  /** For a configured namespace and a valid specification, the pass ends
      quietly exactly when the rule already existed or was created (a 409 on
      the creation included); any other reply escapes. */
  lemma DetectionRuleQuietIff(cluster: Cluster, upstream: SplunkUpstream, namespace: string, spec: map<string, Json>)
    requires GetSplunkService(cluster, namespace).provision.Ready?
    requires GetSplunkService(cluster, namespace).provision.value.Some?
    requires ParseDetectionRule(spec).Ok?
    ensures var rule := ParseDetectionRule(spec).value;
      var lookup := GetDetectionRule(upstream, rule.name);
      var creation := upstream(CreateSavedSearch(CreateForm(rule)));
      CreateSplunkDetectionRule(cluster, upstream, namespace, spec).result.NoStatus? <==>
        || (lookup.Success? && !IsNone(lookup))
        || (IsNone(lookup) && creation.Reply? && (IsSuccess(creation.status) || creation.status == 409))
  {
  }
}
