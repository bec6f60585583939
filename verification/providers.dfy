/**
 Provider configuration resolution: how a namespace's configuration map and
 secret become a service, or a skip, or an exception. Base64 decoding of the
 secret values and `int()` of the port are not modelled; the values are kept
 as the text the cluster holds.
 */
module Providers {
  import opened Base
  import opened Cluster
  import opened SplunkRepository

  /** How a provider ends: with its value, with the
      `ServiceConfigurationException` it raises for a missing object, or with
      another exception (a `KeyError` on a missing entry) that it does not
      catch. */
  datatype Provision<+S> = Ready(value: S) | ConfigurationError | Crashed(fault: Fault)

  /** The outcome of a provider with the cluster objects it read, in order. */
  datatype Provided<+S> = Provided(provision: Provision<S>, clusterReads: seq<ClusterRead>)

  const SPLUNK_CONFIGURATION: string := "splunk-configuration"
  const SENTINEL_CONFIGURATION: string := "microsoft-sentinel-configuration"

  /** The first of `keys` missing from `data`, if any. */
  function FirstMissing(data: map<string, string>, keys: seq<string>): (r: Option<string>)
    ensures r.None? <==> forall i :: 0 <= i < |keys| ==> keys[i] in data
    ensures r.Some? ==> r.value in keys && r.value !in data
    decreases |keys|
  {
    if |keys| == 0 then None
    else if keys[0] !in data then Some(keys[0])
    else
      var rest := FirstMissing(data, keys[1..]);
      assert forall i :: 1 <= i < |keys| ==> keys[i] == keys[1..][i - 1];
      rest
  }

  // ---------------------------------------------------------------------------
  // Python's `in` on a list

  /** The Python values a `verify` entry could hold. */
  datatype PyValue = PyInt(i: int) | PyBool(b: bool) | PyStr(s: string)

  /** Python's `==`: a bool compares as the integer 0 or 1, a string equals
      only a string. */
  predicate PyEquals(x: PyValue, y: PyValue) {
    match (x, y)
    case (PyStr(a), PyStr(b)) => a == b
    case (PyStr(_), _) => false
    case (_, PyStr(_)) => false
    case _ => PyNumber(x) == PyNumber(y)
  }

  function PyNumber(x: PyValue): int
    requires !x.PyStr?
  {
    match x
    case PyInt(i) => i
    case PyBool(b) => if b then 1 else 0
  }

  const VERIFY_VALUES: seq<PyValue> := [PyInt(1), PyBool(true), PyStr("true")]

  /** `value in [1, True, "true"]`. */
  predicate VerifyFlag(value: PyValue) {
    exists i :: 0 <= i < |VERIFY_VALUES| && PyEquals(value, VERIFY_VALUES[i])
  }

  /** The flag holds for 1, True and "true" and nothing else; of strings, which
      is all a configuration map holds, only exactly "true" qualifies. */
  lemma VerifyFlagValues(value: PyValue)
    ensures VerifyFlag(value) <==> value == PyInt(1) || value == PyBool(true) || value == PyStr("true")
    ensures value.PyStr? ==> (VerifyFlag(value) <==> value.s == "true")
  {
    if value == PyInt(1) || value == PyBool(true) || value == PyStr("true") {
      assert PyEquals(value, VERIFY_VALUES[0]) || PyEquals(value, VERIFY_VALUES[2]);
    }
  }

  // ---------------------------------------------------------------------------
  // Splunk

  /** `get_splunk_service`: no configuration map means no service (the
      handler skips the namespace), a missing secret raises. The entries are
      read in the order the constructor arguments are written. */
  function GetSplunkService(cluster: Cluster, namespace: string): (r: Provided<Option<SplunkSettings>>)
    ensures ObjectKey(namespace, SPLUNK_CONFIGURATION) !in cluster.configMaps <==>
              r.provision == Ready(None)
    ensures r.provision == ConfigurationError <==>
              && ObjectKey(namespace, SPLUNK_CONFIGURATION) in cluster.configMaps
              && "secret_ref" in cluster.configMaps[ObjectKey(namespace, SPLUNK_CONFIGURATION)]
              && ObjectKey(namespace, cluster.configMaps[ObjectKey(namespace, SPLUNK_CONFIGURATION)]["secret_ref"])
                   !in cluster.secrets
    ensures r.provision.Ready? && r.provision.value.Some? ==>
              var data := cluster.configMaps[ObjectKey(namespace, SPLUNK_CONFIGURATION)];
              var settings := r.provision.value.value;
              && "host" in data && "port" in data && "scheme" in data && "verify" in data
              && settings.host == data["host"] && settings.port == data["port"]
              && settings.protocol == data["scheme"]
              && settings.verify == VerifyFlag(PyStr(data["verify"]))
              && "secret_ref" in data && ObjectKey(namespace, data["secret_ref"]) in cluster.secrets
              && var secret := cluster.secrets[ObjectKey(namespace, data["secret_ref"])];
                 "token" in secret && settings.token == secret["token"]
    ensures |r.clusterReads| >= 1 && r.clusterReads[0] == ConfigMapRead(ObjectKey(namespace, SPLUNK_CONFIGURATION))
    ensures r.provision == Ready(None) ==> |r.clusterReads| == 1
  {
    var mapKey := ObjectKey(namespace, SPLUNK_CONFIGURATION);
    if mapKey !in cluster.configMaps then Provided(Ready(None), [ConfigMapRead(mapKey)])
    else
      var data := cluster.configMaps[mapKey];
      if "secret_ref" !in data then Provided(Crashed(KeyMissing("secret_ref")), [ConfigMapRead(mapKey)])
      else
        var secretKey := ObjectKey(namespace, data["secret_ref"]);
        var visited := [ConfigMapRead(mapKey), SecretRead(secretKey)];
        if secretKey !in cluster.secrets then Provided(ConfigurationError, visited)
        else
          var secret := cluster.secrets[secretKey];
          if "token" !in secret then Provided(Crashed(KeyMissing("token")), visited)
          else match FirstMissing(data, ["host", "port", "scheme", "verify"])
            case Some(key) => Provided(Crashed(KeyMissing(key)), visited)
            case None =>
              var settings := SplunkSettings(data["scheme"], data["host"], data["port"], secret["token"],
                                             VerifyFlag(PyStr(data["verify"])));
              Provided(Ready(Some(settings)), visited)
  }

  // ---------------------------------------------------------------------------
  // Sentinel

  /** The Sentinel repository's constructor arguments, and the namespace the
      service is bound to. */
  datatype SentinelSettings = SentinelSettings(
    tenantId: string, workspaceId: string, subscriptionId: string, resourceGroupId: string,
    clientId: string, clientSecret: string, namespace: string)

  /** `get_microsoft_sentinel_service`: a missing configuration map or secret
      both raise. The service is bound to the requested namespace. */
  function GetSentinelService(cluster: Cluster, namespace: string): (r: Provided<SentinelSettings>)
    ensures ObjectKey(namespace, SENTINEL_CONFIGURATION) !in cluster.configMaps ==>
              r == Provided(ConfigurationError, [ConfigMapRead(ObjectKey(namespace, SENTINEL_CONFIGURATION))])
    ensures r.provision == ConfigurationError <==>
              || ObjectKey(namespace, SENTINEL_CONFIGURATION) !in cluster.configMaps
              || (&& "secret_ref" in cluster.configMaps[ObjectKey(namespace, SENTINEL_CONFIGURATION)]
                  && ObjectKey(namespace, cluster.configMaps[ObjectKey(namespace, SENTINEL_CONFIGURATION)]["secret_ref"])
                       !in cluster.secrets)
    ensures r.provision.Ready? ==> r.provision.value.namespace == namespace
    ensures |r.clusterReads| >= 1 && r.clusterReads[0] == ConfigMapRead(ObjectKey(namespace, SENTINEL_CONFIGURATION))
    ensures forall i :: 0 <= i < |r.clusterReads| ==> r.clusterReads[i].key.namespace == namespace
  {
    var mapKey := ObjectKey(namespace, SENTINEL_CONFIGURATION);
    if mapKey !in cluster.configMaps then Provided(ConfigurationError, [ConfigMapRead(mapKey)])
    else
      var data := cluster.configMaps[mapKey];
      if "secret_ref" !in data then Provided(Crashed(KeyMissing("secret_ref")), [ConfigMapRead(mapKey)])
      else
        var secretKey := ObjectKey(namespace, data["secret_ref"]);
        var visited := [ConfigMapRead(mapKey), SecretRead(secretKey)];
        if secretKey !in cluster.secrets then Provided(ConfigurationError, visited)
        else
          var secret := cluster.secrets[secretKey];
          match FirstMissing(data, ["azure_tenant_id", "azure_workspace_id", "azure_subscription_id", "azure_resource_group_id"])
          case Some(key) => Provided(Crashed(KeyMissing(key)), visited)
          case None =>
            match FirstMissing(secret, ["azure_client_id", "azure_client_secret"])
            case Some(key) => Provided(Crashed(KeyMissing(key)), visited)
            case None =>
              var settings := SentinelSettings(
                data["azure_tenant_id"], data["azure_workspace_id"], data["azure_subscription_id"],
                data["azure_resource_group_id"], secret["azure_client_id"], secret["azure_client_secret"],
                namespace);
              Provided(Ready(settings), visited)
  }

  /** The two providers differ on a namespace without configuration: Splunk
      skips it, Sentinel raises. Neither reads a secret then. */
  lemma MissingConfigurationSkipsOrRaises(cluster: Cluster, namespace: string)
    requires ObjectKey(namespace, SPLUNK_CONFIGURATION) !in cluster.configMaps
    requires ObjectKey(namespace, SENTINEL_CONFIGURATION) !in cluster.configMaps
    ensures GetSplunkService(cluster, namespace).provision == Ready(None)
    ensures GetSentinelService(cluster, namespace).provision == ConfigurationError
    ensures forall i :: 0 <= i < |GetSplunkService(cluster, namespace).clusterReads| ==>
              !GetSplunkService(cluster, namespace).clusterReads[i].SecretRead?
  {
  }
}
