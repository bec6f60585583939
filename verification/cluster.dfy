/**
 The cluster objects the engine reads through its Kubernetes client wrapper:
 config maps, secrets and Sentinel macro custom objects, each addressed by
 namespace and name. The wrapper turns every API failure into "not found", so a
 missing key in these maps stands for any failed read. Custom objects are kept
 as raw JSON and coerced to the macro shape on lookup.
 */
module Cluster {
  import opened Base

  datatype ObjectKey = ObjectKey(namespace: string, name: string)

  datatype Cluster = Cluster(
    configMaps: map<ObjectKey, map<string, string>>,
    secrets: map<ObjectKey, map<string, string>>,
    macros: map<ObjectKey, Json>)

  /** One read issued against the cluster during a pass. */
  datatype ClusterRead =
    | ConfigMapRead(key: ObjectKey)
    | SecretRead(key: ObjectKey)
    | MacroRead(key: ObjectKey)

  /** The three ways a macro lookup ends: the object exists and has the macro
      shape, it does not exist (`ResourceNotFoundException`), or it exists but
      cannot be coerced (`ResourceValidationError`). */
  datatype Lookup = Found(content: string) | NotFound | Invalid

  predicate HasString(o: map<string, Json>, key: string) {
    key in o && o[key].JStr?
  }

  /** The `MicrosoftSentinelMacro` coercion: a `spec` object with a string
      `content`, and a `metadata` object with an integer `generation`, an object
      of `labels`, and string `name` and `namespace`. Other keys are allowed. */
  function MacroContent(obj: Json): (r: Option<string>)
    ensures r.Some? ==> obj.JObj? && "spec" in obj.fields && obj.fields["spec"].JObj?
                        && HasString(obj.fields["spec"].fields, "content")
                        && obj.fields["spec"].fields["content"].s == r.value
  {
    if !obj.JObj? || "spec" !in obj.fields || "metadata" !in obj.fields then None
    else
      var spec, metadata := obj.fields["spec"], obj.fields["metadata"];
      if !spec.JObj? || !HasString(spec.fields, "content") || !metadata.JObj? then None
      else
        var m := metadata.fields;
        if "generation" in m && m["generation"].JInt? && "labels" in m && m["labels"].JObj?
           && HasString(m, "name") && HasString(m, "namespace")
        then Some(spec.fields["content"].s)
        else None
  }

  /** `get_namespaced_custom_object` for a macro of `namespace`, coerced to its content. */
  function LookupMacro(cluster: Cluster, namespace: string, name: string): (r: Lookup)
    ensures r.NotFound? <==> ObjectKey(namespace, name) !in cluster.macros
    ensures r.Found? ==> MacroContent(cluster.macros[ObjectKey(namespace, name)]) == Some(r.content)
    ensures r.Invalid? ==> MacroContent(cluster.macros[ObjectKey(namespace, name)]).None?
  {
    var key := ObjectKey(namespace, name);
    if key !in cluster.macros then NotFound
    else match MacroContent(cluster.macros[key])
      case Some(content) => Found(content)
      case None => Invalid
  }

  /** A macro deployed in another namespace has no effect on a lookup: there is
      no cross-namespace resolution. */
  lemma LookupIgnoresOtherNamespaces(cluster: Cluster, namespace: string, other: string, name: string, obj: Json)
    requires other != namespace
    ensures LookupMacro(cluster.(macros := cluster.macros[ObjectKey(other, name) := obj]), namespace, name)
         == LookupMacro(cluster, namespace, name)
  {
  }

  /** Every read of `clusterReads` addresses `namespace`. */
  predicate ReadsWithin(clusterReads: seq<ClusterRead>, namespace: string) {
    forall i :: 0 <= i < |clusterReads| ==> clusterReads[i].key.namespace == namespace
  }

  lemma ReadsWithinJoin(a: seq<ClusterRead>, b: seq<ClusterRead>, namespace: string)
    requires ReadsWithin(a, namespace) && ReadsWithin(b, namespace)
    ensures ReadsWithin(a + b, namespace)
  {
    forall i | 0 <= i < |a + b| ensures (a + b)[i].key.namespace == namespace {
      if i >= |a| { assert (a + b)[i] == b[i - |a|]; }
    }
  }
}
