/**
 Kubernetes objects as the operator sees them: what it wants to exist, what the
 API server stores, and the comparisons it makes between the two.
 */
module Resources {
  import opened Text

  datatype Json =
    | JNull
    | JBool(b: bool)
    | JNumber(n: int)
    | JString(s: string)
    | JArray(items: seq<Json>)
    | JObject(members: map<string, Json>)

  /** The last-applied-resource-spec annotation of a stored object. */
  datatype Annotation = Missing | Malformed | Parsed(spec: Json)

  datatype ObjectKey = ObjectKey(kind: string, namespace: string, name: string)

  datatype Container = Container(
    image: string, command: seq<string>, args: seq<string>,
    env: Json, volumeMounts: Json, ports: Json, resources: Json)

  /** `others` holds every field of the template that the restart check does not look at. */
  datatype PodTemplate = PodTemplate(
    annotations: map<string, string>, firstInitImage: string,
    tolerations: Json, affinity: Json, nodeSelector: Json, main: Container, others: Json)

  /** The part of a stored object that the API server and the Kubernetes controllers own. */
  datatype Live = Live(
    template: PodTemplate, generation: int, observedGeneration: int,
    replicas: int32, readyReplicas: int32, currentReplicas: int32)

  datatype Object = Object(applied: Annotation, labels: map<string, string>, live: Live)

  datatype Desired = Desired(key: ObjectKey, applied: Json, labels: map<string, string>, template: PodTemplate)
  {
    predicate IsStatefulSet() { key.kind == "StatefulSet" }
  }

  type Store = map<ObjectKey, Object>

  predicate IsStatefulSetReady(o: Object)
  {
    && o.live.observedGeneration == o.live.generation
    && o.live.readyReplicas == o.live.replicas
    && o.live.currentReplicas == o.live.replicas
  }

  /** Whether the pods that already run would be restarted, judged on the compared fields only. */
  predicate IsOldPodRestart(new': PodTemplate, old': PodTemplate)
  {
    || new'.annotations != old'.annotations
    || new'.firstInitImage != old'.firstInitImage
    || new'.tolerations != old'.tolerations
    || new'.affinity != old'.affinity
    || new'.nodeSelector != old'.nodeSelector
    || new'.main != old'.main
  }

  /** The running pods are left alone exactly if the templates agree but for the fields that are not compared. */
  lemma NoRestartExactly(new': PodTemplate, old': PodTemplate)
    ensures !IsOldPodRestart(new', old') <==> new' == old'.(others := new'.others)
  {
  }

  /** A new and an old pod template that were compared before a patch. */
  datatype Comparison = Comparison(new': PodTemplate, old': PodTemplate)

  predicate Restarts(compared: Option<Comparison>)
  {
    compared.Some? && IsOldPodRestart(compared.value.new', compared.value.old')
  }

  /** Something is stored under the key, but without a readable annotation: it is not the operator's. */
  predicate IsForeign(store: Store, d: Desired)
  {
    d.key in store && !store[d.key].applied.Parsed?
  }

  /** What the operator finds when it looks up a desired object. */
  datatype Finding = Absent | Unreadable | Same | Differs

  function Compare(store: Store, d: Desired): Finding
  {
    if d.key !in store then Absent
    else if !store[d.key].applied.Parsed? then Unreadable
    else if Agrees(store[d.key], d) then Same
    else Differs
  }

  /** The annotation and the labels agree; the live spec is not looked at. */
  predicate Agrees(o: Object, d: Desired)
  {
    o.applied == Parsed(d.applied) && o.labels == d.labels
  }

  /** A create or a patch leaves the desired annotation and labels; the rest is up to the server. */
  function Written(store: Store, d: Desired, live: Live): Store
  {
    store[d.key := Object(Parsed(d.applied), d.labels, live)]
  }

  /** The object is stored with the desired annotation and labels. */
  predicate IsStored(store: Store, d: Desired)
  {
    d.key in store && store[d.key].applied == Parsed(d.applied) && store[d.key].labels == d.labels
  }

  /** The object is the operator's, but its annotation or its labels are not as desired. */
  predicate IsDifferent(store: Store, d: Desired)
  {
    && d.key in store && store[d.key].applied.Parsed?
    && (store[d.key].applied.spec != d.applied || store[d.key].labels != d.labels)
  }

  /** What a finding says about the store, and what a write leaves. */
  lemma FindingsExactly(store: Store, d: Desired, live: Live)
    ensures Compare(store, d) == Absent <==> d.key !in store
    ensures Compare(store, d) == Unreadable <==> IsForeign(store, d)
    ensures Compare(store, d) == Same <==> IsStored(store, d)
    ensures Compare(store, d) == Differs <==> IsDifferent(store, d)
    ensures IsStored(Written(store, d, live), d) && Written(store, d, live) - {d.key} == store - {d.key}
  {
  }
}
