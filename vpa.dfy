/**
 * Accessors of a vertical pod autoscaler resource: the object whose pods it
 * scales, the recommendation for the first container, and the skeleton used
 * when a new autoscaler is created.
 */
module Vpa {
  import opened Wrappers
  import opened KubeObjects

  datatype UpdateMode = Off | Initial | Auto | Recreate

  /** The scaled object; `namespace` may be missing or empty. */
  datatype TargetRef = TargetRef(apiVersion: string, kind: string, name: string, namespace: Option<string>)

  datatype UpdatePolicy = UpdatePolicy(updateMode: UpdateMode, minReplicas: Option<int>)

  datatype VpaSpec = VpaSpec(
    targetRef: Option<TargetRef>,
    updatePolicy: Option<UpdatePolicy>,
    recommenders: Option<seq<string>>)

  datatype RecommendationValue = RecommendationValue(
    cpu: Option<string>, memory: Option<string>, storage: Option<string>, ephemeralStorage: Option<string>)

  datatype ContainerRecommendation = ContainerRecommendation(
    containerName: string,
    lowerBound: RecommendationValue,
    target: RecommendationValue,
    uncappedTarget: RecommendationValue,
    upperBound: RecommendationValue)

  datatype VpaRecommendation = VpaRecommendation(containerRecommendations: Option<seq<ContainerRecommendation>>)

  datatype VpaCondition = VpaCondition(conditionType: string, status: string, lastTransitionTime: string)

  datatype VpaStatus = VpaStatus(conditions: seq<VpaCondition>, recommendation: Option<VpaRecommendation>)

  datatype KubeVpa = KubeVpa(
    apiVersion: string, kind: string, metadata: ObjectMeta, spec: Option<VpaSpec>, status: Option<VpaStatus>)

  /** A getter result that tells `null` and `undefined` apart. */
  datatype Nullable<T> = Null | Undefined | Value(value: T)

  /** JavaScript truthiness of an optional string: absent and empty are both false. */
  predicate Truthy(s: Option<string>) {
    s.Some? && s.value != ""
  }

  /**
   * `targetRecommendations`: `Null` without a status or without a
   * recommendation; otherwise the target of the first container
   * recommendation, or `Undefined` when that list is absent or empty.
   */
  function TargetRecommendations(vpa: KubeVpa): (r: Nullable<RecommendationValue>)
    ensures r.Null? <==> vpa.status.None? || vpa.status.value.recommendation.None?
    ensures r.Value? <==>
      && vpa.status.Some? && vpa.status.value.recommendation.Some?
      && vpa.status.value.recommendation.value.containerRecommendations.Some?
      && |vpa.status.value.recommendation.value.containerRecommendations.value| > 0
    ensures r.Value? ==> r.value == vpa.status.value.recommendation.value.containerRecommendations.value[0].target
  {
    if vpa.status.None? || vpa.status.value.recommendation.None? then Null
    else
      var list := vpa.status.value.recommendation.value.containerRecommendations;
      if list.Some? && |list.value| > 0 then Value(list.value[0].target) else Undefined
  }

  /** The namespace of the referenced object: its own when non-empty, else the autoscaler's. */
  function ReferenceNamespace(target: TargetRef, vpa: KubeVpa): (ns: Option<string>)
    ensures Truthy(target.namespace) ==> ns == target.namespace
    ensures !Truthy(target.namespace) ==> ns == vpa.metadata.namespace
  {
    if Truthy(target.namespace) then target.namespace else vpa.metadata.namespace
  }

  /**
   * `referenceObject`: resolves the target kind through the kind registry and
   * builds an object of that class with the target's name and kind; `None`
   * (`null`) when there is no target or its kind is not registered.
   */
  function ReferenceObject(vpa: KubeVpa, registry: map<string, KubeObjectClass>): (r: Option<KubeObject>)
    ensures r.Some? <==> vpa.spec.Some? && vpa.spec.value.targetRef.Some? && vpa.spec.value.targetRef.value.kind in registry
    ensures r.Some? ==>
      var t := vpa.spec.value.targetRef.value;
      && r.value.objectClass == registry[t.kind]
      && r.value.kind == t.kind
      && r.value.metadata.name == t.name
      && r.value.metadata.namespace == ReferenceNamespace(t, vpa)
  {
    var target := if vpa.spec.Some? then vpa.spec.value.targetRef else None;
    if target.None? then None
    else if target.value.kind !in registry then None
    else
      var t := target.value;
      Some(KubeObject(registry[t.kind], t.kind, ObjectMeta(t.name, ReferenceNamespace(t, vpa))))
  }

  /**
   * `getBaseObject`: the generic skeleton (`base`, built by the resource base
   * class) with a spec whose target reference has empty api version, kind and
   * name and no namespace; nothing else of the skeleton changes.
   */
  function GetBaseObject(base: KubeVpa): (r: KubeVpa)
    ensures r.spec.Some? && r.spec.value.targetRef == Some(TargetRef("", "", "", None))
    ensures r.spec.value.updatePolicy.None? && r.spec.value.recommenders.None?
    ensures r.apiVersion == base.apiVersion && r.kind == base.kind
    ensures r.metadata == base.metadata && r.status == base.status
  {
    base.(spec := Some(VpaSpec(Some(TargetRef("", "", "", None)), None, None)))
  }

  /**
   * The skeleton refers to nothing unless the registry has an entry for the
   * empty kind; if it does, the reference has an empty name and the
   * skeleton's own namespace.
   */
  lemma BaseObjectReference(base: KubeVpa, registry: map<string, KubeObjectClass>)
    ensures ReferenceObject(GetBaseObject(base), registry).Some? <==> "" in registry
    ensures "" in registry ==>
      ReferenceObject(GetBaseObject(base), registry) == Some(KubeObject(registry[""], "", ObjectMeta("", base.metadata.namespace)))
  {
  }
}
