/** The parts of a cluster resource object that the modelled code reads or builds. */
module KubeObjects {
  import opened Wrappers

  /** `metadata` of a resource: its name and, for namespaced kinds, its namespace. */
  datatype ObjectMeta = ObjectMeta(name: string, namespace: Option<string>)

  /** A class registered for a resource kind (an entry of the kind registry). */
  datatype KubeObjectClass = KubeObjectClass(className: string)

  /** A resource object: the class that wraps it, its `kind` and its `metadata`. */
  datatype KubeObject = KubeObject(objectClass: KubeObjectClass, kind: string, metadata: ObjectMeta)
}
