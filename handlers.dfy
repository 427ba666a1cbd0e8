/** What each watch-event handler of the controller puts on the
    AzureMachineClass queue, as a function of the notification's payload. */
module Handlers {
  import opened Results
  import opened Keys
  import opened Objects

  /** `cache.DeletionHandlingMetaNamespaceKeyFunc`: a tombstone carries its
      key, an object with metadata gets "namespace/name", anything else fails. */
  function DeletionHandlingKey(obj: Payload): (r: Result<string>)
    ensures obj.Tombstone? ==> r == Ok(obj.key)
    ensures obj.ClassObj? ==> r == Ok(MetaNamespaceKey(obj.machineClass.namespace, obj.machineClass.name))
    ensures (obj.MachineObj? || obj.MachineSetObj? || obj.MachineDeploymentObj?) ==> r == Ok(MetaNamespaceKey(obj.dep.namespace, obj.dep.name))
    ensures r.Err? <==> obj.NilPayload? || obj.TypedNil? || obj.NoMetadata?
  {
    match obj
    case Tombstone(key) => Ok(key)
    case ClassObj(c) => Ok(MetaNamespaceKey(c.namespace, c.name))
    case MachineObj(d) => Ok(MetaNamespaceKey(d.namespace, d.name))
    case MachineSetObj(d) => Ok(MetaNamespaceKey(d.namespace, d.name))
    case MachineDeploymentObj(d) => Ok(MetaNamespaceKey(d.namespace, d.name))
    case _ => Err(Failure("object has no meta"))
  }

  /** The class name a dependent's reference leads to, if it names an AzureMachineClass. */
  function ReferencedClassKeys(d: Dependent): (keys: seq<string>)
    ensures keys != [] <==> d.classRef.kind == AzureMachineClassKind
    ensures keys != [] ==> keys == [d.classRef.name]
  {
    if d.classRef.kind == AzureMachineClassKind then [d.classRef.name] else []
  }

  /** `machineDeploymentToAzureMachineClassDelete`. */
  function MachineDeploymentDeleteKeys(obj: Payload): (keys: seq<string>)
    ensures keys != [] <==> obj.MachineDeploymentObj? && obj.dep.classRef.kind == AzureMachineClassKind
    ensures keys != [] ==> keys == [obj.dep.classRef.name]
  {
    if obj.MachineDeploymentObj? then ReferencedClassKeys(obj.dep) else []
  }

  /** `machineSetToAzureMachineClassDelete`. */
  function MachineSetDeleteKeys(obj: Payload): (keys: seq<string>)
    ensures keys != [] <==> obj.MachineSetObj? && obj.dep.classRef.kind == AzureMachineClassKind
    ensures keys != [] ==> keys == [obj.dep.classRef.name]
  {
    if obj.MachineSetObj? then ReferencedClassKeys(obj.dep) else []
  }

  /** `machineToAzureMachineClassDelete`. */
  function MachineDeleteKeys(obj: Payload): (keys: seq<string>)
    ensures keys != [] <==> obj.MachineObj? && obj.dep.classRef.kind == AzureMachineClassKind
    ensures keys != [] ==> keys == [obj.dep.classRef.name]
  {
    if obj.MachineObj? then ReferencedClassKeys(obj.dep) else []
  }

  /** `azureMachineClassAdd`: the payload's key, unless it has none. */
  function ClassAddKeys(obj: Payload): (keys: seq<string>)
    ensures keys == [] <==> DeletionHandlingKey(obj).Err?
    ensures keys != [] ==> keys == [DeletionHandlingKey(obj).value]
  {
    match DeletionHandlingKey(obj)
    case Ok(key) => [key]
    case Err(_) => []
  }

  /** `azureMachineClassUpdate`: both type checks test the OLD payload, so the
      new payload is passed on to `azureMachineClassAdd` whatever its type. */
  function ClassUpdateKeys(oldObj: Payload, newObj: Payload): (keys: seq<string>)
    ensures !oldObj.ClassObj? ==> keys == []
    ensures oldObj.ClassObj? ==> keys == ClassAddKeys(newObj)
  {
    if oldObj.ClassObj? then ClassAddKeys(newObj) else []
  }

  /** Because of that, an update notification whose new payload is a machine
      enqueues the machine's own key on the class queue. */
  lemma UpdateDoesNotCheckNewPayload(c: AzureMachineClass, m: Dependent)
    ensures ClassUpdateKeys(ClassObj(c), MachineObj(m)) == [MetaNamespaceKey(m.namespace, m.name)]
  {
  }

  /** For a class with a slash-free namespace and name, the key its add
      notification enqueues splits back into that namespace and name. */
  lemma ClassKeySplitsBack(c: AzureMachineClass)
    requires '/' !in c.namespace && '/' !in c.name
    ensures ClassAddKeys(ClassObj(c)) == [MetaNamespaceKey(c.namespace, c.name)]
    ensures SplitMetaNamespaceKey(ClassAddKeys(ClassObj(c))[0]) == Ok((c.namespace, c.name))
  {
    SplitMetaNamespaceKeyInverts(c.namespace, c.name);
  }
}
