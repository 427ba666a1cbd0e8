/** The objects the controller handles: AzureMachineClass objects, the
    machines, machine sets and machine deployments that depend on them, the
    payloads that watch notifications deliver, and the stores they live in. */
module Objects {
  import opened Results
  import opened Keys

  /** The kind a class reference must name for this controller to care. */
  const AzureMachineClassKind: string := "AzureMachineClass"

  /** A reference to a machine class, `Spec.Class` of a machine or of a
      machine set's or deployment's template. */
  datatype ClassSpec = ClassSpec(kind: string, name: string)

  /** A Machine, MachineSet or MachineDeployment, reduced to its identity and
      the class its spec references. */
  datatype Dependent = Dependent(namespace: string, name: string, classRef: ClassSpec)

  /** Where a class lives in a store: namespace and name. */
  datatype ObjectKey = ObjectKey(namespace: string, name: string)

  /** An AzureMachineClass. `deletionTimestamp` is `None` until deletion is
      requested; `valid` stands for `validation.ValidateAzureMachineClass`
      reporting no error, a fixed function of the object's spec. */
  datatype AzureMachineClass = AzureMachineClass(
    namespace: string,
    name: string,
    finalizers: seq<string>,
    deletionTimestamp: Option<nat>,
    valid: bool)
  {
    function Key(): ObjectKey
    {
      ObjectKey(namespace, name)
    }
  }

  /** A store of classes, the lister's cache or the API server's state. */
  type Store = map<ObjectKey, AzureMachineClass>

  /** Every object is stored under its own namespace and name. */
  predicate WellKeyed(s: Store)
  {
    forall k :: k in s ==> s[k].Key() == k
  }

  /** The dynamic types a watch payload can have. */
  datatype PayloadType = MachineType | MachineSetType | MachineDeploymentType | AzureMachineClassType

  /** A watch notification's `interface{}` payload. */
  datatype Payload =
    | NilPayload                     // an untyped nil
    | TypedNil(of: PayloadType)      // a nil pointer of one of the types above
    | MachineObj(dep: Dependent)
    | MachineSetObj(dep: Dependent)
    | MachineDeploymentObj(dep: Dependent)
    | ClassObj(machineClass: AzureMachineClass)
    | Tombstone(key: string)         // cache.DeletedFinalStateUnknown
    | NoMetadata                     // any other value, without object metadata

  /** The contents of the machine, machine set and machine deployment listers. */
  datatype Index = Index(machines: seq<Dependent>, machineSets: seq<Dependent>, machineDeployments: seq<Dependent>)

  /** The dependents in `deps` whose class reference is (kind, name), in order:
      what `findMachinesForClass` and its two siblings return. */
  function Referencing(deps: seq<Dependent>, kind: string, name: string): (r: seq<Dependent>)
    ensures forall d :: d in r <==> d in deps && d.classRef == ClassSpec(kind, name)
    ensures |r| <= |deps|
  {
    if deps == [] then []
    else
      var rest := Referencing(deps[1..], kind, name);
      assert deps == [deps[0]] + deps[1..];
      if deps[0].classRef == ClassSpec(kind, name) then [deps[0]] + rest else rest
  }

  /** Some machine, machine set or machine deployment references the
      AzureMachineClass called `name`. */
  predicate Referenced(index: Index, name: string)
  {
    || Referencing(index.machines, AzureMachineClassKind, name) != []
    || Referencing(index.machineSets, AzureMachineClassKind, name) != []
    || Referencing(index.machineDeployments, AzureMachineClassKind, name) != []
  }

  /** The keys `addMachine` puts on the machine queue for these machines. */
  function MachineKeys(ms: seq<Dependent>): (keys: seq<string>)
    ensures |keys| == |ms|
    ensures forall i :: 0 <= i < |ms| ==> keys[i] == MetaNamespaceKey(ms[i].namespace, ms[i].name)
  {
    if ms == [] then []
    else MachineKeys(ms[..|ms| - 1]) + [MetaNamespaceKey(ms[|ms| - 1].namespace, ms[|ms| - 1].name)]
  }
}
