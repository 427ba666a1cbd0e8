/** The controller object: its queues and stores, the watch-event handlers
    that fill the class queue, the reconciler, and the finalizer updates it
    issues. Each method is proved to do what the functions of `Handlers` and
    `Reconciler` say. */
module ClassController {
  import opened Results
  import opened Keys
  import opened Finalizers
  import opened Objects
  import opened Handlers
  import opened Reconciler

  class Controller {
    /** `c.namespace`, the namespace the class lister is asked for. */
    const namespace: string
    /** What `azureMachineClassLister` sees. */
    var cache: Store
    /** What `controlMachineClient` reads and writes. */
    var server: Store
    /** What the machine, machine set and machine deployment listers see. */
    var index: Index
    /** The keys added to `azureMachineClassQueue`, in order. */
    var classQueue: seq<string>
    /** The keys added to `machineQueue`, in order. */
    var machineQueue: seq<string>

    ghost predicate Valid()
      reads this
    {
      WellKeyed(cache) && WellKeyed(server)
    }

    ghost function State(): World
      reads this
    {
      World(namespace, cache, server, index, classQueue, machineQueue)
    }

    constructor (namespace: string, cache: Store, server: Store, index: Index)
      requires WellKeyed(cache) && WellKeyed(server)
      ensures Valid()
      ensures State() == World(namespace, cache, server, index, [], [])
    {
      this.namespace := namespace;
      this.cache := cache;
      this.server := server;
      this.index := index;
      this.classQueue := [];
      this.machineQueue := [];
    }

    method MachineDeploymentToClassDelete(obj: Payload)
      modifies this`classQueue
      ensures classQueue == old(classQueue) + MachineDeploymentDeleteKeys(obj)
    {
      match obj
      case MachineDeploymentObj(d) =>
        if d.classRef.kind == AzureMachineClassKind {
          classQueue := classQueue + [d.classRef.name];
        }
      case _ =>
    }

    method MachineSetToClassDelete(obj: Payload)
      modifies this`classQueue
      ensures classQueue == old(classQueue) + MachineSetDeleteKeys(obj)
    {
      match obj
      case MachineSetObj(d) =>
        if d.classRef.kind == AzureMachineClassKind {
          classQueue := classQueue + [d.classRef.name];
        }
      case _ =>
    }

    method MachineToClassDelete(obj: Payload)
      modifies this`classQueue
      ensures classQueue == old(classQueue) + MachineDeleteKeys(obj)
    {
      match obj
      case MachineObj(d) =>
        if d.classRef.kind == AzureMachineClassKind {
          classQueue := classQueue + [d.classRef.name];
        }
      case _ =>
    }

    method ClassAdd(obj: Payload)
      modifies this`classQueue
      ensures classQueue == old(classQueue) + ClassAddKeys(obj)
    {
      var key := DeletionHandlingKey(obj);
      if key.Err? {
        return;
      }
      classQueue := classQueue + [key.value];
    }

    method ClassUpdate(oldObj: Payload, newObj: Payload)
      modifies this`classQueue
      ensures classQueue == old(classQueue) + ClassUpdateKeys(oldObj, newObj)
    {
      if !oldObj.ClassObj? {
        return;
      }
      // the second check tests the old payload again
      if !oldObj.ClassObj? {
        return;
      }
      ClassAdd(newObj);
    }

    method ReconcileKey(key: string, env: Env) returns (err: Option<Error>)
      requires Valid()
      modifies this`server, this`machineQueue
      ensures Valid()
      ensures (err, State()) == ReconcileKeySpec(old(State()), key, env)
    {
      var split := SplitMetaNamespaceKey(key);
      if split.Err? {
        return Some(split.error);
      }
      var name := split.value.1;
      if env.listerFault.Some? {
        return env.listerFault;
      }
      var k := ObjectKey(namespace, name);
      if k !in cache {
        return None;
      }
      err := ReconcileClass(cache[k], env);
    }

    method ReconcileClass(cls: AzureMachineClass, env: Env) returns (err: Option<Error>)
      requires Valid()
      modifies this`server, this`machineQueue
      ensures Valid()
      ensures (err, State()) == ReconcileClassSpec(old(State()), cls, env)
    {
      if env.convertFault.Some? {
        return env.convertFault;
      }
      if !cls.valid {
        return None;
      }
      if cls.deletionTimestamp.None? {
        AddFinalizers(cls, env.attempts);
      }
      if env.machinesFault.Some? {
        return env.machinesFault;
      }
      var machines := Referencing(index.machines, AzureMachineClassKind, cls.name);
      if cls.deletionTimestamp.Some? {
        if DeleteFinalizerName !in cls.finalizers {  // the set built from the list has the token
          return None;
        }
        if env.deploymentsFault.Some? {
          return env.deploymentsFault;
        }
        var deployments := Referencing(index.machineDeployments, AzureMachineClassKind, cls.name);
        if env.setsFault.Some? {
          return env.setsFault;
        }
        var sets := Referencing(index.machineSets, AzureMachineClassKind, cls.name);
        if |deployments| == 0 && |sets| == 0 && |machines| == 0 {
          DeleteFinalizers(cls, env.attempts);
          return None;
        }
        return None;
      }
      AddMachines(machines);
      return None;
    }

    /** The loop at the end of `reconcileClusterAzureMachineClass`: every
        machine found is handed to `addMachine`, in order. */
    method AddMachines(machines: seq<Dependent>)
      modifies this`machineQueue
      ensures machineQueue == old(machineQueue) + MachineKeys(machines)
    {
      for i := 0 to |machines|
        invariant machineQueue == old(machineQueue) + MachineKeys(machines[..i])
      {
        assert machines[..i + 1][..i] == machines[..i];
        AddMachine(machines[i]);
      }
      assert machines[..|machines|] == machines;
    }

    /** `addMachine`: enqueues the machine's key on the machine queue. */
    method AddMachine(m: Dependent)
      modifies this`machineQueue
      ensures machineQueue == old(machineQueue) + [MetaNamespaceKey(m.namespace, m.name)]
    {
      machineQueue := machineQueue + [MetaNamespaceKey(m.namespace, m.name)];
    }

    method AddFinalizers(cls: AzureMachineClass, attempts: seq<Attempt>)
      requires WellKeyed(server)
      modifies this`server
      ensures WellKeyed(server)
      ensures server == if DeleteFinalizerName in cls.finalizers then old(server)
                        else AfterUpdate(old(server), cls.Key(), WithToken(cls.finalizers), attempts)
    {
      var clone := cls;
      var finalizers := Normalize(clone.finalizers);
      if DeleteFinalizerName !in finalizers {
        UpdateFinalizers(clone, Insert(finalizers, DeleteFinalizerName), attempts);
      }
    }

    method DeleteFinalizers(cls: AzureMachineClass, attempts: seq<Attempt>)
      requires WellKeyed(server)
      modifies this`server
      ensures WellKeyed(server)
      ensures server == if DeleteFinalizerName !in cls.finalizers then old(server)
                        else AfterUpdate(old(server), cls.Key(), WithoutToken(cls.finalizers), attempts)
    {
      var clone := cls;
      var finalizers := Normalize(clone.finalizers);
      if DeleteFinalizerName in finalizers {
        UpdateFinalizers(clone, Remove(finalizers, DeleteFinalizerName), attempts);
      }
    }

    /** `updateAzureMachineClassFinalizers`: refetch the class, write
        `finalizers` into the fresh copy, and go round again while the write
        is rejected. */
    method UpdateFinalizers(cls: AzureMachineClass, finalizers: seq<string>, attempts: seq<Attempt>)
      requires WellKeyed(server)
      modifies this`server
      ensures WellKeyed(server)
      ensures server == AfterUpdate(old(server), cls.Key(), finalizers, attempts)
    {
      var current := cls;
      var i := 0;
      while i < |attempts|
        invariant 0 <= i <= |attempts|
        invariant server == old(server)
        invariant current.Key() == cls.Key()
        invariant AfterUpdate(server, cls.Key(), finalizers, attempts[i..]) == AfterUpdate(server, cls.Key(), finalizers, attempts)
      {
        GoesThroughStep(attempts[i..]);
        assert attempts[i..][1..] == attempts[i + 1..];
        var key := current.Key();
        if key !in server || attempts[i] == GetFails {
          return;
        }
        current := server[key];
        if attempts[i] == UpdateRejected {
          i := i + 1;
        } else {
          var clone := current.(finalizers := finalizers);
          server := server[ObjectKey(current.namespace, clone.name) := clone];
          return;
        }
      }
    }
  }
}
