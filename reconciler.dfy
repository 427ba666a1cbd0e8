/** The reconciler as functions of the controller's state: what one call of
    `reconcileClusterAzureMachineClassKey` returns and leaves behind, given
    the outcomes of the calls it makes into collaborators. */
module Reconciler {
  import opened Results
  import opened Keys
  import opened Finalizers
  import opened Objects

  /** One round of `updateAzureMachineClassFinalizers`. */
  datatype Attempt =
    | GetFails        // refetching the class fails with an error other than NotFound: give up, silently
    | UpdateRejected  // the Update call fails: go round again with the refetched copy
    | UpdateAccepted  // the Update call goes through

  /** Some Update is accepted before any refetch fails. */
  ghost predicate GoesThrough(attempts: seq<Attempt>)
  {
    exists i :: 0 <= i < |attempts| && attempts[i] == UpdateAccepted && forall j :: 0 <= j < i ==> attempts[j] == UpdateRejected
  }

  lemma GoesThroughStep(attempts: seq<Attempt>)
    requires attempts != []
    ensures attempts[0] == UpdateAccepted ==> GoesThrough(attempts)
    ensures attempts[0] == GetFails ==> !GoesThrough(attempts)
    ensures attempts[0] == UpdateRejected ==> (GoesThrough(attempts) <==> GoesThrough(attempts[1..]))
  {
    if attempts[0] == UpdateRejected {
      var tail := attempts[1..];
      if GoesThrough(attempts) {
        var i :| 0 <= i < |attempts| && attempts[i] == UpdateAccepted && forall j :: 0 <= j < i ==> attempts[j] == UpdateRejected;
        assert tail[i - 1] == UpdateAccepted && forall j :: 0 <= j < i - 1 ==> tail[j] == attempts[j + 1];
      }
      if GoesThrough(tail) {
        var i :| 0 <= i < |tail| && tail[i] == UpdateAccepted && forall j :: 0 <= j < i ==> tail[j] == UpdateRejected;
        assert attempts[i + 1] == UpdateAccepted;
        assert forall j :: 0 < j < i + 1 ==> attempts[j] == tail[j - 1];
      }
    }
  }

  /** The server's state after `updateAzureMachineClassFinalizers` tries to
      give the class stored under `key` the list `finalizers`, meeting
      `attempts` on the way; running out of attempts ends the retries. */
  function AfterUpdate(server: Store, key: ObjectKey, finalizers: seq<string>, attempts: seq<Attempt>): (s: Store)
    ensures s == if key in server && GoesThrough(attempts)
                 then server[key := server[key].(finalizers := finalizers)]
                 else server
    ensures WellKeyed(server) ==> WellKeyed(s)
    decreases |attempts|
  {
    if attempts == [] then server
    else
      GoesThroughStep(attempts);
      if key !in server || attempts[0] == GetFails then server
      else if attempts[0] == UpdateRejected then AfterUpdate(server, key, finalizers, attempts[1..])
      else server[key := server[key].(finalizers := finalizers)]
  }

  /** The controller's state: its namespace, the class lister's cache, the API
      server's classes, the dependency listers, and its two work queues. */
  datatype World = World(
    namespace: string,
    cache: Store,
    server: Store,
    index: Index,
    classQueue: seq<string>,
    machineQueue: seq<string>)

  /** The outcomes of the calls a reconcile makes into collaborators: an error
      from the class lister other than NotFound, from `api.Scheme.Convert`,
      from each dependency lookup, and the rounds of the finalizer update. */
  datatype Env = Env(
    listerFault: Option<Error>,
    convertFault: Option<Error>,
    machinesFault: Option<Error>,
    deploymentsFault: Option<Error>,
    setsFault: Option<Error>,
    attempts: seq<Attempt>)

  predicate NoFaults(env: Env)
  {
    && env.listerFault.None? && env.convertFault.None? && env.machinesFault.None?
    && env.deploymentsFault.None? && env.setsFault.None?
  }

  /** The list reconciling `cls` writes: with the token while no deletion is
      requested, without it afterwards, computed from `cls` itself. */
  function NewFinalizers(cls: AzureMachineClass): seq<string>
  {
    if cls.deletionTimestamp.None? then WithToken(cls.finalizers) else WithoutToken(cls.finalizers)
  }

  /** Reconciling `cls` changes the stored finalizers exactly when it is
      converted and valid, its stored entry exists, the update goes through,
      and either no deletion is requested and the token is missing, or a
      deletion is requested, the token is there, every dependency lookup
      succeeds and nothing references the class. */
  ghost predicate WritesFinalizers(w: World, cls: AzureMachineClass, env: Env)
  {
    && env.convertFault.None? && cls.valid
    && cls.Key() in w.server && GoesThrough(env.attempts)
    && if cls.deletionTimestamp.None? then DeleteFinalizerName !in cls.finalizers
       else
         && DeleteFinalizerName in cls.finalizers
         && env.machinesFault.None? && env.deploymentsFault.None? && env.setsFault.None?
         && !Referenced(w.index, cls.name)
  }

  /** Reconciling `cls` re-enqueues its machines exactly when it is converted,
      valid, not marked for deletion, and the machine lookup succeeds. */
  predicate RequeuesMachines(cls: AzureMachineClass, env: Env)
  {
    env.convertFault.None? && cls.valid && cls.deletionTimestamp.None? && env.machinesFault.None?
  }

  /** `reconcileClusterAzureMachineClass(cls)`: the error it returns and the state it leaves. */
  function ReconcileClassSpec(w: World, cls: AzureMachineClass, env: Env): (r: (Option<Error>, World))
    ensures r.1.namespace == w.namespace && r.1.cache == w.cache && r.1.index == w.index
    ensures r.1.classQueue == w.classQueue
    ensures env.convertFault.Some? ==> r == (env.convertFault, w)
    ensures env.convertFault.None? && !cls.valid ==> r == (None, w)
    ensures r.0.Some? ==> r.0 == env.convertFault || r.0 == env.machinesFault || r.0 == env.deploymentsFault || r.0 == env.setsFault
    ensures NoFaults(env) ==> r.0 == None
    ensures env.convertFault.None? && cls.valid && env.machinesFault.Some? ==> r.0 == env.machinesFault
    ensures (env.convertFault.None? && cls.valid && env.machinesFault.None? && cls.deletionTimestamp.Some? &&
             DeleteFinalizerName in cls.finalizers && (env.deploymentsFault.Some? || env.setsFault.Some?)) ==>
            r.0 == (if env.deploymentsFault.Some? then env.deploymentsFault else env.setsFault)
    ensures (env.convertFault.None? && env.machinesFault.None? &&
             (cls.deletionTimestamp.None? || DeleteFinalizerName !in cls.finalizers)) ==> r.0 == None
    ensures r.1.server == if WritesFinalizers(w, cls, env)
                          then w.server[cls.Key() := w.server[cls.Key()].(finalizers := NewFinalizers(cls))]
                          else w.server
    ensures r.1.machineQueue == if RequeuesMachines(cls, env)
                                then w.machineQueue + MachineKeys(Referencing(w.index.machines, AzureMachineClassKind, cls.name))
                                else w.machineQueue
  {
    if env.convertFault.Some? then (env.convertFault, w)
    else if !cls.valid then (None, w)
    else
      var w1 := if cls.deletionTimestamp.None? && DeleteFinalizerName !in cls.finalizers
                then w.(server := AfterUpdate(w.server, cls.Key(), WithToken(cls.finalizers), env.attempts))
                else w;
      if env.machinesFault.Some? then (env.machinesFault, w1)
      else
        var machines := Referencing(w.index.machines, AzureMachineClassKind, cls.name);
        if cls.deletionTimestamp.Some? then
          if DeleteFinalizerName !in cls.finalizers then (None, w1)
          else if env.deploymentsFault.Some? then (env.deploymentsFault, w1)
          else if env.setsFault.Some? then (env.setsFault, w1)
          else
            var deployments := Referencing(w.index.machineDeployments, AzureMachineClassKind, cls.name);
            var sets := Referencing(w.index.machineSets, AzureMachineClassKind, cls.name);
            if |deployments| == 0 && |sets| == 0 && |machines| == 0 then
              (None, w1.(server := AfterUpdate(w1.server, cls.Key(), WithoutToken(cls.finalizers), env.attempts)))
            else (None, w1)
        else (None, w1.(machineQueue := w1.machineQueue + MachineKeys(machines)))
  }

  /** `reconcileClusterAzureMachineClassKey(key)`: the key's namespace is
      dropped and the class is looked up by name in the controller's own
      namespace. */
  function ReconcileKeySpec(w: World, key: string, env: Env): (r: (Option<Error>, World))
    ensures SplitMetaNamespaceKey(key).Err? ==> r == (Some(KeyFormatError(key)), w)
    ensures SplitMetaNamespaceKey(key).Ok? && env.listerFault.Some? ==> r == (env.listerFault, w)
    ensures (SplitMetaNamespaceKey(key).Ok? && env.listerFault.None? &&
             ObjectKey(w.namespace, SplitMetaNamespaceKey(key).value.1) !in w.cache) ==> r == (None, w)
    ensures (SplitMetaNamespaceKey(key).Ok? && env.listerFault.None? &&
             ObjectKey(w.namespace, SplitMetaNamespaceKey(key).value.1) in w.cache) ==>
            r == ReconcileClassSpec(w, w.cache[ObjectKey(w.namespace, SplitMetaNamespaceKey(key).value.1)], env)
    ensures r.1.namespace == w.namespace && r.1.cache == w.cache && r.1.index == w.index
    ensures r.1.classQueue == w.classQueue
  {
    match SplitMetaNamespaceKey(key)
    case Err(e) => (Some(e), w)
    case Ok((_, name)) =>
      if env.listerFault.Some? then (env.listerFault, w)
      else if ObjectKey(w.namespace, name) !in w.cache then (None, w)
      else ReconcileClassSpec(w, w.cache[ObjectKey(w.namespace, name)], env)
  }
}
