# AzureMachineClass finalizer controller, modelled in Dafny

This project models the AzureMachineClass part of the machine controller
manager (`pkg/controller/azuremachineclass.go`). An AzureMachineClass is a
shared configuration object that machines, machine sets and machine
deployments refer to. The controller guards its deletion with a finalizer
token, `DeleteFinalizerName`:

* the **watch-event handlers** turn notifications into keys on the class queue.
  For a dependent, the key is the name of the class it references, and only
  when the reference's kind is `AzureMachineClass`. For a class, it is the
  class's own `namespace/name` key;
* the **reconciler** looks the class up by key. It then either adds the token
  (no deletion requested), removes it (deletion requested, token present,
  no dependents), or leaves it alone. It also re-enqueues every machine that
  uses a live class;
* the **finalizer manager** computes the new list with `sets.String`
  arithmetic (insert or delete, then `List()`, which is ascending and
  duplicate-free). It writes that list into a freshly fetched copy and
  retries while the write is rejected.

Modules:

* `Results`: option, error and result types.
* `Finalizers`: Go's string order, and the sorted-set operations that
  `sets.NewString`, `Insert`, `Delete` and `List` perform.
* `Keys`: client-go's `namespace/name` keys and `SplitMetaNamespaceKey`.
* `Objects`: classes, dependents, watch payloads, stores, and the dependency
  look-ups.
* `Handlers`: what each handler enqueues, as a function of its payload.
* `Reconciler`: the controller's state (`World`), the outcomes of the calls
  it makes into collaborators (`Env`), and the reconciler and the finalizer
  update as functions of these.
* `ClassController`: `class Controller` with the handlers, the reconciler and
  the finalizer manager as methods. Each method is proved to do what the
  function in `Handlers` or `Reconciler` says.
* `Safety`: properties of runs made of reconciles and cache refreshes.

The class lister's cache and the API server are two separate stores (`cache`
and `server`). The reconciler reads the cache. The finalizer update
refetches from the server and writes to it. A `Resync` step in `Safety` stands
for the informer copying the server's state into the cache.

## Model

| member | source | states |
|---|---|---|
| `Finalizers.Normalize` | pkg/controller/azuremachineclass.go:170 | `sets.NewString(fs...).List()` is ascending, duplicate-free and has exactly the members of `fs` |
| `Finalizers.Insert` | pkg/controller/azuremachineclass.go:171 | inserting into an ascending duplicate-free list keeps it so and adds exactly that member |
| `Finalizers.Remove` | pkg/controller/azuremachineclass.go:180 | deleting from an ascending duplicate-free list keeps it so and drops exactly that member |
| `Finalizers.WithToken` | pkg/controller/azuremachineclass.go:170-172 | the list the add path writes is ascending, duplicate-free, holds the token and keeps every other finalizer |
| `Finalizers.WithoutToken` | pkg/controller/azuremachineclass.go:179-181 | the list the delete path writes is ascending, duplicate-free, lacks the token and keeps every other finalizer |
| `Finalizers.SortedUnique` | pkg/controller/azuremachineclass.go:172 | two ascending duplicate-free lists with the same members are equal, so the lists above are what `List()` returns for those sets |
| `Finalizers.NormalizeCanonical` | pkg/controller/azuremachineclass.go:170 | building the set from a list already in `List()` form and listing it again gives the same list |
| `Finalizers.WithTokenIdempotent` | pkg/controller/azuremachineclass.go:167-174 | inserting the token twice gives the list inserting it once gives |
| `Finalizers.WithoutTokenIdempotent` | pkg/controller/azuremachineclass.go:176-183 | deleting the token twice gives the list deleting it once gives |
| `Finalizers.WithoutUndoesWith` | pkg/controller/azuremachineclass.go:167-183 | for a list without the token, adding and then removing it gives that list's own `List()` form |
| `Keys.SplitMetaNamespaceKey` | pkg/controller/azuremachineclass.go:92-95 | a key splits exactly when it has at most one slash; the parts are slash-free and rebuild the key; a malformed key yields a key-format error |
| `Keys.SplitMetaNamespaceKeyInverts` | pkg/controller/azuremachineclass.go:92 | a key built from a slash-free namespace and name splits back into them |
| `Objects.Referencing` | pkg/controller/azuremachineclass.go:129-146 | the dependents returned are exactly those whose class reference is (kind, name) |
| `Objects.MachineKeys` | pkg/controller/azuremachineclass.go:156-158 | one machine-queue key per machine found, in order: that machine's namespace key |
| `Handlers.DeletionHandlingKey` | pkg/controller/azuremachineclass.go:68-72 | a tombstone yields its key, an object yields its namespace key, and only payloads without metadata fail |
| `Handlers.MachineDeploymentDeleteKeys` | pkg/controller/azuremachineclass.go:37-45 | a non-nil machine deployment whose template references an `AzureMachineClass` enqueues exactly that class name; any other payload enqueues nothing |
| `Handlers.MachineSetDeleteKeys` | pkg/controller/azuremachineclass.go:47-55 | the same for machine sets |
| `Handlers.MachineDeleteKeys` | pkg/controller/azuremachineclass.go:57-65 | the same for machines |
| `Handlers.ClassAddKeys` | pkg/controller/azuremachineclass.go:67-74 | enqueues the payload's key, and nothing when no key can be computed |
| `Handlers.ClassUpdateKeys` | pkg/controller/azuremachineclass.go:76-87 | enqueues nothing unless the old payload is a non-nil class; then what the add handler enqueues for the new payload |
| `Handlers.UpdateDoesNotCheckNewPayload` | pkg/controller/azuremachineclass.go:81-86 | an update whose new payload is a machine enqueues that machine's key on the class queue |
| `Handlers.ClassKeySplitsBack` | pkg/controller/azuremachineclass.go:67-74 | the key enqueued for a class with slash-free namespace and name splits back into them |
| `Reconciler.AfterUpdate` | pkg/controller/azuremachineclass.go:185-200 | the stored class gets the new list exactly when it exists and some Update is accepted before any refetch fails; nothing else changes; keys stay consistent |
| `Reconciler.ReconcileClassSpec` | pkg/controller/azuremachineclass.go:111-160 | a conversion error is returned with nothing changed; an invalid class is left alone, with success; a failing machine lookup's error is returned; for a class being deleted that holds the token, a failing deployment lookup's error is returned, else a failing machine-set lookup's; a live class, or a deleting class without the token, gives success whatever the lookups the code does not make would have done; any error is a collaborator's error, unchanged, and with none of them the result is success; the stored finalizers change exactly as `WritesFinalizers` says; machines are re-enqueued exactly as `RequeuesMachines` says; cache, dependents and class queue are untouched |
| `Reconciler.ReconcileKeySpec` | pkg/controller/azuremachineclass.go:91-109 | a malformed key and a lister error are returned with nothing changed; a class missing from the cache gives success with nothing changed; otherwise the class stored under the controller's namespace and the key's name is reconciled |
| `ClassController.Controller.MachineDeploymentToClassDelete` | pkg/controller/azuremachineclass.go:37-45 | the class queue grows by `MachineDeploymentDeleteKeys(obj)` and nothing else changes |
| `ClassController.Controller.MachineSetToClassDelete` | pkg/controller/azuremachineclass.go:47-55 | the class queue grows by `MachineSetDeleteKeys(obj)` and nothing else changes |
| `ClassController.Controller.MachineToClassDelete` | pkg/controller/azuremachineclass.go:57-65 | the class queue grows by `MachineDeleteKeys(obj)` and nothing else changes |
| `ClassController.Controller.ClassAdd` | pkg/controller/azuremachineclass.go:67-74 | the class queue grows by `ClassAddKeys(obj)` and nothing else changes |
| `ClassController.Controller.ClassUpdate` | pkg/controller/azuremachineclass.go:76-87 | the class queue grows by `ClassUpdateKeys(oldObj, newObj)` and nothing else changes |
| `ClassController.Controller.ReconcileKey` | pkg/controller/azuremachineclass.go:91-109 | the error returned and the new state are those `ReconcileKeySpec` gives for the old state |
| `ClassController.Controller.ReconcileClass` | pkg/controller/azuremachineclass.go:111-160 | the error returned and the new state are those `ReconcileClassSpec` gives for the old state |
| `ClassController.Controller.AddMachines` | pkg/controller/azuremachineclass.go:156-158 | the machine queue grows by the keys of all machines found, in their order, and nothing else changes |
| `ClassController.Controller.AddMachine` | pkg/controller/azuremachineclass.go:157 | the machine queue grows by the machine's namespace key |
| `ClassController.Controller.AddFinalizers` | pkg/controller/azuremachineclass.go:167-174 | no write when the class already holds the token; otherwise the server becomes `AfterUpdate` of the caller's list with the token inserted |
| `ClassController.Controller.DeleteFinalizers` | pkg/controller/azuremachineclass.go:176-183 | no write when the class lacks the token; otherwise the server becomes `AfterUpdate` of the caller's list with the token deleted |
| `ClassController.Controller.UpdateFinalizers` | pkg/controller/azuremachineclass.go:185-200 | the server becomes `AfterUpdate(old server, key, finalizers, attempts)`; the retry loop keeps refetching the same key |
| `Safety.ReconcileKeepsReferencedToken` | pkg/controller/azuremachineclass.go:134-153 | one reconcile of any key never removes the token from a class that the dependency listers show a machine, machine set or deployment referencing, whatever the class cache and the collaborators do |
| `Safety.RunKeepsReferencedToken` | pkg/controller/azuremachineclass.go:134-153 | the same over any run of reconciles and cache refreshes |
| `Safety.ReconcileLeavesBlockedClass` | pkg/controller/azuremachineclass.go:134-153 | a class that the dependency listers show referenced, and whose deletion is requested in both the server and the cache, keeps its stored entry through a reconcile |
| `Safety.RunLeavesBlockedClass` | pkg/controller/azuremachineclass.go:134-153 | the same whatever the number of reconciles and refreshes |
| `Safety.ReconcileKeepsForeignFinalizers` | pkg/controller/azuremachineclass.go:167-183 | with the cache up to date, a reconcile adds or drops no finalizer other than the token |
| `Safety.StaleCacheDropsForeignFinalizer` | pkg/controller/azuremachineclass.go:167-193 | a finalizer present on the server but not in the cached copy is overwritten by the add path's write |
| `Safety.AddedTokenOnce` | pkg/controller/azuremachineclass.go:125-127 | a valid live class without the token gets it, sorted and keeping its other finalizers, on a successful reconcile; after a refresh the next reconcile writes nothing |
| `Safety.UnblockedDeletionRemovesTokenOnce` | pkg/controller/azuremachineclass.go:134-150 | a class with its deletion requested, holding the token and referenced by nothing, loses exactly the token on a successful reconcile; after a refresh the next reconcile writes nothing |
| `Safety.AddThenRemoveRoundTrip` | pkg/controller/azuremachineclass.go:167-183 | adding the token, then requesting deletion with no dependents and reconciling, leaves the class's original finalizers in `List()` form |
| `Safety.ReconcileIgnoresKeyNamespace` | pkg/controller/azuremachineclass.go:92-97 | reconciling `ns1/name` and `ns2/name` gives the same result |
| `Safety.EnqueuedKeyReconcilesThatClass` | pkg/controller/azuremachineclass.go:67-108 | the key a class's add notification enqueues leads the reconciler to that class when it lives in the controller's namespace |
| `Safety.Lifecycle` | pkg/controller/azuremachineclass.go:111-160 | created, a class gets `[token]`; with its deletion requested while a machine uses it, it keeps `[token]`; after the machine's delete notification requeues it, it ends with `[]` |

## Where the code departs from the usual finalizer-manager design

The model follows the code.

* A finalizer manager would normally compute the new set from the copy it
  has just refetched. This code computes it from the caller's copy (lines
  168-172 and 177-181) and writes it into the refetched one (line 193).
  `Safety.StaleCacheDropsForeignFinalizer` shows the consequence: a
  finalizer that is on the server but missing from the cache is dropped.
* Update errors would normally reach the caller, so that the work queue
  retries with backoff. Here the finalizer helpers return nothing (lines
  126, 148 and 185). A failed refetch returns silently (lines 187-190). So
  whether a write went through never shows in the reconcile's result:
  `ReconcileClassSpec` returns success with no collaborator fault whatever
  the attempts were.
* A retry would normally be bounded. This code retries without bound, by
  recursion (line 198).
* The update handler's second type check tests the old payload again (line
  81). So the new payload's type is never checked
  (`Handlers.UpdateDoesNotCheckNewPayload`).
* A dependent's delete notification can arrive as a `cache.DeletedFinalStateUnknown` tombstone. A controller would normally unwrap it and requeue the class it references. The three dependent handlers fail their type assertion on a tombstone and return (lines 38-40, 48-50 and 58-60). So the deletion of the last dependent may never requeue the class, and the class stays blocked until some other event requeues it. `Handlers.MachineDeleteKeys` and its two siblings give `[]` for a tombstone.
* The reconciler drops the key's namespace and looks the class up in the
  controller's own namespace (lines 92 and 97).

## Left out

- Kubernetes client and lister calls: modelled as reads and writes of the two maps `cache` and `server`. Resource versions and the server's conflict detection are not modelled. A rejected `Update` is just an `UpdateRejected` attempt.
- Reconciler.AfterUpdate: the unbounded retry of line 198 runs for as many rounds as the `attempts` list holds, and it stops when the list runs out. Termination depends on the server, so the model states no termination property of the real retry.
- A failed refetch (lines 187-190) is only "no write happens". NotFound is an absent key; any other error is a `GetFails` attempt.
- `api.Scheme.Convert` is an optional fault in `Env`. `validation.ValidateAzureMachineClass` is the class's `valid` field, a fixed function of the object.
- `cache.DeletionHandlingMetaNamespaceKeyFunc` and `cache.SplitMetaNamespaceKey` belong to client-go and are not part of this model's source. They are modelled on client-go's key format (`namespace/name`, or `name` for an empty namespace). A typed nil pointer gets a key error, where Go would dereference it.
- `findMachinesForClass`, `findMachineSetsForClass`, `findMachineDeploymentsForClass` and `addMachine` are defined in other files, which are not part of this model. The find functions are filters over the listers' contents with an optional fault. `addMachine` enqueues the machine's namespace key.
- The value of `DeleteFinalizerName` is declared in another file, which is not part of this model. Nothing depends on its value.
- Work-queue deduplication, dirty bits, rate limiting, parallel workers and informer caching: the queues are the sequence of keys passed to `Add`. The informer appears only as the `Resync` step of runs in `Safety`.
- Other changes to the dependency listers during a run: `Safety` runs keep them fixed. `Safety.Lifecycle` changes them explicitly between runs.
- `glog` logging.
- The API server's removal of a class whose deletion is requested once its finalizer list is empty: `server` keeps such a class, with an empty list. So the final `k in w5.server` of `Safety.Lifecycle` is a feature of the model. The next reconcile writes nothing either way. In the model it returns success unless the conversion (line 113) or the machine lookup (line 129) fails, in which case it returns that error. The real class is gone, so the real reconcile returns success at line 99 in every case.
- Go compares strings byte by byte. The model compares characters (Unicode code points), which gives the same order as comparing their UTF-8 bytes.
