/** What the finalizer protocol guarantees over runs of the controller:
    reconciles of any keys, interleaved with the informer refreshing the
    lister cache from the API server. */
module Safety {
  import opened Results
  import opened Keys
  import opened Finalizers
  import opened Objects
  import opened Handlers
  import opened Reconciler

  /** A step of a run: one reconcile, or the cache catching up with the server. */
  datatype Event = Reconcile(key: string, env: Env) | Resync

  function Step(w: World, e: Event): (w': World)
    ensures w'.namespace == w.namespace && w'.index == w.index
  {
    match e
    case Reconcile(key, env) => ReconcileKeySpec(w, key, env).1
    case Resync => w.(cache := w.server)
  }

  function Run(w: World, es: seq<Event>): World
    decreases |es|
  {
    if es == [] then w else Run(Step(w, es[0]), es[1..])
  }

  lemma RunTwo(w: World, a: Event, b: Event)
    ensures Run(w, [a, b]) == Step(Step(w, a), b)
  {
    assert [a, b][1..] == [b];
    assert [b][1..] == [];
    assert Run(w, [a, b]) == Run(Step(w, a), [b]);
    assert Run(Step(w, a), [b]) == Run(Step(Step(w, a), b), []);
  }

  /** Reconciling never strips the token from a class that something still
      references, whatever the cache holds and whatever the collaborators do. */
  lemma ReconcileKeepsReferencedToken(w: World, key: string, env: Env, k: ObjectKey)
    requires k in w.server && DeleteFinalizerName in w.server[k].finalizers
    requires Referenced(w.index, k.name)
    ensures k in Step(w, Reconcile(key, env)).server
    ensures DeleteFinalizerName in Step(w, Reconcile(key, env)).server[k].finalizers
  {
  }

  /** Nor does any run of reconciles and cache refreshes. */
  lemma {:induction false} RunKeepsReferencedToken(w: World, es: seq<Event>, k: ObjectKey)
    requires k in w.server && DeleteFinalizerName in w.server[k].finalizers
    requires Referenced(w.index, k.name)
    ensures k in Run(w, es).server && DeleteFinalizerName in Run(w, es).server[k].finalizers
    decreases |es|
  {
    if es != [] {
      if es[0].Reconcile? {
        ReconcileKeepsReferencedToken(w, es[0].key, es[0].env, k);
      }
      RunKeepsReferencedToken(Step(w, es[0]), es[1..], k);
    }
  }

  /** A step keeps both stores keyed by their objects' own namespace and name. */
  lemma StepKeepsWellKeyed(w: World, e: Event)
    requires WellKeyed(w.cache) && WellKeyed(w.server)
    ensures WellKeyed(Step(w, e).cache) && WellKeyed(Step(w, e).server)
  {
  }

  /** A class whose deletion is requested, as the cache sees it too, and that
      something references, keeps its stored entry as it is through a reconcile. */
  lemma ReconcileLeavesBlockedClass(w: World, key: string, env: Env, k: ObjectKey)
    requires WellKeyed(w.cache)
    requires k in w.server && w.server[k].deletionTimestamp.Some?
    requires k in w.cache ==> w.cache[k].deletionTimestamp.Some?
    requires Referenced(w.index, k.name)
    ensures k in Step(w, Reconcile(key, env)).server
    ensures Step(w, Reconcile(key, env)).server[k] == w.server[k]
  {
    var split := SplitMetaNamespaceKey(key);
    if split.Ok? && env.listerFault.None? {
      var k' := ObjectKey(w.namespace, split.value.1);
      if k' in w.cache {
        var cls := w.cache[k'];
        assert cls.Key() == k';
      }
    }
  }

  /** So its finalizers stay as they are whatever the number of reconciles. */
  lemma {:induction false} RunLeavesBlockedClass(w: World, es: seq<Event>, k: ObjectKey)
    requires WellKeyed(w.cache) && WellKeyed(w.server)
    requires k in w.server && w.server[k].deletionTimestamp.Some?
    requires k in w.cache ==> w.cache[k].deletionTimestamp.Some?
    requires Referenced(w.index, k.name)
    ensures k in Run(w, es).server && Run(w, es).server[k] == w.server[k]
    decreases |es|
  {
    if es != [] {
      var w1 := Step(w, es[0]);
      StepKeepsWellKeyed(w, es[0]);
      if es[0].Reconcile? {
        ReconcileLeavesBlockedClass(w, es[0].key, es[0].env, k);
      }
      RunLeavesBlockedClass(w1, es[1..], k);
    }
  }

  /** With the cache up to date, a reconcile changes no finalizer but the
      token: a token it does not own is neither added nor dropped. */
  lemma ReconcileKeepsForeignFinalizers(w: World, key: string, env: Env)
    requires w.cache == w.server && WellKeyed(w.server)
    ensures forall k, f :: k in w.server && f != DeleteFinalizerName ==>
              k in Step(w, Reconcile(key, env)).server &&
              (f in Step(w, Reconcile(key, env)).server[k].finalizers <==> f in w.server[k].finalizers)
  {
    var split := SplitMetaNamespaceKey(key);
    if split.Ok? && env.listerFault.None? && ObjectKey(w.namespace, split.value.1) in w.cache {
      var k' := ObjectKey(w.namespace, split.value.1);
      var cls := w.cache[k'];
      assert cls.Key() == k';
      var r := ReconcileClassSpec(w, cls, env);
      assert Step(w, Reconcile(key, env)) == r.1;
      forall k, f | k in w.server && f != DeleteFinalizerName
        ensures k in r.1.server && (f in r.1.server[k].finalizers <==> f in w.server[k].finalizers)
      {
        if k == k' && WritesFinalizers(w, cls, env) {
          assert r.1.server[k].finalizers == NewFinalizers(cls);
          assert cls.finalizers == w.server[k].finalizers;
        }
      }
    } else {
      assert Step(w, Reconcile(key, env)) == w;
    }
  }

  /** The new list is computed from the cached copy, not from the refetched
      one, so a finalizer another actor added since the cache was filled is
      dropped by the write. */
  lemma StaleCacheDropsForeignFinalizer()
    ensures
      var k := ObjectKey("", "c");
      var cached := AzureMachineClass("", "c", [], None, true);
      var w := World("", map[k := cached], map[k := cached.(finalizers := ["other"])], Index([], [], []), [], []);
      var w' := Step(w, Reconcile("c", Env(None, None, None, None, None, [UpdateAccepted])));
      k in w'.server && w'.server[k].finalizers == [DeleteFinalizerName]
  {
    SplitOfName("c");
    GoesThroughStep([UpdateAccepted]);
    assert WithToken([]) == [DeleteFinalizerName];
  }

  /** A class marked for deletion, holding the token and referenced by
      nothing loses the token on one successful reconcile, keeping its other
      finalizers; once the cache has caught up, reconciling it again writes
      nothing. */
  lemma UnblockedDeletionRemovesTokenOnce(w: World, key: string, e1: Env, e2: Env)
    requires w.cache == w.server && WellKeyed(w.server)
    requires SplitMetaNamespaceKey(key).Ok?
    requires ObjectKey(w.namespace, SplitMetaNamespaceKey(key).value.1) in w.cache
    requires var cls := w.cache[ObjectKey(w.namespace, SplitMetaNamespaceKey(key).value.1)];
             cls.deletionTimestamp.Some? && cls.valid && DeleteFinalizerName in cls.finalizers &&
             !Referenced(w.index, cls.name)
    requires NoFaults(e1) && GoesThrough(e1.attempts)
    ensures var k := ObjectKey(w.namespace, SplitMetaNamespaceKey(key).value.1);
            var w1 := Step(w, Reconcile(key, e1));
            && k in w1.server
            && w1.server[k].finalizers == WithoutToken(w.server[k].finalizers)
            && Run(w1, [Resync, Reconcile(key, e2)]).server == w1.server
  {
    var k := ObjectKey(w.namespace, SplitMetaNamespaceKey(key).value.1);
    assert w.cache[k].Key() == k;
    var w1 := Step(w, Reconcile(key, e1));
    var w2 := Step(w1, Resync);
    assert w2.cache[k].finalizers == WithoutToken(w.server[k].finalizers);
    RunTwo(w1, Resync, Reconcile(key, e2));
  }

  /** A valid class not marked for deletion and lacking the token gets it on
      one successful reconcile, as an ascending duplicate-free list that keeps
      its other finalizers; once the cache has caught up, reconciling it
      again writes nothing. */
  lemma AddedTokenOnce(w: World, key: string, e1: Env, e2: Env)
    requires w.cache == w.server && WellKeyed(w.server)
    requires SplitMetaNamespaceKey(key).Ok?
    requires ObjectKey(w.namespace, SplitMetaNamespaceKey(key).value.1) in w.cache
    requires var cls := w.cache[ObjectKey(w.namespace, SplitMetaNamespaceKey(key).value.1)];
             cls.deletionTimestamp.None? && cls.valid && DeleteFinalizerName !in cls.finalizers
    requires e1.convertFault.None? && e1.listerFault.None? && GoesThrough(e1.attempts)
    ensures var k := ObjectKey(w.namespace, SplitMetaNamespaceKey(key).value.1);
            var w1 := Step(w, Reconcile(key, e1));
            && k in w1.server
            && DeleteFinalizerName in w1.server[k].finalizers
            && StrictlySorted(w1.server[k].finalizers)
            && (forall f :: f != DeleteFinalizerName ==> (f in w1.server[k].finalizers <==> f in w.server[k].finalizers))
            && Run(w1, [Resync, Reconcile(key, e2)]).server == w1.server
  {
    var k := ObjectKey(w.namespace, SplitMetaNamespaceKey(key).value.1);
    assert w.cache[k].Key() == k;
    var w1 := Step(w, Reconcile(key, e1));
    assert w1.server[k].finalizers == WithToken(w.server[k].finalizers);
    var w2 := Step(w1, Resync);
    assert w2.cache[k].finalizers == WithToken(w.server[k].finalizers);
    RunTwo(w1, Resync, Reconcile(key, e2));
  }

  /** The queue key is only used for its name: reconciling "ns1/name" and
      "ns2/name" does the same thing. */
  lemma ReconcileIgnoresKeyNamespace(w: World, ns1: string, ns2: string, name: string, env: Env)
    requires '/' !in ns1 && '/' !in ns2 && '/' !in name
    ensures ReconcileKeySpec(w, MetaNamespaceKey(ns1, name), env) == ReconcileKeySpec(w, MetaNamespaceKey(ns2, name), env)
  {
    SplitMetaNamespaceKeyInverts(ns1, name);
    SplitMetaNamespaceKeyInverts(ns2, name);
  }

  /** The key a class's add notification enqueues leads the reconciler back
      to that class when it lives in the controller's namespace. */
  lemma EnqueuedKeyReconcilesThatClass(w: World, c: AzureMachineClass, env: Env)
    requires '/' !in c.namespace && '/' !in c.name
    requires c.namespace == w.namespace && c.Key() in w.cache && env.listerFault.None?
    ensures ClassAddKeys(ClassObj(c)) != []
    ensures ReconcileKeySpec(w, ClassAddKeys(ClassObj(c))[0], env) == ReconcileClassSpec(w, w.cache[c.Key()], env)
  {
    ClassKeySplitsBack(c);
  }

  /** The lifecycle of one class: created, it gets the token; marked for
      deletion while a machine uses it, it keeps the token; once the machine
      is deleted, the notification of that requeues the class and the next
      reconcile removes the token. */
  lemma Lifecycle()
    ensures
      var k := ObjectKey("", "c");
      var m := Dependent("", "m", ClassSpec(AzureMachineClassKind, "c"));
      var ok := Env(None, None, None, None, None, [UpdateAccepted]);
      var w0 := World("", map[k := AzureMachineClass("", "c", [], None, true)],
                      map[k := AzureMachineClass("", "c", [], None, true)], Index([], [], []), [], []);
      var w1 := Step(w0, Reconcile("c", ok));
      var w2 := w1.(server := w1.server[k := w1.server[k].(deletionTimestamp := Some(1))], index := Index([m], [], []));
      var w3 := Run(w2, [Resync, Reconcile("c", ok)]);
      var w4 := w3.(index := Index([], [], []), classQueue := w3.classQueue + MachineDeleteKeys(MachineObj(m)));
      var w5 := Run(w4, [Resync, Reconcile(w4.classQueue[|w4.classQueue| - 1], ok)]);
      && k in w1.server && w1.server[k].finalizers == [DeleteFinalizerName]
      && k in w3.server && w3.server[k].finalizers == [DeleteFinalizerName]
      && k in w5.server && w5.server[k].finalizers == []
  {
    var k := ObjectKey("", "c");
    var m := Dependent("", "m", ClassSpec(AzureMachineClassKind, "c"));
    var ok := Env(None, None, None, None, None, [UpdateAccepted]);
    SplitOfName("c");
    GoesThroughStep([UpdateAccepted]);
    assert WithToken([]) == [DeleteFinalizerName];
    assert [DeleteFinalizerName][..0] == [] && [DeleteFinalizerName][1..] == [];
    assert Normalize([DeleteFinalizerName]) == [DeleteFinalizerName];
    assert Remove([], DeleteFinalizerName) == [];
    assert Remove([DeleteFinalizerName], DeleteFinalizerName) == [];
    assert WithoutToken([DeleteFinalizerName]) == [];
    var c := AzureMachineClass("", "c", [], None, true);
    var w0 := World("", map[k := c], map[k := c], Index([], [], []), [], []);
    var w1 := Step(w0, Reconcile("c", ok));
    assert w1.server[k].finalizers == [DeleteFinalizerName];
    var w2 := w1.(server := w1.server[k := w1.server[k].(deletionTimestamp := Some(1))], index := Index([m], [], []));
    assert Referenced(w2.index, "c");
    var w2' := Step(w2, Resync);
    var w3 := Step(w2', Reconcile("c", ok));
    RunTwo(w2, Resync, Reconcile("c", ok));
    assert w3.server == w2.server;
    var w4 := w3.(index := Index([], [], []), classQueue := w3.classQueue + MachineDeleteKeys(MachineObj(m)));
    assert MachineDeleteKeys(MachineObj(m)) == ["c"];
    assert w4.classQueue[|w4.classQueue| - 1] == "c";
    var w4' := Step(w4, Resync);
    var w5 := Step(w4', Reconcile("c", ok));
    RunTwo(w4, Resync, Reconcile("c", ok));
    assert w5.server[k].finalizers == [];
  }

  /** Adding the token and then removing it, with nothing referencing the
      class, leaves the finalizers it started with, as `List()` emits them. */
  lemma AddThenRemoveRoundTrip(w: World, key: string, e1: Env, e2: Env)
    requires w.cache == w.server && WellKeyed(w.server)
    requires SplitMetaNamespaceKey(key).Ok?
    requires ObjectKey(w.namespace, SplitMetaNamespaceKey(key).value.1) in w.cache
    requires var cls := w.cache[ObjectKey(w.namespace, SplitMetaNamespaceKey(key).value.1)];
             cls.deletionTimestamp.None? && cls.valid && DeleteFinalizerName !in cls.finalizers &&
             !Referenced(w.index, cls.name)
    requires NoFaults(e1) && GoesThrough(e1.attempts) && NoFaults(e2) && GoesThrough(e2.attempts)
    ensures var k := ObjectKey(w.namespace, SplitMetaNamespaceKey(key).value.1);
            var w1 := Step(w, Reconcile(key, e1));
            var w2 := Step(w1, Resync);
            var w3 := w2.(server := w2.server[k := w2.server[k].(deletionTimestamp := Some(0))]);
            var w4 := Run(w3, [Resync, Reconcile(key, e2)]);
            k in w4.server && w4.server[k].finalizers == Normalize(w.server[k].finalizers)
  {
    var k := ObjectKey(w.namespace, SplitMetaNamespaceKey(key).value.1);
    assert w.cache[k].Key() == k;
    var w1 := Step(w, Reconcile(key, e1));
    var w2 := Step(w1, Resync);
    var w3 := w2.(server := w2.server[k := w2.server[k].(deletionTimestamp := Some(0))]);
    var w3' := Step(w3, Resync);
    assert w3'.cache[k].finalizers == WithToken(w.server[k].finalizers);
    assert w3'.cache[k].Key() == k;
    var w4 := Step(w3', Reconcile(key, e2));
    RunTwo(w3, Resync, Reconcile(key, e2));
    WithoutUndoesWith(w.server[k].finalizers);
  }
}
