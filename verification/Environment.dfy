/**
  Everything else that happens to the cluster: users, the Job controller and garbage
  collection. They may do as they please with their own objects; what the operator made
  is touched only by the Job controller and the garbage collector.
 */
module Environment {
  import opened Api
  import opened JobController
  import opened JobTemplate
  import opened Cluster
  import opened Plan
  import opened Protocol
  import opened Invariants

  datatype Action =
    | CreateMustGather(key: Key, spec: Spec, finalizers: seq<Finalizer>)
    | MarkDeleted(key: Key)
    | EditFinalizers(key: Key, finalizers: seq<Finalizer>)
    | EditSpec(key: Key, spec: Spec)
    | AdvanceJob(key: Key, status: JobStatus)
    | StartPod(name: string, job: Key)
    | AddJob(key: Key, owners: seq<OwnerRef>, backoffLimit: Option<nat>, template: PodTemplate)
    | RemoveJob(key: Key)
    | AddPod(pod: Pod)
    | RemovePod(pod: Pod)
    | CollectJob(key: Key)
    | CollectOwners(key: Key)
    | PutConfigMap(key: Key, configMap: ConfigMap)
    | RemoveConfigMap(key: Key)
    | SetInputs(secrets: map<Key, map<string, string>>, serviceAccounts: map<Key, ()>, imageStreams: map<Key, seq<Tag>>)

  // ---------- garbage collection ----------

  predicate Alive(c: Cluster, uid: Uid) {
    exists k | k in c.mustGathers :: c.mustGathers[k].uid == uid
  }

  /** A reference to a resource that is gone. Other kinds of owners are not modelled and count as alive. */
  predicate Dangling(c: Cluster, r: OwnerRef) {
    r.kind == MUST_GATHER_KIND && !Alive(c, r.uid)
  }

  function LiveOwners(c: Cluster, owners: seq<OwnerRef>): (live: seq<OwnerRef>)
    ensures forall r :: r in live <==> r in owners && !Dangling(c, r)
  {
    if owners == [] then []
    else
      var front := LiveOwners(c, owners[..|owners| - 1]);
      if Dangling(c, owners[|owners| - 1]) then front else front + [owners[|owners| - 1]]
  }

  // ---------- when, and what ----------

  /** The place of a trusted CA copy, which belongs to the operator once it is there. */
  predicate IsCaCopy(cfg: Config, key: Key) {
    NeedsCa(cfg, key.ns) && key.name == cfg.trustedCa
  }

  ghost predicate Allowed(cfg: Config, c: Cluster, a: Action) {
    match a
    case CreateMustGather(key, spec, _) => key !in c.mustGathers && Admitted(spec)
    case MarkDeleted(key) => key in c.mustGathers && !c.mustGathers[key].deleting
    case EditFinalizers(key, finalizers) =>
      && key in c.mustGathers
      && (Held(c, key) ==> OperatorFinalizer in finalizers)
      && (c.mustGathers[key].deleting ==> forall f | f in finalizers :: f in c.mustGathers[key].finalizers)
    case EditSpec(key, _) => key in c.mustGathers
    case AdvanceJob(key, status) =>
      && key in c.jobs
      && (c.jobs[key].origin.ByOperator? ==>
            c.jobs[key].backoffLimit.Some? && JobStep(c.jobs[key].status, status, c.jobs[key].backoffLimit.value))
    case StartPod(_, job) => job in c.jobs
    case AddJob(key, _, _, _) => key !in c.jobs
    case RemoveJob(key) => key in c.jobs && c.jobs[key].origin.ByOthers?
    case AddPod(p) => p.origin.ByOthers?
    case RemovePod(_) => true
    case CollectJob(key) => key in c.jobs && c.jobs[key].owners != [] && LiveOwners(c, c.jobs[key].owners) == []
    case CollectOwners(key) => key in c.configMaps && LiveOwners(c, c.configMaps[key].owners) != c.configMaps[key].owners
    case PutConfigMap(key, _) => IsCaCopy(cfg, key) ==> key !in c.configMaps
    case RemoveConfigMap(key) => !IsCaCopy(cfg, key)
    case SetInputs(_, _, _) => true
  }

  /** A resource without finalizers goes at once; any other stays, marked, with a new generation. */
  function Marked(c: Cluster, key: Key): Cluster {
    if key !in c.mustGathers then c
    else if c.mustGathers[key].finalizers == [] then c.(mustGathers := c.mustGathers - {key})
    else
      var mg := c.mustGathers[key];
      c.(mustGathers := c.mustGathers[key := mg.(deleting := true, generation := mg.generation + 1)])
  }

  /** The CRD rule on updates: what is stored has a spec, so the new spec must be equal to it. */
  predicate UpdateAdmitted(before: Spec, after: Spec) {
    after == before && Admitted(after)
  }

  /** A user asks for another spec; the API server refuses what it does not admit. */
  function Edited(c: Cluster, key: Key, spec: Spec): Cluster {
    if key !in c.mustGathers || !UpdateAdmitted(c.mustGathers[key].spec, spec) then c
    else c.(mustGathers := c.mustGathers[key := c.mustGathers[key].(spec := spec)])
  }

  lemma EditingChangesNothing(c: Cluster, key: Key, spec: Spec)
    ensures Edited(c, key, spec) == c
  {
  }

  function Perform(c: Cluster, a: Action): Cluster {
    match a
    case CreateMustGather(key, spec, finalizers) =>
      c.(mustGathers := c.mustGathers[key := MustGather(c.nextUid, 1, false, finalizers, spec, None)], nextUid := c.nextUid + 1)
    case MarkDeleted(key) => Marked(c, key)
    case EditFinalizers(key, finalizers) => if key !in c.mustGathers then c else StoreFinalizers(c, key, finalizers)
    case EditSpec(key, spec) => Edited(c, key, spec)
    case AdvanceJob(key, status) => if key !in c.jobs then c else c.(jobs := c.jobs[key := c.jobs[key].(status := status)])
    case StartPod(name, job) =>
      if job !in c.jobs then c
      else c.(pods := c.pods + [Pod(Key(job.ns, name), c.jobs[job].origin, job.name, Some(c.jobs[job].uid))])
    case AddJob(key, owners, backoffLimit, pod) =>
      c.(jobs := c.jobs[key := Job(c.nextUid, ByOthers, owners, backoffLimit, pod, FRESH)], nextUid := c.nextUid + 1)
    case RemoveJob(key) => c.(jobs := c.jobs - {key})
    case AddPod(p) => c.(pods := c.pods + [p])
    case RemovePod(p) => c.(pods := WithoutPod(c.pods, p))
    case CollectJob(key) =>
      c.(jobs := c.jobs - {key}, collected := c.collected + if key in c.jobs && c.jobs[key].origin.ByOperator? then 1 else 0)
    case CollectOwners(key) =>
      if key !in c.configMaps then c
      else
        var live := LiveOwners(c, c.configMaps[key].owners);
        if live == [] then c.(configMaps := c.configMaps - {key})
        else c.(configMaps := c.configMaps[key := c.configMaps[key].(owners := live)])
    case PutConfigMap(key, configMap) => c.(configMaps := c.configMaps[key := configMap])
    case RemoveConfigMap(key) => c.(configMaps := c.configMaps - {key})
    case SetInputs(secrets, serviceAccounts, imageStreams) =>
      c.(secrets := secrets, serviceAccounts := serviceAccounts, imageStreams := imageStreams)
  }

  // ---------- what each kind of action leaves alone ----------

  predicate OnResources(a: Action) {
    a.CreateMustGather? || a.MarkDeleted? || a.EditFinalizers?
  }

  predicate OnJobs(a: Action) {
    a.AdvanceJob? || a.AddJob? || a.RemoveJob? || a.CollectJob?
  }

  predicate OnPods(a: Action) {
    a.StartPod? || a.AddPod? || a.RemovePod?
  }

  predicate OnConfigMaps(a: Action) {
    a.CollectOwners? || a.PutConfigMap? || a.RemoveConfigMap?
  }

  lemma ResourceActionFrame(c: Cluster, a: Action)
    requires OnResources(a)
    ensures var c' := Perform(c, a); c' == c.(mustGathers := c'.mustGathers, nextUid := c'.nextUid) && c.nextUid <= c'.nextUid
  {
    if a.MarkDeleted? {
      MarkedFrame(c, a.key);
    } else if a.EditFinalizers? && a.key in c.mustGathers {
      FinalizersChange(c, a.key, a.finalizers);
    }
  }

  lemma MarkedFrame(c: Cluster, key: Key)
    ensures Marked(c, key) == c.(mustGathers := Marked(c, key).mustGathers)
    ensures key in c.mustGathers ==> OnlyResourceChanges(c, Marked(c, key), key)
    ensures key in c.mustGathers && key in Marked(c, key).mustGathers ==>
              Marked(c, key).mustGathers[key].generation == c.mustGathers[key].generation + 1 && Marked(c, key).mustGathers[key].deleting
              && Marked(c, key).mustGathers[key].finalizers == c.mustGathers[key].finalizers
              && Marked(c, key).mustGathers[key].status == c.mustGathers[key].status
  {
  }

  lemma JobActionFrame(c: Cluster, a: Action)
    requires OnJobs(a)
    ensures var c' := Perform(c, a);
            c' == c.(jobs := c'.jobs, nextUid := c'.nextUid, collected := c'.collected) && c.nextUid <= c'.nextUid
  {
  }

  lemma PodActionFrame(c: Cluster, a: Action)
    requires OnPods(a)
    ensures var c' := Perform(c, a); c' == c.(pods := c'.pods)
  {
  }

  lemma ConfigMapActionFrame(c: Cluster, a: Action)
    requires OnConfigMaps(a)
    ensures var c' := Perform(c, a); c' == c.(configMaps := c'.configMaps)
  {
  }

  lemma ActionFrame(c: Cluster, a: Action)
    ensures var c' := Perform(c, a);
            && (!OnResources(a) ==> c'.mustGathers == c.mustGathers)
            && (!OnJobs(a) ==> c'.jobs == c.jobs && c'.collected == c.collected)
            && c.nextUid <= c'.nextUid && c'.gathers == c.gathers && c'.errors == c.errors && c'.cleaned == c.cleaned
  {
    if OnResources(a) {
      ResourceActionFrame(c, a);
    } else if OnJobs(a) {
      JobActionFrame(c, a);
    } else if OnPods(a) {
      PodActionFrame(c, a);
    } else if OnConfigMaps(a) {
      ConfigMapActionFrame(c, a);
    } else if a.EditSpec? {
      EditingChangesNothing(c, a.key, a.spec);
    } else {
      assert a.SetInputs?;
    }
  }

  // ---------- the invariants survive ----------

  lemma CreationPreserves(cfg: Config, c: Cluster, key: Key, spec: Spec, finalizers: seq<Finalizer>)
    requires Inv(cfg, c) && key !in c.mustGathers
    ensures Inv(cfg, Perform(c, CreateMustGather(key, spec, finalizers)))
  {
    var c' := Perform(c, CreateMustGather(key, spec, finalizers));
    forall k | k in c'.jobs && c'.jobs[k].origin.ByOperator? ensures OperatorJobInv(c', k) {
      assert OperatorJobInv(c, k);
    }
    assert forall p | p in c.pods && PodHasJob(c, p) :: PodHasJob(c', p);
    forall k | k in c'.mustGathers && MadeFor(c', k, c'.mustGathers[k].uid) && NeedsCa(cfg, k.ns)
      ensures HoldsCa(cfg, c', k.ns, c'.mustGathers[k].uid)
    {
      assert OperatorJobInv(c, k);
    }
  }

  lemma MarkingPreserves(cfg: Config, c: Cluster, key: Key)
    requires Inv(cfg, c) && key in c.mustGathers
    ensures Inv(cfg, Marked(c, key))
  {
    if MadeFor(c, key, c.mustGathers[key].uid) {
      assert OperatorJobInv(c, key);
    }
    MarkedFrame(c, key);
    ResourceChangePreserves(cfg, c, Marked(c, key), key);
  }

  lemma ResourceActionPreserves(cfg: Config, c: Cluster, a: Action)
    requires Inv(cfg, c) && Allowed(cfg, c, a) && OnResources(a)
    ensures Inv(cfg, Perform(c, a))
  {
    match a
    case CreateMustGather(key, spec, finalizers) => CreationPreserves(cfg, c, key, spec, finalizers);
    case MarkDeleted(key) => MarkingPreserves(cfg, c, key);
    case EditFinalizers(key, finalizers) =>
      FinalizersChange(c, key, finalizers);
      if MadeFor(c, key, c.mustGathers[key].uid) {
        assert OperatorJobInv(c, key);
      }
      ResourceChangePreserves(cfg, c, Perform(c, a), key);
  }

  /** A Job may go if it is not the operator's, or belongs to a resource that retains. */
  lemma JobRemovalPreserves(cfg: Config, c: Cluster, c': Cluster, key: Key)
    requires Inv(cfg, c) && key in c.jobs && (c.jobs[key].origin.ByOperator? ==> c.jobs[key].origin.retain)
    requires c' == c.(jobs := c.jobs - {key}, collected := c'.collected)
    ensures Inv(cfg, c')
  {
    forall k | k in c'.jobs && c'.jobs[k].origin.ByOperator? ensures OperatorJobInv(c', k) {
      assert OperatorJobInv(c, k);
    }
    forall p | p in c'.pods && p.origin.ByOperator? && !p.origin.retain ensures PodHasJob(c', p) {
      assert PodHasJob(c, p);
    }
    assert forall k | k in c.mustGathers && MadeFor(c', k, c.mustGathers[k].uid) :: MadeFor(c, k, c.mustGathers[k].uid);
  }

  lemma JobAdvancePreserves(cfg: Config, c: Cluster, key: Key, status: JobStatus)
    requires Inv(cfg, c) && Allowed(cfg, c, AdvanceJob(key, status))
    ensures Inv(cfg, c.(jobs := c.jobs[key := c.jobs[key].(status := status)]))
  {
    var c' := c.(jobs := c.jobs[key := c.jobs[key].(status := status)]);
    forall k | k in c'.jobs && c'.jobs[k].origin.ByOperator? ensures OperatorJobInv(c', k) {
      assert OperatorJobInv(c, k);
    }
    forall p | p in c'.pods && p.origin.ByOperator? && !p.origin.retain ensures PodHasJob(c', p) {
      assert PodHasJob(c, p);
    }
    assert forall k | k in c.mustGathers && MadeFor(c', k, c.mustGathers[k].uid) :: MadeFor(c, k, c.mustGathers[k].uid);
  }

  lemma JobAdditionPreserves(cfg: Config, c: Cluster, key: Key, job: Job)
    requires Inv(cfg, c) && key !in c.jobs && job.origin.ByOthers?
    ensures Inv(cfg, c.(jobs := c.jobs[key := job], nextUid := c.nextUid + 1))
  {
    var c' := c.(jobs := c.jobs[key := job], nextUid := c.nextUid + 1);
    forall k | k in c'.jobs && c'.jobs[k].origin.ByOperator? ensures OperatorJobInv(c', k) {
      assert OperatorJobInv(c, k);
    }
    forall p | p in c'.pods && p.origin.ByOperator? && !p.origin.retain ensures PodHasJob(c', p) {
      assert PodHasJob(c, p);
    }
    assert forall k | k in c.mustGathers && MadeFor(c', k, c.mustGathers[k].uid) :: MadeFor(c, k, c.mustGathers[k].uid);
  }

  /** Only a Job whose resource is gone is collected. */
  lemma CollectedJobsAreRetained(cfg: Config, c: Cluster, key: Key)
    requires Inv(cfg, c) && Allowed(cfg, c, CollectJob(key)) && c.jobs[key].origin.ByOperator?
    ensures c.jobs[key].origin.retain
  {
    assert OperatorJobInv(c, key);
    assert c.jobs[key].owners[0] in c.jobs[key].owners;
    assert Dangling(c, c.jobs[key].owners[0]);
  }

  lemma JobActionPreserves(cfg: Config, c: Cluster, a: Action)
    requires Inv(cfg, c) && Allowed(cfg, c, a) && OnJobs(a)
    ensures Inv(cfg, Perform(c, a))
  {
    if a.AdvanceJob? {
      JobAdvancePreserves(cfg, c, a.key, a.status);
    } else if a.AddJob? {
      JobAdditionPreserves(cfg, c, a.key, Job(c.nextUid, ByOthers, a.owners, a.backoffLimit, a.template, FRESH));
    } else {
      if a.CollectJob? && c.jobs[a.key].origin.ByOperator? {
        CollectedJobsAreRetained(cfg, c, a.key);
      }
      JobRemovalPreserves(cfg, c, Perform(c, a), a.key);
    }
  }

  lemma PodActionPreserves(cfg: Config, c: Cluster, a: Action)
    requires Inv(cfg, c) && Allowed(cfg, c, a) && OnPods(a)
    ensures Inv(cfg, Perform(c, a))
  {
    var c' := Perform(c, a);
    PodActionFrame(c, a);
    assert forall k | k in c.jobs && c.jobs[k].origin.ByOperator? :: OperatorJobInv(c, k);
    forall p | p in c'.pods && p.origin.ByOperator? && !p.origin.retain ensures PodHasJob(c', p) {
      if p in c.pods {
        assert PodHasJob(c, p);
      }
    }
  }

  /** ConfigMaps may change as long as stored resources keep their holds. */
  lemma ConfigMapsChangePreserves(cfg: Config, c: Cluster, c': Cluster)
    requires Inv(cfg, c) && c' == c.(configMaps := c'.configMaps)
    requires forall ns, uid | HoldsCa(cfg, c, ns, uid) && Alive(c, uid) && NeedsCa(cfg, ns) :: HoldsCa(cfg, c', ns, uid)
    ensures Inv(cfg, c')
  {
    assert forall k | k in c.jobs && c.jobs[k].origin.ByOperator? :: OperatorJobInv(c, k);
    assert forall p | p in c.pods && PodHasJob(c, p) :: PodHasJob(c', p);
    forall k | k in c'.mustGathers && MadeFor(c', k, c'.mustGathers[k].uid) && NeedsCa(cfg, k.ns)
      ensures HoldsCa(cfg, c', k.ns, c'.mustGathers[k].uid)
    {
      assert MadeFor(c, k, c.mustGathers[k].uid);
      assert Alive(c, c.mustGathers[k].uid);
    }
  }

  /** Garbage collection only drops references to resources that are gone. */
  lemma CollectionKeepsHolds(cfg: Config, c: Cluster, key: Key, ns: string, uid: Uid)
    requires HoldsCa(cfg, c, ns, uid) && Alive(c, uid)
    ensures HoldsCa(cfg, Perform(c, CollectOwners(key)), ns, uid)
  {
    var at := CaKey(cfg, ns);
    var r :| r in c.configMaps[at].owners && r.uid == uid;
    if key == at {
      assert r in LiveOwners(c, c.configMaps[at].owners);
    }
  }

  lemma ConfigMapActionPreserves(cfg: Config, c: Cluster, a: Action)
    requires Inv(cfg, c) && Allowed(cfg, c, a) && OnConfigMaps(a)
    ensures Inv(cfg, Perform(c, a))
  {
    ConfigMapActionFrame(c, a);
    forall ns, uid | HoldsCa(cfg, c, ns, uid) && Alive(c, uid) && NeedsCa(cfg, ns)
      ensures HoldsCa(cfg, Perform(c, a), ns, uid)
    {
      if a.CollectOwners? {
        CollectionKeepsHolds(cfg, c, a.key, ns, uid);
      }
    }
    ConfigMapsChangePreserves(cfg, c, Perform(c, a));
  }

  lemma InputsPreserve(cfg: Config, c: Cluster, a: Action)
    requires Inv(cfg, c) && a.SetInputs?
    ensures Inv(cfg, Perform(c, a))
  {
    var c' := Perform(c, a);
    assert forall k | k in c.jobs && c.jobs[k].origin.ByOperator? :: OperatorJobInv(c, k);
    assert forall p | p in c.pods && PodHasJob(c, p) :: PodHasJob(c', p);
  }

  lemma ActionPreserves(cfg: Config, c: Cluster, a: Action)
    requires Inv(cfg, c) && Allowed(cfg, c, a)
    ensures Inv(cfg, Perform(c, a))
  {
    if OnResources(a) {
      ResourceActionPreserves(cfg, c, a);
    } else if OnJobs(a) {
      JobActionPreserves(cfg, c, a);
    } else if OnPods(a) {
      PodActionPreserves(cfg, c, a);
    } else if a.SetInputs? {
      InputsPreserve(cfg, c, a);
    } else if a.EditSpec? {
      EditingChangesNothing(c, a.key, a.spec);
    } else {
      ConfigMapActionPreserves(cfg, c, a);
    }
  }
}
