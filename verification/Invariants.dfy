/**
  The invariants of the shared cluster. They hold after every single write of a pass,
  so a pass may be cut short anywhere, and across everything the rest of the cluster does.
 */
module Invariants {
  import opened Api
  import opened JobController
  import opened JobTemplate
  import opened Cluster
  import opened Plan
  import opened Protocol

  /** Identities are unique and were handed out. */
  ghost predicate UidsInv(c: Cluster) {
    && (forall k | k in c.mustGathers :: c.mustGathers[k].uid < c.nextUid)
    && (forall j, k | j in c.mustGathers && k in c.mustGathers && c.mustGathers[j].uid == c.mustGathers[k].uid :: j == k)
  }

  predicate MadeFor(c: Cluster, k: Key, uid: Uid) {
    k in c.jobs && c.jobs[k].origin.ByOperator? && c.jobs[k].origin.mg == uid
  }

  /**
    A Job of the operator is owned by the resource it was made for alone; unless that
    resource retains, it is still there, under the same name, with the operator's finalizer.
   */
  ghost predicate OperatorJobInv(c: Cluster, k: Key)
    requires k in c.jobs && c.jobs[k].origin.ByOperator?
  {
    var job := c.jobs[k];
    && job.origin.mg < c.nextUid
    && job.owners == [OwnerRef(MUST_GATHER_KIND, k.name, job.origin.mg, true)]
    && job.backoffLimit.Some? && JobInv(job.status, job.backoffLimit.value)
    && (k in c.mustGathers && c.mustGathers[k].uid == job.origin.mg ==> job.origin.retain == Retains(c.mustGathers[k].spec))
    && (!job.origin.retain ==> Held(c, k) && c.mustGathers[k].uid == job.origin.mg)
  }

  ghost predicate JobsInv(c: Cluster) {
    forall k | k in c.jobs && c.jobs[k].origin.ByOperator? :: OperatorJobInv(c, k)
  }

  /** Whoever has a Job, and is still stored, holds the trusted CA copy the Job mounts. */
  ghost predicate DependencyInv(cfg: Config, c: Cluster) {
    forall k | k in c.mustGathers && MadeFor(c, k, c.mustGathers[k].uid) && NeedsCa(cfg, k.ns) ::
      HoldsCa(cfg, c, k.ns, c.mustGathers[k].uid)
  }

  ghost predicate PodHasJob(c: Cluster, p: Pod) {
    var k := Key(p.key.ns, p.jobName);
    k in c.jobs && p.jobUid == Some(c.jobs[k].uid) && c.jobs[k].origin == p.origin
  }

  /** A pod of a non-retaining run never outlives its Job. */
  ghost predicate PodsInv(c: Cluster) {
    forall p | p in c.pods && p.origin.ByOperator? && !p.origin.retain :: PodHasJob(c, p)
  }

  ghost predicate Inv(cfg: Config, c: Cluster) {
    UidsInv(c) && JobsInv(c) && DependencyInv(cfg, c) && PodsInv(c)
  }

  // ---------- writes ----------

  /** Nothing changes but one resource, which keeps its identity and its spec, or goes away. */
  ghost predicate OnlyResourceChanges(c: Cluster, c': Cluster, key: Key) {
    && key in c.mustGathers
    && c' == c.(mustGathers := c'.mustGathers)
    && (forall k | k != key :: (k in c'.mustGathers <==> k in c.mustGathers) && (k in c.mustGathers ==> c'.mustGathers[k] == c.mustGathers[k]))
    && (key in c'.mustGathers ==> c'.mustGathers[key].uid == c.mustGathers[key].uid && c'.mustGathers[key].spec == c.mustGathers[key].spec)
  }

  lemma FinalizersChange(c: Cluster, key: Key, finalizers: seq<Finalizer>)
    requires key in c.mustGathers
    ensures OnlyResourceChanges(c, StoreFinalizers(c, key, finalizers), key)
    ensures OperatorFinalizer in finalizers ==> Held(StoreFinalizers(c, key, finalizers), key)
  {
  }

  /** Harmless while the finalizer stays, or once no non-retained Job is left. */
  lemma ResourceChangePreserves(cfg: Config, c: Cluster, c': Cluster, key: Key)
    requires Inv(cfg, c) && OnlyResourceChanges(c, c', key)
    requires Held(c', key) || !MadeFor(c, key, c.mustGathers[key].uid) || c.jobs[key].origin.retain
    ensures Inv(cfg, c')
  {
    forall k | k in c'.jobs && c'.jobs[k].origin.ByOperator? ensures OperatorJobInv(c', k) {
      assert OperatorJobInv(c, k);
    }
    assert forall p | p in c.pods && PodHasJob(c, p) :: PodHasJob(c', p);
  }

  lemma StatusPreserves(cfg: Config, c: Cluster, key: Key, status: Status)
    requires Inv(cfg, c) && Held(c, key)
    ensures Inv(cfg, Apply(c, SetStatus(key, status)))
  {
    ResourceChangePreserves(cfg, c, Apply(c, SetStatus(key, status)), key);
  }

  lemma FinalizersPreserve(cfg: Config, obs: Obs, pod: PodTemplate, c: Cluster, key: Key, w: Write)
    requires Inv(cfg, c) && w.SetFinalizers? && Enabled(cfg, obs, pod, c, key, w)
    ensures Inv(cfg, Apply(c, w))
  {
    var mg := c.mustGathers[key];
    FinalizersChange(c, key, w.finalizers);
    if MadeFor(c, key, mg.uid) {
      assert OperatorJobInv(c, key);
      assert c.jobs[key].owners[0].uid == mg.uid;
      assert OwnedJob(c, key, mg.uid);
    }
    ResourceChangePreserves(cfg, c, Apply(c, w), key);
  }

  lemma ConfigMapPreserves(cfg: Config, obs: Obs, pod: PodTemplate, c: Cluster, key: Key, w: Write)
    requires Inv(cfg, c) && (w.CreateConfigMap? || w.SetOwners? || w.DeleteConfigMap?) && Enabled(cfg, obs, pod, c, key, w)
    ensures Inv(cfg, Apply(c, w))
  {
    var c' := Apply(c, w);
    assert c' == c.(configMaps := c'.configMaps);
    assert forall k | k in c.jobs && c.jobs[k].origin.ByOperator? :: OperatorJobInv(c, k);
    assert forall p | p in c.pods && PodHasJob(c, p) :: PodHasJob(c', p);
    forall k | k in c'.mustGathers && MadeFor(c', k, c'.mustGathers[k].uid) && NeedsCa(cfg, k.ns)
      ensures HoldsCa(cfg, c', k.ns, c'.mustGathers[k].uid)
    {
      var uid := c.mustGathers[k].uid;
      assert HoldsCa(cfg, c, k.ns, uid);
      assert OperatorJobInv(c, k) && c.jobs[k].owners[0].uid == uid;
      var r :| r in c.configMaps[CaKey(cfg, k.ns)].owners && r.uid == uid;
      if k.ns == key.ns && MayReleaseCa(cfg, c, key) {
        assert k != key;
        assert r in Without(c.configMaps[CaKey(cfg, k.ns)].owners, c.mustGathers[key].uid);
      }
    }
  }

  lemma CreateJobPreserves(cfg: Config, obs: Obs, pod: PodTemplate, c: Cluster, key: Key, w: Write)
    requires Inv(cfg, c) && w.CreateJob? && Enabled(cfg, obs, pod, c, key, w)
    ensures Inv(cfg, Apply(c, w))
  {
    var c' := Apply(c, w);
    forall k | k in c'.jobs && c'.jobs[k].origin.ByOperator? ensures OperatorJobInv(c', k) {
      if k != key {
        assert OperatorJobInv(c, k);
      }
    }
    assert forall p | p in c.pods && PodHasJob(c, p) :: PodHasJob(c', p);
    forall k | k in c'.mustGathers && MadeFor(c', k, c'.mustGathers[k].uid) && NeedsCa(cfg, k.ns)
      ensures HoldsCa(cfg, c', k.ns, c'.mustGathers[k].uid)
    {
      if k != key {
        assert MadeFor(c, k, c.mustGathers[k].uid);
      }
    }
  }

  lemma PodDeletionPreserves(cfg: Config, c: Cluster, p: Pod)
    requires Inv(cfg, c)
    ensures Inv(cfg, Apply(c, DeletePod(p)))
  {
    PodDeletionFrame(c, p);
    var c' := Apply(c, DeletePod(p));
    assert forall k | k in c.jobs && c.jobs[k].origin.ByOperator? :: OperatorJobInv(c, k);
    assert forall q | q in c.pods && PodHasJob(c, q) :: PodHasJob(c', q);
    assert forall k | k in c.mustGathers && MadeFor(c', k, c.mustGathers[k].uid) :: MadeFor(c, k, c.mustGathers[k].uid);
  }

  /** The Job goes last, so that no pod is left without it. */
  lemma JobDeletionPreserves(cfg: Config, c: Cluster, key: Key)
    requires Inv(cfg, c) && key in c.jobs
    requires forall p | p in c.pods && p.key.ns == key.ns :: p.jobUid != Some(c.jobs[key].uid)
    ensures Inv(cfg, Apply(c, DeleteJob(key)))
  {
    var c' := Apply(c, DeleteJob(key));
    assert c'.jobs == c.jobs - {key};
    assert forall k | k in c.jobs && c.jobs[k].origin.ByOperator? :: OperatorJobInv(c, k);
    forall p | p in c'.pods && p.origin.ByOperator? && !p.origin.retain ensures PodHasJob(c', p) {
      assert p in c.pods && PodHasJob(c, p);
    }
    forall k | k in c'.mustGathers && MadeFor(c', k, c'.mustGathers[k].uid) && NeedsCa(cfg, k.ns)
      ensures HoldsCa(cfg, c', k.ns, c'.mustGathers[k].uid)
    {
      assert MadeFor(c, k, c.mustGathers[k].uid);
    }
  }

  lemma CounterPreserves(cfg: Config, c: Cluster, w: Write)
    requires Inv(cfg, c) && (w.CountGather? || w.CountError?)
    ensures Inv(cfg, Apply(c, w))
  {
    var c' := Apply(c, w);
    assert c'.jobs == c.jobs && c'.mustGathers == c.mustGathers && c'.configMaps == c.configMaps && c'.pods == c.pods && c'.nextUid == c.nextUid;
    assert forall k | k in c.jobs && c.jobs[k].origin.ByOperator? :: OperatorJobInv(c, k);
    assert forall p | p in c.pods && PodHasJob(c, p) :: PodHasJob(c', p);
  }

  lemma WritePreserves(cfg: Config, obs: Obs, pod: PodTemplate, c: Cluster, key: Key, w: Write)
    requires Inv(cfg, c) && Enabled(cfg, obs, pod, c, key, w)
    ensures Inv(cfg, Apply(c, w))
  {
    match w
    case SetFinalizers(_, _) => FinalizersPreserve(cfg, obs, pod, c, key, w);
    case SetStatus(k, status) => StatusPreserves(cfg, c, k, status);
    case CreateConfigMap(_, _) => ConfigMapPreserves(cfg, obs, pod, c, key, w);
    case SetOwners(_, _) => ConfigMapPreserves(cfg, obs, pod, c, key, w);
    case DeleteConfigMap(_) => ConfigMapPreserves(cfg, obs, pod, c, key, w);
    case CreateJob(_, _) => CreateJobPreserves(cfg, obs, pod, c, key, w);
    case DeletePod(p) => PodDeletionPreserves(cfg, c, p);
    case DeleteJob(k) => JobDeletionPreserves(cfg, c, k);
    case CountGather => CounterPreserves(cfg, c, w);
    case CountError => CounterPreserves(cfg, c, w);
  }

  /** The invariants hold at every point of a legal list of writes. */
  lemma {:induction false} LegalPreserves(cfg: Config, obs: Obs, pod: PodTemplate, c: Cluster, key: Key, ws: seq<Write>)
    requires Inv(cfg, c) && Legal(cfg, obs, pod, c, key, ws)
    ensures Inv(cfg, ApplyAll(c, ws))
  {
    if ws != [] {
      LegalPreserves(cfg, obs, pod, c, key, ws[..|ws| - 1]);
      WritePreserves(cfg, obs, pod, ApplyAll(c, ws[..|ws| - 1]), key, ws[|ws| - 1]);
    }
  }
}
