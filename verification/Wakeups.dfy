/**
  What wakes the reconciler: the event filters, and the work queue they feed.

  A resource event passes if the resource appears, goes away, or changes its generation
  or its finalizers; a Job event passes only if the Job's status changes, and then wakes
  the MustGather that controls the Job; an event of a ConfigMap with the name of the
  trusted CA always passes, and wakes the MustGather that controls the ConfigMap.
 */
module Wakeups {
  import opened Api
  import opened JobController
  import opened Cluster
  import JobTemplate
  import opened Plan
  import opened Protocol

  /** The filter on updates of a MustGather: status-only writes do not pass. */
  predicate ResourceUpdatePasses(before: MustGather, after: MustGather) {
    before.generation != after.generation || before.finalizers != after.finalizers
  }

  /** The filter on updates of a Job. Creations and deletions never pass. */
  predicate JobUpdatePasses(before: Job, after: Job) {
    before.status != after.status
  }

  predicate ResourceWakes(c: Cluster, c': Cluster, k: Key) {
    if k in c.mustGathers && k in c'.mustGathers then ResourceUpdatePasses(c.mustGathers[k], c'.mustGathers[k])
    else k in c.mustGathers || k in c'.mustGathers
  }

  function FirstController(owners: seq<OwnerRef>): Option<OwnerRef> {
    if owners == [] then None else if owners[0].controller then Some(owners[0]) else FirstController(owners[1..])
  }

  /** The MustGather an event of an owned object is attributed to: the controller's name, in the object's namespace. */
  function ControllerIn(ns: string, owners: seq<OwnerRef>): Option<Key> {
    var r := FirstController(owners);
    if r.Some? && r.value.kind == MUST_GATHER_KIND then Some(Key(ns, r.value.name)) else None
  }

  function Controller(k: Key, job: Job): Option<Key> {
    ControllerIn(k.ns, job.owners)
  }

  predicate JobWakes(c: Cluster, c': Cluster, k: Key) {
    && k in c.jobs && k in c'.jobs && c.jobs[k].uid == c'.jobs[k].uid
    && JobUpdatePasses(c.jobs[k], c'.jobs[k]) && Controller(k, c'.jobs[k]).Some?
  }

  /** ConfigMaps are watched if a trusted CA is configured; creations, updates and deletions pass by name. */
  predicate ConfigMapPasses(cfg: Config, c: Cluster, c': Cluster, at: Key) {
    && cfg.trustedCa != "" && at.name == cfg.trustedCa
    && (at in c.configMaps || at in c'.configMaps)
    && !(at in c.configMaps && at in c'.configMaps && c.configMaps[at] == c'.configMaps[at])
  }

  function ConfigMapController(c: Cluster, at: Key): Option<Key> {
    if at in c.configMaps then ControllerIn(at.ns, c.configMaps[at].owners) else None
  }

  /** An update is attributed to the controllers before and after it. */
  function ConfigMapsWake(cfg: Config, c: Cluster, c': Cluster): set<Key> {
    (set at | at in c.configMaps && ConfigMapPasses(cfg, c, c', at) && ConfigMapController(c, at).Some? :: ConfigMapController(c, at).value)
    + (set at | at in c'.configMaps && ConfigMapPasses(cfg, c, c', at) && ConfigMapController(c', at).Some? :: ConfigMapController(c', at).value)
  }

  /** Who is put in the queue by a change of the cluster. */
  function Wakes(cfg: Config, c: Cluster, c': Cluster): set<Key> {
    (set k | k in c.mustGathers.Keys + c'.mustGathers.Keys && ResourceWakes(c, c', k))
    + (set k | k in c.jobs && JobWakes(c, c', k) :: Controller(k, c'.jobs[k]).value)
    + ConfigMapsWake(cfg, c, c')
  }

  function WokenBy(cfg: Config, c: Cluster, ws: seq<Write>): set<Key> {
    if ws == [] then {}
    else WokenBy(cfg, c, ws[..|ws| - 1]) + Wakes(cfg, ApplyAll(c, ws[..|ws| - 1]), ApplyAll(c, ws))
  }

  // ---------- what an instance at rest looks like ----------

  /**
    A stored resource that nobody is going to look at needs no look: its finalizer is as
    it should be, and if its Job has ended, the outcome is in its status, and the Job
    is gone unless it is retained.
   */
  predicate Settled(cfg: Config, c: Cluster, k: Key)
    requires k in c.mustGathers
  {
    var mg := c.mustGathers[k];
    && (mg.deleting <==> OperatorFinalizer !in mg.finalizers)
    && (MustReport(cfg, c, k) ==> OutcomeRecorded(mg, c.jobs[k]) && (OwnedJob(c, k, mg.uid) ==> Retains(mg.spec)))
  }

  /** The resource has a Job of its own that has ended. */
  predicate MustReport(cfg: Config, c: Cluster, k: Key)
    requires k in c.mustGathers
  {
    && !c.mustGathers[k].deleting && !IsOperatorAccount(cfg, k, c.mustGathers[k].spec)
    && k in c.jobs && Controller(k, c.jobs[k]) == Some(k)
    && VerdictOf(c.jobs[k].status, c.jobs[k].backoffLimit).Finished?
  }

  /** Nothing about the resource or its Job has changed, but that a fresh Job may have come or the Job gone. */
  ghost predicate Undisturbed(c: Cluster, c': Cluster, k: Key) {
    && k in c.mustGathers && k in c'.mustGathers && c'.mustGathers[k] == c.mustGathers[k]
    && (k in c'.jobs && Controller(k, c'.jobs[k]) == Some(k) ==>
          || (k in c.jobs && c'.jobs[k] == c.jobs[k])
          || (c'.jobs[k].uid >= c.nextUid && c'.jobs[k].status == FRESH))
  }

  /** A pass changes no other resource and no other Job. */
  ghost predicate SameElsewhere(c: Cluster, c': Cluster, key: Key) {
    forall k | k != key ::
      && (k in c'.mustGathers <==> k in c.mustGathers) && (k in c.mustGathers ==> c'.mustGathers[k] == c.mustGathers[k])
      && (k in c'.jobs <==> k in c.jobs) && (k in c.jobs ==> c'.jobs[k] == c.jobs[k])
  }

  lemma WriteIsLocalTo(c: Cluster, key: Key, w: Write)
    requires w.SetFinalizers? || w.SetStatus? || w.CreateJob? || w.DeleteJob? ==> w.key == key
    ensures SameElsewhere(c, Apply(c, w), key)
  {
    if w.SetFinalizers? || w.SetStatus? {
      WriteKeepsJobs(c, w);
    } else if w.CreateJob? || w.DeleteJob? {
      WriteLeavesResources(c, w);
    } else {
      WriteKeepsJobs(c, w);
      WriteLeavesResources(c, w);
    }
  }

  lemma WriteIsLocal(cfg: Config, obs: Obs, pod: JobTemplate.PodTemplate, c: Cluster, key: Key, w: Write)
    requires Enabled(cfg, obs, pod, c, key, w)
    ensures SameElsewhere(c, Apply(c, w), key)
  {
    WriteIsLocalTo(c, key, w);
  }

  lemma {:induction false} LegalIsLocal(cfg: Config, obs: Obs, pod: JobTemplate.PodTemplate, c: Cluster, key: Key, ws: seq<Write>)
    requires Legal(cfg, obs, pod, c, key, ws)
    ensures SameElsewhere(c, ApplyAll(c, ws), key)
  {
    if ws != [] {
      LegalIsLocal(cfg, obs, pod, c, key, ws[..|ws| - 1]);
      WriteIsLocal(cfg, obs, pod, ApplyAll(c, ws[..|ws| - 1]), key, ws[|ws| - 1]);
    }
  }

  // ---------- a completed pass leaves its instance at rest, or wakes it ----------

  lemma FinalizerWriteWakes(cfg: Config, c: Cluster, first: seq<Write>, key: Key, finalizers: seq<Finalizer>)
    requires key in c.mustGathers && ApplyAll(c, first).mustGathers == c.mustGathers
    requires finalizers != c.mustGathers[key].finalizers
    ensures key in WokenBy(cfg, c, first + [SetFinalizers(key, finalizers)])
  {
    var ws := first + [SetFinalizers(key, finalizers)];
    ApplyAllSnoc(c, first, SetFinalizers(key, finalizers));
    assert ws[..|ws| - 1] == first;
    var c1, c2 := ApplyAll(c, first), ApplyAll(c, ws);
    assert ResourceWakes(c1, c2, key) && key in c1.mustGathers.Keys + c2.mustGathers.Keys;
  }

  lemma DeletionWakes(cfg: Config, c: Cluster, key: Key)
    requires Held(c, key) && c.mustGathers[key].deleting
    ensures key in WokenBy(cfg, c, DeletionPlan(cfg, c, key, c.mustGathers[key]).writes)
  {
    var mg := c.mustGathers[key];
    var first := if Retains(mg.spec) then [] else CleanupPlan(cfg, c, key, mg.uid);
    if !Retains(mg.spec) {
      CleanupLeavesResources(cfg, c, key, mg.uid, first);
    }
    FinalizerWriteWakes(cfg, c, first, key, WithoutOperator(mg.finalizers));
  }

  /** The pass reports on a resource it keeps: what it stored, and what it left of the Job. */
  ghost predicate Reports(c: Cluster, c': Cluster, key: Key, status: Status) {
    && key in c.mustGathers && c'.mustGathers == c.mustGathers[key := c.mustGathers[key].(status := Some(status))]
    && (key in c'.jobs && key in c.jobs ==> c'.jobs[key] == c.jobs[key])
    && (key in c'.jobs && key !in c.jobs ==> VerdictOf(c'.jobs[key].status, c'.jobs[key].backoffLimit) == Running)
  }

  lemma StatusReports(c: Cluster, key: Key, status: Status)
    requires key in c.mustGathers && status.completed.Some?
    ensures Reports(c, ApplyAll(c, [SetStatus(key, status)]), key, status)
  {
    ApplyOne(c, SetStatus(key, status));
  }

  /** No write but a creation brings a Job about, and none changes one. */
  lemma WriteLeavesJob(c: Cluster, key: Key, w: Write)
    requires !w.CreateJob?
    ensures var c' := Apply(c, w); key in c'.jobs ==> key in c.jobs && c'.jobs[key] == c.jobs[key]
  {
  }

  lemma {:induction false} WritesLeaveJob(c: Cluster, key: Key, ws: seq<Write>)
    requires forall w | w in ws :: !w.CreateJob?
    ensures var c' := ApplyAll(c, ws); key in c'.jobs ==> key in c.jobs && c'.jobs[key] == c.jobs[key]
  {
    if ws != [] {
      var front := ws[..|ws| - 1];
      assert ws[|ws| - 1] in ws && forall w | w in front :: w in ws;
      WritesLeaveJob(c, key, front);
      WriteLeavesJob(ApplyAll(c, front), key, ws[|ws| - 1]);
    }
  }

  lemma CleanupCreatesNothing(cfg: Config, c: Cluster, key: Key, uid: Uid)
    ensures forall w | w in CleanupPlan(cfg, c, key, uid) :: !w.CreateJob?
  {
  }

  lemma ReportThenMore(c: Cluster, key: Key, status: Status, rest: seq<Write>)
    requires key in c.mustGathers && status.completed.Some?
    requires LeavesResources(rest) && forall w | w in rest :: !w.CreateJob?
    ensures Reports(c, ApplyAll(c, [SetStatus(key, status)] + rest), key, status)
  {
    var first := [SetStatus(key, status)];
    ApplyOne(c, first[0]);
    ApplyAllConcat(c, first, rest);
    ResourcesFrame(ApplyAll(c, first), rest);
    WritesLeaveJob(ApplyAll(c, first), key, rest);
  }

  lemma CompletionReports(cfg: Config, c: Cluster, key: Key, phase: Phase)
    requires key in c.mustGathers && key in c.jobs
    ensures var mg := c.mustGathers[key]; var c' := ApplyAll(c, CompletionPlan(cfg, c, key, mg, phase));
            && Reports(c, c', key, OutcomeStatus(mg, phase))
            && (OwnedJob(c', key, mg.uid) ==> Retains(mg.spec))
  {
    var mg := c.mustGathers[key];
    var rest := if Retains(mg.spec) then [] else CleanupPlan(cfg, c, key, mg.uid);
    CleanupCreatesNothing(cfg, c, key, mg.uid);
    CleanupLeavesResources(cfg, c, key, mg.uid, CleanupPlan(cfg, c, key, mg.uid));
    ReportThenMore(c, key, OutcomeStatus(mg, phase), rest);
    if !Retains(mg.spec) {
      var first := [SetStatus(key, OutcomeStatus(mg, phase))];
      ApplyOne(c, first[0]);
      var c1 := ApplyAll(c, first);
      CleanupDependsOn(cfg, c, c1, key, mg.uid);
      CleanupRemovesJob(cfg, c1, key, mg.uid);
      ApplyAllConcat(c, first, rest);
    }
  }

  lemma CleanupRemovesJob(cfg: Config, c: Cluster, key: Key, uid: Uid)
    ensures !OwnedJob(ApplyAll(c, CleanupPlan(cfg, c, key, uid)), key, uid)
  {
    if OwnedJob(c, key, uid) {
      var first := PodDeletions(PodsOf(c.pods, key.ns, c.jobs[key].uid)) + [DeleteJob(key)];
      var release := if cfg.trustedCa == "" then [] else ReleasePlan(cfg, c, key.ns, uid);
      JobAndPodsGo(c, key);
      ApplyAllConcat(c, first, release);
      ReleaseLeavesJobs(ApplyAll(c, first), release);
      assert CleanupPlan(cfg, c, key, uid) == first + release;
    }
  }

  lemma CreationReports(c: Cluster, key: Key, job: Job, status: Status)
    requires key in c.mustGathers && key !in c.jobs && status.completed.Some?
    ensures Reports(c, ApplyAll(c, [CreateJob(key, job), CountGather, SetStatus(key, status)]), key, status)
  {
    var ws := [CreateJob(key, job), CountGather, SetStatus(key, status)];
    assert ws[..2] == [CreateJob(key, job)] + [CountGather] && ws == ws[..2] + [SetStatus(key, status)];
    ApplyOne(c, CreateJob(key, job));
    ApplyAllSnoc(c, [CreateJob(key, job)], CountGather);
    ApplyAllSnoc(c, ws[..2], SetStatus(key, status));
  }

  /** After a complete pass that found everything in place, the outcome of a finished Job is in the status. */
  lemma GatherSettles(cfg: Config, obs: Obs, pod: JobTemplate.PodTemplate, c: Cluster, key: Key)
    requires Held(c, key) && !c.mustGathers[key].deleting
    requires GatherPlan(cfg, obs, pod, c, key, c.mustGathers[key]).ok
    ensures var c' := ApplyAll(c, GatherPlan(cfg, obs, pod, c, key, c.mustGathers[key]).writes);
            key in c'.mustGathers && Settled(cfg, c', key)
  {
    var mg := c.mustGathers[key];
    var plan := GatherPlan(cfg, obs, pod, c, key, mg);
    if key in c.jobs {
      JobPlanSettles(cfg, c, key);
    } else {
      CreatePlanSettles(cfg, obs, pod, c, key);
    }
  }

  lemma FreshReportSettles(cfg: Config, c: Cluster, c': Cluster, key: Key, status: Status)
    requires Held(c, key) && !c.mustGathers[key].deleting && key !in c.jobs && Reports(c, c', key, status)
    ensures key in c'.mustGathers && Settled(cfg, c', key)
  {
  }

  lemma CreatePlanShape(cfg: Config, obs: Obs, pod: JobTemplate.PodTemplate, c: Cluster, key: Key, mg: MustGather)
    ensures var ws := CreatePlan(cfg, obs, pod, c, key, mg).writes;
            || ws == []
            || (|ws| == 1 && ws[0].SetStatus? && ws[0].key == key && ws[0].status.completed.Some?)
            || ws == [CreateJob(key, NewJob(key, mg, pod)), CountGather] + Stored(key, SuccessStatus(mg.status, mg.generation))
    ensures var plan := CreatePlan(cfg, obs, pod, c, key, mg);
            plan.ok ==> plan.writes != [] && (plan.writes[0].CreateJob? ==> Base(mg.status).completed.Some?)
  {
  }

  lemma CreatePlanSettles(cfg: Config, obs: Obs, pod: JobTemplate.PodTemplate, c: Cluster, key: Key)
    requires Held(c, key) && !c.mustGathers[key].deleting && key !in c.jobs
    requires CreatePlan(cfg, obs, pod, c, key, c.mustGathers[key]).ok
    ensures var c' := ApplyAll(c, CreatePlan(cfg, obs, pod, c, key, c.mustGathers[key]).writes);
            key in c'.mustGathers && Settled(cfg, c', key)
  {
    var mg := c.mustGathers[key];
    CreatePlanShape(cfg, obs, pod, c, key, mg);
    StartReports(cfg, c, key, CreatePlan(cfg, obs, pod, c, key, mg).writes, NewJob(key, mg, pod), SuccessStatus(mg.status, mg.generation));
  }

  lemma StartReports(cfg: Config, c: Cluster, key: Key, ws: seq<Write>, job: Job, status: Status)
    requires Held(c, key) && !c.mustGathers[key].deleting && key !in c.jobs && job.backoffLimit.Some?
    requires || (|ws| == 1 && ws[0].SetStatus? && ws[0].key == key && ws[0].status.completed.Some?)
             || (ws == [CreateJob(key, job), CountGather, SetStatus(key, status)] && status.completed.Some?)
    ensures var c' := ApplyAll(c, ws); key in c'.mustGathers && Settled(cfg, c', key)
  {
    if |ws| == 1 {
      assert ws == [SetStatus(key, ws[0].status)];
      StatusReports(c, key, ws[0].status);
      FreshReportSettles(cfg, c, ApplyAll(c, ws), key, ws[0].status);
    } else {
      CreationReports(c, key, job, status);
      FreshReportSettles(cfg, c, ApplyAll(c, ws), key, status);
    }
  }

  lemma JobPlanSettles(cfg: Config, c: Cluster, key: Key)
    requires Held(c, key) && !c.mustGathers[key].deleting && key in c.jobs
    ensures var c' := ApplyAll(c, JobPlan(cfg, c, key, c.mustGathers[key], c.jobs[key]).writes);
            key in c'.mustGathers && Settled(cfg, c', key)
  {
    var mg, job := c.mustGathers[key], c.jobs[key];
    match VerdictOf(job.status, job.backoffLimit)
    case Running => StatusReports(c, key, SuccessStatus(Some(Base(mg.status).(completed := Some(job.status.completionTime))), mg.generation));
    case Finished(Completed) => CompletionReports(cfg, c, key, Completed);
    case Finished(Failed) =>
      var c1 := Apply(c, CountError);
      assert c1 == c.(errors := c.errors + 1);
      ApplyOne(c, CountError);
      CompletionIgnoresCounters(cfg, c, key, mg, Failed);
      CompletionReports(cfg, c1, key, Failed);
      ApplyAllConcat(c, [CountError], CompletionPlan(cfg, c, key, mg, Failed));
  }

  /** A pass that ends without an error, every call having gone through. */
  lemma CompletePassSettles(cfg: Config, obs: Obs, pod: JobTemplate.PodTemplate, c: Cluster, key: Key)
    requires key in c.mustGathers && PassPlan(cfg, obs, pod, c, key).ok
    ensures var ws := PassPlan(cfg, obs, pod, c, key).writes;
            var c' := ApplyAll(c, ws);
            key in c'.mustGathers ==> key in WokenBy(cfg, c, ws) || Settled(cfg, c', key)
  {
    var mg := c.mustGathers[key];
    if mg.deleting {
      if Held(c, key) {
        DeletionWakes(cfg, c, key);
      }
    } else if !Held(c, key) {
      assert ApplyAll(c, []) == c;
      FinalizerWriteWakes(cfg, c, [], key, mg.finalizers + [OperatorFinalizer]);
      assert [] + [SetFinalizers(key, mg.finalizers + [OperatorFinalizer])] == [SetFinalizers(key, mg.finalizers + [OperatorFinalizer])];
    } else if IsOperatorAccount(cfg, key, mg.spec) {
      StatusReports(c, key, RejectedStatus(mg, OperatorAccount(mg.spec.serviceAccount)));
    } else {
      var ca := CaPlan(cfg, c, key, mg.uid);
      CaFrame(cfg, c, key, mg.uid, ca.writes);
      var c1 := ApplyAll(c, ca.writes);
      GatherSettles(cfg, obs, pod, c1, key);
      ApplyAllConcat(c, ca.writes, GatherPlan(cfg, obs, pod, c1, key, mg).writes);
    }
  }
}
