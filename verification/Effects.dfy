/**
  What a pass has done to the cluster when no call has failed, case by case: the
  conditions are read off the cluster and the resource, the effects off the two clusters.
 */
module Effects {
  import opened Api
  import opened JobController
  import opened JobTemplate
  import opened Sftp
  import opened Cluster
  import opened Plan
  import opened Protocol
  import opened Wakeups
  import opened Failures
  import opened TrustedCa
  import opened Gate

  // ---------- effects ----------

  /** Nothing but the status of the resource, and ConfigMaps, may have changed. */
  ghost predicate OnlyReports(c: Cluster, c': Cluster, key: Key) {
    && key in c.mustGathers && key in c'.mustGathers
    && c' == c.(mustGathers := c.mustGathers[key := c.mustGathers[key].(status := c'.mustGathers[key].status)], configMaps := c'.configMaps)
  }

  function Conditions(c: Cluster, key: Key): map<ConditionType, Condition>
    requires key in c.mustGathers
  {
    Base(c.mustGathers[key].status).conditions
  }

  /** The resource is declared failed and completed, for this reason. */
  ghost predicate GivenUp(c: Cluster, c': Cluster, key: Key, why: Validation) {
    && OnlyReports(c, c', key)
    && ReportAt(c', key) == Report(Some(Failed), Some(true), Some(Invalid(why)))
    && Conditions(c', key) == Conditions(c, key)[ReconcileError := ValidationFailed(why, c.mustGathers[key].generation)]
  }

  /** The outcome stays as it was; the error is noted, if there is a status to note it in. */
  ghost predicate Complained(c: Cluster, c': Cluster, key: Key, issue: Issue) {
    && OnlyReports(c, c', key)
    && ReportAt(c', key) == ReportAt(c, key)
    && (if ReportAt(c, key).completed.Some?
        then Conditions(c', key) == Conditions(c, key)[ReconcileError := CycleFailed(issue, c.mustGathers[key].generation)]
        else c'.mustGathers == c.mustGathers)
  }

  /** The resource holds the copy of the trusted CA, where there has to be one. */
  ghost predicate HasCopy(cfg: Config, c: Cluster, key: Key, uid: Uid) {
    cfg.trustedCa != "" && key.ns != cfg.namespace ==>
      && Key(key.ns, cfg.trustedCa) in c.configMaps
      && exists r :: r in c.configMaps[Key(key.ns, cfg.trustedCa)].owners && r.uid == uid
  }

  // ---------- conditions ----------

  /** Finalizer on, not being deleted: the resource is to be worked on. */
  predicate Active(c: Cluster, key: Key) {
    key in c.mustGathers && OperatorFinalizer in c.mustGathers[key].finalizers && !c.mustGathers[key].deleting
  }

  predicate AsOperator(cfg: Config, c: Cluster, key: Key)
    requires key in c.mustGathers
  {
    key.ns == cfg.namespace && c.mustGathers[key].spec.serviceAccount == cfg.serviceAccount
  }

  /** A copy of the trusted CA has to be made, and there is nothing to copy. */
  predicate NothingToCopy(cfg: Config, c: Cluster, key: Key) {
    cfg.trustedCa != "" && key.ns != cfg.namespace && Key(cfg.namespace, cfg.trustedCa) !in c.configMaps
  }

  /** An obfuscation config is referred to that neither exists nor is the copy about to be made. */
  predicate NoConfig(cfg: Config, c: Cluster, key: Key)
    requires key in c.mustGathers
  {
    var o := c.mustGathers[key].spec.obfuscate;
    && o.Some? && o.value.configRef.Some? && o.value.configRef.value != ""
    && Key(key.ns, o.value.configRef.value) !in c.configMaps
    && !(cfg.trustedCa != "" && key.ns != cfg.namespace && o.value.configRef.value == cfg.trustedCa)
  }

  /** Nothing stands between the resource and its Job. */
  predicate Clear(cfg: Config, c: Cluster, key: Key) {
    Active(c, key) && !AsOperator(cfg, c, key) && !NothingToCopy(cfg, c, key) && !NoConfig(cfg, c, key)
  }

  lemma ClearMeansLooking(cfg: Config, c: Cluster, key: Key)
    ensures Clear(cfg, c, key) <==> LooksForJob(cfg, c, key)
  {
  }

  // ---------- the copy, then the rest ----------

  /** After the copy: the same cluster but for the ConfigMaps. */
  ghost predicate CopyMade(cfg: Config, c: Cluster, c1: Cluster, key: Key, uid: Uid) {
    && c1 == c.(configMaps := c1.configMaps) && HasCopy(cfg, c1, key, uid)
    && forall k | k != Key(key.ns, cfg.trustedCa) :: (k in c1.configMaps <==> k in c.configMaps) && (k in c.configMaps ==> c1.configMaps[k] == c.configMaps[k])
  }

  lemma CopyFirst(cfg: Config, c: Cluster, key: Key) returns (c1: Cluster)
    requires Active(c, key) && !AsOperator(cfg, c, key) && !NothingToCopy(cfg, c, key)
    ensures var ca := CaPlan(cfg, c, key, c.mustGathers[key].uid); ca.ok && c1 == ApplyAll(c, ca.writes)
    ensures CopyMade(cfg, c, c1, key, c.mustGathers[key].uid)
    ensures ConfigFound(c1, key, c.mustGathers[key].spec) <==> !NoConfig(cfg, c, key)
  {
    var uid := c.mustGathers[key].uid;
    var ca := CaPlan(cfg, c, key, uid);
    c1 := ApplyAll(c, ca.writes);
    CaFrame(cfg, c, key, uid, ca.writes);
    ConfigAfterCa(cfg, c, key, uid, ConfigRef(c.mustGathers[key].spec.obfuscate));
    if NeedsCa(cfg, key.ns) {
      EnsureHoldsCa(cfg, c, key, uid);
    }
  }

  /** A pass over a resource to be worked on, up to the copy. */
  lemma ThroughCopy(cfg: Config, obs: Obs, c: Cluster, key: Key, c1: Cluster)
    requires Active(c, key) && !AsOperator(cfg, c, key)
    requires var ca := CaPlan(cfg, c, key, c.mustGathers[key].uid); ca.ok && c1 == ApplyAll(c, ca.writes)
    ensures var rest := GatherPlan(cfg, obs, PodFor(cfg, obs, c, key), c1, key, c.mustGathers[key]);
            Planned(cfg, obs, c, key).ok == rest.ok && ApplyAll(c, Planned(cfg, obs, c, key).writes) == ApplyAll(c1, rest.writes)
  {
    var mg := c.mustGathers[key];
    ApplyAllConcat(c, CaPlan(cfg, c, key, mg.uid).writes, GatherPlan(cfg, obs, PodFor(cfg, obs, c, key), c1, key, mg).writes);
  }

  lemma RejectionGivesUp(c: Cluster, key: Key, mg: MustGather, why: Validation)
    requires key in c.mustGathers && mg == c.mustGathers[key]
    ensures var c' := ApplyAll(c, Rejection(key, mg, why).writes); GivenUp(c, c', key, why) && c'.configMaps == c.configMaps
  {
    ApplyOne(c, SetStatus(key, RejectedStatus(mg, why)));
  }

  lemma ComplaintComplains(c: Cluster, key: Key, mg: MustGather, issue: Issue)
    requires key in c.mustGathers && mg == c.mustGathers[key]
    ensures var c' := ApplyAll(c, Complaint(key, mg, issue).writes); Complained(c, c', key, issue) && c'.configMaps == c.configMaps
  {
    if Base(mg.status).completed.Some? {
      ApplyOne(c, SetStatus(key, ErrorStatus(mg.status, mg.generation, issue)));
    } else {
      assert ApplyAll(c, []) == c;
      assert c.mustGathers[key := mg.(status := mg.status)] == c.mustGathers;
    }
  }

  // ---------- before anything else ----------

  /** A first look only puts the finalizer on, behind the others. */
  lemma FirstPass(cfg: Config, obs: Obs, c: Cluster, key: Key)
    requires key in c.mustGathers && !c.mustGathers[key].deleting && OperatorFinalizer !in c.mustGathers[key].finalizers
    ensures var mg := c.mustGathers[key]; var plan := Planned(cfg, obs, c, key);
            && plan.ok
            && ApplyAll(c, plan.writes) == c.(mustGathers := c.mustGathers[key := mg.(finalizers := mg.finalizers + [OperatorFinalizer])])
  {
    ApplyOne(c, SetFinalizers(key, c.mustGathers[key].finalizers + [OperatorFinalizer]));
  }

  /** Nothing is done for a resource that is gone, or that is going and no longer held. */
  lemma NothingToDo(cfg: Config, obs: Obs, c: Cluster, key: Key)
    requires key !in c.mustGathers || (c.mustGathers[key].deleting && OperatorFinalizer !in c.mustGathers[key].finalizers)
    ensures var plan := Planned(cfg, obs, c, key); plan.ok && ApplyAll(c, plan.writes) == c
  {
  }

  /** The operator's own account is refused for good. */
  lemma AccountIsRefused(cfg: Config, obs: Obs, c: Cluster, key: Key)
    requires Active(c, key) && AsOperator(cfg, c, key)
    ensures var plan := Planned(cfg, obs, c, key); var c' := ApplyAll(c, plan.writes);
            plan.ok && c'.configMaps == c.configMaps && GivenUp(c, c', key, OperatorAccount(c.mustGathers[key].spec.serviceAccount))
  {
    RejectionGivesUp(c, key, c.mustGathers[key], OperatorAccount(c.mustGathers[key].spec.serviceAccount));
  }

  /** Without a trusted CA to copy the pass is retried. */
  lemma MissingCaIsRetried(cfg: Config, obs: Obs, c: Cluster, key: Key)
    requires Active(c, key) && !AsOperator(cfg, c, key) && NothingToCopy(cfg, c, key)
    ensures var plan := Planned(cfg, obs, c, key); var c' := ApplyAll(c, plan.writes);
            !plan.ok && c'.configMaps == c.configMaps && Complained(c, c', key, TrustedCaFailed)
  {
    ComplaintComplains(c, key, c.mustGathers[key], TrustedCaFailed);
  }

  /** Without the obfuscation config the pass is retried, the copy being in place. */
  lemma MissingConfigIsRetried(cfg: Config, obs: Obs, c: Cluster, key: Key)
    requires Active(c, key) && !AsOperator(cfg, c, key) && !NothingToCopy(cfg, c, key) && NoConfig(cfg, c, key)
    ensures var plan := Planned(cfg, obs, c, key); var c' := ApplyAll(c, plan.writes);
            !plan.ok && HasCopy(cfg, c', key, c.mustGathers[key].uid) && Complained(c, c', key, ObfuscationConfigMissing)
  {
    var c1 := CopyFirst(cfg, c, key);
    ThroughCopy(cfg, obs, c, key, c1);
    ComplaintComplains(c1, key, c.mustGathers[key], ObfuscationConfigMissing);
  }

  // ---------- a Job that exists ----------

  /** No verdict yet: a pod is active, or none has succeeded and another may still be started. */
  predicate StillRunning(job: Job) {
    job.status.active > 0 || (job.status.succeeded == 0 && job.status.failed <= if job.backoffLimit.Some? then job.backoffLimit.value else 0)
  }

  /** A pass over a running Job reports that it is not completed, or not yet, and that all is well; it touches nothing else. */
  lemma RunningJobIsReported(cfg: Config, obs: Obs, c: Cluster, key: Key)
    requires Clear(cfg, c, key) && key in c.jobs && StillRunning(c.jobs[key])
    ensures var plan := Planned(cfg, obs, c, key); var c' := ApplyAll(c, plan.writes);
            && plan.ok && OnlyReports(c, c', key) && HasCopy(cfg, c', key, c.mustGathers[key].uid)
            && ReportAt(c', key) == ReportAt(c, key).(completed := Some(c.jobs[key].status.completionTime))
            && Conditions(c', key) == Conditions(c, key)[ReconcileSuccess := CycleSucceeded(c.mustGathers[key].generation)]
  {
    var mg := c.mustGathers[key];
    var c1 := CopyFirst(cfg, c, key);
    ThroughCopy(cfg, obs, c, key, c1);
    RunningJobApproved(cfg, obs, PodFor(cfg, obs, c, key), c1, key, mg);
  }

  lemma RunningJobApproved(cfg: Config, obs: Obs, pod: PodTemplate, c: Cluster, key: Key, mg: MustGather)
    requires key in c.mustGathers && c.mustGathers[key] == mg && key in c.jobs && StillRunning(c.jobs[key]) && ConfigFound(c, key, mg.spec)
    ensures var plan := GatherPlan(cfg, obs, pod, c, key, mg); var c' := ApplyAll(c, plan.writes);
            && plan.ok && OnlyReports(c, c', key) && c'.configMaps == c.configMaps
            && ReportAt(c', key) == ReportAt(c, key).(completed := Some(c.jobs[key].status.completionTime))
            && Conditions(c', key) == Conditions(c, key)[ReconcileSuccess := CycleSucceeded(mg.generation)]
  {
    ApplyOne(c, SetStatus(key, SuccessStatus(Some(Base(mg.status).(completed := Some(c.jobs[key].status.completionTime))), mg.generation)));
  }

  /** The Job and its pods are gone, nobody else's are, and the hold on the copy is given up. */
  ghost predicate CleanedUp(cfg: Config, c: Cluster, c': Cluster, key: Key, uid: Uid)
    requires key in c.jobs
  {
    && c'.jobs == c.jobs - {key}
    && (forall p :: p in c'.pods <==> p in c.pods && !(p.key.ns == key.ns && p.jobUid == Some(c.jobs[key].uid)))
    && (cfg.trustedCa != "" && key.ns != cfg.namespace && Key(key.ns, cfg.trustedCa) in c'.configMaps ==>
          forall r | r in c'.configMaps[Key(key.ns, cfg.trustedCa)].owners :: r.uid != uid)
  }

  /** The cleanup, when it goes through. */
  lemma CleanupCleansUp(cfg: Config, c: Cluster, key: Key, uid: Uid)
    ensures var c' := ApplyAll(c, CleanupPlan(cfg, c, key, uid));
            && c'.mustGathers == c.mustGathers && c'.gathers == c.gathers && c'.errors == c.errors
            && if OwnedJob(c, key, uid) then CleanedUp(cfg, c, c', key, uid) else c' == c
  {
    if OwnedJob(c, key, uid) {
      var first := PodDeletions(PodsOf(c.pods, key.ns, c.jobs[key].uid)) + [DeleteJob(key)];
      var release := if cfg.trustedCa == "" then [] else ReleasePlan(cfg, c, key.ns, uid);
      JobAndPodsGo(c, key);
      var c1 := ApplyAll(c, first);
      ApplyAllConcat(c, first, release);
      ReleaseDependsOnConfigMaps(cfg, c, c1, key.ns, uid);
      ReleaseOnly(cfg, c1, key.ns, uid, release);
      assert CleanupPlan(cfg, c, key, uid) == first + release;
    }
  }

  lemma ReleaseOnly(cfg: Config, c: Cluster, ns: string, uid: Uid, release: seq<Write>)
    requires release == if cfg.trustedCa == "" then [] else ReleasePlan(cfg, c, ns, uid)
    ensures var c' := ApplyAll(c, release);
            && c' == c.(configMaps := c'.configMaps)
            && (NeedsCa(cfg, ns) && CaKey(cfg, ns) in c'.configMaps ==> forall r | r in c'.configMaps[CaKey(cfg, ns)].owners :: r.uid != uid)
  {
    if release != [] {
      ApplyOne(c, release[0]);
      assert release == [release[0]];
    }
  }

  lemma OutcomeStored(c: Cluster, key: Key, mg: MustGather, phase: Phase)
    requires key in c.mustGathers && c.mustGathers[key] == mg
    ensures var c' := ApplyAll(c, [SetStatus(key, OutcomeStatus(mg, phase))]);
            && OnlyReports(c, c', key) && c'.configMaps == c.configMaps
            && ReportAt(c', key) == OutcomeReport(phase) && Conditions(c', key) == Conditions(c, key)
  {
    ApplyOne(c, SetStatus(key, OutcomeStatus(mg, phase)));
  }

  /** What a pass over an ended Job leaves: the outcome in the status, and the Job only if retained or not owned. */
  ghost predicate Ended(cfg: Config, c: Cluster, c': Cluster, key: Key, phase: Phase)
    requires key in c.mustGathers && key in c.jobs
  {
    var mg := c.mustGathers[key];
    && key in c'.mustGathers && c'.mustGathers == c.mustGathers[key := mg.(status := c'.mustGathers[key].status)]
    && ReportAt(c', key) == Report(Some(phase), Some(true), Some(if phase == Completed then JobSucceeded else JobFailed))
    && Conditions(c', key) == Conditions(c, key)
    && c'.gathers == c.gathers
    && if mg.spec.retain != Some(true) && OwnedJob(c, key, mg.uid) then CleanedUp(cfg, c, c', key, mg.uid)
       else c'.jobs == c.jobs && c'.pods == c.pods && c'.configMaps == c.configMaps
  }

  lemma CompletionEnds(cfg: Config, c: Cluster, key: Key, phase: Phase)
    requires key in c.mustGathers && key in c.jobs
    ensures var mg := c.mustGathers[key]; var c' := ApplyAll(c, CompletionPlan(cfg, c, key, mg, phase));
            c'.errors == c.errors && Ended(cfg, c, c', key, phase)
  {
    var mg := c.mustGathers[key];
    var first := [SetStatus(key, OutcomeStatus(mg, phase))];
    var rest := if Retains(mg.spec) then [] else CleanupPlan(cfg, c, key, mg.uid);
    OutcomeStored(c, key, mg, phase);
    var c1 := ApplyAll(c, first);
    ApplyAllConcat(c, first, rest);
    CleanupDependsOn(cfg, c, c1, key, mg.uid);
    CleanupCleansUp(cfg, c1, key, mg.uid);
    assert Retains(mg.spec) ==> ApplyAll(c1, rest) == c1;
    EndedInTwo(cfg, c, c1, ApplyAll(c1, rest), key, phase);
  }

  /** The outcome is stored, then the cleanup is done or left. */
  lemma EndedInTwo(cfg: Config, c: Cluster, c1: Cluster, c2: Cluster, key: Key, phase: Phase)
    requires key in c.mustGathers && key in c.jobs && OnlyReports(c, c1, key) && c1.configMaps == c.configMaps
    requires ReportAt(c1, key) == OutcomeReport(phase) && Conditions(c1, key) == Conditions(c, key)
    requires c2.mustGathers == c1.mustGathers && c2.gathers == c1.gathers && c2.errors == c1.errors
    requires var mg := c.mustGathers[key];
             if !Retains(mg.spec) && OwnedJob(c, key, mg.uid) then CleanedUp(cfg, c1, c2, key, mg.uid) else c2 == c1
    ensures c2.errors == c.errors && Ended(cfg, c, c2, key, phase)
  {
  }

  lemma JobPlanEnds(cfg: Config, c: Cluster, key: Key, phase: Phase)
    requires key in c.mustGathers && key in c.jobs && VerdictOf(c.jobs[key].status, c.jobs[key].backoffLimit) == Finished(phase)
    ensures var mg := c.mustGathers[key]; var plan := JobPlan(cfg, c, key, mg, c.jobs[key]);
            && plan.ok && Ended(cfg, c, ApplyAll(c, plan.writes), key, phase)
            && ApplyAll(c, plan.writes).errors == c.errors + if phase == Failed then 1 else 0
  {
    if phase == Failed {
      FailureEnds(cfg, c, key);
    } else {
      CompletionEnds(cfg, c, key, phase);
    }
  }

  lemma CountFirst(cfg: Config, c: Cluster, c1: Cluster, key: Key, mg: MustGather, ws: seq<Write>)
    requires c1 == c.(errors := c.errors + 1) && ws == CompletionPlan(cfg, c, key, mg, Failed)
    ensures ApplyAll(c, [CountError] + ws) == ApplyAll(c1, ws) && ws == CompletionPlan(cfg, c1, key, mg, Failed)
  {
    assert Apply(c, CountError) == c1;
    ApplyOne(c, CountError);
    CompletionIgnoresCounters(cfg, c, key, mg, Failed);
    ApplyAllConcat(c, [CountError], ws);
  }

  lemma FailureEnds(cfg: Config, c: Cluster, key: Key)
    requires key in c.mustGathers && key in c.jobs
    ensures var c' := ApplyAll(c, [CountError] + CompletionPlan(cfg, c, key, c.mustGathers[key], Failed));
            Ended(cfg, c, c', key, Failed) && c'.errors == c.errors + 1
  {
    var c1 := c.(errors := c.errors + 1);
    var ws := CompletionPlan(cfg, c, key, c.mustGathers[key], Failed);
    CountFirst(cfg, c, c1, key, c.mustGathers[key], ws);
    FailureEndsFrom(cfg, c, c1, key, ws);
  }

  lemma FailureEndsFrom(cfg: Config, c: Cluster, c1: Cluster, key: Key, ws: seq<Write>)
    requires key in c.mustGathers && key in c.jobs && c1 == c.(errors := c.errors + 1)
    requires ws == CompletionPlan(cfg, c1, key, c1.mustGathers[key], Failed)
    ensures Ended(cfg, c, ApplyAll(c1, ws), key, Failed) && ApplyAll(c1, ws).errors == c.errors + 1
  {
    CompletionEnds(cfg, c1, key, Failed);
    EndedDespiteCount(cfg, c, c1, ApplyAll(c1, ws), key);
  }

  lemma EndedDespiteCount(cfg: Config, c: Cluster, c1: Cluster, c': Cluster, key: Key)
    requires key in c.mustGathers && key in c.jobs && c1 == c.(errors := c1.errors) && Ended(cfg, c1, c', key, Failed)
    ensures Ended(cfg, c, c', key, Failed)
  {
  }

  /** A pass over a Job that has ended: the copy first, then the outcome and the cleanup; an error is counted iff the Job has failed. */
  lemma EndedJobIsSettled(cfg: Config, obs: Obs, c: Cluster, key: Key, phase: Phase)
    requires Clear(cfg, c, key) && key in c.jobs && !StillRunning(c.jobs[key])
    requires phase == if c.jobs[key].status.succeeded > 0 then Completed else Failed
    ensures var plan := Planned(cfg, obs, c, key);
            && plan.ok && ApplyAll(c, plan.writes).errors == c.errors + (if phase == Failed then 1 else 0)
            && exists c1 :: CopyMade(cfg, c, c1, key, c.mustGathers[key].uid) && Ended(cfg, c1, ApplyAll(c, plan.writes), key, phase)
  {
    var c1 := CopyFirst(cfg, c, key);
    ThroughCopy(cfg, obs, c, key, c1);
    JobPlanEnds(cfg, c1, key, phase);
    assert CopyMade(cfg, c, c1, key, c.mustGathers[key].uid);
  }

  // ---------- a resource that is going ----------

  /** A deletion pass takes the finalizer off, and unless the resource retains, its Job with it. */
  lemma DeletionTakesAll(cfg: Config, obs: Obs, c: Cluster, key: Key)
    requires key in c.mustGathers && c.mustGathers[key].deleting && OperatorFinalizer in c.mustGathers[key].finalizers
    ensures var mg := c.mustGathers[key]; var plan := Planned(cfg, obs, c, key); var c' := ApplyAll(c, plan.writes);
            && plan.ok && c'.gathers == c.gathers && c'.errors == c.errors
            && c'.mustGathers == (if forall f | f in mg.finalizers :: f == OperatorFinalizer then c.mustGathers - {key}
                                  else c.mustGathers[key := mg.(finalizers := WithoutOperator(mg.finalizers))])
            && if mg.spec.retain != Some(true) && OwnedJob(c, key, mg.uid) then CleanedUp(cfg, c, c', key, mg.uid)
               else c'.jobs == c.jobs && c'.pods == c.pods && c'.configMaps == c.configMaps
  {
    assert Planned(cfg, obs, c, key) == DeletionPlan(cfg, c, key, c.mustGathers[key]);
    DeletionPlanTakesAll(cfg, c, key);
  }

  lemma DeletionPlanTakesAll(cfg: Config, c: Cluster, key: Key)
    requires key in c.mustGathers && c.mustGathers[key].deleting && OperatorFinalizer in c.mustGathers[key].finalizers
    ensures var mg := c.mustGathers[key]; var plan := DeletionPlan(cfg, c, key, mg); var c' := ApplyAll(c, plan.writes);
            && plan.ok && c'.gathers == c.gathers && c'.errors == c.errors
            && c'.mustGathers == (if forall f | f in mg.finalizers :: f == OperatorFinalizer then c.mustGathers - {key}
                                  else c.mustGathers[key := mg.(finalizers := WithoutOperator(mg.finalizers))])
            && if mg.spec.retain != Some(true) && OwnedJob(c, key, mg.uid) then CleanedUp(cfg, c, c', key, mg.uid)
               else c'.jobs == c.jobs && c'.pods == c.pods && c'.configMaps == c.configMaps
  {
    var mg := c.mustGathers[key];
    var first := if Retains(mg.spec) then [] else CleanupPlan(cfg, c, key, mg.uid);
    CleanupCleansUp(cfg, c, key, mg.uid);
    assert Retains(mg.spec) ==> ApplyAll(c, first) == c;
    NothingOfOthers(mg.finalizers);
    ApplyAllSnoc(c, first, SetFinalizers(key, WithoutOperator(mg.finalizers)));
    FinalizersOnly(ApplyAll(c, first), key, WithoutOperator(mg.finalizers));
  }

  lemma NothingOfOthers(finalizers: seq<Finalizer>)
    ensures WithoutOperator(finalizers) == [] <==> forall f | f in finalizers :: f == OperatorFinalizer
  {
    var rest := WithoutOperator(finalizers);
    if rest != [] {
      assert rest[0] in rest && rest[0] in finalizers;
    } else {
      assert forall f | f != OperatorFinalizer :: f in rest <==> f in finalizers;
    }
  }

  lemma FinalizersOnly(c: Cluster, key: Key, finalizers: seq<Finalizer>)
    requires key in c.mustGathers && c.mustGathers[key].deleting
    ensures var c' := Apply(c, SetFinalizers(key, finalizers));
            c' == c.(mustGathers := if finalizers == [] then c.mustGathers - {key} else c.mustGathers[key := c.mustGathers[key].(finalizers := finalizers)])
  {
  }

  // ---------- a Job to be created ----------

  /** What can stand in the way of a Job, in the order in which it is looked at. */
  datatype Obstacle =
    | NoStream | NoTag | NothingToPull | NoImageOfOurOwn | NoAccount | NoLogin | NoUser | NoPassword | NoServer

  function Rank(o: Obstacle): nat {
    match o
    case NoStream => 0
    case NoTag => 1
    case NothingToPull => 2
    case NoImageOfOurOwn => 3
    case NoAccount => 4
    case NoLogin => 5
    case NoUser => 6
    case NoPassword => 7
    case NoServer => 8
  }

  predicate StreamRead(cfg: Config, obs: Obs, c: Cluster, spec: Spec) {
    spec.imageStream.Some? && !obs.imageStreamUnavailable && Key(cfg.namespace, spec.imageStream.value.name) in c.imageStreams
  }

  function Tags(cfg: Config, c: Cluster, spec: Spec): seq<Tag> {
    if spec.imageStream.Some? && Key(cfg.namespace, spec.imageStream.value.name) in c.imageStreams
    then c.imageStreams[Key(cfg.namespace, spec.imageStream.value.name)] else []
  }

  /** The login a resource names, if it uploads by SFTP. */
  function LoginName(spec: Spec): string {
    if spec.upload.Some? && spec.upload.value.sftp.Some? then spec.upload.value.sftp.value.secret else ""
  }

  function Login(c: Cluster, key: Key, spec: Spec, field: string): string {
    var at := Key(key.ns, LoginName(spec));
    if at in c.secrets && field in c.secrets[at] then c.secrets[at][field] else ""
  }

  predicate LoginFound(c: Cluster, key: Key, spec: Spec) {
    LoginName(spec) != "" && Key(key.ns, LoginName(spec)) in c.secrets
  }

  function Server(spec: Spec): string {
    if spec.upload.Some? && spec.upload.value.sftp.Some? && spec.upload.value.sftp.value.host.Some? then spec.upload.value.sftp.value.host.value else ""
  }

  ghost predicate Stands(cfg: Config, obs: Obs, c: Cluster, key: Key, spec: Spec, o: Obstacle) {
    match o
    case NoStream => spec.imageStream.Some? && !StreamRead(cfg, obs, c, spec)
    case NoTag => spec.imageStream.Some? && forall t | t in Tags(cfg, c, spec) :: t.name != spec.imageStream.value.tag
    case NothingToPull => spec.imageStream.Some? && !exists j: nat :: FirstPullable(Tags(cfg, c, spec), spec.imageStream.value.tag, j)
    case NoImageOfOurOwn => obs.operatorImage.None?
    case NoAccount => Key(key.ns, spec.serviceAccount) !in c.serviceAccounts
    case NoLogin => LoginName(spec) != "" && !LoginFound(c, key, spec)
    case NoUser => LoginFound(c, key, spec) && Login(c, key, spec, "username") == ""
    case NoPassword => LoginFound(c, key, spec) && Login(c, key, spec, "password") == ""
    case NoServer =>
      LoginFound(c, key, spec) && !Reachable(obs.dial(Login(c, key, spec, "username"), Login(c, key, spec, "password"), Server(spec)))
  }

  ghost predicate First(cfg: Config, obs: Obs, c: Cluster, key: Key, spec: Spec, o: Obstacle) {
    Stands(cfg, obs, c, key, spec, o) && forall p | Rank(p) < Rank(o) :: !Stands(cfg, obs, c, key, spec, p)
  }

  ghost predicate InOrder(cfg: Config, obs: Obs, c: Cluster, key: Key, spec: Spec) {
    forall o :: !Stands(cfg, obs, c, key, spec, o)
  }

  /** What may still come, and is waited for: the operator's image and the login. */
  predicate Awaited(o: Obstacle) {
    o == NoImageOfOurOwn || o == NoLogin
  }

  function IssueOf(spec: Spec, o: Obstacle): Issue
    requires Awaited(o)
  {
    if o == NoLogin then SecretMissing(LoginName(spec)) else NoOperatorImage
  }

  function WhyOf(spec: Spec, o: Obstacle): Validation
    requires !Awaited(o)
  {
    match o
    case NoStream => ImageInvalid(StreamUnavailable)
    case NoTag => ImageInvalid(TagNotFound)
    case NothingToPull => ImageInvalid(TagNotPullable)
    case NoAccount => ServiceAccountMissing(spec.serviceAccount)
    case NoUser => UsernameMissing(LoginName(spec))
    case NoPassword => PasswordMissing(LoginName(spec))
    case NoServer => SftpUnreachable
  }

  /** A Job is there, made for the resource, fresh, and counted. */
  ghost predicate JobCreated(c: Cluster, c': Cluster, key: Key) {
    && key in c.mustGathers && key in c'.mustGathers && key in c'.jobs
    && var mg := c.mustGathers[key]; var job := c'.jobs[key];
       && c'.mustGathers == c.mustGathers[key := mg.(status := c'.mustGathers[key].status)] && ReportAt(c', key) == ReportAt(c, key)
       && c'.jobs == c.jobs[key := job] && job.uid == c.nextUid && job.status == FRESH
       && job.owners == [OwnerRef("MustGather", key.name, mg.uid, true)] && job.origin == ByOperator(mg.uid, mg.spec.retain == Some(true))
       && c'.pods == c.pods && c'.gathers == c.gathers + 1 && c'.errors == c.errors
       && (ReportAt(c, key).completed.Some? ==> Conditions(c', key) == Conditions(c, key)[ReconcileSuccess := CycleSucceeded(mg.generation)])
  }

  /** Which image faults stand, and what the lookup of the image comes to. */
  lemma ImageFaults(cfg: Config, obs: Obs, c: Cluster, key: Key, spec: Spec)
    ensures ResolveImage(cfg, obs, c, spec)
            == if Stands(cfg, obs, c, key, spec, NoStream) then NoImage(StreamUnavailable)
               else if Stands(cfg, obs, c, key, spec, NoTag) then NoImage(TagNotFound)
               else if Stands(cfg, obs, c, key, spec, NothingToPull) then NoImage(TagNotPullable)
               else ResolveImage(cfg, obs, c, spec)
    ensures Stands(cfg, obs, c, key, spec, NoStream) || Stands(cfg, obs, c, key, spec, NoTag) || Stands(cfg, obs, c, key, spec, NothingToPull)
            <==> ResolveImage(cfg, obs, c, spec).NoImage?
  {
    if StreamRead(cfg, obs, c, spec) {
      var tags, wanted := Tags(cfg, c, spec), spec.imageStream.value.tag;
      TagFaults(tags, wanted);
      assert ResolveImage(cfg, obs, c, spec) == FromTags(tags, wanted);
      assert Stands(cfg, obs, c, key, spec, NoTag) <==> FromTags(tags, wanted) == NoImage(TagNotFound);
      assert Stands(cfg, obs, c, key, spec, NothingToPull) <==> FromTags(tags, wanted).NoImage?;
      assert !Stands(cfg, obs, c, key, spec, NoStream);
    } else if spec.imageStream.Some? {
      assert Stands(cfg, obs, c, key, spec, NoStream);
    }
  }

  lemma {:induction false} TagFaults(tags: seq<Tag>, wanted: string)
    ensures FromTags(tags, wanted) == NoImage(TagNotFound) <==> forall t | t in tags :: t.name != wanted
    ensures FromTags(tags, wanted).Image? <==> exists j: nat :: FirstPullable(tags, wanted, j)
    ensures FromTags(tags, wanted).Image? || FromTags(tags, wanted) == NoImage(TagNotFound) || FromTags(tags, wanted) == NoImage(TagNotPullable)
  {
    if tags != [] {
      if tags[0].name == wanted {
        assert tags[0] in tags;
        assert forall j: nat | FirstPullable(tags, wanted, j) :: j == 0;
        assert FromTags(tags, wanted).Image? ==> FirstPullable(tags, wanted, 0);
      } else {
        TagFaults(tags[1..], wanted);
        assert forall t :: t in tags <==> t == tags[0] || t in tags[1..];
        FirstOfRest(tags, wanted);
      }
    }
  }

  lemma FirstOfRest(tags: seq<Tag>, wanted: string)
    requires tags != [] && tags[0].name != wanted
    ensures (exists j: nat :: FirstPullable(tags, wanted, j)) <==> exists j: nat :: FirstPullable(tags[1..], wanted, j)
  {
    if j: nat :| FirstPullable(tags, wanted, j) {
      assert forall m | 0 <= m < |tags| - 1 :: tags[1..][m] == tags[m + 1];
      assert FirstPullable(tags[1..], wanted, j - 1);
    }
    if j: nat :| FirstPullable(tags[1..], wanted, j) {
      assert forall m | 0 < m < |tags| :: tags[m] == tags[1..][m - 1];
      assert FirstPullable(tags, wanted, j + 1);
    }
  }

  /** Which login faults stand, and what the check of the credentials comes to. */
  lemma LoginFaults(cfg: Config, obs: Obs, c: Cluster, key: Key, spec: Spec)
    ensures CheckCredentials(obs, c, key, spec)
            == if LoginName(spec) == "" then NotNeeded
               else if Stands(cfg, obs, c, key, spec, NoLogin) then NoSecret
               else if Stands(cfg, obs, c, key, spec, NoUser) then Unusable(UsernameMissing(LoginName(spec)))
               else if Stands(cfg, obs, c, key, spec, NoPassword) then Unusable(PasswordMissing(LoginName(spec)))
               else if Stands(cfg, obs, c, key, spec, NoServer) then Unusable(SftpUnreachable)
               else Accepted
  {
    if LoginFound(c, key, spec) {
      DialSucceedsIff(obs.dial(Login(c, key, spec, "username"), Login(c, key, spec, "password"), Server(spec)));
    }
  }

  /** The plan for a Job if nothing stands in the way. */
  lemma PlanInOrder(cfg: Config, obs: Obs, pod: PodTemplate, c: Cluster, key: Key, mg: MustGather)
    requires InOrder(cfg, obs, c, key, mg.spec)
    ensures CreatePlan(cfg, obs, pod, c, key, mg) == Then([CreateJob(key, NewJob(key, mg, pod)), CountGather], Approval(key, mg, mg.status))
  {
    ImageFaults(cfg, obs, c, key, mg.spec);
    LoginFaults(cfg, obs, c, key, mg.spec);
    assert !Stands(cfg, obs, c, key, mg.spec, NoImageOfOurOwn) && !Stands(cfg, obs, c, key, mg.spec, NoAccount);
  }

  /** The first obstacle is the one after which none that comes before it stands. */
  lemma NothingBefore(cfg: Config, obs: Obs, c: Cluster, key: Key, spec: Spec, o: Obstacle)
    requires First(cfg, obs, c, key, spec, o)
    ensures Stands(cfg, obs, c, key, spec, o)
    ensures Rank(o) > 0 ==> !Stands(cfg, obs, c, key, spec, NoStream)
    ensures Rank(o) > 1 ==> !Stands(cfg, obs, c, key, spec, NoTag)
    ensures Rank(o) > 2 ==> !Stands(cfg, obs, c, key, spec, NothingToPull)
    ensures Rank(o) > 3 ==> !Stands(cfg, obs, c, key, spec, NoImageOfOurOwn)
    ensures Rank(o) > 4 ==> !Stands(cfg, obs, c, key, spec, NoAccount)
    ensures Rank(o) > 5 ==> !Stands(cfg, obs, c, key, spec, NoLogin)
    ensures Rank(o) > 6 ==> !Stands(cfg, obs, c, key, spec, NoUser)
    ensures Rank(o) > 7 ==> !Stands(cfg, obs, c, key, spec, NoPassword)
  {
    assert Rank(NoStream) == 0 && Rank(NoTag) == 1 && Rank(NothingToPull) == 2 && Rank(NoImageOfOurOwn) == 3;
    assert Rank(NoAccount) == 4 && Rank(NoLogin) == 5 && Rank(NoUser) == 6 && Rank(NoPassword) == 7;
  }

  /** The plan for a Job, by the first obstacle. */
  lemma PlanAtObstacle(cfg: Config, obs: Obs, pod: PodTemplate, c: Cluster, key: Key, mg: MustGather, o: Obstacle)
    requires First(cfg, obs, c, key, mg.spec, o)
    ensures CreatePlan(cfg, obs, pod, c, key, mg)
            == if Awaited(o) then Complaint(key, mg, IssueOf(mg.spec, o)) else Rejection(key, mg, WhyOf(mg.spec, o))
  {
    ImageFaults(cfg, obs, c, key, mg.spec);
    LoginFaults(cfg, obs, c, key, mg.spec);
    NothingBefore(cfg, obs, c, key, mg.spec, o);
  }

  /** Either all is in order or there is a first obstacle, and only one. */
  lemma OneFirstObstacle(cfg: Config, obs: Obs, c: Cluster, key: Key, spec: Spec) returns (o: Obstacle)
    ensures InOrder(cfg, obs, c, key, spec) || First(cfg, obs, c, key, spec, o)
    ensures forall p | First(cfg, obs, c, key, spec, p) :: !InOrder(cfg, obs, c, key, spec) && p == o
  {
    if p :| Stands(cfg, obs, c, key, spec, p) {
      o := Earliest(cfg, obs, c, key, spec, p);
    } else {
      o := NoStream;
    }
    forall p | First(cfg, obs, c, key, spec, p) ensures p == o {
      assert Stands(cfg, obs, c, key, spec, p);
    }
  }

  lemma {:induction false} Earliest(cfg: Config, obs: Obs, c: Cluster, key: Key, spec: Spec, p: Obstacle) returns (o: Obstacle)
    requires Stands(cfg, obs, c, key, spec, p)
    ensures First(cfg, obs, c, key, spec, o)
    decreases Rank(p)
  {
    if q :| Rank(q) < Rank(p) && Stands(cfg, obs, c, key, spec, q) {
      o := Earliest(cfg, obs, c, key, spec, q);
    } else {
      o := p;
    }
  }

  lemma CreationCreates(c: Cluster, key: Key, mg: MustGather, pod: PodTemplate)
    requires key in c.mustGathers && c.mustGathers[key] == mg && key !in c.jobs
    ensures var plan := Then([CreateJob(key, NewJob(key, mg, pod)), CountGather], Approval(key, mg, mg.status));
            var c' := ApplyAll(c, plan.writes);
            JobCreated(c, c', key) && c'.configMaps == c.configMaps && (plan.ok <==> ReportAt(c, key).completed.Some?)
  {
    var create := CreateJob(key, NewJob(key, mg, pod));
    var first := [create] + [CountGather];
    ApplyOne(c, create);
    ApplyAllSnoc(c, [create], CountGather);
    var c2 := ApplyAll(c, first);
    var report := Approval(key, mg, mg.status).writes;
    ApplyAllConcat(c, first, report);
    assert Then([create, CountGather], Approval(key, mg, mg.status)).writes == first + report;
    if report != [] {
      ApplyOne(c2, report[0]);
      assert report == [report[0]];
    } else {
      assert ApplyAll(c2, report) == c2;
      assert c.mustGathers[key := mg.(status := mg.status)] == c.mustGathers;
    }
  }

  /**
    A pass over a resource without a Job. It makes the Job iff nothing stands in the way.
    If the first thing in the way is one that is waited for, it ends with an error, so
    that it is retried, and leaves the outcome as it was. If it is any other, the
    resource is given up for the reason that belongs to it, and the pass ends well.
   */
  lemma MissingJobIsCreatedOrNot(cfg: Config, obs: Obs, c: Cluster, key: Key) returns (o: Obstacle)
    requires Clear(cfg, c, key) && key !in c.jobs
    ensures var mg := c.mustGathers[key]; var plan := Planned(cfg, obs, c, key); var c' := ApplyAll(c, plan.writes);
            && HasCopy(cfg, c', key, mg.uid)
            && if InOrder(cfg, obs, c, key, mg.spec) then
                 JobCreated(c, c', key) && (plan.ok <==> ReportAt(c, key).completed.Some?)
               else
                 && First(cfg, obs, c, key, mg.spec, o)
                 && if Awaited(o) then !plan.ok && Complained(c, c', key, IssueOf(mg.spec, o))
                    else plan.ok && GivenUp(c, c', key, WhyOf(mg.spec, o))
  {
    var mg := c.mustGathers[key];
    o := OneFirstObstacle(cfg, obs, c, key, mg.spec);
    var c1 := CopyFirst(cfg, c, key);
    ThroughCopy(cfg, obs, c, key, c1);
    var plan := GatherPlan(cfg, obs, PodFor(cfg, obs, c, key), c1, key, mg);
    GatherBehindCopy(cfg, obs, PodFor(cfg, obs, c, key), c, c1, key, o, plan);
  }

  /** The same, once the copy is made, seen from before it was. */
  lemma GatherBehindCopy(cfg: Config, obs: Obs, pod: PodTemplate, c: Cluster, c1: Cluster, key: Key, o: Obstacle, plan: Plan)
    requires key in c.mustGathers && key !in c.jobs && CopyMade(cfg, c, c1, key, c.mustGathers[key].uid)
    requires ConfigFound(c1, key, c.mustGathers[key].spec) && plan == GatherPlan(cfg, obs, pod, c1, key, c.mustGathers[key])
    requires InOrder(cfg, obs, c, key, c.mustGathers[key].spec) || First(cfg, obs, c, key, c.mustGathers[key].spec, o)
    ensures var mg := c.mustGathers[key]; var c' := ApplyAll(c1, plan.writes);
            && HasCopy(cfg, c', key, mg.uid)
            && if InOrder(cfg, obs, c, key, mg.spec) then
                 JobCreated(c, c', key) && (plan.ok <==> ReportAt(c, key).completed.Some?)
               else if Awaited(o) then !plan.ok && Complained(c, c', key, IssueOf(mg.spec, o))
               else plan.ok && GivenUp(c, c', key, WhyOf(mg.spec, o))
  {
    SameObstacles(cfg, obs, c, c1, key, c.mustGathers[key].spec);
    GatherByObstacle(cfg, obs, pod, c1, key, c.mustGathers[key], o);
  }

  lemma SameObstacle(cfg: Config, obs: Obs, c: Cluster, c1: Cluster, key: Key, spec: Spec, o: Obstacle)
    requires c1 == c.(configMaps := c1.configMaps)
    ensures Stands(cfg, obs, c1, key, spec, o) <==> Stands(cfg, obs, c, key, spec, o)
  {
    assert Tags(cfg, c1, spec) == Tags(cfg, c, spec);
    assert Login(c1, key, spec, "username") == Login(c, key, spec, "username");
    assert Login(c1, key, spec, "password") == Login(c, key, spec, "password");
  }

  lemma SameObstacles(cfg: Config, obs: Obs, c: Cluster, c1: Cluster, key: Key, spec: Spec)
    requires c1 == c.(configMaps := c1.configMaps)
    ensures InOrder(cfg, obs, c1, key, spec) <==> InOrder(cfg, obs, c, key, spec)
    ensures forall o :: First(cfg, obs, c1, key, spec, o) <==> First(cfg, obs, c, key, spec, o)
  {
    forall o ensures Stands(cfg, obs, c1, key, spec, o) <==> Stands(cfg, obs, c, key, spec, o) {
      SameObstacle(cfg, obs, c, c1, key, spec, o);
    }
  }

  lemma GatherByObstacle(cfg: Config, obs: Obs, pod: PodTemplate, c: Cluster, key: Key, mg: MustGather, o: Obstacle)
    requires key in c.mustGathers && c.mustGathers[key] == mg && key !in c.jobs && ConfigFound(c, key, mg.spec)
    requires InOrder(cfg, obs, c, key, mg.spec) || First(cfg, obs, c, key, mg.spec, o)
    ensures var plan := GatherPlan(cfg, obs, pod, c, key, mg); var c' := ApplyAll(c, plan.writes);
            && c'.configMaps == c.configMaps
            && if InOrder(cfg, obs, c, key, mg.spec) then
                 JobCreated(c, c', key) && (plan.ok <==> ReportAt(c, key).completed.Some?)
               else if Awaited(o) then !plan.ok && Complained(c, c', key, IssueOf(mg.spec, o))
               else plan.ok && GivenUp(c, c', key, WhyOf(mg.spec, o))
  {
    if InOrder(cfg, obs, c, key, mg.spec) {
      PlanInOrder(cfg, obs, pod, c, key, mg);
      CreationCreates(c, key, mg, pod);
    } else if Awaited(o) {
      PlanAtObstacle(cfg, obs, pod, c, key, mg, o);
      ComplaintComplains(c, key, mg, IssueOf(mg.spec, o));
    } else {
      PlanAtObstacle(cfg, obs, pod, c, key, mg, o);
      RejectionGivesUp(c, key, mg, WhyOf(mg.spec, o));
    }
  }

  /** So, exactly: a Job comes of it iff all is in order, and a retry without a Job iff the first obstacle is one that is waited for. */
  lemma CreatedIffInOrder(cfg: Config, obs: Obs, c: Cluster, key: Key)
    requires Clear(cfg, c, key) && key !in c.jobs
    ensures var spec := c.mustGathers[key].spec; var plan := Planned(cfg, obs, c, key); var c' := ApplyAll(c, plan.writes);
            && (key in c'.jobs <==> InOrder(cfg, obs, c, key, spec))
            && (!plan.ok && key !in c'.jobs <==> First(cfg, obs, c, key, spec, NoImageOfOurOwn) || First(cfg, obs, c, key, spec, NoLogin))
  {
    var o := MissingJobIsCreatedOrNot(cfg, obs, c, key);
    var p := OneFirstObstacle(cfg, obs, c, key, c.mustGathers[key].spec);
  }
}
