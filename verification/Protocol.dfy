/**
  The rules of the protocol: when each write is allowed, judged by the cluster at the
  very moment of the write. Every write of every pass obeys them, wherever the pass is
  cut short.
 */
module Protocol {
  import opened Api
  import opened JobController
  import opened JobTemplate
  import opened Cluster
  import opened Plan

  /** The resource is there and the operator has put its finalizer on it. */
  predicate Held(c: Cluster, key: Key) {
    key in c.mustGathers && OperatorFinalizer in c.mustGathers[key].finalizers
  }

  /** The resource is among the owners of its namespace's copy of the trusted CA. */
  predicate HoldsCa(cfg: Config, c: Cluster, ns: string, uid: Uid) {
    CaKey(cfg, ns) in c.configMaps && Owns(c.configMaps[CaKey(cfg, ns)].owners, uid)
  }

  function OutcomeReport(phase: Phase): Report {
    Report(Some(phase), Some(true), Some(ReasonFor(phase)))
  }

  /** The stored status already says how the Job ended. */
  predicate OutcomeRecorded(mg: MustGather, job: Job) {
    match VerdictOf(job.status, job.backoffLimit)
    case Running => false
    case Finished(phase) => ReportOf(mg.status) == OutcomeReport(phase)
  }

  /** When a pass may delete what belongs to a run: it owns it, does not retain it, and nothing is lost. */
  predicate MayCleanUp(c: Cluster, key: Key) {
    && Held(c, key)
    && var mg := c.mustGathers[key];
       && !Retains(mg.spec)
       && OwnedJob(c, key, mg.uid)
       && (mg.deleting || OutcomeRecorded(mg, c.jobs[key]))
  }

  /** What has been established when a Job is created. */
  predicate CreationGate(cfg: Config, obs: Obs, pod: PodTemplate, c: Cluster, key: Key, job: Job) {
    && Held(c, key)
    && key !in c.jobs
    && var mg := c.mustGathers[key];
       && !mg.deleting
       && job == NewJob(key, mg, pod)
       && !IsOperatorAccount(cfg, key, mg.spec)
       && Key(key.ns, mg.spec.serviceAccount) in c.serviceAccounts
       && ResolveImage(cfg, obs, c, mg.spec).Image? && obs.operatorImage.Some?
       && (ConfigRef(mg.spec.obfuscate) != "" ==> Key(key.ns, ConfigRef(mg.spec.obfuscate)) in c.configMaps)
       && (NeedsCa(cfg, key.ns) ==> HoldsCa(cfg, c, key.ns, mg.uid))
       && CheckCredentials(obs, c, key, mg.spec) in [NotNeeded, Accepted]
  }

  predicate MayTakeCa(cfg: Config, c: Cluster, key: Key) {
    Held(c, key) && !c.mustGathers[key].deleting && NeedsCa(cfg, key.ns)
  }

  /** The hold on the trusted CA copy is let go only when no Job needs it any more. */
  predicate MayReleaseCa(cfg: Config, c: Cluster, key: Key) {
    && Held(c, key)
    && var mg := c.mustGathers[key];
       !Retains(mg.spec) && !OwnedJob(c, key, mg.uid) && NeedsCa(cfg, key.ns) && CaKey(cfg, key.ns) in c.configMaps
  }

  predicate Enabled(cfg: Config, obs: Obs, pod: PodTemplate, c: Cluster, key: Key, w: Write) {
    match w
    case SetFinalizers(k, finalizers) =>
      && k == key && key in c.mustGathers
      && var mg := c.mustGathers[key];
         if mg.deleting then
           && Held(c, key) && finalizers == WithoutOperator(mg.finalizers)
           && (!Retains(mg.spec) ==> !OwnedJob(c, key, mg.uid))
         else
           !Held(c, key) && finalizers == mg.finalizers + [OperatorFinalizer]
    case SetStatus(k, status) => k == key && Held(c, key) && status.completed.Some?
    case CreateConfigMap(k, configMap) =>
      && MayTakeCa(cfg, c, key) && k == CaKey(cfg, key.ns) && k !in c.configMaps
      && var source := CaKey(cfg, cfg.namespace);
         source in c.configMaps
         && configMap == ConfigMap([CaRef(key, c.mustGathers[key].uid)], c.configMaps[source].labels, c.configMaps[source].data)
    case SetOwners(k, owners) =>
      && k == CaKey(cfg, key.ns) && k in c.configMaps
      && (|| (MayTakeCa(cfg, c, key) && !HoldsCa(cfg, c, key.ns, c.mustGathers[key].uid)
              && owners == c.configMaps[k].owners + [CaRef(key, c.mustGathers[key].uid)])
          || (MayReleaseCa(cfg, c, key) && owners == Without(c.configMaps[k].owners, c.mustGathers[key].uid) && owners != []))
    case DeleteConfigMap(k) =>
      k == CaKey(cfg, key.ns) && MayReleaseCa(cfg, c, key) && Without(c.configMaps[k].owners, c.mustGathers[key].uid) == []
    case CreateJob(k, job) => k == key && CreationGate(cfg, obs, pod, c, key, job)
    case DeletePod(p) => MayCleanUp(c, key) && p.key.ns == key.ns && p.jobUid == Some(c.jobs[key].uid)
    case DeleteJob(k) =>
      k == key && MayCleanUp(c, key) && forall p | p in c.pods && p.key.ns == key.ns :: p.jobUid != Some(c.jobs[key].uid)
    case CountGather => Held(c, key) && key in c.jobs && c.jobs[key].origin.ByOperator?
    case CountError =>
      Held(c, key) && key in c.jobs && VerdictOf(c.jobs[key].status, c.jobs[key].backoffLimit) == Finished(Failed)
  }

  /** Every write of the list is allowed at the point where it is made. */
  predicate Legal(cfg: Config, obs: Obs, pod: PodTemplate, c: Cluster, key: Key, ws: seq<Write>) {
    ws == [] || (&& Legal(cfg, obs, pod, c, key, ws[..|ws| - 1])
                 && Enabled(cfg, obs, pod, ApplyAll(c, ws[..|ws| - 1]), key, ws[|ws| - 1]))
  }

  lemma {:induction false} LegalConcat(cfg: Config, obs: Obs, pod: PodTemplate, c: Cluster, key: Key, a: seq<Write>, b: seq<Write>)
    requires Legal(cfg, obs, pod, c, key, a) && Legal(cfg, obs, pod, ApplyAll(c, a), key, b)
    ensures Legal(cfg, obs, pod, c, key, a + b)
  {
    if b == [] {
      assert a + b == a;
    } else {
      var front := b[..|b| - 1];
      LegalConcat(cfg, obs, pod, c, key, a, front);
      ApplyAllConcat(c, a, front);
      assert (a + b)[..|a + b| - 1] == a + front;
    }
  }

  lemma {:induction false} LegalPrefix(cfg: Config, obs: Obs, pod: PodTemplate, c: Cluster, key: Key, ws: seq<Write>, n: nat)
    requires Legal(cfg, obs, pod, c, key, ws) && n <= |ws|
    ensures Legal(cfg, obs, pod, c, key, ws[..n])
  {
    if n == |ws| {
      assert ws[..n] == ws;
    } else {
      LegalPrefix(cfg, obs, pod, c, key, ws[..|ws| - 1], n);
      assert ws[..|ws| - 1][..n] == ws[..n];
    }
  }

  lemma LegalOne(cfg: Config, obs: Obs, pod: PodTemplate, c: Cluster, key: Key, w: Write)
    requires Enabled(cfg, obs, pod, c, key, w)
    ensures Legal(cfg, obs, pod, c, key, [w])
  {
    assert [w][..0] == [];
    assert ApplyAll(c, []) == c;
  }

  // ---------- every operation obeys the rules ----------

  lemma EnsureIsLegal(cfg: Config, obs: Obs, pod: PodTemplate, c: Cluster, key: Key)
    requires Held(c, key) && !c.mustGathers[key].deleting
    ensures Legal(cfg, obs, pod, c, key, CaPlan(cfg, c, key, c.mustGathers[key].uid).writes)
  {
    var ws := CaPlan(cfg, c, key, c.mustGathers[key].uid).writes;
    if ws != [] {
      LegalOne(cfg, obs, pod, c, key, ws[0]);
    }
  }

  /** After the copy is in place the resource holds it, unless no copy is needed. */
  lemma EnsureHoldsCa(cfg: Config, c: Cluster, key: Key, uid: Uid)
    requires NeedsCa(cfg, key.ns) && CaPlan(cfg, c, key, uid).ok
    ensures HoldsCa(cfg, ApplyAll(c, CaPlan(cfg, c, key, uid).writes), key.ns, uid)
  {
    var ws := CaPlan(cfg, c, key, uid).writes;
    var at := CaKey(cfg, key.ns);
    if ws != [] {
      ApplyOne(c, ws[0]);
      assert ws == [ws[0]];
      var owners := Apply(c, ws[0]).configMaps[at].owners;
      assert owners[|owners| - 1] == CaRef(key, uid);
    }
  }

  lemma ReleaseIsLegal(cfg: Config, obs: Obs, pod: PodTemplate, c: Cluster, key: Key)
    requires Held(c, key) && !OwnedJob(c, key, c.mustGathers[key].uid) && !Retains(c.mustGathers[key].spec) && cfg.trustedCa != ""
    ensures Legal(cfg, obs, pod, c, key, ReleasePlan(cfg, c, key.ns, c.mustGathers[key].uid))
  {
    var ws := ReleasePlan(cfg, c, key.ns, c.mustGathers[key].uid);
    if ws != [] {
      LegalOne(cfg, obs, pod, c, key, ws[0]);
    }
  }

  lemma {:induction false} PodDeletionsAreLegal(cfg: Config, obs: Obs, pod: PodTemplate, c: Cluster, key: Key, pods: seq<Pod>)
    requires MayCleanUp(c, key)
    requires forall p | p in pods :: p.key.ns == key.ns && p.jobUid == Some(c.jobs[key].uid)
    ensures Legal(cfg, obs, pod, c, key, PodDeletions(pods))
  {
    if pods != [] {
      var front := pods[..|pods| - 1];
      PodDeletionsAreLegal(cfg, obs, pod, c, key, front);
      PodDeletionsFrame(c, front);
      assert PodDeletions(pods)[..|pods| - 1] == PodDeletions(front);
    }
  }

  /** The pods, then their Job: afterwards the Job is gone, and only pods and the Job have changed. */
  lemma PodsThenJobIsLegal(cfg: Config, obs: Obs, pod: PodTemplate, c: Cluster, key: Key, uid: Uid, first: seq<Write>)
    requires MayCleanUp(c, key) && c.mustGathers[key].uid == uid
    requires first == PodDeletions(PodsOf(c.pods, key.ns, c.jobs[key].uid)) + [DeleteJob(key)]
    ensures Legal(cfg, obs, pod, c, key, first)
    ensures var c' := ApplyAll(c, first);
            c'.mustGathers == c.mustGathers && c'.configMaps == c.configMaps && key !in c'.jobs
  {
    var pods := PodsOf(c.pods, key.ns, c.jobs[key].uid);
    PodDeletionsAreLegal(cfg, obs, pod, c, key, pods);
    PodDeletionsFrame(c, pods);
    var c1 := ApplyAll(c, PodDeletions(pods));
    LegalOne(cfg, obs, pod, c1, key, DeleteJob(key));
    LegalConcat(cfg, obs, pod, c, key, PodDeletions(pods), [DeleteJob(key)]);
    ApplyAllSnoc(c, PodDeletions(pods), DeleteJob(key));
  }

  lemma CleanupIsLegal(cfg: Config, obs: Obs, pod: PodTemplate, c: Cluster, key: Key, uid: Uid)
    requires Held(c, key) && c.mustGathers[key].uid == uid && !Retains(c.mustGathers[key].spec)
    requires OwnedJob(c, key, uid) ==> c.mustGathers[key].deleting || OutcomeRecorded(c.mustGathers[key], c.jobs[key])
    ensures Legal(cfg, obs, pod, c, key, CleanupPlan(cfg, c, key, uid))
    ensures var c' := ApplyAll(c, CleanupPlan(cfg, c, key, uid));
            c'.mustGathers == c.mustGathers && !OwnedJob(c', key, uid)
  {
    CleanupLeavesResources(cfg, c, key, uid, CleanupPlan(cfg, c, key, uid));
    if OwnedJob(c, key, uid) {
      var first := PodDeletions(PodsOf(c.pods, key.ns, c.jobs[key].uid)) + [DeleteJob(key)];
      PodsThenJobIsLegal(cfg, obs, pod, c, key, uid, first);
      var c2 := ApplyAll(c, first);
      if cfg.trustedCa == "" {
        assert CleanupPlan(cfg, c, key, uid) == first;
      } else {
        var release := ReleasePlan(cfg, c, key.ns, uid);
        ReleaseDependsOnConfigMaps(cfg, c, c2, key.ns, uid);
        ReleaseIsLegal(cfg, obs, pod, c2, key);
        LegalConcat(cfg, obs, pod, c, key, first, release);
        ApplyAllConcat(c, first, release);
        ReleaseLeavesJobs(c2, release);
      }
    }
  }

  lemma ReleaseLeavesJobs(c: Cluster, release: seq<Write>)
    requires |release| <= 1 && forall w | w in release :: w.SetOwners? || w.DeleteConfigMap?
    ensures ApplyAll(c, release).jobs == c.jobs
  {
    if release != [] {
      ApplyOne(c, release[0]);
      assert release == [release[0]] && release[0] in release;
    }
  }

  lemma DeletionIsLegal(cfg: Config, obs: Obs, pod: PodTemplate, c: Cluster, key: Key)
    requires key in c.mustGathers && c.mustGathers[key].deleting
    ensures Legal(cfg, obs, pod, c, key, DeletionPlan(cfg, c, key, c.mustGathers[key]).writes)
  {
    var mg := c.mustGathers[key];
    if OperatorFinalizer in mg.finalizers {
      var first := if Retains(mg.spec) then [] else CleanupPlan(cfg, c, key, mg.uid);
      if !Retains(mg.spec) {
        CleanupIsLegal(cfg, obs, pod, c, key, mg.uid);
      } else {
        assert ApplyAll(c, []) == c;
      }
      LegalOne(cfg, obs, pod, ApplyAll(c, first), key, SetFinalizers(key, WithoutOperator(mg.finalizers)));
      LegalConcat(cfg, obs, pod, c, key, first, [SetFinalizers(key, WithoutOperator(mg.finalizers))]);
    }
  }

  lemma CompletionIsLegal(cfg: Config, obs: Obs, pod: PodTemplate, c: Cluster, key: Key, phase: Phase)
    requires Held(c, key) && key in c.jobs
    requires VerdictOf(c.jobs[key].status, c.jobs[key].backoffLimit) == Finished(phase)
    ensures Legal(cfg, obs, pod, c, key, CompletionPlan(cfg, c, key, c.mustGathers[key], phase))
  {
    var mg := c.mustGathers[key];
    var w := SetStatus(key, OutcomeStatus(mg, phase));
    LegalOne(cfg, obs, pod, c, key, w);
    ApplyOne(c, w);
    if !Retains(mg.spec) {
      var c1 := Apply(c, w);
      CleanupDependsOn(cfg, c, c1, key, mg.uid);
      CleanupIsLegal(cfg, obs, pod, c1, key, mg.uid);
      LegalConcat(cfg, obs, pod, c, key, [w], CleanupPlan(cfg, c, key, mg.uid));
    } else {
      assert [w] + [] == [w];
    }
  }

  lemma CleanupDependsOn(cfg: Config, c: Cluster, c': Cluster, key: Key, uid: Uid)
    requires c'.jobs == c.jobs && c'.pods == c.pods && c'.configMaps == c.configMaps
    ensures CleanupPlan(cfg, c', key, uid) == CleanupPlan(cfg, c, key, uid)
  {
  }

  lemma JobPlanIsLegal(cfg: Config, obs: Obs, pod: PodTemplate, c: Cluster, key: Key)
    requires Held(c, key) && key in c.jobs
    ensures Legal(cfg, obs, pod, c, key, JobPlan(cfg, c, key, c.mustGathers[key], c.jobs[key]).writes)
  {
    var mg, job := c.mustGathers[key], c.jobs[key];
    match VerdictOf(job.status, job.backoffLimit)
    case Running =>
      LegalOne(cfg, obs, pod, c, key, JobPlan(cfg, c, key, mg, job).writes[0]);
    case Finished(phase) =>
      CompletionIsLegal(cfg, obs, pod, c, key, phase);
      if phase == Failed {
        var c1 := Apply(c, CountError);
        assert c1 == c.(errors := c.errors + 1);
        LegalOne(cfg, obs, pod, c, key, CountError);
        ApplyOne(c, CountError);
        CompletionIgnoresCounters(cfg, c, key, mg, Failed);
        CompletionIsLegal(cfg, obs, pod, c1, key, Failed);
        LegalConcat(cfg, obs, pod, c, key, [CountError], CompletionPlan(cfg, c, key, mg, Failed));
      }
  }

  lemma CreationIsLegal(cfg: Config, obs: Obs, pod: PodTemplate, c: Cluster, key: Key)
    requires key in c.mustGathers
    requires CreationGate(cfg, obs, pod, c, key, NewJob(key, c.mustGathers[key], pod))
    ensures var mg := c.mustGathers[key];
            Legal(cfg, obs, pod, c, key, Then([CreateJob(key, NewJob(key, mg, pod)), CountGather], Approval(key, mg, mg.status)).writes)
  {
    var mg := c.mustGathers[key];
    var create, approve := CreateJob(key, NewJob(key, mg, pod)), Approval(key, mg, mg.status).writes;
    LegalOne(cfg, obs, pod, c, key, create);
    ApplyOne(c, create);
    var c1 := Apply(c, create);
    LegalOne(cfg, obs, pod, c1, key, CountGather);
    LegalConcat(cfg, obs, pod, c, key, [create], [CountGather]);
    ApplyAllSnoc(c, [create], CountGather);
    var c2 := Apply(c1, CountGather);
    if approve != [] {
      LegalOne(cfg, obs, pod, c2, key, approve[0]);
    }
    LegalConcat(cfg, obs, pod, c, key, [create] + [CountGather], approve);
    assert [create] + [CountGather] + approve == Then([create, CountGather], Approval(key, mg, mg.status)).writes;
  }

  lemma CreatePlanIsLegal(cfg: Config, obs: Obs, pod: PodTemplate, c: Cluster, key: Key)
    requires Held(c, key) && key !in c.jobs && !c.mustGathers[key].deleting
    requires !IsOperatorAccount(cfg, key, c.mustGathers[key].spec)
    requires NeedsCa(cfg, key.ns) ==> HoldsCa(cfg, c, key.ns, c.mustGathers[key].uid)
    requires var ref := ConfigRef(c.mustGathers[key].spec.obfuscate); ref != "" ==> Key(key.ns, ref) in c.configMaps
    ensures Legal(cfg, obs, pod, c, key, CreatePlan(cfg, obs, pod, c, key, c.mustGathers[key]).writes)
  {
    var mg := c.mustGathers[key];
    var ws := CreatePlan(cfg, obs, pod, c, key, mg).writes;
    if ws != [] && ws[0].SetStatus? {
      LegalOne(cfg, obs, pod, c, key, ws[0]);
    } else if ws != [] {
      CreationIsLegal(cfg, obs, pod, c, key);
    }
  }

  lemma ComplaintIsLegal(cfg: Config, obs: Obs, pod: PodTemplate, c: Cluster, key: Key, issue: Issue)
    requires Held(c, key)
    ensures Legal(cfg, obs, pod, c, key, Complaint(key, c.mustGathers[key], issue).writes)
  {
    var ws := Complaint(key, c.mustGathers[key], issue).writes;
    if ws != [] {
      LegalOne(cfg, obs, pod, c, key, ws[0]);
    }
  }

  lemma GatherIsLegal(cfg: Config, obs: Obs, pod: PodTemplate, c: Cluster, key: Key)
    requires Held(c, key) && !c.mustGathers[key].deleting
    requires !IsOperatorAccount(cfg, key, c.mustGathers[key].spec)
    requires NeedsCa(cfg, key.ns) ==> HoldsCa(cfg, c, key.ns, c.mustGathers[key].uid)
    ensures Legal(cfg, obs, pod, c, key, GatherPlan(cfg, obs, pod, c, key, c.mustGathers[key]).writes)
  {
    var mg := c.mustGathers[key];
    var config := ConfigRef(mg.spec.obfuscate);
    if config != "" && Key(key.ns, config) !in c.configMaps {
      ComplaintIsLegal(cfg, obs, pod, c, key, ObfuscationConfigMissing);
    } else if key in c.jobs {
      JobPlanIsLegal(cfg, obs, pod, c, key);
    } else {
      CreatePlanIsLegal(cfg, obs, pod, c, key);
    }
  }

  lemma ActiveIsLegal(cfg: Config, obs: Obs, pod: PodTemplate, c: Cluster, key: Key)
    requires key in c.mustGathers && !c.mustGathers[key].deleting
    ensures Legal(cfg, obs, pod, c, key, ActivePlan(cfg, obs, pod, c, key, c.mustGathers[key]).writes)
  {
    var mg := c.mustGathers[key];
    var plan := ActivePlan(cfg, obs, pod, c, key, mg);
    var ca := CaPlan(cfg, c, key, mg.uid);
    if Held(c, key) && !IsOperatorAccount(cfg, key, mg.spec) && !ca.ok {
      ComplaintIsLegal(cfg, obs, pod, c, key, TrustedCaFailed);
    } else if !Held(c, key) || IsOperatorAccount(cfg, key, mg.spec) {
      LegalOne(cfg, obs, pod, c, key, plan.writes[0]);
      assert plan.writes == [plan.writes[0]];
    } else {
      EnsureIsLegal(cfg, obs, pod, c, key);
      CaFrame(cfg, c, key, mg.uid, ca.writes);
      var c1 := ApplyAll(c, ca.writes);
      if NeedsCa(cfg, key.ns) {
        EnsureHoldsCa(cfg, c, key, mg.uid);
      }
      GatherIsLegal(cfg, obs, pod, c1, key);
      LegalConcat(cfg, obs, pod, c, key, ca.writes, GatherPlan(cfg, obs, pod, c1, key, mg).writes);
    }
  }

  /** Every write of a planned pass is allowed where it is made. */
  lemma PlanIsLegal(cfg: Config, obs: Obs, pod: PodTemplate, c: Cluster, key: Key)
    ensures Legal(cfg, obs, pod, c, key, PassPlan(cfg, obs, pod, c, key).writes)
  {
    if key in c.mustGathers {
      if c.mustGathers[key].deleting {
        DeletionIsLegal(cfg, obs, pod, c, key);
      } else {
        ActiveIsLegal(cfg, obs, pod, c, key);
      }
    }
  }

  /** And so is every write of a pass that failing calls cut short anywhere. */
  lemma PassIsLegal(cfg: Config, obs: Obs, pod: PodTemplate, c: Cluster, key: Key, done: seq<Write>, failures: nat, ok: bool)
    requires Outcome(c, key, PassPlan(cfg, obs, pod, c, key), done, failures, ok)
    ensures Legal(cfg, obs, pod, c, key, done)
  {
    var planned := PassPlan(cfg, obs, pod, c, key).writes;
    PlanIsLegal(cfg, obs, pod, c, key);
    if Stopped(planned, done) {
      LegalPrefix(cfg, obs, pod, c, key, planned, |done|);
      assert planned[..|done|] == done;
    } else if failures > 0 {
      var front := done[..|done| - 1];
      LegalPrefix(cfg, obs, pod, c, key, planned, |front|);
      assert planned[..|front|] == front;
    }
  }
}
