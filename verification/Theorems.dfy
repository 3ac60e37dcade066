/**
  What holds over every run, at every point of it, between any two writes of a pass.
 */
module Theorems {
  import opened Api
  import opened JobController
  import opened JobTemplate
  import opened Sftp
  import opened Cluster
  import opened Plan
  import opened Protocol
  import opened Invariants
  import opened Environment
  import opened Wakeups
  import opened Runs

  /** The cluster after `n` writes of step `i`; with n == 0, between two steps. */
  function At(states: seq<System>, labels: seq<Label>, i: nat, n: nat): Cluster
    requires i < |states|
    requires n == 0 || (i < |labels| && labels[i].Writes() && n <= |labels[i].done|)
  {
    if n == 0 then states[i].c else ApplyAll(states[i].c, labels[i].done[..n])
  }

  lemma InvAt(cfg: Config, states: seq<System>, labels: seq<Label>, i: nat, n: nat)
    requires Run(cfg, states, labels) && i < |states|
    requires n == 0 || (i < |labels| && labels[i].Writes() && n <= |labels[i].done|)
    ensures Inv(cfg, At(states, labels, i, n))
  {
    RunKeepsInv(cfg, states, labels, i);
    if n > 0 {
      var l := labels[i];
      assert StepAt(cfg, states, labels, i);
      var pod := PodFor(cfg, l.obs, states[i].c, l.key);
      StepIsLegal(cfg, states[i], l, states[i + 1]);
      LegalPrefix(cfg, l.obs, pod, states[i].c, l.key, l.done, n);
      LegalPreserves(cfg, l.obs, pod, states[i].c, l.key, l.done[..n]);
    }
  }

  // ---------- safety ----------

  /**
    Dependency: a Job of the operator outside its own namespace, whose resource is still
    stored, finds the trusted CA copy in its namespace, held by that resource, whatever
    other resources of the namespace do.
   */
  lemma JobsKeepTheirTrustedCa(cfg: Config, states: seq<System>, labels: seq<Label>, i: nat, n: nat, k: Key)
    requires Run(cfg, states, labels) && i < |states|
    requires n == 0 || (i < |labels| && labels[i].Writes() && n <= |labels[i].done|)
    requires var c := At(states, labels, i, n); k in c.mustGathers && MadeFor(c, k, c.mustGathers[k].uid)
    requires cfg.trustedCa != "" && k.ns != cfg.namespace
    ensures var c := At(states, labels, i, n);
            && Key(k.ns, cfg.trustedCa) in c.configMaps
            && exists r | r in c.configMaps[Key(k.ns, cfg.trustedCa)].owners :: r.uid == c.mustGathers[k].uid
  {
    InvAt(cfg, states, labels, i, n);
    var c := At(states, labels, i, n);
    assert HoldsCa(cfg, c, k.ns, c.mustGathers[k].uid);
  }

  /**
    No orphans: a Job made for a non-retaining resource exists only while that very
    resource is stored and carries the operator's finalizer, and each of its pods only
    while the Job exists.
   */
  lemma NoOrphans(cfg: Config, states: seq<System>, labels: seq<Label>, i: nat, n: nat)
    requires Run(cfg, states, labels) && i < |states|
    requires n == 0 || (i < |labels| && labels[i].Writes() && n <= |labels[i].done|)
    ensures var c := At(states, labels, i, n);
            && (forall k | k in c.jobs && c.jobs[k].origin.ByOperator? && !c.jobs[k].origin.retain ::
                  Held(c, k) && c.mustGathers[k].uid == c.jobs[k].origin.mg)
            && (forall p | p in c.pods && p.origin.ByOperator? && !p.origin.retain ::
                  var k := Key(p.key.ns, p.jobName);
                  k in c.jobs && p.jobUid == Some(c.jobs[k].uid) && c.jobs[k].origin == p.origin)
  {
    InvAt(cfg, states, labels, i, n);
    var c := At(states, labels, i, n);
    forall k | k in c.jobs && c.jobs[k].origin.ByOperator? && !c.jobs[k].origin.retain
      ensures Held(c, k) && c.mustGathers[k].uid == c.jobs[k].origin.mg
    {
      assert OperatorJobInv(c, k);
    }
    forall p | p in c.pods && p.origin.ByOperator? && !p.origin.retain
      ensures PodHasJob(c, p)
    {
    }
  }

  /** Once a non-retaining resource is gone, or its finalizer is, nothing made for it is left. */
  lemma NothingLeftBehind(cfg: Config, states: seq<System>, labels: seq<Label>, i: nat, uid: Uid)
    requires Run(cfg, states, labels) && i < |states|
    requires forall k | k in states[i].c.mustGathers && states[i].c.mustGathers[k].uid == uid :: !Held(states[i].c, k)
    ensures forall k | k in states[i].c.jobs :: states[i].c.jobs[k].origin != ByOperator(uid, false)
    ensures forall p | p in states[i].c.pods :: p.origin != ByOperator(uid, false)
  {
    NoOrphans(cfg, states, labels, i, 0);
    var c := At(states, labels, i, 0);
    forall k | k in c.jobs ensures c.jobs[k].origin != ByOperator(uid, false) {
      assert c.jobs[k].origin.ByOperator? && !c.jobs[k].origin.retain ==> Held(c, k) && c.mustGathers[k].uid == c.jobs[k].origin.mg;
    }
    forall p | p in c.pods ensures p.origin != ByOperator(uid, false) {
      var k := Key(p.key.ns, p.jobName);
      assert p.origin.ByOperator? && !p.origin.retain ==> k in c.jobs && c.jobs[k].origin == p.origin;
    }
  }

  // ---------- what a single write of a pass may do ----------

  lemma WriteIsEnabled(cfg: Config, states: seq<System>, labels: seq<Label>, i: nat, n: nat)
    requires Run(cfg, states, labels) && i < |labels| && labels[i].Writes() && n < |labels[i].done|
    ensures var l := labels[i];
            Enabled(cfg, l.obs, PodFor(cfg, l.obs, states[i].c, l.key), At(states, labels, i, n), l.key, l.done[n])
  {
    assert StepAt(cfg, states, labels, i);
    StepWriteIsEnabled(cfg, states[i], labels[i], states[i + 1], n);
    if n == 0 {
      assert labels[i].done[..0] == [];
      assert ApplyAll(states[i].c, []) == states[i].c;
    }
  }

  lemma StepWriteIsEnabled(cfg: Config, s: System, l: Label, s': System, n: nat)
    requires Step(cfg, s, l, s') && l.Writes() && n < |l.done|
    ensures Enabled(cfg, l.obs, PodFor(cfg, l.obs, s.c, l.key), ApplyAll(s.c, l.done[..n]), l.key, l.done[n])
  {
    StepIsLegal(cfg, s, l, s');
    LegalAt(cfg, l.obs, PodFor(cfg, l.obs, s.c, l.key), s.c, l.key, l.done, n);
  }

  lemma LegalAt(cfg: Config, obs: Obs, pod: PodTemplate, c: Cluster, key: Key, ws: seq<Write>, n: nat)
    requires Legal(cfg, obs, pod, c, key, ws) && n < |ws|
    ensures Enabled(cfg, obs, pod, ApplyAll(c, ws[..n]), key, ws[n])
  {
    LegalPrefix(cfg, obs, pod, c, key, ws, n + 1);
    assert ws[..n + 1][..n] == ws[..n];
  }

  /**
    The finalizer comes first and goes last: any write but the one that adds it happens
    under it; it is added at the end of the list; taking it off keeps the others in
    order, and happens, unless the resource retains, only when no Job of it is left.
   */
  lemma FinalizerDiscipline(cfg: Config, states: seq<System>, labels: seq<Label>, i: nat, n: nat)
    requires Run(cfg, states, labels) && i < |labels| && labels[i].Writes() && n < |labels[i].done|
    ensures var c, key, w := At(states, labels, i, n), labels[i].key, labels[i].done[n];
            && key in c.mustGathers
            && var mg := c.mustGathers[key];
               if OperatorFinalizer !in mg.finalizers then
                 !mg.deleting && w == SetFinalizers(key, mg.finalizers + [OperatorFinalizer])
               else if w.SetFinalizers? then
                 && mg.deleting && w == SetFinalizers(key, WithoutOperator(mg.finalizers))
                 && (Retains(mg.spec) || !OwnedJob(c, key, mg.uid))
               else true
  {
    WriteIsEnabled(cfg, states, labels, i, n);
  }

  lemma {:induction false} TakingOffKeepsOrder(a: seq<Finalizer>, b: seq<Finalizer>)
    ensures WithoutOperator(a + b) == WithoutOperator(a) + WithoutOperator(b)
  {
    if a == [] {
      assert a + b == b;
    } else {
      assert (a + b)[1..] == a[1..] + b;
      TakingOffKeepsOrder(a[1..], b);
    }
  }

  /** The finalizers of a stored resource, the operator's aside; none once it is gone. */
  function OthersFinalizers(c: Cluster, key: Key): seq<Finalizer> {
    if key in c.mustGathers then WithoutOperator(c.mustGathers[key].finalizers) else []
  }

  lemma FinalizersKept(c: Cluster, key: Key, finalizers: seq<Finalizer>, k: Key)
    requires key in c.mustGathers && WithoutOperator(finalizers) == WithoutOperator(c.mustGathers[key].finalizers)
    ensures OthersFinalizers(StoreFinalizers(c, key, finalizers), k) == OthersFinalizers(c, k)
  {
  }

  lemma WriteKeepsOthersFinalizers(cfg: Config, obs: Obs, pod: PodTemplate, c: Cluster, key: Key, w: Write, k: Key)
    requires Enabled(cfg, obs, pod, c, key, w)
    ensures OthersFinalizers(Apply(c, w), k) == OthersFinalizers(c, k)
  {
    if w.SetFinalizers? {
      var mg := c.mustGathers[key];
      TakingOffKeepsOrder(mg.finalizers, [OperatorFinalizer]);
      assert WithoutOperator([OperatorFinalizer]) == [];
      assert WithoutOperator(WithoutOperator(mg.finalizers)) == WithoutOperator(mg.finalizers);
      FinalizersKept(c, key, w.finalizers, k);
    } else if !w.SetStatus? {
      WriteLeavesResources(c, w);
    }
  }

  lemma {:induction false} LegalKeepsOthersFinalizers(cfg: Config, obs: Obs, pod: PodTemplate, c: Cluster, key: Key, ws: seq<Write>, k: Key)
    requires Legal(cfg, obs, pod, c, key, ws)
    ensures OthersFinalizers(ApplyAll(c, ws), k) == OthersFinalizers(c, k)
  {
    if ws != [] {
      LegalKeepsOthersFinalizers(cfg, obs, pod, c, key, ws[..|ws| - 1], k);
      WriteKeepsOthersFinalizers(cfg, obs, pod, ApplyAll(c, ws[..|ws| - 1]), key, ws[|ws| - 1], k);
    }
  }

  /** No pass, finished or cut short, adds, drops or reorders a finalizer that is not the operator's. */
  lemma OthersFinalizersAreKept(cfg: Config, c: Cluster, l: Label, k: Key)
    requires IsCut(cfg, c, l)
    ensures OthersFinalizers(ApplyAll(c, l.done), k) == OthersFinalizers(c, k)
  {
    var pod := PodFor(cfg, l.obs, c, l.key);
    CutIsLegal(cfg, l.obs, pod, c, l.key, l.done);
    LegalKeepsOthersFinalizers(cfg, l.obs, pod, c, l.key, l.done, k);
  }

  /**
    Durable outcome: whenever a pass deletes a pod or a Job of a resource that is not
    being deleted, the stored status already has the phase, the reason and completed,
    and they are those of the Job's verdict.
   */
  lemma OutcomeIsDurable(cfg: Config, states: seq<System>, labels: seq<Label>, i: nat, n: nat)
    requires Run(cfg, states, labels) && i < |labels| && labels[i].Writes() && n < |labels[i].done|
    requires labels[i].done[n].DeletePod? || labels[i].done[n].DeleteJob?
    ensures var c, key := At(states, labels, i, n), labels[i].key;
            && key in c.mustGathers && key in c.jobs
            && var mg := c.mustGathers[key];
               || mg.deleting
               || (exists phase :: VerdictOf(c.jobs[key].status, c.jobs[key].backoffLimit) == Finished(phase)
                                   && mg.status.Some? && mg.status.value.phase == Some(phase)
                                   && mg.status.value.completed == Some(true) && mg.status.value.reason == Some(ReasonFor(phase)))
  {
    WriteIsEnabled(cfg, states, labels, i, n);
    var c, key := At(states, labels, i, n), labels[i].key;
    var mg := c.mustGathers[key];
    if !mg.deleting {
      var v := VerdictOf(c.jobs[key].status, c.jobs[key].backoffLimit);
      assert v.Finished? && ReportOf(mg.status) == OutcomeReport(v.phase);
    }
  }

  /**
    Deletion frame: a pass for a retaining resource deletes nothing; any pass deletes only
    a Job that lists the resource as an owner and has no pod left, pods of that Job in
    its namespace, and the trusted CA copy when nobody else owns it.
   */
  lemma DeletesOnlyItsOwn(cfg: Config, states: seq<System>, labels: seq<Label>, i: nat, n: nat)
    requires Run(cfg, states, labels) && i < |labels| && labels[i].Writes() && n < |labels[i].done|
    requires var w := labels[i].done[n]; w.DeletePod? || w.DeleteJob? || w.DeleteConfigMap?
    ensures var c, key, w := At(states, labels, i, n), labels[i].key, labels[i].done[n];
            && key in c.mustGathers
            && var mg := c.mustGathers[key];
               && !Retains(mg.spec)
               && (w.DeletePod? ==> OwnedJob(c, key, mg.uid) && w.pod.key.ns == key.ns && w.pod.jobUid == Some(c.jobs[key].uid))
               && (w.DeleteJob? ==>
                     && w.key == key && OwnedJob(c, key, mg.uid)
                     && forall p | p in c.pods && p.key.ns == key.ns :: p.jobUid != Some(c.jobs[key].uid))
               && (w.DeleteConfigMap? ==>
                     && w.key == Key(key.ns, cfg.trustedCa) && w.key in c.configMaps
                     && forall r | r in c.configMaps[w.key].owners :: r.uid == mg.uid)
  {
    WriteIsEnabled(cfg, states, labels, i, n);
    var c, key, w := At(states, labels, i, n), labels[i].key, labels[i].done[n];
    if w.DeleteConfigMap? {
      var owners := c.configMaps[w.key].owners;
      assert forall r | r in owners && r.uid != c.mustGathers[key].uid :: r in Without(owners, c.mustGathers[key].uid);
    }
  }

  // ---------- no lost wake-up ----------

  /**
    In every state of every run, an instance that is not in the work queue has the
    generation and the finalizers its last pass left, and so has its Job its status; a
    Job of its own that the last pass has not seen has not begun.
   */
  lemma NoLostWakeUp(cfg: Config, states: seq<System>, labels: seq<Label>, i: nat, k: Key)
    requires Run(cfg, states, labels) && i < |states|
    requires k in states[i].c.mustGathers && k !in states[i].queue
    ensures var s := states[i];
            && k in s.seen && s.seen[k].uid == s.c.mustGathers[k].uid
            && s.seen[k].generation == s.c.mustGathers[k].generation && s.seen[k].finalizers == s.c.mustGathers[k].finalizers
            && (k in s.c.jobs && Controller(k, s.c.jobs[k]) == Some(k) && s.seen[k].job.Some? && s.seen[k].job.value.0 == s.c.jobs[k].uid
                ==> s.seen[k].job.value.1 == s.c.jobs[k].status)
            && (k in s.c.jobs && Controller(k, s.c.jobs[k]) == Some(k) && !(s.seen[k].job.Some? && s.seen[k].job.value.0 == s.c.jobs[k].uid)
                ==> s.c.jobs[k].status == FRESH)
  {
    RunKeepsInv(cfg, states, labels, i);
    assert AtRest(cfg, states[i], k);
  }

  /**
    So nothing is forgotten: an instance nobody is going to look at again has its
    finalizer if and only if it is not being deleted, and if its own Job has ended, the
    outcome of that Job is what its status says, and the Job is there only because the
    resource retains it.
   */
  lemma NothingIsForgotten(cfg: Config, states: seq<System>, labels: seq<Label>, i: nat, k: Key)
    requires Run(cfg, states, labels) && i < |states|
    requires k in states[i].c.mustGathers && k !in states[i].queue
    ensures var c := states[i].c; var mg := c.mustGathers[k];
            && (OperatorFinalizer in mg.finalizers <==> !mg.deleting)
            && (!mg.deleting && MadeFor(c, k, mg.uid) && !IsOperatorAccount(cfg, k, mg.spec) ==>
                  match VerdictOf(c.jobs[k].status, c.jobs[k].backoffLimit)
                  case Running => true
                  case Finished(phase) => Retains(mg.spec) && ReportOf(mg.status) == Report(Some(phase), Some(true), Some(ReasonFor(phase))))
  {
    RunKeepsInv(cfg, states, labels, i);
    var c := states[i].c;
    assert AtRest(cfg, states[i], k);
    if MadeFor(c, k, c.mustGathers[k].uid) {
      assert OperatorJobInv(c, k);
      assert FirstController(c.jobs[k].owners) == Some(c.jobs[k].owners[0]);
    }
  }

  /** The verdict on a Job of the operator is, at every point, what the Job controller means. */
  lemma VerdictOnOperatorJobs(cfg: Config, states: seq<System>, labels: seq<Label>, i: nat, k: Key)
    requires Run(cfg, states, labels) && i < |states|
    requires k in states[i].c.jobs && states[i].c.jobs[k].origin.ByOperator?
    ensures var job := states[i].c.jobs[k];
            && job.backoffLimit.Some?
            && (VerdictOf(job.status, job.backoffLimit) == Finished(Failed)
                <==> job.status.active == 0 && job.status.succeeded == 0 && !MayStart(job.status, job.backoffLimit.value))
            && (VerdictOf(job.status, job.backoffLimit) == Finished(Completed) <==> job.status.succeeded == 1)
  {
    RunKeepsInv(cfg, states, labels, i);
    assert OperatorJobInv(states[i].c, k);
  }

  /** A Job that goes away wakes nobody: whoever was following it is left as it is. */
  lemma JobRemovalWakesNobody(cfg: Config, c: Cluster, key: Key)
    ensures Wakes(cfg, c, Perform(c, CollectJob(key))) == {} && Wakes(cfg, c, Perform(c, RemoveJob(key))) == {}
  {
    LosingAJobWakesNobody(cfg, c, Perform(c, CollectJob(key)), key);
    LosingAJobWakesNobody(cfg, c, Perform(c, RemoveJob(key)), key);
  }

  lemma LosingAJobWakesNobody(cfg: Config, c: Cluster, c': Cluster, key: Key)
    requires c' == c.(jobs := c.jobs - {key}, collected := c'.collected)
    ensures Wakes(cfg, c, c') == {}
  {
    assert forall k | k in c'.jobs :: k in c.jobs && c'.jobs[k] == c.jobs[k];
  }
}
