/**
  Where a stored outcome comes from: no pass makes one up.
 */
module Outcomes {
  import opened Api
  import opened JobController
  import opened JobTemplate
  import opened Cluster
  import opened Plan
  import opened Protocol
  import opened Invariants
  import opened Environment
  import opened Wakeups
  import opened Runs
  import opened Failures

  /** What a pass that found `prior` stored, and `job` under the resource's name, may store. */
  predicate Justified(prior: Report, job: Option<Job>, r: Report) {
    || r == prior
    || (r.phase == Some(Failed) && r.completed == Some(true) && r.reason.Some? && r.reason.value.Invalid?)
    || (job.Some? && FromVerdict(prior, job.value, r))
  }

  predicate FromVerdict(prior: Report, job: Job, r: Report) {
    match VerdictOf(job.status, job.backoffLimit)
    case Running => r == prior.(completed := Some(job.status.completionTime))
    case Finished(phase) => r == OutcomeReport(phase)
  }

  function JobAt(c: Cluster, key: Key): Option<Job> {
    if key in c.jobs then Some(c.jobs[key]) else None
  }

  lemma JobPlanIsJustified(cfg: Config, c: Cluster, key: Key, mg: MustGather, job: Job)
    ensures AllReport(JobPlan(cfg, c, key, mg, job).writes, r => Justified(ReportOf(mg.status), Some(job), r))
  {
    var kind := r => Justified(ReportOf(mg.status), Some(job), r);
    match VerdictOf(job.status, job.backoffLimit)
    case Running =>
    case Finished(phase) =>
      CompletionReportsOnce(cfg, c, key, mg, phase, kind);
      if phase == Failed {
        AllReportConcat([CountError], CompletionPlan(cfg, c, key, mg, phase), kind);
      }
  }

  lemma AllReportConcat(a: seq<Write>, b: seq<Write>, kind: Report -> bool)
    requires AllReport(a, kind) && AllReport(b, kind)
    ensures AllReport(a + b, kind)
  {
  }

  lemma CompletionReportsOnce(cfg: Config, c: Cluster, key: Key, mg: MustGather, phase: Phase, kind: Report -> bool)
    requires kind(OutcomeReport(phase))
    ensures AllReport(CompletionPlan(cfg, c, key, mg, phase), kind)
  {
    CleanupLeavesResources(cfg, c, key, mg.uid, CleanupPlan(cfg, c, key, mg.uid));
    AllReportConcat([SetStatus(key, OutcomeStatus(mg, phase))],
                    if Retains(mg.spec) then [] else CleanupPlan(cfg, c, key, mg.uid), kind);
  }

  lemma CreatePlanIsJustified(cfg: Config, obs: Obs, pod: PodTemplate, c: Cluster, key: Key, mg: MustGather, job: Option<Job>)
    ensures AllReport(CreatePlan(cfg, obs, pod, c, key, mg).writes, r => Justified(ReportOf(mg.status), job, r))
  {
    CreatePlanShape(cfg, obs, pod, c, key, mg);
  }

  lemma GatherPlanIsJustified(cfg: Config, obs: Obs, pod: PodTemplate, c: Cluster, key: Key, mg: MustGather, job: Option<Job>)
    requires job == JobAt(c, key)
    ensures AllReport(GatherPlan(cfg, obs, pod, c, key, mg).writes, r => Justified(ReportOf(mg.status), job, r))
  {
    if key in c.jobs {
      JobPlanIsJustified(cfg, c, key, mg, c.jobs[key]);
    } else {
      CreatePlanIsJustified(cfg, obs, pod, c, key, mg, None);
    }
  }

  lemma ActivePlanIsJustified(cfg: Config, obs: Obs, pod: PodTemplate, c: Cluster, key: Key, mg: MustGather)
    ensures AllReport(ActivePlan(cfg, obs, pod, c, key, mg).writes, r => Justified(ReportOf(mg.status), JobAt(c, key), r))
  {
    var ca := CaPlan(cfg, c, key, mg.uid);
    var c1 := ApplyAll(c, ca.writes);
    CaFrame(cfg, c, key, mg.uid, ca.writes);
    GatherPlanIsJustified(cfg, obs, pod, c1, key, mg, JobAt(c, key));
    AfterCaIsJustified(key, mg, ca, GatherPlan(cfg, obs, pod, c1, key, mg), JobAt(c, key));
  }

  lemma AfterCaIsJustified(key: Key, mg: MustGather, ca: Plan, rest: Plan, job: Option<Job>)
    requires LeavesResources(ca.writes) && AllReport(rest.writes, r => Justified(ReportOf(mg.status), job, r))
    ensures AllReport(AfterCa(key, mg, ca, rest).writes, r => Justified(ReportOf(mg.status), job, r))
  {
    AllReportConcat(ca.writes, rest.writes, r => Justified(ReportOf(mg.status), job, r));
  }

  lemma PassPlanIsJustified(cfg: Config, obs: Obs, pod: PodTemplate, c: Cluster, key: Key)
    ensures AllReport(PassPlan(cfg, obs, pod, c, key).writes, r => Justified(ReportAt(c, key), JobAt(c, key), r))
  {
    if key in c.mustGathers {
      var mg := c.mustGathers[key];
      if mg.deleting {
        CleanupLeavesResources(cfg, c, key, mg.uid, CleanupPlan(cfg, c, key, mg.uid));
      } else {
        ActivePlanIsJustified(cfg, obs, pod, c, key, mg);
      }
    }
  }

  /**
    What a pass leaves as the reported outcome, wherever it is cut short: the one before,
    a validation failure, or what the Job's verdict in this very pass calls for.
   */
  lemma ReportsAreJustified(cfg: Config, c: Cluster, l: Label)
    requires IsCut(cfg, c, l) && l.key in ApplyAll(c, l.done).mustGathers
    ensures Justified(ReportAt(c, l.key), JobAt(c, l.key), ReportAt(ApplyAll(c, l.done), l.key))
  {
    var pod := PodFor(cfg, l.obs, c, l.key);
    PassPlanIsJustified(cfg, l.obs, pod, c, l.key);
    CutShortReports(c, l.key, PassPlan(cfg, l.obs, pod, c, l.key).writes, l.done, r => Justified(ReportAt(c, l.key), JobAt(c, l.key), r));
  }

  // ---------- over whole runs ----------

  lemma WriteKeepsIdentity(c: Cluster, w: Write, k: Key)
    requires k in Apply(c, w).mustGathers
    ensures k in c.mustGathers && Apply(c, w).mustGathers[k].uid == c.mustGathers[k].uid
  {
    if w.SetFinalizers? && w.key in c.mustGathers {
      FinalizersKeepReport(c, w.key, w.finalizers, k);
    } else if !w.SetFinalizers? && !w.SetStatus? {
      WriteLeavesResources(c, w);
    }
  }

  lemma {:induction false} WritesKeepIdentity(c: Cluster, ws: seq<Write>, k: Key)
    requires k in ApplyAll(c, ws).mustGathers
    ensures k in c.mustGathers && ApplyAll(c, ws).mustGathers[k].uid == c.mustGathers[k].uid
  {
    if ws != [] {
      WriteKeepsIdentity(ApplyAll(c, ws[..|ws| - 1]), ws[|ws| - 1], k);
      WritesKeepIdentity(c, ws[..|ws| - 1], k);
    }
  }

  /** The pass looked at a Job of the resource's name, and the Job had ended that way. */
  predicate Witnesses(s: System, l: Label, k: Key, uid: Uid, phase: Phase) {
    && l.Writes() && l.key == k
    && k in s.c.mustGathers && s.c.mustGathers[k].uid == uid
    && k in s.c.jobs && VerdictOf(s.c.jobs[k].status, s.c.jobs[k].backoffLimit) == Finished(phase)
  }

  /** The outcome was there before the step, for the same resource. */
  predicate WasThere(s: System, k: Key, uid: Uid, phase: Phase) {
    k in s.c.mustGathers && s.c.mustGathers[k].uid == uid && ReportAt(s.c, k).reason == Some(ReasonFor(phase))
  }

  lemma OwnPassEarns(cfg: Config, s: System, l: Label, s': System, phase: Phase)
    requires l.Writes() && IsCut(cfg, s.c, l) && l.key in ApplyAll(s.c, l.done).mustGathers && l.key in s.c.mustGathers
    requires s'.c.mustGathers == ApplyAll(s.c, l.done).mustGathers && ReportAt(s'.c, l.key).reason == Some(ReasonFor(phase))
    ensures var uid := s.c.mustGathers[l.key].uid; WasThere(s, l.key, uid, phase) || Witnesses(s, l, l.key, uid, phase)
  {
    ReportsAreJustified(cfg, s.c, l);
  }

  lemma PassEarns(cfg: Config, s: System, l: Label, s': System, k: Key, phase: Phase)
    requires l.Writes() && Step(cfg, s, l, s') && k in s'.c.mustGathers && ReportAt(s'.c, k).reason == Some(ReasonFor(phase))
    ensures var uid := s'.c.mustGathers[k].uid; WasThere(s, k, uid, phase) || Witnesses(s, l, k, uid, phase)
  {
    WritesKeepIdentity(s.c, l.done, k);
    if k == l.key {
      OwnPassEarns(cfg, s, l, s', phase);
    } else {
      StepIsLegal(cfg, s, l, s');
      LegalIsLocal(cfg, l.obs, PodFor(cfg, l.obs, s.c, l.key), s.c, l.key, l.done);
    }
  }

  lemma ActionEarnsNothing(cfg: Config, c: Cluster, a: Action, k: Key)
    requires Allowed(cfg, c, a) && k in Perform(c, a).mustGathers && ReportAt(Perform(c, a), k).reason.Some?
    ensures k in c.mustGathers && c.mustGathers[k].uid == Perform(c, a).mustGathers[k].uid
    ensures ReportAt(c, k) == ReportAt(Perform(c, a), k)
  {
    ActionFrame(c, a);
    if a.MarkDeleted? {
      MarkedFrame(c, a.key);
    } else if a.EditFinalizers? {
      FinalizersKeepReport(c, a.key, a.finalizers, k);
    }
  }

  lemma FinalizersKeepReport(c: Cluster, key: Key, finalizers: seq<Finalizer>, k: Key)
    requires key in c.mustGathers && k in StoreFinalizers(c, key, finalizers).mustGathers
    ensures k in c.mustGathers && StoreFinalizers(c, key, finalizers).mustGathers[k].uid == c.mustGathers[k].uid
    ensures ReportAt(StoreFinalizers(c, key, finalizers), k) == ReportAt(c, k)
  {
  }

  lemma StepEarns(cfg: Config, s: System, l: Label, s': System, k: Key, phase: Phase)
    requires Step(cfg, s, l, s') && k in s'.c.mustGathers && ReportAt(s'.c, k).reason == Some(ReasonFor(phase))
    ensures var uid := s'.c.mustGathers[k].uid; WasThere(s, k, uid, phase) || Witnesses(s, l, k, uid, phase)
  {
    if l.Writes() {
      PassEarns(cfg, s, l, s', k, phase);
    } else if l.Act? {
      ActionEarnsNothing(cfg, s.c, l.action, k);
    }
  }

  /**
    An outcome is earned: whenever the status of a resource says that its Job succeeded
    or failed, an earlier pass over that very resource found a Job of its name that had,
    and the status has said so ever since.
   */
  lemma {:induction false} OutcomeIsEarned(cfg: Config, states: seq<System>, labels: seq<Label>, i: nat, k: Key, phase: Phase) returns (j: nat)
    requires Run(cfg, states, labels) && i < |states|
    requires k in states[i].c.mustGathers && ReportAt(states[i].c, k).reason == Some(ReasonFor(phase))
    ensures j < i && Witnesses(states[j], labels[j], k, states[i].c.mustGathers[k].uid, phase)
    ensures forall m | j < m <= i :: WasThere(states[m], k, states[i].c.mustGathers[k].uid, phase)
  {
    assert i > 0;
    assert StepAt(cfg, states, labels, i - 1);
    StepEarns(cfg, states[i - 1], labels[i - 1], states[i], k, phase);
    if WasThere(states[i - 1], k, states[i].c.mustGathers[k].uid, phase) {
      j := OutcomeIsEarned(cfg, states, labels, i - 1, k, phase);
    } else {
      j := i - 1;
    }
  }

  // ---------- whose outcome it is ----------

  /**
    The name decides, not the owner: a complete pass reports how the Job of the
    resource's name has ended, whoever owns it. If the Job does not list the resource as
    an owner, the pass leaves every Job and every pod alone.
   */
  lemma AnyJobDecides(cfg: Config, obs: Obs, c: Cluster, key: Key, phase: Phase)
    requires LooksForJob(cfg, c, key) && key in c.jobs && VerdictOf(c.jobs[key].status, c.jobs[key].backoffLimit) == Finished(phase)
    ensures var plan := PassPlan(cfg, obs, PodFor(cfg, obs, c, key), c, key); var c' := ApplyAll(c, plan.writes);
            && plan.ok && ReportAt(c', key) == OutcomeReport(phase)
            && (!OwnedJob(c, key, c.mustGathers[key].uid) ==> c'.jobs == c.jobs && c'.pods == c.pods)
  {
    var mg := c.mustGathers[key];
    var ca := CaPlan(cfg, c, key, mg.uid).writes;
    var c1 := ApplyAll(c, ca);
    CaFrame(cfg, c, key, mg.uid, ca);
    ConfigAfterCa(cfg, c, key, mg.uid, ConfigRef(mg.spec.obfuscate));
    CompletionDecides(cfg, c1, key, phase);
    ApplyAllConcat(c, ca, JobPlan(cfg, c1, key, mg, c1.jobs[key]).writes);
  }

  lemma CompletionOutcome(cfg: Config, c: Cluster, key: Key, phase: Phase)
    requires key in c.mustGathers && key in c.jobs
    ensures var mg := c.mustGathers[key]; var c' := ApplyAll(c, CompletionPlan(cfg, c, key, mg, phase));
            && ReportAt(c', key) == OutcomeReport(phase)
            && (!OwnedJob(c, key, mg.uid) ==> c'.jobs == c.jobs && c'.pods == c.pods)
  {
    var mg := c.mustGathers[key];
    CompletionReports(cfg, c, key, phase);
    if !OwnedJob(c, key, mg.uid) {
      assert CompletionPlan(cfg, c, key, mg, phase) == [SetStatus(key, OutcomeStatus(mg, phase))];
      ApplyOne(c, SetStatus(key, OutcomeStatus(mg, phase)));
    }
  }

  lemma CompletionDecides(cfg: Config, c: Cluster, key: Key, phase: Phase)
    requires key in c.mustGathers && key in c.jobs && VerdictOf(c.jobs[key].status, c.jobs[key].backoffLimit) == Finished(phase)
    ensures var mg := c.mustGathers[key]; var plan := JobPlan(cfg, c, key, mg, c.jobs[key]); var c' := ApplyAll(c, plan.writes);
            && plan.ok && ReportAt(c', key) == OutcomeReport(phase)
            && (!OwnedJob(c, key, mg.uid) ==> c'.jobs == c.jobs && c'.pods == c.pods)
  {
    var mg := c.mustGathers[key];
    if phase == Completed {
      CompletionOutcome(cfg, c, key, phase);
    } else {
      var c1 := Apply(c, CountError);
      assert c1 == c.(errors := c.errors + 1);
      ApplyOne(c, CountError);
      CompletionIgnoresCounters(cfg, c, key, mg, phase);
      CompletionOutcome(cfg, c1, key, phase);
      ApplyAllConcat(c, [CountError], CompletionPlan(cfg, c, key, mg, phase));
    }
  }

  /**
    Whose outcome it is, exactly: a Job the operator made was made for this resource iff
    it lists the resource as an owner, which is there to be read before the verdict is;
    a Job of somebody else never was.
   */
  lemma OwnOutcomeIff(cfg: Config, states: seq<System>, labels: seq<Label>, i: nat, k: Key)
    requires Run(cfg, states, labels) && i < |states| && k in states[i].c.mustGathers && k in states[i].c.jobs
    ensures var c := states[i].c; var uid := c.mustGathers[k].uid;
            MadeFor(c, k, uid) <==> c.jobs[k].origin.ByOperator? && OwnedJob(c, k, uid)
  {
    RunKeepsInv(cfg, states, labels, i);
    var c := states[i].c;
    if c.jobs[k].origin.ByOperator? {
      assert OperatorJobInv(c, k);
      assert c.jobs[k].owners[0] in c.jobs[k].owners;
    }
  }

  /**
    So whenever a status says that its Job succeeded or failed, the pass it stems from is
    there, and with a Job the operator made it is the outcome of the resource's own Job
    if and only if the Job found in that pass listed the resource as an owner.
   */
  lemma ReportedOutcomeIsItsOwnIff(cfg: Config, states: seq<System>, labels: seq<Label>, i: nat, k: Key, phase: Phase) returns (j: nat)
    requires Run(cfg, states, labels) && i < |states|
    requires k in states[i].c.mustGathers && ReportAt(states[i].c, k).reason == Some(ReasonFor(phase))
    ensures var uid := states[i].c.mustGathers[k].uid;
            && j < i && Witnesses(states[j], labels[j], k, uid, phase)
            && (forall m | j < m <= i :: WasThere(states[m], k, uid, phase))
            && (states[j].c.jobs[k].origin.ByOperator? ==> (MadeFor(states[j].c, k, uid) <==> OwnedJob(states[j].c, k, uid)))
            && (states[j].c.jobs[k].origin.ByOthers? ==> !MadeFor(states[j].c, k, uid))
  {
    j := OutcomeIsEarned(cfg, states, labels, i, k, phase);
    OwnOutcomeIff(cfg, states, labels, j, k);
  }
}
