/**
  The first report on a resource. The CRD requires `completed` of every status, and the
  operator leaves it out until a validation failure, a verdict or a running Job sets it:
  before that the API server refuses whatever a pass has to say.
 */
module FirstReport {
  import opened Api
  import opened JobController
  import opened JobTemplate
  import opened Cluster
  import opened Plan
  import opened Protocol
  import opened Invariants
  import opened Environment
  import opened Wakeups
  import opened Runs
  import opened Failures

  predicate Reports(ws: seq<Write>) {
    exists w :: w in ws && w.SetStatus?
  }

  /** A pass that creates a Job: the copy, the Job, the count, and what is left of the report. */
  lemma CreatingPass(cfg: Config, obs: Obs, pod: PodTemplate, c: Cluster, key: Key)
    requires CreatesJob(cfg, obs, c, key) && pod == PodFor(cfg, obs, c, key)
    ensures var mg := c.mustGathers[key];
            PassPlan(cfg, obs, pod, c, key)
            == Then(CaPlan(cfg, c, key, mg.uid).writes, Then([CreateJob(key, NewJob(key, mg, pod)), CountGather], Approval(key, mg, mg.status)))
  {
    var mg := c.mustGathers[key];
    PassReachesCreation(cfg, obs, pod, c, key);
    CreationWithin(cfg, obs, pod, c, key);
    CreationShape(cfg, obs, pod, ApplyAll(c, CaPlan(cfg, c, key, mg.uid).writes), key, mg);
  }

  lemma ReportAtTheEnd(first: seq<Write>, second: seq<Write>, key: Key, status: Status)
    requires forall w | w in first || w in second :: !w.SetStatus?
    ensures Reports(first + (second + Stored(key, status))) <==> status.completed.Some?
  {
    var ws := first + (second + Stored(key, status));
    if status.completed.Some? {
      assert ws[|ws| - 1] == SetStatus(key, status);
    }
  }

  /** The creation of a Job is reported, and the pass ends without an error, iff the stored status has `completed`. */
  lemma CreationIsReportedIff(cfg: Config, obs: Obs, c: Cluster, key: Key)
    requires CreatesJob(cfg, obs, c, key)
    ensures var plan := PassPlan(cfg, obs, PodFor(cfg, obs, c, key), c, key);
            (plan.ok <==> Base(c.mustGathers[key].status).completed.Some?) && (Reports(plan.writes) <==> plan.ok)
  {
    var mg := c.mustGathers[key];
    var pod := PodFor(cfg, obs, c, key);
    CreatingPass(cfg, obs, pod, c, key);
    ReportAtTheEnd(CaPlan(cfg, c, key, mg.uid).writes, [CreateJob(key, NewJob(key, mg, pod)), CountGather],
                   key, SuccessStatus(mg.status, mg.generation));
  }

  lemma CreationShape(cfg: Config, obs: Obs, pod: PodTemplate, c: Cluster, key: Key, mg: MustGather)
    requires exists w | w in CreatePlan(cfg, obs, pod, c, key, mg).writes :: w.CreateJob?
    ensures CreatePlan(cfg, obs, pod, c, key, mg) == Then([CreateJob(key, NewJob(key, mg, pod)), CountGather], Approval(key, mg, mg.status))
  {
  }

  lemma GatherComplaint(cfg: Config, obs: Obs, pod: PodTemplate, c: Cluster, key: Key, mg: MustGather)
    requires !GatherPlan(cfg, obs, pod, c, key, mg).ok
    ensures Reports(GatherPlan(cfg, obs, pod, c, key, mg).writes) <==> Base(mg.status).completed.Some?
  {
    var plan := GatherPlan(cfg, obs, pod, c, key, mg);
    if Base(mg.status).completed.Some? {
      assert plan.writes[0].SetStatus?;
    }
  }

  /** A pass that ends with an error though no call fails has its complaint stored iff the stored status has `completed`. */
  lemma ComplaintIsStoredIff(cfg: Config, obs: Obs, pod: PodTemplate, c: Cluster, key: Key)
    requires key in c.mustGathers && !PassPlan(cfg, obs, pod, c, key).ok
    ensures Reports(PassPlan(cfg, obs, pod, c, key).writes) <==> Base(c.mustGathers[key].status).completed.Some?
  {
    var mg := c.mustGathers[key];
    var ca := CaPlan(cfg, c, key, mg.uid);
    var plan := PassPlan(cfg, obs, pod, c, key);
    if ca.ok {
      var rest := GatherPlan(cfg, obs, pod, ApplyAll(c, ca.writes), key, mg);
      assert plan == Then(ca.writes, rest);
      GatherComplaint(cfg, obs, pod, ApplyAll(c, ca.writes), key, mg);
      assert forall w | w in ca.writes :: !w.SetStatus?;
      if Reports(rest.writes) {
        var w :| w in rest.writes && w.SetStatus?;
        assert w in plan.writes;
      }
    } else if Base(mg.status).completed.Some? {
      assert plan.writes[0].SetStatus?;
    }
  }

  // ---------- over whole runs ----------

  /** So no status without `completed` is ever stored: before the first report there is no status at all. */
  ghost predicate StatusesComplete(c: Cluster) {
    forall k | k in c.mustGathers && c.mustGathers[k].status.Some? :: c.mustGathers[k].status.value.completed.Some?
  }

  lemma WriteKeepsStatuses(c: Cluster, w: Write)
    requires StatusesComplete(c)
    ensures StatusesComplete(Apply(c, w))
  {
    if !w.SetFinalizers? && !w.SetStatus? {
      WriteLeavesResources(c, w);
    }
  }

  lemma {:induction false} WritesKeepStatuses(c: Cluster, ws: seq<Write>)
    requires StatusesComplete(c)
    ensures StatusesComplete(ApplyAll(c, ws))
  {
    if ws != [] {
      WritesKeepStatuses(c, ws[..|ws| - 1]);
      WriteKeepsStatuses(ApplyAll(c, ws[..|ws| - 1]), ws[|ws| - 1]);
    }
  }

  lemma StepKeepsStatuses(cfg: Config, s: System, l: Label, s': System)
    requires Step(cfg, s, l, s') && StatusesComplete(s.c)
    ensures StatusesComplete(s'.c)
  {
    if l.Writes() {
      WritesKeepStatuses(s.c, l.done);
    } else if l.Act? {
      ActionKeepsStatuses(s.c, l.action);
    }
  }

  lemma ActionKeepsStatuses(c: Cluster, a: Action)
    requires StatusesComplete(c)
    ensures StatusesComplete(Perform(c, a))
  {
    ActionFrame(c, a);
    if a.MarkDeleted? {
      MarkedFrame(c, a.key);
    }
  }

  lemma {:induction false} RunKeepsStatuses(cfg: Config, states: seq<System>, labels: seq<Label>, i: nat)
    requires Run(cfg, states, labels) && i < |states|
    ensures StatusesComplete(states[i].c)
  {
    if i > 0 {
      RunKeepsStatuses(cfg, states, labels, i - 1);
      assert StepAt(cfg, states, labels, i - 1);
      StepKeepsStatuses(cfg, states[i - 1], labels[i - 1], states[i]);
    }
  }

  /**
    In every run, without a failing call: a pass that creates a Job ends with an error,
    and reports nothing, iff nothing has been reported on the resource yet; and so it is
    with the complaint of any other pass that ends with an error.
   */
  lemma FirstReportIsRefused(cfg: Config, states: seq<System>, labels: seq<Label>, i: nat)
    requires Run(cfg, states, labels) && i < |labels| && labels[i].Pass? && labels[i].failures == 0
    requires labels[i].key in states[i].c.mustGathers
    ensures var c, l := states[i].c, labels[i]; var unreported := c.mustGathers[l.key].status.None?;
            && (CreatesJob(cfg, l.obs, c, l.key) ==> (l.ok <==> !unreported) && (Reports(l.done) <==> !unreported))
            && (!l.ok ==> (Reports(l.done) <==> !unreported))
  {
    RunKeepsStatuses(cfg, states, labels, i);
    assert StepAt(cfg, states, labels, i);
    StepReports(cfg, states[i], labels[i], states[i + 1]);
  }

  lemma StepReports(cfg: Config, s: System, l: Label, s': System)
    requires Step(cfg, s, l, s') && l.Pass? && l.failures == 0 && l.key in s.c.mustGathers
    ensures var completed := Base(s.c.mustGathers[l.key].status).completed;
            && (CreatesJob(cfg, l.obs, s.c, l.key) ==> (l.ok <==> completed.Some?) && (Reports(l.done) <==> l.ok))
            && (!l.ok ==> (Reports(l.done) <==> completed.Some?))
  {
    if CreatesJob(cfg, l.obs, s.c, l.key) {
      CreationIsReportedIff(cfg, l.obs, s.c, l.key);
    }
    if !l.ok {
      ComplaintIsStoredIff(cfg, l.obs, PodFor(cfg, l.obs, s.c, l.key), s.c, l.key);
    }
  }
}
