/**
  The two counters the operator keeps in memory, from one restart to the next.
 */
module Counters {
  import opened Api
  import opened JobController
  import opened JobTemplate
  import opened Cluster
  import opened Plan
  import opened Protocol
  import opened Environment
  import opened Runs

  // ---------- the Jobs that were made ----------

  function OperatorJobs(c: Cluster): set<Key> {
    set k | k in c.jobs && c.jobs[k].origin.ByOperator?
  }

  /** Every Job the operator ever made: it is still there, or the operator or garbage collection deleted it. */
  function Made(c: Cluster): nat {
    |OperatorJobs(c)| + c.cleaned + c.collected
  }

  /** Jobs made and not counted. */
  function Uncounted(c: Cluster): int {
    Made(c) - c.gathers
  }

  function Debt(w: Write): int {
    match w
    case CreateJob(_, job) => if job.origin.ByOperator? then 1 else 0
    case CountGather => -1
    case _ => 0
  }

  function DebtOf(ws: seq<Write>): int {
    if ws == [] then 0 else DebtOf(ws[..|ws| - 1]) + Debt(ws[|ws| - 1])
  }

  lemma CreationIsUncounted(c: Cluster, key: Key, job: Job)
    requires key !in c.jobs
    ensures Uncounted(Apply(c, CreateJob(key, job))) == Uncounted(c) + Debt(CreateJob(key, job))
  {
    var c' := Apply(c, CreateJob(key, job));
    assert OperatorJobs(c') == if job.origin.ByOperator? then OperatorJobs(c) + {key} else OperatorJobs(c);
  }

  lemma RemovalIsCounted(c: Cluster, key: Key)
    requires key in c.jobs
    ensures OperatorJobs(c.(jobs := c.jobs - {key})) == OperatorJobs(c) - {key}
    ensures |OperatorJobs(c) - {key}| == |OperatorJobs(c)| - if c.jobs[key].origin.ByOperator? then 1 else 0
  {
  }

  lemma OtherWritesAreNeutral(c: Cluster, w: Write)
    requires !w.CreateJob? && !w.DeleteJob? && Applicable(c, w)
    ensures Uncounted(Apply(c, w)) == Uncounted(c) + Debt(w)
  {
    WriteKeepsJobs(c, w);
    assert OperatorJobs(Apply(c, w)) == OperatorJobs(c);
  }

  lemma WriteChangesUncounted(c: Cluster, w: Write)
    requires Applicable(c, w)
    ensures Uncounted(Apply(c, w)) == Uncounted(c) + Debt(w)
  {
    if w.CreateJob? {
      CreationIsUncounted(c, w.key, w.job);
    } else if w.DeleteJob? {
      RemovalIsCounted(c, w.key);
      assert OperatorJobs(Apply(c, w)) == OperatorJobs(c.(jobs := c.jobs - {w.key}));
    } else {
      OtherWritesAreNeutral(c, w);
    }
  }

  lemma InapplicableChangesNothing(c: Cluster, w: Write)
    requires !Applicable(c, w)
    ensures Apply(c, w) == c
  {
  }

  lemma {:induction false} WritesChangeUncounted(cfg: Config, obs: Obs, pod: PodTemplate, c: Cluster, key: Key, ws: seq<Write>)
    requires Legal(cfg, obs, pod, c, key, ws)
    ensures Uncounted(ApplyAll(c, ws)) == Uncounted(c) + DebtOf(ws)
  {
    if ws != [] {
      var front, w := ws[..|ws| - 1], ws[|ws| - 1];
      WritesChangeUncounted(cfg, obs, pod, c, key, front);
      var c1 := ApplyAll(c, front);
      if Applicable(c1, w) {
        WriteChangesUncounted(c1, w);
      } else {
        InapplicableChangesNothing(c1, w);
      }
    }
  }

  predicate PairedAt(ws: seq<Write>, i: nat)
    requires i < |ws|
  {
    && (ws[i].CreateJob? ==> ws[i].job.origin.ByOperator? && i + 1 < |ws| && ws[i + 1].CountGather?)
    && (ws[i].CountGather? ==> i > 0 && ws[i - 1].CreateJob?)
  }

  /** Creating a Job and counting it always come together. */
  ghost predicate Paired(ws: seq<Write>) {
    forall i: nat | i < |ws| :: PairedAt(ws, i)
  }

  lemma {:induction false} PairedOwesNothing(ws: seq<Write>)
    requires Paired(ws)
    ensures DebtOf(ws) == 0
  {
    if ws != [] {
      var n := |ws| - 1;
      assert PairedAt(ws, n);
      var cut := if ws[n].CountGather? then n - 1 else n;
      var front := ws[..cut];
      forall i: nat | i < cut ensures PairedAt(front, i) {
        assert PairedAt(ws, i) && PairedAt(ws, cut);
      }
      PairedOwesNothing(front);
      if cut < n {
        assert PairedAt(ws, n - 1);
        assert ws[..n][..n - 1] == front && ws[..n][n - 1] == ws[n - 1];
      }
    }
  }

  predicate CreatesNothing(ws: seq<Write>) {
    forall i | 0 <= i < |ws| :: !ws[i].CreateJob? && !ws[i].CountGather?
  }

  lemma JobPlanCreatesNothing(cfg: Config, c: Cluster, key: Key, mg: MustGather, job: Job)
    ensures CreatesNothing(JobPlan(cfg, c, key, mg, job).writes)
  {
    CleanupCreatesNothing(cfg, c, key, mg.uid);
  }

  lemma CleanupCreatesNothing(cfg: Config, c: Cluster, key: Key, uid: Uid)
    ensures CreatesNothing(CleanupPlan(cfg, c, key, uid))
  {
  }

  lemma GatherIsPaired(cfg: Config, obs: Obs, pod: PodTemplate, c: Cluster, key: Key, mg: MustGather)
    ensures Paired(GatherPlan(cfg, obs, pod, c, key, mg).writes)
  {
    var ws := GatherPlan(cfg, obs, pod, c, key, mg).writes;
    if key in c.jobs {
      JobPlanCreatesNothing(cfg, c, key, mg, c.jobs[key]);
    } else if ws == [] || ws[0].SetStatus? {
      assert CreatesNothing(ws);
    } else {
      assert ws == [CreateJob(key, NewJob(key, mg, pod)), CountGather] + Stored(key, SuccessStatus(mg.status, mg.generation));
    }
  }

  lemma PairedAfter(first: seq<Write>, rest: seq<Write>)
    requires CreatesNothing(first) && Paired(rest)
    ensures Paired(first + rest)
  {
    var ws, n := first + rest, |first|;
    forall i: nat | i < |ws| ensures PairedAt(ws, i) {
      if i >= n {
        assert PairedAt(rest, i - n);
        assert ws[i] == rest[i - n];
        assert i + 1 < |ws| ==> ws[i + 1] == rest[i + 1 - n];
        assert i > n ==> ws[i - 1] == rest[i - 1 - n];
      }
    }
  }

  lemma PlanIsPaired(cfg: Config, obs: Obs, pod: PodTemplate, c: Cluster, key: Key)
    ensures Paired(PassPlan(cfg, obs, pod, c, key).writes)
  {
    var ws := PassPlan(cfg, obs, pod, c, key).writes;
    if key in c.mustGathers {
      var mg := c.mustGathers[key];
      var ca := CaPlan(cfg, c, key, mg.uid);
      var rest := GatherPlan(cfg, obs, pod, ApplyAll(c, ca.writes), key, mg).writes;
      GatherIsPaired(cfg, obs, pod, ApplyAll(c, ca.writes), key, mg);
      PairedAfter(ca.writes, rest);
      if mg.deleting {
        CleanupCreatesNothing(cfg, c, key, mg.uid);
        assert CreatesNothing(ws);
      } else if !Held(c, key) || IsOperatorAccount(cfg, key, mg.spec) || !ca.ok {
        assert |ws| <= 1 && CreatesNothing(ws);
      }
    }
  }

  lemma StoppedIsPaired(planned: seq<Write>, done: seq<Write>)
    requires Paired(planned) && Stopped(planned, done)
    ensures Paired(done)
  {
    forall i: nat | i < |done| ensures PairedAt(done, i) {
      assert PairedAt(planned, i) && done[i] == planned[i];
    }
  }

  lemma PassOwesNothing(cfg: Config, c: Cluster, l: Label)
    requires IsPass(cfg, c, l)
    ensures DebtOf(l.done) == 0
  {
    var planned := PassPlan(cfg, l.obs, PodFor(cfg, l.obs, c, l.key), c, l.key).writes;
    PlanIsPaired(cfg, l.obs, PodFor(cfg, l.obs, c, l.key), c, l.key);
    if Stopped(planned, l.done) {
      StoppedIsPaired(planned, l.done);
      PairedOwesNothing(l.done);
    } else {
      var front := l.done[..|l.done| - 1];
      StoppedIsPaired(planned, front);
      PairedOwesNothing(front);
    }
  }

  lemma ActionKeepsUncounted(cfg: Config, c: Cluster, a: Action)
    requires Allowed(cfg, c, a)
    ensures Uncounted(Perform(c, a)) == Uncounted(c)
  {
    var c' := Perform(c, a);
    if a.CollectJob? || a.RemoveJob? {
      RemovalIsCounted(c, a.key);
      assert OperatorJobs(c') == OperatorJobs(c.(jobs := c.jobs - {a.key}));
    } else {
      OtherActionsKeepOperatorJobs(cfg, c, a);
    }
  }

  lemma OtherActionsKeepOperatorJobs(cfg: Config, c: Cluster, a: Action)
    requires Allowed(cfg, c, a) && !a.CollectJob? && !a.RemoveJob?
    ensures OperatorJobs(Perform(c, a)) == OperatorJobs(c) && Uncounted(Perform(c, a)) == Uncounted(c)
  {
    if a.AdvanceJob? {
      assert OperatorJobs(c.(jobs := c.jobs[a.key := c.jobs[a.key].(status := a.status)])) == OperatorJobs(c);
    } else if a.AddJob? {
      AddingKeepsOperatorJobs(c, a.key, Job(c.nextUid, ByOthers, a.owners, a.backoffLimit, a.template, FRESH));
    } else {
      ActionFrame(c, a);
    }
  }

  lemma AddingKeepsOperatorJobs(c: Cluster, key: Key, job: Job)
    requires key !in c.jobs && job.origin.ByOthers?
    ensures OperatorJobs(c.(jobs := c.jobs[key := job], nextUid := c.nextUid + 1)) == OperatorJobs(c)
  {
  }

  // ---------- the errors that were observed ----------

  function Errors(ws: seq<Write>): nat {
    if ws == [] then 0 else Errors(ws[..|ws| - 1]) + if ws[|ws| - 1].CountError? then 1 else 0
  }

  lemma {:induction false} ErrorsConcat(a: seq<Write>, b: seq<Write>)
    ensures Errors(a + b) == Errors(a) + Errors(b)
  {
    if b == [] {
      assert a + b == a;
    } else {
      assert (a + b)[..|a + b| - 1] == a + b[..|b| - 1];
      ErrorsConcat(a, b[..|b| - 1]);
    }
  }

  lemma {:induction false} NoErrors(ws: seq<Write>)
    requires forall w | w in ws :: !w.CountError?
    ensures Errors(ws) == 0
  {
    if ws != [] {
      assert ws[|ws| - 1] in ws && forall w | w in ws[..|ws| - 1] :: w in ws;
      NoErrors(ws[..|ws| - 1]);
    }
  }

  lemma WriteCounts(c: Cluster, w: Write)
    ensures Apply(c, w).errors == c.errors + if w.CountError? then 1 else 0
  {
  }

  lemma {:induction false} ErrorsAreCounted(c: Cluster, ws: seq<Write>)
    ensures ApplyAll(c, ws).errors == c.errors + Errors(ws)
  {
    if ws != [] {
      ErrorsAreCounted(c, ws[..|ws| - 1]);
      WriteCounts(ApplyAll(c, ws[..|ws| - 1]), ws[|ws| - 1]);
    }
  }

  lemma CleanupCountsNoError(cfg: Config, c: Cluster, key: Key, uid: Uid)
    ensures Errors(CleanupPlan(cfg, c, key, uid)) == 0
  {
    NoErrors(CleanupPlan(cfg, c, key, uid));
  }

  lemma CompletionCountsNoError(cfg: Config, c: Cluster, key: Key, mg: MustGather, phase: Phase)
    ensures Errors(CompletionPlan(cfg, c, key, mg, phase)) == 0
  {
    CleanupCountsNoError(cfg, c, key, mg.uid);
    NoErrors([SetStatus(key, OutcomeStatus(mg, phase))]);
    ErrorsConcat([SetStatus(key, OutcomeStatus(mg, phase))], if Retains(mg.spec) then [] else CleanupPlan(cfg, c, key, mg.uid));
  }

  lemma JobPlanCounts(cfg: Config, c: Cluster, key: Key, mg: MustGather, job: Job)
    ensures Errors(JobPlan(cfg, c, key, mg, job).writes)
            == if VerdictOf(job.status, job.backoffLimit) == Finished(Failed) then 1 else 0
  {
    match VerdictOf(job.status, job.backoffLimit)
    case Running => NoErrors(JobPlan(cfg, c, key, mg, job).writes);
    case Finished(phase) =>
      CompletionCountsNoError(cfg, c, key, mg, phase);
      if phase == Failed {
        var one := [CountError];
        assert one[..0] == [] && Errors(one) == 1;
        ErrorsConcat(one, CompletionPlan(cfg, c, key, mg, phase));
      }
  }

  lemma GatherCounts(cfg: Config, obs: Obs, pod: PodTemplate, c: Cluster, key: Key, mg: MustGather)
    ensures var config := ConfigRef(mg.spec.obfuscate);
            Errors(GatherPlan(cfg, obs, pod, c, key, mg).writes)
            == if (config == "" || Key(key.ns, config) in c.configMaps) && key in c.jobs
                  && VerdictOf(c.jobs[key].status, c.jobs[key].backoffLimit) == Finished(Failed) then 1 else 0
  {
    var config := ConfigRef(mg.spec.obfuscate);
    if config != "" && Key(key.ns, config) !in c.configMaps {
      NoErrors(GatherPlan(cfg, obs, pod, c, key, mg).writes);
    } else if key in c.jobs {
      JobPlanCounts(cfg, c, key, mg, c.jobs[key]);
    } else {
      NoErrors(CreatePlan(cfg, obs, pod, c, key, mg).writes);
    }
  }

  lemma ActivePlanCounts(cfg: Config, obs: Obs, pod: PodTemplate, c: Cluster, key: Key)
    requires Held(c, key) && !c.mustGathers[key].deleting
    ensures Errors(ActivePlan(cfg, obs, pod, c, key, c.mustGathers[key]).writes) == if (LooksForJob(cfg, c, key) && FailedForGood(c, key)) then 1 else 0
  {
    var mg := c.mustGathers[key];
    var ca := CaPlan(cfg, c, key, mg.uid);
    if IsOperatorAccount(cfg, key, mg.spec) || !ca.ok {
      NoErrors(ActivePlan(cfg, obs, pod, c, key, mg).writes);
    } else {
      var c1 := ApplyAll(c, ca.writes);
      CaFrame(cfg, c, key, mg.uid, ca.writes);
      ConfigAfterCa(cfg, c, key, mg.uid, ConfigRef(mg.spec.obfuscate));
      GatherCounts(cfg, obs, pod, c1, key, mg);
      NoErrors(ca.writes);
      ErrorsConcat(ca.writes, GatherPlan(cfg, obs, pod, c1, key, mg).writes);
    }
  }

  /** A planned pass counts one error if it observes a terminal failure, and none otherwise. */
  lemma PassPlanCounts(cfg: Config, obs: Obs, pod: PodTemplate, c: Cluster, key: Key)
    ensures Errors(PassPlan(cfg, obs, pod, c, key).writes) == if (LooksForJob(cfg, c, key) && FailedForGood(c, key)) then 1 else 0
  {
    if key in c.mustGathers {
      var mg := c.mustGathers[key];
      if mg.deleting {
        if Held(c, key) {
          var first := if Retains(mg.spec) then [] else CleanupPlan(cfg, c, key, mg.uid);
          CleanupCountsNoError(cfg, c, key, mg.uid);
          NoErrors([SetFinalizers(key, WithoutOperator(mg.finalizers))]);
          ErrorsConcat(first, [SetFinalizers(key, WithoutOperator(mg.finalizers))]);
        }
      } else if Held(c, key) {
        ActivePlanCounts(cfg, obs, pod, c, key);
      } else {
        NoErrors(PassPlan(cfg, obs, pod, c, key).writes);
      }
    }
  }

  /** No pass counts two errors, however it ends. */
  lemma AtMostOneError(c: Cluster, key: Key, plan: Plan, done: seq<Write>, failures: nat, ok: bool)
    requires Outcome(c, key, plan, done, failures, ok) && Errors(plan.writes) <= 1
    ensures Errors(done) == if CountError in done then 1 else 0
  {
    if failures == 0 || Stopped(plan.writes, done) {
      PrefixErrors(plan.writes, done);
    } else {
      var front := done[..|done| - 1];
      PrefixErrors(plan.writes, front);
      assert done == front + [done[|done| - 1]];
    }
  }

  lemma PrefixErrors(planned: seq<Write>, done: seq<Write>)
    requires done <= planned && Errors(planned) <= 1
    ensures Errors(done) == if CountError in done then 1 else 0
  {
    assert planned == done + planned[|done|..];
    ErrorsConcat(done, planned[|done|..]);
    ErrorsMeans(done);
  }

  lemma {:induction false} ErrorsMeans(ws: seq<Write>)
    ensures Errors(ws) == 0 <==> CountError !in ws
  {
    if ws != [] {
      ErrorsMeans(ws[..|ws| - 1]);
      assert ws == ws[..|ws| - 1] + [ws[|ws| - 1]];
    }
  }

  /** The pass has looked up a Job that has failed for good. */
  predicate Observes(c: Cluster, l: Label) {
    l.Pass? && l.looked && FailedForGood(c, l.key)
  }

  /** What a pass adds to the error counter, whatever fails in it: one if it observes a terminal failure, else nothing. */
  lemma PassCounts(cfg: Config, c: Cluster, l: Label)
    requires IsPass(cfg, c, l)
    ensures ApplyAll(c, l.done).errors == c.errors + if Observes(c, l) then 1 else 0
  {
    var pod := PodFor(cfg, l.obs, c, l.key);
    PassPlanCounts(cfg, l.obs, pod, c, l.key);
    ErrorsAreCounted(c, l.done);
    AtMostOneError(c, l.key, PassPlan(cfg, l.obs, pod, c, l.key), l.done, l.failures, l.ok);
  }

  /** And an observation is missed only because a call failed before it: a pass without failing calls misses none. */
  lemma NothingIsOverlooked(cfg: Config, c: Cluster, l: Label)
    requires IsPass(cfg, c, l) && l.failures == 0
    ensures Observes(c, l) <==> LooksForJob(cfg, c, l.key) && FailedForGood(c, l.key)
  {
  }

  // ---------- over whole runs ----------

  /** What was made by the time of the last restart among the first `n` steps. */
  ghost function MadeBefore(states: seq<System>, labels: seq<Label>, n: nat): nat
    requires n <= |labels| < |states|
  {
    if n == 0 then 0
    else if labels[n - 1].Restart? then Made(states[n].c)
    else MadeBefore(states, labels, n - 1)
  }

  /** How many passes since then have observed a terminal failure. */
  ghost function Observed(states: seq<System>, labels: seq<Label>, n: nat): nat
    requires n <= |labels| < |states|
  {
    if n == 0 || labels[n - 1].Restart? then 0
    else Observed(states, labels, n - 1) + if Observes(states[n - 1].c, labels[n - 1]) then 1 else 0
  }

  lemma StepCounts(cfg: Config, s: System, l: Label, s': System)
    requires Step(cfg, s, l, s')
    ensures l.Restart? ==> s'.c.gathers == s'.c.errors == 0
    ensures !l.Restart? ==> Uncounted(s'.c) == Uncounted(s.c) && s'.c.errors == s.c.errors + if Observes(s.c, l) then 1 else 0
  {
    match l
    case Pass(key, obs, done, failures, ok, looked) =>
      var pod := PodFor(cfg, obs, s.c, key);
      PassIsLegal(cfg, obs, pod, s.c, key, done, failures, ok);
      WritesChangeUncounted(cfg, obs, pod, s.c, key, done);
      PassOwesNothing(cfg, s.c, l);
      PassCounts(cfg, s.c, l);
    case Restart(_, _, _) =>
    case Act(a) =>
      ActionKeepsUncounted(cfg, s.c, a);
      ActionFrame(s.c, a);
    case Enqueue(_) =>
  }

  lemma InitCounts(s: System)
    requires Init(s)
    ensures Made(s.c) == s.c.gathers == s.c.errors == 0
  {
    assert OperatorJobs(s.c) == {};
  }

  /**
    Conservation, in every state of every run: the total counter is the number of Jobs
    made since the last restart, still there or not; and the error counter is the number
    of passes since then that observed a terminal failure.
   */
  lemma {:induction false} CountersAreConserved(cfg: Config, states: seq<System>, labels: seq<Label>, n: nat)
    requires Run(cfg, states, labels) && n < |states|
    ensures states[n].c.gathers + MadeBefore(states, labels, n) == Made(states[n].c)
    ensures states[n].c.errors == Observed(states, labels, n)
  {
    if n == 0 {
      InitCounts(states[0]);
    } else {
      CountersAreConserved(cfg, states, labels, n - 1);
      assert StepAt(cfg, states, labels, n - 1);
      StepCounts(cfg, states[n - 1], labels[n - 1], states[n]);
    }
  }
}
