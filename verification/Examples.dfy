/**
  Runs that show the limits: a failed Job counted twice, an outcome taken over from the
  Job of a deleted resource, and a hold on the trusted CA copy that outlives its holder.
 */
module Examples {
  import opened Api
  import opened JobController
  import opened JobTemplate
  import opened Cluster
  import opened Plan
  import opened Protocol
  import opened Invariants
  import opened Environment
  import opened Wakeups
  import opened Runs
  import opened Counters
  import opened Failures
  import TrustedCa

  // ---------- runs, step by step ----------

  datatype History = History(states: seq<System>, labels: seq<Label>)

  ghost predicate Valid(cfg: Config, h: History) {
    Run(cfg, h.states, h.labels)
  }

  function Now(h: History): Cluster
    requires h.states != []
  {
    h.states[|h.states| - 1].c
  }

  lemma Extend(cfg: Config, h: History, l: Label, s': System) returns (h': History)
    requires Valid(cfg, h) && Step(cfg, h.states[|h.states| - 1], l, s')
    ensures Valid(cfg, h') && h'.states[|h'.states| - 1] == s'
  {
    h' := History(h.states + [s'], h.labels + [l]);
    forall i: nat | i < |h'.labels| ensures StepAt(cfg, h'.states, h'.labels, i) {
      if i < |h.labels| {
        StepStays(cfg, h, l, s', i);
      } else {
        LastStep(cfg, h, l, s');
      }
    }
  }

  lemma StepStays(cfg: Config, h: History, l: Label, s': System, i: nat)
    requires i < |h.labels| < |h.states| && StepAt(cfg, h.states, h.labels, i)
    ensures StepAt(cfg, h.states + [s'], h.labels + [l], i)
  {
    assert (h.states + [s'])[i] == h.states[i] && (h.states + [s'])[i + 1] == h.states[i + 1];
    assert (h.labels + [l])[i] == h.labels[i];
  }

  lemma LastStep(cfg: Config, h: History, l: Label, s': System)
    requires |h.states| == |h.labels| + 1 && Step(cfg, h.states[|h.labels|], l, s')
    ensures StepAt(cfg, h.states + [s'], h.labels + [l], |h.labels|)
  {
    assert (h.states + [s'])[|h.labels|] == h.states[|h.labels|] && (h.states + [s'])[|h.labels| + 1] == s';
    assert (h.labels + [l])[|h.labels|] == l;
  }

  lemma Begin(cfg: Config, c: Cluster) returns (h: History)
    requires Init(System(c, {}, map[]))
    ensures Valid(cfg, h) && Now(h) == c
  {
    h := History([System(c, {}, map[])], []);
  }

  lemma Do(cfg: Config, h: History, a: Action) returns (h': History)
    requires Valid(cfg, h) && Allowed(cfg, Now(h), a)
    ensures Valid(cfg, h') && Now(h') == Perform(Now(h), a)
  {
    var s := h.states[|h.states| - 1];
    var c' := Perform(s.c, a);
    h' := Extend(cfg, h, Act(a), System(c', s.queue + Wakes(cfg, s.c, c'), s.seen));
  }

  /** The resource comes up in the queue, and the pass over it goes as recorded. */
  lemma PassAsRecorded(cfg: Config, h: History, l: Label) returns (h': History)
    requires Valid(cfg, h) && IsPass(cfg, Now(h), l)
    ensures Valid(cfg, h') && Now(h') == ApplyAll(Now(h), l.done)
  {
    var s := h.states[|h.states| - 1];
    var queued := s.(queue := s.queue + {l.key});
    var h1 := Extend(cfg, h, Enqueue(l.key), queued);
    var c' := ApplyAll(s.c, l.done);
    h' := Extend(cfg, h1, l, System(c', (queued.queue - {l.key}) + WokenBy(cfg, s.c, l.done) + (if l.ok then {} else {l.key}), Look(c', s.seen, l.key)));
  }

  lemma CompletePass(cfg: Config, h: History, obs: Obs, key: Key) returns (h': History)
    requires Valid(cfg, h)
    ensures Valid(cfg, h') && Now(h') == ApplyAll(Now(h), Planned(cfg, obs, Now(h), key).writes)
  {
    var plan := Planned(cfg, obs, Now(h), key);
    PassPlanCounts(cfg, obs, PodFor(cfg, obs, Now(h), key), Now(h), key);
    ErrorsMeans(plan.writes);
    h' := PassAsRecorded(cfg, h, Pass(key, obs, plan.writes, 0, plan.ok, LooksForJob(cfg, Now(h), key)));
  }

  /** The first `n` writes are made; then a call fails, and the report of that fails too. */
  lemma FailingPass(cfg: Config, h: History, obs: Obs, key: Key, n: nat) returns (h': History)
    requires Valid(cfg, h) && LooksForJob(cfg, Now(h), key)
    requires var ws := Planned(cfg, obs, Now(h), key).writes;
             && n < |ws| && !ws[n].CountGather? && (CountError in ws[..n] <==> FailedForGood(Now(h), key))
    ensures Valid(cfg, h') && Now(h') == ApplyAll(Now(h), Planned(cfg, obs, Now(h), key).writes[..n])
  {
    h' := PassAsRecorded(cfg, h, Pass(key, obs, Planned(cfg, obs, Now(h), key).writes[..n], 2, false, true));
  }

  lemma ApplyTwo(c: Cluster, v: Write, w: Write)
    ensures ApplyAll(c, [v, w]) == Apply(Apply(c, v), w)
  {
    ApplyOne(c, v);
    assert [v, w][..1] == [v];
  }

  lemma ApplyThree(c: Cluster, u: Write, v: Write, w: Write)
    ensures ApplyAll(c, [u, v, w]) == Apply(Apply(Apply(c, u), v), w)
  {
    ApplyTwo(c, u, v);
    assert [u, v, w][..2] == [u, v];
  }

  // ---------- the world of the examples ----------

  const RUN := Key("ns", "run")

  function Settings(ca: string): Config {
    Config(ca, "operator", "default", "operator-sa")
  }

  function World(mustGathers: map<Key, MustGather>, jobs: map<Key, Job>, configMaps: map<Key, ConfigMap>,
                 nextUid: Uid, gathers: nat, errors: nat, cleaned: nat): Cluster {
    Cluster(mustGathers, jobs, [], configMaps, map[], map[Key("ns", "sa") := ()], map[], nextUid, gathers, errors, cleaned, 0)
  }

  function Resource(uid: Uid, spec: Spec): MustGather {
    MustGather(uid, 1, false, [OperatorFinalizer], spec, None)
  }

  function JobFor(uid: Uid, spec: Spec, pod: PodTemplate, jobUid: Uid, status: JobStatus): Job {
    Job(jobUid, ByOperator(uid, Retains(spec)), [OwnerRef(MUST_GATHER_KIND, "run", uid, true)], Some(BACKOFF_LIMIT), pod, status)
  }

  predicate Plain(spec: Spec) {
    spec == PlainSpec() || spec == PlainSpec().(retain := Some(true))
  }

  lemma FinalizerPass(cfg: Config, obs: Obs, c: Cluster, mg: MustGather)
    requires RUN in c.mustGathers && c.mustGathers[RUN] == mg && !mg.deleting && mg.finalizers == []
    ensures ApplyAll(c, Planned(cfg, obs, c, RUN).writes) == c.(mustGathers := c.mustGathers[RUN := mg.(finalizers := [OperatorFinalizer])])
  {
    ApplyOne(c, SetFinalizers(RUN, [OperatorFinalizer]));
    assert [] + [OperatorFinalizer] == [OperatorFinalizer];
  }

  /** A new resource, and the pass that puts the finalizer on it. */
  lemma Appear(cfg: Config, h: History, obs: Obs, spec: Spec) returns (h': History)
    requires Valid(cfg, h) && Plain(spec) && RUN !in Now(h).mustGathers
    ensures Valid(cfg, h')
    ensures var c := Now(h); Now(h') == c.(mustGathers := c.mustGathers[RUN := Resource(c.nextUid, spec)], nextUid := c.nextUid + 1)
  {
    h' := Create(cfg, h, spec);
    h' := TakeHold(cfg, h', obs, Now(h').mustGathers[RUN]);
  }

  lemma Create(cfg: Config, h: History, spec: Spec) returns (h': History)
    requires Valid(cfg, h) && Plain(spec) && RUN !in Now(h).mustGathers
    ensures Valid(cfg, h')
    ensures var c := Now(h);
            Now(h') == c.(mustGathers := c.mustGathers[RUN := MustGather(c.nextUid, 1, false, [], spec, None)], nextUid := c.nextUid + 1)
  {
    h' := Do(cfg, h, CreateMustGather(RUN, spec, []));
  }

  lemma TakeHold(cfg: Config, h: History, obs: Obs, mg: MustGather) returns (h': History)
    requires Valid(cfg, h) && RUN in Now(h).mustGathers && Now(h).mustGathers[RUN] == mg && !mg.deleting && mg.finalizers == []
    ensures Valid(cfg, h')
    ensures var c := Now(h); Now(h') == c.(mustGathers := c.mustGathers[RUN := mg.(finalizers := [OperatorFinalizer])])
  {
    FinalizerPass(cfg, obs, Now(h), mg);
    h' := CompletePass(cfg, h, obs, RUN);
  }

  /** A deletion pass that has nothing to clean up: the resource goes. */
  lemma LetGo(cfg: Config, h: History, obs: Obs, mg: MustGather) returns (h': History)
    requires Valid(cfg, h) && RUN in Now(h).mustGathers && Now(h).mustGathers[RUN] == mg && !mg.deleting && mg.finalizers == [OperatorFinalizer]
    requires Retains(mg.spec) || RUN !in Now(h).jobs
    ensures Valid(cfg, h')
    ensures var c := Now(h); Now(h') == c.(mustGathers := c.mustGathers - {RUN})
  {
    h' := Do(cfg, h, MarkDeleted(RUN));
    var marked := mg.(deleting := true, generation := mg.generation + 1);
    assert Now(h') == Now(h).(mustGathers := Now(h).mustGathers[RUN := marked]);
    h' := Vanish(cfg, h', obs, marked);
    assert Now(h).mustGathers[RUN := marked] - {RUN} == Now(h).mustGathers - {RUN};
  }

  lemma Vanish(cfg: Config, h: History, obs: Obs, mg: MustGather) returns (h': History)
    requires Valid(cfg, h) && RUN in Now(h).mustGathers && Now(h).mustGathers[RUN] == mg && mg.deleting && mg.finalizers == [OperatorFinalizer]
    requires Retains(mg.spec) || RUN !in Now(h).jobs
    ensures Valid(cfg, h')
    ensures var c := Now(h); Now(h') == c.(mustGathers := c.mustGathers - {RUN})
  {
    assert WithoutOperator([OperatorFinalizer]) == [];
    assert Planned(cfg, obs, Now(h), RUN).writes == [SetFinalizers(RUN, [])];
    ApplyOne(Now(h), SetFinalizers(RUN, []));
    h' := CompletePass(cfg, h, obs, RUN);
  }

  /** Without a trusted CA, the pass that creates the Job. */
  lemma CreationPlan(obs: Obs, c: Cluster, mg: MustGather, pod: PodTemplate)
    requires obs.operatorImage.Some? && Plain(mg.spec) && mg == Resource(mg.uid, mg.spec)
    requires c == World(map[RUN := mg], map[], map[], 1, 0, 0, 0) && pod == PodFor(Settings(""), obs, c, RUN)
    ensures Planned(Settings(""), obs, c, RUN).writes == [CreateJob(RUN, NewJob(RUN, mg, pod)), CountGather]
    ensures pod.backoffLimit == BACKOFF_LIMIT
  {
    assert ApplyAll(c, []) == c;
  }

  lemma CreationApplied(spec: Spec, pod: PodTemplate)
    requires pod.backoffLimit == BACKOFF_LIMIT
    ensures ApplyAll(World(map[RUN := Resource(0, spec)], map[], map[], 1, 0, 0, 0),
                     [CreateJob(RUN, NewJob(RUN, Resource(0, spec), pod)), CountGather])
            == World(map[RUN := Resource(0, spec)], map[RUN := JobFor(0, spec, pod, 1, FRESH)], map[], 2, 1, 0, 0)
  {
    ApplyTwo(World(map[RUN := Resource(0, spec)], map[], map[], 1, 0, 0, 0), CreateJob(RUN, NewJob(RUN, Resource(0, spec), pod)), CountGather);
  }

  /** A first resource, and without a trusted CA, the pass that creates its Job. */
  lemma Start(obs: Obs, spec: Spec) returns (h: History, pod: PodTemplate)
    requires obs.operatorImage.Some? && Plain(spec)
    ensures Valid(Settings(""), h)
    ensures Now(h) == World(map[RUN := Resource(0, spec)], map[RUN := JobFor(0, spec, pod, 1, FRESH)], map[], 2, 1, 0, 0)
  {
    h := Begin(Settings(""), World(map[], map[], map[], 0, 0, 0, 0));
    h := Appear(Settings(""), h, obs, spec);
    h, pod := StartGathering(h, obs, spec);
  }

  lemma StartGathering(h: History, obs: Obs, spec: Spec) returns (h': History, pod: PodTemplate)
    requires obs.operatorImage.Some? && Plain(spec)
    requires Valid(Settings(""), h) && Now(h) == World(map[RUN := Resource(0, spec)], map[], map[], 1, 0, 0, 0)
    ensures Valid(Settings(""), h')
    ensures Now(h') == World(map[RUN := Resource(0, spec)], map[RUN := JobFor(0, spec, pod, 1, FRESH)], map[], 2, 1, 0, 0)
  {
    pod := PodFor(Settings(""), obs, Now(h), RUN);
    CreationPlan(obs, Now(h), Resource(0, spec), pod);
    CreationApplied(spec, pod);
    h' := CompletePass(Settings(""), h, obs, RUN);
  }

  /** The Job controller takes the Job of the examples one step further. */
  lemma Advance(cfg: Config, h: History, status: JobStatus) returns (h': History)
    requires Valid(cfg, h) && RUN in Now(h).jobs && Now(h).jobs[RUN].backoffLimit == Some(BACKOFF_LIMIT)
    requires JobStep(Now(h).jobs[RUN].status, status, BACKOFF_LIMIT)
    ensures Valid(cfg, h')
    ensures var c := Now(h); Now(h') == c.(jobs := c.jobs[RUN := c.jobs[RUN].(status := status)])
  {
    h' := Do(cfg, h, AdvanceJob(RUN, status));
  }

  // ---------- a failed Job, counted twice ----------

  /** Pods of the Job start and fail, one after the other. */
  lemma {:induction false} FailPods(h: History, spec: Spec, pod: PodTemplate, n: nat) returns (h': History)
    requires n <= BACKOFF_LIMIT + 1 && Valid(Settings(""), h)
    requires Now(h) == World(map[RUN := Resource(0, spec)], map[RUN := JobFor(0, spec, pod, 1, FRESH)], map[], 2, 1, 0, 0)
    ensures Valid(Settings(""), h')
    ensures Now(h') == World(map[RUN := Resource(0, spec)], map[RUN := JobFor(0, spec, pod, 1, JobStatus(0, 0, n, false))], map[], 2, 1, 0, 0)
  {
    if n == 0 {
      h' := h;
    } else {
      h' := FailPods(h, spec, pod, n - 1);
      h' := Advance(Settings(""), h', JobStatus(1, 0, n - 1, false));
      h' := Advance(Settings(""), h', JobStatus(0, 0, n, false));
    }
  }

  lemma FailedPlan(obs: Obs, c: Cluster, mg: MustGather, pod: PodTemplate)
    requires c.mustGathers == map[RUN := mg] && !mg.deleting && mg.finalizers == [OperatorFinalizer] && mg.spec == PlainSpec() && c.pods == []
    requires c.jobs == map[RUN := JobFor(mg.uid, PlainSpec(), pod, 1, JobStatus(0, 0, BACKOFF_LIMIT + 1, false))]
    ensures LooksForJob(Settings(""), c, RUN) && FailedForGood(c, RUN)
    ensures Planned(Settings(""), obs, c, RUN).writes == [CountError, SetStatus(RUN, OutcomeStatus(mg, Failed)), DeleteJob(RUN)]
  {
    var cfg := Settings("");
    var job := c.jobs[RUN];
    assert job.owners[0] in job.owners && OwnedJob(c, RUN, mg.uid);
    assert PodsOf(c.pods, RUN.ns, job.uid) == [];
    assert CleanupPlan(cfg, c, RUN, mg.uid) == [DeleteJob(RUN)];
    assert ApplyAll(c, []) == c;
  }

  /**
    One Job is made and fails for good. The pass that sees this reports it and then fails
    in the cleanup; its retry sees it again. Both are counted.
   */
  lemma OneFailureCountsTwice(obs: Obs) returns (h: History)
    requires obs.operatorImage.Some?
    ensures Valid(Settings(""), h) && Now(h).gathers == Made(Now(h)) == 1 && Now(h).errors == 2
  {
    var cfg, spec := Settings(""), PlainSpec();
    var pod;
    h, pod := Start(obs, spec);
    h := FailPods(h, spec, pod, BACKOFF_LIMIT + 1);
    var mg;
    h, mg := SeeFailure(h, obs, pod);
    h := SeeFailureAgain(h, obs, mg, pod);
    assert OperatorJobs(Now(h)) == {};
  }

  /** The outcome is reported; then the cleanup fails. */
  lemma SeeFailure(h: History, obs: Obs, pod: PodTemplate) returns (h': History, mg: MustGather)
    requires Valid(Settings(""), h)
    requires Now(h) == World(map[RUN := Resource(0, PlainSpec())],
                             map[RUN := JobFor(0, PlainSpec(), pod, 1, JobStatus(0, 0, BACKOFF_LIMIT + 1, false))], map[], 2, 1, 0, 0)
    ensures Valid(Settings(""), h') && Now(h') == World(map[RUN := mg], Now(h).jobs, map[], 2, 1, 1, 0)
    ensures mg == Resource(0, PlainSpec()).(status := mg.status)
  {
    var before, outcome := Resource(0, PlainSpec()), SetStatus(RUN, OutcomeStatus(Resource(0, PlainSpec()), Failed));
    FailedPlan(obs, Now(h), before, pod);
    assert Planned(Settings(""), obs, Now(h), RUN).writes[..2] == [CountError, outcome];
    ApplyTwo(Now(h), CountError, outcome);
    h' := FailingPass(Settings(""), h, obs, RUN, 2);
    mg := before.(status := Some(OutcomeStatus(before, Failed)));
  }

  /** The retry goes through. */
  lemma SeeFailureAgain(h: History, obs: Obs, mg: MustGather, pod: PodTemplate) returns (h': History)
    requires Valid(Settings(""), h) && mg == Resource(0, PlainSpec()).(status := mg.status)
    requires Now(h) == World(map[RUN := mg], map[RUN := JobFor(0, PlainSpec(), pod, 1, JobStatus(0, 0, BACKOFF_LIMIT + 1, false))], map[], 2, 1, 1, 0)
    ensures Valid(Settings(""), h') && Now(h').jobs == map[] && Now(h').gathers == 1 && Now(h').errors == 2
    ensures Now(h').cleaned == 1 && Now(h').collected == 0
  {
    FailedPlan(obs, Now(h), mg, pod);
    FailureApplied(Now(h), OutcomeStatus(mg, Failed));
    h' := CompletePass(Settings(""), h, obs, RUN);
  }

  lemma FailureApplied(c: Cluster, status: Status)
    requires c.jobs.Keys == {RUN} && c.jobs[RUN].origin.ByOperator?
    ensures var c' := ApplyAll(c, [CountError, SetStatus(RUN, status), DeleteJob(RUN)]);
            c'.jobs == map[] && c'.gathers == c.gathers && c'.errors == c.errors + 1 && c'.cleaned == c.cleaned + 1 && c'.collected == c.collected
  {
    ApplyThree(c, CountError, SetStatus(RUN, status), DeleteJob(RUN));
    assert c.jobs - {RUN} == map[];
  }

  // ---------- an outcome taken over ----------

  lemma SucceededPlan(obs: Obs, c: Cluster, mg: MustGather)
    requires c.mustGathers == map[RUN := mg] && !mg.deleting && mg.finalizers == [OperatorFinalizer]
    requires mg.spec == PlainSpec().(retain := Some(true))
    requires RUN in c.jobs && c.jobs[RUN].status == JobStatus(0, 1, 0, false)
    ensures Planned(Settings(""), obs, c, RUN).writes == [SetStatus(RUN, OutcomeStatus(mg, Completed))]
  {
    assert ApplyAll(c, []) == c;
  }

  /** A resource gathers, retains its Job and is deleted: the Job stays behind until it is collected. */
  lemma LeaveJobBehind(obs: Obs) returns (h: History, pod: PodTemplate)
    requires obs.operatorImage.Some?
    ensures Valid(Settings(""), h)
    ensures var spec := PlainSpec().(retain := Some(true));
            Now(h) == World(map[], map[RUN := JobFor(0, spec, pod, 1, JobStatus(0, 1, 0, false))], map[], 2, 1, 0, 0)
  {
    var cfg, spec := Settings(""), PlainSpec().(retain := Some(true));
    h, pod := Start(obs, spec);
    h := Advance(cfg, h, JobStatus(1, 0, 0, false));
    h := Advance(cfg, h, JobStatus(0, 1, 0, false));
    var mg := Resource(0, spec);
    var jobs := map[RUN := JobFor(0, spec, pod, 1, JobStatus(0, 1, 0, false))];
    assert Now(h) == World(map[RUN := mg], jobs, map[], 2, 1, 0, 0);
    h := SeeSuccess(h, obs, mg, jobs[RUN]);
    mg := mg.(status := Some(OutcomeStatus(mg, Completed)));
    h := LetGo(cfg, h, obs, mg);
    assert map[RUN := mg] - {RUN} == map[];
  }

  lemma SeeSuccess(h: History, obs: Obs, mg: MustGather, job: Job) returns (h': History)
    requires Valid(Settings(""), h) && Now(h).mustGathers == map[RUN := mg] && !mg.deleting && mg.finalizers == [OperatorFinalizer]
    requires mg.spec == PlainSpec().(retain := Some(true))
    requires RUN in Now(h).jobs && Now(h).jobs[RUN] == job && job.status == JobStatus(0, 1, 0, false)
    ensures Valid(Settings(""), h')
    ensures Now(h') == Now(h).(mustGathers := map[RUN := mg.(status := Some(OutcomeStatus(mg, Completed)))])
  {
    SucceededPlan(obs, Now(h), mg);
    ApplyOne(Now(h), SetStatus(RUN, OutcomeStatus(mg, Completed)));
    h' := CompletePass(Settings(""), h, obs, RUN);
  }

  /**
    Then a new resource of the same name is declared completed without ever gathering:
    the only Job ever made, and the one it is judged by, is that of the resource before.
   */
  lemma OutcomeTakenOver(obs: Obs) returns (h: History)
    requires obs.operatorImage.Some?
    ensures Valid(Settings(""), h)
    ensures var c := Now(h);
            && RUN in c.mustGathers && c.mustGathers[RUN].uid == 2 && ReportAt(c, RUN) == OutcomeReport(Completed)
            && c.gathers == Made(c) == 1
            && MadeFor(c, RUN, 0) && !OwnedJob(c, RUN, 2)
  {
    var cfg, spec := Settings(""), PlainSpec().(retain := Some(true));
    var pod;
    h, pod := LeaveJobBehind(obs);
    h := Appear(cfg, h, obs, spec);
    var mg := Resource(2, spec);
    var jobs := map[RUN := JobFor(0, spec, pod, 1, JobStatus(0, 1, 0, false))];
    assert Now(h) == World(map[RUN := mg], jobs, map[], 3, 1, 0, 0);
    h := SeeSuccess(h, obs, mg, jobs[RUN]);
    assert OperatorJobs(Now(h)) == {RUN};
  }

  // ---------- a hold that outlives its holder ----------

  const CA_HERE := Key("ns", "ca")

  const SOURCE := map[Key("operator", "ca") := ConfigMap([], map[], map[])]

  function WithCopy(): map<Key, ConfigMap> {
    SOURCE[CA_HERE := ConfigMap([CaRef(RUN, 0)], map[], map[])]
  }

  lemma CreationPassWithCa(obs: Obs) returns (pod: PodTemplate)
    requires obs.operatorImage.Some?
    ensures var mg := Resource(0, PlainSpec()); var c := World(map[RUN := mg], map[], SOURCE, 1, 0, 0, 0);
            ApplyAll(c, Planned(Settings("ca"), obs, c, RUN).writes)
            == World(map[RUN := mg], map[RUN := JobFor(0, PlainSpec(), pod, 1, FRESH)], WithCopy(), 2, 1, 0, 0)
  {
    var cfg := Settings("ca");
    var mg := Resource(0, PlainSpec());
    var c := World(map[RUN := mg], map[], SOURCE, 1, 0, 0, 0);
    pod := PodFor(cfg, obs, c, RUN);
    var copy := CreateConfigMap(CA_HERE, ConfigMap([CaRef(RUN, 0)], map[], map[]));
    assert CaPlan(cfg, c, RUN, 0).writes == [copy];
    ApplyOne(c, copy);
    var create := CreateJob(RUN, NewJob(RUN, mg, pod));
    assert Planned(cfg, obs, c, RUN).writes == [copy, create, CountGather];
    ApplyThree(c, copy, create, CountGather);
  }

  lemma CompletionWithCa(obs: Obs, pod: PodTemplate)
    ensures var mg := Resource(0, PlainSpec());
            var c := World(map[RUN := mg], map[RUN := JobFor(0, PlainSpec(), pod, 1, JobStatus(0, 1, 0, false))], WithCopy(), 2, 1, 0, 0);
            && LooksForJob(Settings("ca"), c, RUN) && !FailedForGood(c, RUN)
            && Planned(Settings("ca"), obs, c, RUN).writes
               == [SetStatus(RUN, OutcomeStatus(mg, Completed)), DeleteJob(RUN), DeleteConfigMap(CA_HERE)]
  {
    var cfg := Settings("ca");
    var mg := Resource(0, PlainSpec());
    var c := World(map[RUN := mg], map[RUN := JobFor(0, PlainSpec(), pod, 1, JobStatus(0, 1, 0, false))], WithCopy(), 2, 1, 0, 0);
    assert c.configMaps[CA_HERE].owners == [CaRef(RUN, 0)] && CaRef(RUN, 0) in c.configMaps[CA_HERE].owners;
    assert CaPlan(cfg, c, RUN, 0) == Plan([], true);
    assert ApplyAll(c, []) == c;
    assert c.jobs[RUN].owners[0] in c.jobs[RUN].owners && OwnedJob(c, RUN, 0);
    assert Without([CaRef(RUN, 0)], 0) == [];
    assert ReleasePlan(cfg, c, "ns", 0) == [DeleteConfigMap(CA_HERE)];
    assert CleanupPlan(cfg, c, RUN, 0) == [DeleteJob(RUN), DeleteConfigMap(CA_HERE)];
  }

  lemma SucceedWithCa(obs: Obs) returns (h: History, pod: PodTemplate)
    requires obs.operatorImage.Some?
    ensures Valid(Settings("ca"), h)
    ensures Now(h) == World(map[RUN := Resource(0, PlainSpec())], map[RUN := JobFor(0, PlainSpec(), pod, 1, JobStatus(0, 1, 0, false))], WithCopy(), 2, 1, 0, 0)
  {
    var cfg, spec := Settings("ca"), PlainSpec();
    h := Begin(cfg, World(map[], map[], SOURCE, 0, 0, 0, 0));
    h := Appear(cfg, h, obs, spec);
    assert Now(h) == World(map[RUN := Resource(0, spec)], map[], SOURCE, 1, 0, 0, 0);
    h, pod := CreateWithCa(h, obs);
    h := Advance(cfg, h, JobStatus(1, 0, 0, false));
    h := Advance(cfg, h, JobStatus(0, 1, 0, false));
  }

  lemma CreateWithCa(h: History, obs: Obs) returns (h': History, pod: PodTemplate)
    requires obs.operatorImage.Some? && Valid(Settings("ca"), h)
    requires Now(h) == World(map[RUN := Resource(0, PlainSpec())], map[], SOURCE, 1, 0, 0, 0)
    ensures Valid(Settings("ca"), h')
    ensures Now(h') == World(map[RUN := Resource(0, PlainSpec())], map[RUN := JobFor(0, PlainSpec(), pod, 1, FRESH)], WithCopy(), 2, 1, 0, 0)
  {
    pod := CreationPassWithCa(obs);
    h' := CompletePass(Settings("ca"), h, obs, RUN);
  }

  /** A completing pass that fails after it has deleted the Job, before it lets go of the copy. */
  lemma JobGoneHoldKept(obs: Obs) returns (h: History, mg: MustGather)
    requires obs.operatorImage.Some?
    ensures Valid(Settings("ca"), h) && Now(h) == World(map[RUN := mg], map[], WithCopy(), 2, 1, 0, 1)
    ensures mg.uid == 0 && mg.finalizers == [OperatorFinalizer] && !mg.deleting && mg.spec == PlainSpec()
  {
    var pod;
    h, pod := SucceedWithCa(obs);
    h := FailBeforeRelease(h, obs, pod);
    mg := Resource(0, PlainSpec()).(status := Some(OutcomeStatus(Resource(0, PlainSpec()), Completed)));
  }

  lemma FailBeforeRelease(h: History, obs: Obs, pod: PodTemplate) returns (h': History)
    requires Valid(Settings("ca"), h)
    requires Now(h) == World(map[RUN := Resource(0, PlainSpec())], map[RUN := JobFor(0, PlainSpec(), pod, 1, JobStatus(0, 1, 0, false))], WithCopy(), 2, 1, 0, 0)
    ensures var mg := Resource(0, PlainSpec()).(status := Some(OutcomeStatus(Resource(0, PlainSpec()), Completed)));
            Valid(Settings("ca"), h') && Now(h') == World(map[RUN := mg], map[], WithCopy(), 2, 1, 0, 1)
  {
    CompletionWithCa(obs, pod);
    var outcome := SetStatus(RUN, OutcomeStatus(Resource(0, PlainSpec()), Completed));
    assert Planned(Settings("ca"), obs, Now(h), RUN).writes[..2] == [outcome, DeleteJob(RUN)];
    ApplyTwo(Now(h), outcome, DeleteJob(RUN));
    h' := FailingPass(Settings("ca"), h, obs, RUN, 2);
  }

  /**
    If the resource is deleted at that moment, a complete deletion pass, finding no Job,
    lets the resource go and leaves the copy in its name.
   */
  lemma HoldOutlivesHolder(obs: Obs) returns (h: History)
    requires obs.operatorImage.Some?
    ensures Valid(Settings("ca"), h)
    ensures RUN !in Now(h).mustGathers && !Alive(Now(h), 0) && HoldsCa(Settings("ca"), Now(h), "ns", 0)
    ensures TrustedCa.HoldersAreMustGathers(Settings("ca"), Now(h), "ns", 0)
  {
    var cfg := Settings("ca");
    var mg;
    h, mg := JobGoneHoldKept(obs);
    h := LetGo(cfg, h, obs, mg);
    assert CaRef(RUN, 0) in Now(h).configMaps[CA_HERE].owners;
  }
}
