/**
  Whole runs: passes of the reconciler, taken from the work queue one at a time and cut
  short by failing calls anywhere, between arbitrary actions of everybody else.
 */
module Runs {
  import opened Api
  import opened JobController
  import opened JobTemplate
  import opened Cluster
  import opened Plan
  import opened Protocol
  import opened Invariants
  import opened Environment
  import opened Wakeups

  /** What a resource and its Job looked like at the end of the last pass over it. */
  datatype Seen = Seen(uid: Uid, generation: nat, finalizers: seq<Finalizer>, job: Option<(Uid, JobStatus)>)

  datatype System = System(c: Cluster, queue: set<Key>, seen: map<Key, Seen>)

  /**
    A restart of the operator may come between two passes, with nothing done, or cut one
    short anywhere, even where no call is made.
   */
  datatype Label =
    | Pass(key: Key, obs: Obs, done: seq<Write>, failures: nat, ok: bool, looked: bool)
    | Restart(key: Key, obs: Obs, done: seq<Write>)
    | Act(action: Action)
    | Enqueue(key: Key)  // periodic resync
  {
    /** Whether the operator writes in this step. */
    predicate Writes() {
      Pass? || Restart?
    }
  }

  function Look(c: Cluster, seen: map<Key, Seen>, key: Key): map<Key, Seen> {
    if key !in c.mustGathers then seen - {key}
    else
      var mg := c.mustGathers[key];
      seen[key := Seen(mg.uid, mg.generation, mg.finalizers,
                       if key in c.jobs then Some((c.jobs[key].uid, c.jobs[key].status)) else None)]
  }

  ghost predicate IsPass(cfg: Config, c: Cluster, l: Label) {
    && l.Pass?
    && Outcome(c, l.key, PassPlan(cfg, l.obs, PodFor(cfg, l.obs, c, l.key), c, l.key), l.done, l.failures, l.ok)
    && Looked(cfg, c, l.key, l.done, l.failures, l.looked)
  }

  /** What has been written when a pass is cut short anywhere. */
  ghost predicate CutShort(c: Cluster, key: Key, planned: seq<Write>, done: seq<Write>) {
    done <= planned || StoppedWithTail(c, key, planned, done)
  }

  ghost predicate IsCut(cfg: Config, c: Cluster, l: Label) {
    l.Writes() && CutShort(c, l.key, PassPlan(cfg, l.obs, PodFor(cfg, l.obs, c, l.key), c, l.key).writes, l.done)
  }

  /** A process that starts again counts from zero. */
  function ZeroCounters(c: Cluster): Cluster {
    c.(gathers := 0, errors := 0)
  }

  ghost predicate Step(cfg: Config, s: System, l: Label, s': System) {
    match l
    case Pass(key, obs, done, failures, ok, looked) =>
      && key in s.queue && IsPass(cfg, s.c, l)
      && s'.c == ApplyAll(s.c, done)
      && s'.queue == (s.queue - {key}) + WokenBy(cfg, s.c, done) + (if ok then {} else {key})
      && s'.seen == Look(s'.c, s.seen, key)
    case Restart(key, obs, done) =>
      && (done == [] || key in s.queue) && IsCut(cfg, s.c, l)
      && s'.c == ZeroCounters(ApplyAll(s.c, done))
      && s'.queue == s'.c.mustGathers.Keys && s'.seen == s.seen  // the first listing shows every resource as new
    case Act(action) =>
      && Allowed(cfg, s.c, action)
      && s'.c == Perform(s.c, action) && s'.queue == s.queue + Wakes(cfg, s.c, s'.c) && s'.seen == s.seen
    case Enqueue(key) => s' == s.(queue := s.queue + {key})
  }

  /** A cluster the operator has not touched yet. */
  ghost predicate Init(s: System) {
    && s.c.mustGathers == map[] && s.queue == {} && s.seen == map[]
    && (forall k | k in s.c.jobs :: s.c.jobs[k].origin == ByOthers && s.c.jobs[k].uid < s.c.nextUid)
    && (forall p | p in s.c.pods :: p.origin == ByOthers)
    && s.c.gathers == s.c.errors == s.c.cleaned == s.c.collected == 0
  }

  ghost predicate Run(cfg: Config, states: seq<System>, labels: seq<Label>) {
    && |states| == |labels| + 1
    && Init(states[0])
    && forall i: nat | i < |labels| :: StepAt(cfg, states, labels, i)
  }

  ghost predicate StepAt(cfg: Config, states: seq<System>, labels: seq<Label>, i: nat)
    requires i < |labels| < |states|
  {
    Step(cfg, states[i], labels[i], states[i + 1])
  }

  // ---------- the work queue ----------

  /** The last pass over the resource saw it, and its Job, as they are now; a Job it did not see has not begun. */
  ghost predicate Fresh(s: System, k: Key)
    requires k in s.c.mustGathers
  {
    var mg := s.c.mustGathers[k];
    && k in s.seen
    && s.seen[k].uid == mg.uid && s.seen[k].generation == mg.generation && s.seen[k].finalizers == mg.finalizers
    && (k in s.c.jobs && Controller(k, s.c.jobs[k]) == Some(k) && s.seen[k].job.Some? && s.seen[k].job.value.0 == s.c.jobs[k].uid
        ==> s.seen[k].job.value.1 == s.c.jobs[k].status)
    && (k in s.c.jobs && Controller(k, s.c.jobs[k]) == Some(k) && !(s.seen[k].job.Some? && s.seen[k].job.value.0 == s.c.jobs[k].uid)
        ==> s.c.jobs[k].status == FRESH)
  }

  ghost predicate AtRest(cfg: Config, s: System, k: Key)
    requires k in s.c.mustGathers
  {
    Settled(cfg, s.c, k) && Fresh(s, k)
  }

  ghost predicate QueueInv(cfg: Config, s: System) {
    forall k | k in s.c.mustGathers && k !in s.queue :: AtRest(cfg, s, k)
  }

  ghost predicate JobUidsInv(s: System) {
    && JobUidsBelow(s.c)
    && (forall k | k in s.seen && s.seen[k].job.Some? :: s.seen[k].job.value.0 < s.c.nextUid)
  }

  lemma UndisturbedStaysAtRest(cfg: Config, s: System, s': System, k: Key)
    requires Undisturbed(s.c, s'.c, k) && AtRest(cfg, s, k) && JobUidsInv(s)
    requires k in s'.seen && s'.seen[k] == s.seen[k]
    ensures AtRest(cfg, s', k)
  {
  }

  /** Neither an event of the resource nor one of its own Job has passed the filters. */
  ghost predicate Unnoticed(c: Cluster, c': Cluster, k: Key) {
    !ResourceWakes(c, c', k) && !(JobWakes(c, c', k) && Controller(k, c'.jobs[k]) == Some(k))
  }

  lemma NotWokenIsUnnoticed(cfg: Config, c: Cluster, c': Cluster, k: Key)
    requires k !in Wakes(cfg, c, c') && k in c'.mustGathers
    ensures Unnoticed(c, c', k)
  {
    assert k in c.mustGathers.Keys + c'.mustGathers.Keys;
    if JobWakes(c, c', k) {
      assert Controller(k, c'.jobs[k]).value in Wakes(cfg, c, c');
    }
  }

  lemma CreationNoticed(c: Cluster, key: Key, spec: Spec, finalizers: seq<Finalizer>, k: Key)
    requires key !in c.mustGathers
    requires var c' := Perform(c, CreateMustGather(key, spec, finalizers)); k in c'.mustGathers && Unnoticed(c, c', k)
    ensures Undisturbed(c, Perform(c, CreateMustGather(key, spec, finalizers)), k)
  {
    var c' := Perform(c, CreateMustGather(key, spec, finalizers));
    assert c'.jobs == c.jobs;
    assert k == key ==> ResourceWakes(c, c', k);
  }

  lemma MarkingNoticed(c: Cluster, key: Key, k: Key)
    requires key in c.mustGathers
    requires k in Marked(c, key).mustGathers && Unnoticed(c, Marked(c, key), k)
    ensures Undisturbed(c, Marked(c, key), k)
  {
    MarkedFrame(c, key);
    assert k == key ==> ResourceWakes(c, Marked(c, key), k);
  }

  lemma EditNoticed(c: Cluster, key: Key, finalizers: seq<Finalizer>, k: Key)
    requires key in c.mustGathers
    requires var c' := StoreFinalizers(c, key, finalizers); k in c'.mustGathers && Unnoticed(c, c', k)
    ensures Undisturbed(c, StoreFinalizers(c, key, finalizers), k)
  {
    var c' := StoreFinalizers(c, key, finalizers);
    FinalizersChange(c, key, finalizers);
    if k == key {
      assert c'.mustGathers[key] == c.mustGathers[key].(finalizers := finalizers);
      assert finalizers == c.mustGathers[key].finalizers;
    }
  }

  lemma JobActionNoticed(c: Cluster, a: Action, k: Key)
    requires OnJobs(a) && k in Perform(c, a).jobs && !(a.AddJob? && a.key in c.jobs)
    ensures var job := Perform(c, a).jobs[k];
            if k in c.jobs then job == c.jobs[k] || job == c.jobs[k].(status := job.status)
            else job.uid == c.nextUid && job.status == FRESH
  {
  }

  lemma OtherActionNoticed(cfg: Config, c: Cluster, a: Action, k: Key)
    requires Allowed(cfg, c, a) && !OnResources(a)
    requires k in Perform(c, a).mustGathers && Unnoticed(c, Perform(c, a), k)
    ensures Undisturbed(c, Perform(c, a), k)
  {
    var c' := Perform(c, a);
    ActionFrame(c, a);
    if OnJobs(a) && k in c'.jobs {
      JobActionNoticed(c, a, k);
    }
  }

  /** An action that wakes nobody has left everybody undisturbed. */
  lemma ActionDisturbsOnlyTheWoken(cfg: Config, c: Cluster, a: Action, k: Key)
    requires Allowed(cfg, c, a) && k in Perform(c, a).mustGathers && k !in Wakes(cfg, c, Perform(c, a))
    ensures Undisturbed(c, Perform(c, a), k)
  {
    NotWokenIsUnnoticed(cfg, c, Perform(c, a), k);
    match a
    case CreateMustGather(key, spec, finalizers) => CreationNoticed(c, key, spec, finalizers, k);
    case MarkDeleted(key) => MarkingNoticed(c, key, k);
    case EditFinalizers(key, finalizers) => EditNoticed(c, key, finalizers, k);
    case _ => OtherActionNoticed(cfg, c, a, k);
  }

  lemma {:induction false} UidsGrow(c: Cluster, ws: seq<Write>)
    requires JobUidsBelow(c)
    ensures ApplyAll(c, ws).nextUid >= c.nextUid && JobUidsBelow(ApplyAll(c, ws))
  {
    if ws != [] {
      UidsGrow(c, ws[..|ws| - 1]);
      UidsGrowByOne(ApplyAll(c, ws[..|ws| - 1]), ws[|ws| - 1]);
    }
  }

  lemma UidsGrowByOne(c: Cluster, w: Write)
    requires JobUidsBelow(c)
    ensures Apply(c, w).nextUid >= c.nextUid && JobUidsBelow(Apply(c, w))
  {
    if !w.CreateJob? && !w.DeleteJob? {
      WriteKeepsJobs(c, w);
    }
  }

  lemma PassKeepsQueueInv(cfg: Config, s: System, l: Label, s': System)
    requires l.Pass? && Step(cfg, s, l, s') && QueueInv(cfg, s) && JobUidsInv(s)
    ensures QueueInv(cfg, s') && JobUidsInv(s')
  {
    var pod := PodFor(cfg, l.obs, s.c, l.key);
    PassIsLegal(cfg, l.obs, pod, s.c, l.key, l.done, l.failures, l.ok);
    LegalIsLocal(cfg, l.obs, pod, s.c, l.key, l.done);
    UidsGrow(s.c, l.done);
    forall k | k in s'.c.mustGathers && k !in s'.queue ensures AtRest(cfg, s', k) {
      if k == l.key {
        if k in s.c.mustGathers {
          CompletePassSettles(cfg, l.obs, pod, s.c, k);
        }
      } else {
        UndisturbedStaysAtRest(cfg, s, s', k);
      }
    }
  }

  ghost predicate JobUidsBelow(c: Cluster) {
    forall k | k in c.jobs :: c.jobs[k].uid < c.nextUid
  }

  lemma ActionKeepsJobUidsBelow(c: Cluster, a: Action)
    requires JobUidsBelow(c)
    ensures JobUidsBelow(Perform(c, a)) && c.nextUid <= Perform(c, a).nextUid
  {
    ActionFrame(c, a);
  }

  lemma StepKeepsQueueInv(cfg: Config, s: System, l: Label, s': System)
    requires Step(cfg, s, l, s') && QueueInv(cfg, s) && JobUidsInv(s)
    ensures QueueInv(cfg, s') && JobUidsInv(s')
  {
    match l
    case Pass(_, _, _, _, _, _) => PassKeepsQueueInv(cfg, s, l, s');
    case Restart(_, _, done) => UidsGrow(s.c, done);
    case Act(a) =>
      ActionKeepsJobUidsBelow(s.c, a);
      forall k | k in s'.c.mustGathers && k !in s'.queue ensures AtRest(cfg, s', k) {
        ActionDisturbsOnlyTheWoken(cfg, s.c, a, k);
        UndisturbedStaysAtRest(cfg, s, s', k);
      }
    case Enqueue(_) =>
      forall k | k in s'.c.mustGathers && k !in s'.queue ensures AtRest(cfg, s', k) {
        assert AtRest(cfg, s, k);
      }
  }

  // ---------- every state of every run ----------

  ghost predicate SystemInv(cfg: Config, s: System) {
    Inv(cfg, s.c) && QueueInv(cfg, s) && JobUidsInv(s)
  }

  lemma InitHolds(cfg: Config, s: System)
    requires Init(s)
    ensures SystemInv(cfg, s)
  {
  }

  /** Every write of a step obeys the rules, wherever it is cut short. */
  lemma StepIsLegal(cfg: Config, s: System, l: Label, s': System)
    requires Step(cfg, s, l, s') && l.Writes()
    ensures IsCut(cfg, s.c, l)
    ensures Legal(cfg, l.obs, PodFor(cfg, l.obs, s.c, l.key), s.c, l.key, l.done)
  {
    CutIsLegal(cfg, l.obs, PodFor(cfg, l.obs, s.c, l.key), s.c, l.key, l.done);
  }

  lemma CutIsLegal(cfg: Config, obs: Obs, pod: PodTemplate, c: Cluster, key: Key, done: seq<Write>)
    requires CutShort(c, key, PassPlan(cfg, obs, pod, c, key).writes, done)
    ensures Legal(cfg, obs, pod, c, key, done)
  {
    var planned := PassPlan(cfg, obs, pod, c, key).writes;
    PlanIsLegal(cfg, obs, pod, c, key);
    if done <= planned {
      LegalPrefix(cfg, obs, pod, c, key, planned, |done|);
      assert planned[..|done|] == done;
    } else {
      PassIsLegal(cfg, obs, pod, c, key, done, 1, false);
    }
  }

  lemma ZeroingKeepsInv(cfg: Config, c: Cluster)
    requires Inv(cfg, c)
    ensures Inv(cfg, ZeroCounters(c))
  {
    var c' := ZeroCounters(c);
    assert forall k | k in c.jobs && c.jobs[k].origin.ByOperator? :: OperatorJobInv(c, k);
    assert forall p | p in c.pods && PodHasJob(c, p) :: PodHasJob(c', p);
  }

  lemma StepKeepsInv(cfg: Config, s: System, l: Label, s': System)
    requires SystemInv(cfg, s) && Step(cfg, s, l, s')
    ensures SystemInv(cfg, s')
  {
    StepKeepsQueueInv(cfg, s, l, s');
    if l.Writes() {
      StepIsLegal(cfg, s, l, s');
      LegalPreserves(cfg, l.obs, PodFor(cfg, l.obs, s.c, l.key), s.c, l.key, l.done);
      if l.Restart? {
        ZeroingKeepsInv(cfg, ApplyAll(s.c, l.done));
      }
    } else if l.Act? {
      ActionPreserves(cfg, s.c, l.action);
    }
  }

  lemma {:induction false} RunKeepsInv(cfg: Config, states: seq<System>, labels: seq<Label>, i: nat)
    requires Run(cfg, states, labels) && i < |states|
    ensures SystemInv(cfg, states[i])
  {
    if i == 0 {
      InitHolds(cfg, states[0]);
    } else {
      RunKeepsInv(cfg, states, labels, i - 1);
      assert StepAt(cfg, states, labels, i - 1);
      StepKeepsInv(cfg, states[i - 1], labels[i - 1], states[i]);
    }
  }
}
