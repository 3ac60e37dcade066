/**
  What one pass of the reconciler is meant to do: the list of writes it would make from
  a given cluster if every call went through, and whether it would end without an error.

  A plan is a function of the cluster at the start of the pass and of what the pass
  learns elsewhere. The class Reconciler, which works call by call and can be stopped
  by any of them, is proved to carry out a prefix of this plan.
 */
module Plan {
  import opened Api
  import opened Naming
  import opened JobController
  import opened JobTemplate
  import opened Sftp
  import opened Cluster

  /** Operator configuration; `trustedCa` is "" when no trusted CA is configured. */
  datatype Config = Config(trustedCa: string, namespace: string, defaultImage: string, serviceAccount: string)

  /**
    What a pass learns from elsewhere: its environment, the clock, the random draw, the
    SFTP server, and the two reads whose failure does not stop it.
   */
  datatype Obs = Obs(
    operatorImage: Option<string>, proxyVars: seq<(string, string)>,
    imageStreamUnavailable: bool, clusterId: Option<string>, now: Timestamp, draw: nat,
    dial: (string, string, string) -> Dial)

  datatype Plan = Plan(writes: seq<Write>, ok: bool)

  function Then(first: seq<Write>, rest: Plan): Plan {
    Plan(first + rest.writes, rest.ok)
  }

  // ---------- status writes ----------

  /** The write of a status, unless the API server is going to refuse it for want of `completed`. */
  function Stored(key: Key, status: Status): seq<Write> {
    if status.completed.Some? then [SetStatus(key, status)] else []
  }

  function Complaint(key: Key, mg: MustGather, issue: Issue): Plan {
    Plan(Stored(key, ErrorStatus(mg.status, mg.generation, issue)), false)
  }

  /** A pass whose report of success is refused ends with an error. */
  function Approval(key: Key, mg: MustGather, status: Option<Status>): Plan {
    Plan(Stored(key, SuccessStatus(status, mg.generation)), Base(status).completed.Some?)
  }

  function RejectedStatus(mg: MustGather, why: Validation): Status {
    Status(Some(Failed), Some(true), Some(Invalid(why)), Base(mg.status).conditions[ReconcileError := ValidationFailed(why, mg.generation)])
  }

  /** A validation failure is final: it is recorded and the pass ends without an error. */
  function Rejection(key: Key, mg: MustGather, why: Validation): Plan {
    Plan([SetStatus(key, RejectedStatus(mg, why))], true)
  }

  function OutcomeStatus(mg: MustGather, phase: Phase): Status {
    Base(mg.status).(phase := Some(phase), completed := Some(true), reason := Some(ReasonFor(phase)))
  }

  // ---------- the trusted CA copy ----------

  function CaRef(key: Key, uid: Uid): OwnerRef {
    OwnerRef(MUST_GATHER_KIND, key.name, uid, false)
  }

  function CaKey(cfg: Config, ns: string): Key {
    Key(ns, cfg.trustedCa)
  }

  /** Where a copy of the trusted CA is kept for a namespace, if there is one to keep. */
  predicate NeedsCa(cfg: Config, ns: string) {
    cfg.trustedCa != "" && ns != cfg.namespace
  }

  function EnsurePlan(cfg: Config, c: Cluster, key: Key, uid: Uid): Plan {
    var at := CaKey(cfg, key.ns);
    var source := CaKey(cfg, cfg.namespace);
    if key.ns == cfg.namespace then Plan([], true)
    else if source !in c.configMaps then Plan([], false)
    else if at !in c.configMaps then
      Plan([CreateConfigMap(at, ConfigMap([CaRef(key, uid)], c.configMaps[source].labels, c.configMaps[source].data))], true)
    else if Owns(c.configMaps[at].owners, uid) then Plan([], true)
    else Plan([SetOwners(at, c.configMaps[at].owners + [CaRef(key, uid)])], true)
  }

  function ReleasePlan(cfg: Config, c: Cluster, ns: string, uid: Uid): seq<Write> {
    var at := CaKey(cfg, ns);
    if ns == cfg.namespace || at !in c.configMaps then []
    else
      var rest := Without(c.configMaps[at].owners, uid);
      if rest == [] then [DeleteConfigMap(at)] else [SetOwners(at, rest)]
  }

  // ---------- cleanup ----------

  function PodDeletions(pods: seq<Pod>): (ws: seq<Write>)
    ensures |ws| == |pods| && forall i | 0 <= i < |pods| :: ws[i] == DeletePod(pods[i])
  {
    seq(|pods|, i requires 0 <= i < |pods| => DeletePod(pods[i]))
  }

  function CleanupPlan(cfg: Config, c: Cluster, key: Key, uid: Uid): seq<Write> {
    if !OwnedJob(c, key, uid) then []
    else
      PodDeletions(PodsOf(c.pods, key.ns, c.jobs[key].uid)) + [DeleteJob(key)]
      + if cfg.trustedCa == "" then [] else ReleasePlan(cfg, c, key.ns, uid)
  }

  // ---------- a resource marked for deletion ----------

  function WithoutOperator(finalizers: seq<Finalizer>): (r: seq<Finalizer>)
    ensures OperatorFinalizer !in r
    ensures forall f | f != OperatorFinalizer :: f in r <==> f in finalizers
    ensures OperatorFinalizer !in finalizers ==> r == finalizers
  {
    if finalizers == [] then []
    else if finalizers[0] == OperatorFinalizer then WithoutOperator(finalizers[1..])
    else [finalizers[0]] + WithoutOperator(finalizers[1..])
  }

  function DeletionPlan(cfg: Config, c: Cluster, key: Key, mg: MustGather): Plan {
    if OperatorFinalizer !in mg.finalizers then Plan([], true)
    else Then(if Retains(mg.spec) then [] else CleanupPlan(cfg, c, key, mg.uid),
              Plan([SetFinalizers(key, WithoutOperator(mg.finalizers))], true))
  }

  // ---------- a Job that exists ----------

  function CompletionPlan(cfg: Config, c: Cluster, key: Key, mg: MustGather, phase: Phase): seq<Write> {
    [SetStatus(key, OutcomeStatus(mg, phase))] + if Retains(mg.spec) then [] else CleanupPlan(cfg, c, key, mg.uid)
  }

  function JobPlan(cfg: Config, c: Cluster, key: Key, mg: MustGather, job: Job): Plan {
    match VerdictOf(job.status, job.backoffLimit)
    case Running => Approval(key, mg, Some(Base(mg.status).(completed := Some(job.status.completionTime))))
    case Finished(Completed) => Plan(CompletionPlan(cfg, c, key, mg, Completed), true)
    case Finished(Failed) => Plan([CountError] + CompletionPlan(cfg, c, key, mg, Failed), true)
  }

  // ---------- a Job to create ----------

  datatype Image = Image(ref: string) | NoImage(fault: ImageFault)

  /** The first tag with the wanted name decides; its newest item must have a reference. */
  function FromTags(tags: seq<Tag>, wanted: string): Image {
    if tags == [] then NoImage(TagNotFound)
    else if tags[0].name != wanted then FromTags(tags[1..], wanted)
    else if tags[0].items != [] && tags[0].items[0] != "" then Image(tags[0].items[0])
    else NoImage(TagNotPullable)
  }

  function ResolveImage(cfg: Config, obs: Obs, c: Cluster, spec: Spec): Image {
    if spec.imageStream.None? then Image(cfg.defaultImage)
    else
      var at := Key(cfg.namespace, spec.imageStream.value.name);
      if obs.imageStreamUnavailable || at !in c.imageStreams then NoImage(StreamUnavailable)
      else FromTags(c.imageStreams[at], spec.imageStream.value.tag)
  }

  datatype Credentials = NotNeeded | NoSecret | Unusable(why: Validation) | Accepted

  /** The secret to check: that of an SFTP section with a named secret. */
  function SecretToCheck(spec: Spec): Option<string> {
    if spec.upload.Some? && spec.upload.value.sftp.Some? && spec.upload.value.sftp.value.secret != ""
    then Some(spec.upload.value.sftp.value.secret) else None
  }

  function Field(secret: map<string, string>, field: string): string {
    if field in secret then secret[field] else ""
  }

  function CheckCredentials(obs: Obs, c: Cluster, key: Key, spec: Spec): Credentials {
    if SecretToCheck(spec).None? then NotNeeded
    else
      var name := SecretToCheck(spec).value;
      if Key(key.ns, name) !in c.secrets then NoSecret
      else
        var secret := c.secrets[Key(key.ns, name)];
        if Field(secret, "username") == "" then Unusable(UsernameMissing(name))
        else if Field(secret, "password") == "" then Unusable(PasswordMissing(name))
        else if DialSucceeds(obs.dial(Field(secret, "username"), Field(secret, "password"), Deref(spec.upload.value.sftp.value.host))) then Accepted
        else Unusable(SftpUnreachable)
  }

  predicate DialSucceeds(dial: Dial) {
    dial(0).None?
    || (IsTransientError(dial(0).value)
        && (dial(1).None? || (IsTransientError(dial(1).value) && dial(2).None?)))
  }

  /** The three attempts, spelled out, are what the retry loop decides. */
  lemma DialSucceedsIff(dial: Dial)
    ensures DialSucceeds(dial) <==> Reachable(dial)
  {
    if DialSucceeds(dial) {
      assert dial(0).None? ==> SucceedsAt(dial, 0);
      assert dial(0).Some? && dial(1).None? ==> SucceedsAt(dial, 1);
      assert dial(0).Some? && dial(1).Some? ==> SucceedsAt(dial, 2);
    }
  }

  function NewJob(key: Key, mg: MustGather, pod: PodTemplate): Job {
    Job(0, ByOperator(mg.uid, Retains(mg.spec)), [OwnerRef(MUST_GATHER_KIND, key.name, mg.uid, true)],
        Some(pod.backoffLimit), pod, FRESH)
  }

  function CreatePlan(cfg: Config, obs: Obs, pod: PodTemplate, c: Cluster, key: Key, mg: MustGather): Plan {
    var image := ResolveImage(cfg, obs, c, mg.spec);
    if image.NoImage? then Rejection(key, mg, ImageInvalid(image.fault))
    else if obs.operatorImage.None? then Complaint(key, mg, NoOperatorImage)
    else if Key(key.ns, mg.spec.serviceAccount) !in c.serviceAccounts then
      Rejection(key, mg, ServiceAccountMissing(mg.spec.serviceAccount))
    else
      match CheckCredentials(obs, c, key, mg.spec)
      case NoSecret => Complaint(key, mg, SecretMissing(SecretToCheck(mg.spec).value))
      case Unusable(why) => Rejection(key, mg, why)
      case _ => Then([CreateJob(key, NewJob(key, mg, pod)), CountGather], Approval(key, mg, mg.status))
  }

  /** The pod compiled in a pass that gets as far as compiling one. */
  function PodFor(cfg: Config, obs: Obs, c: Cluster, key: Key): PodTemplate {
    if key !in c.mustGathers then PodTemplate([], [], "", 0)
    else
      var spec := c.mustGathers[key].spec;
      var image := ResolveImage(cfg, obs, c, spec);
      if image.NoImage? || obs.operatorImage.None? then PodTemplate([], [], "", 0)
      else CompilePod(image.ref, obs.operatorImage.value, spec, cfg.trustedCa,
                      DirectoryName(ClusterIdSuffix(obs.clusterId), obs.now, obs.draw), ProxiesFrom(obs.proxyVars))
  }

  // ---------- the pass ----------

  /** The copy first; without it the pass complains, with it the pass goes on. */
  function AfterCa(key: Key, mg: MustGather, ca: Plan, rest: Plan): Plan {
    if ca.ok then Then(ca.writes, rest) else Complaint(key, mg, TrustedCaFailed)
  }

  predicate IsOperatorAccount(cfg: Config, key: Key, spec: Spec) {
    key.ns == cfg.namespace && spec.serviceAccount == cfg.serviceAccount
  }

  function GatherPlan(cfg: Config, obs: Obs, pod: PodTemplate, c: Cluster, key: Key, mg: MustGather): Plan {
    var config := ConfigRef(mg.spec.obfuscate);
    if config != "" && Key(key.ns, config) !in c.configMaps then Complaint(key, mg, ObfuscationConfigMissing)
    else if key in c.jobs then JobPlan(cfg, c, key, mg, c.jobs[key])
    else CreatePlan(cfg, obs, pod, c, key, mg)
  }

  function CaPlan(cfg: Config, c: Cluster, key: Key, uid: Uid): Plan {
    if cfg.trustedCa == "" then Plan([], true) else EnsurePlan(cfg, c, key, uid)
  }

  function ActivePlan(cfg: Config, obs: Obs, pod: PodTemplate, c: Cluster, key: Key, mg: MustGather): Plan {
    if OperatorFinalizer !in mg.finalizers then
      Plan([SetFinalizers(key, mg.finalizers + [OperatorFinalizer])], true)
    else if IsOperatorAccount(cfg, key, mg.spec) then Rejection(key, mg, OperatorAccount(mg.spec.serviceAccount))
    else
      var ca := CaPlan(cfg, c, key, mg.uid);
      AfterCa(key, mg, ca, GatherPlan(cfg, obs, pod, ApplyAll(c, ca.writes), key, mg))
  }

  function PassPlan(cfg: Config, obs: Obs, pod: PodTemplate, c: Cluster, key: Key): Plan {
    if key !in c.mustGathers then Plan([], true)
    else if c.mustGathers[key].deleting then DeletionPlan(cfg, c, key, c.mustGathers[key])
    else ActivePlan(cfg, obs, pod, c, key, c.mustGathers[key])
  }

  /** The account, the trusted CA and the obfuscation config do not end the pass before it looks for the Job. */
  predicate ReachesJob(cfg: Config, c: Cluster, key: Key, mg: MustGather) {
    && !IsOperatorAccount(cfg, key, mg.spec)
    && (NeedsCa(cfg, key.ns) ==> CaKey(cfg, cfg.namespace) in c.configMaps)
    && var config := ConfigRef(mg.spec.obfuscate);
       config == "" || Key(key.ns, config) in c.configMaps || (NeedsCa(cfg, key.ns) && config == cfg.trustedCa)
  }

  /** The pass from this cluster, with the pod it would compile. */
  function Planned(cfg: Config, obs: Obs, c: Cluster, key: Key): Plan {
    PassPlan(cfg, obs, PodFor(cfg, obs, c, key), c, key)
  }

  /** The obfuscation config, if one is referred to, exists. */
  predicate ConfigFound(c: Cluster, key: Key, spec: Spec) {
    ConfigRef(spec.obfuscate) == "" || Key(key.ns, ConfigRef(spec.obfuscate)) in c.configMaps
  }

  /** A pass from this cluster, if no call fails, gets to look up the Job. */
  predicate LooksForJob(cfg: Config, c: Cluster, key: Key) {
    && key in c.mustGathers && OperatorFinalizer in c.mustGathers[key].finalizers && !c.mustGathers[key].deleting
    && ReachesJob(cfg, c, key, c.mustGathers[key])
  }

  /** There is a Job of the resource's name, and it has failed for good. */
  predicate FailedForGood(c: Cluster, key: Key) {
    key in c.jobs && VerdictOf(c.jobs[key].status, c.jobs[key].backoffLimit) == Finished(Failed)
  }

  /**
    `looked` records that a pass has looked up the Job: only if it gets that far, and
    always if no call fails. An error is counted exactly by a pass that has looked up a
    Job that has failed for good.
   */
  predicate Looked(cfg: Config, c: Cluster, key: Key, done: seq<Write>, failures: nat, looked: bool) {
    && (looked ==> LooksForJob(cfg, c, key))
    && (failures == 0 && LooksForJob(cfg, c, key) ==> looked)
    && (CountError in done <==> looked && FailedForGood(c, key))
  }

  // ---------- passes that are cut short ----------

  /**
    `done` is a prefix of the planned writes. No call lies between creating a Job and
    counting it, so nothing can stop a pass there.
   */
  predicate Stopped(planned: seq<Write>, done: seq<Write>) {
    done <= planned && (|done| < |planned| ==> !planned[|done|].CountGather?)
  }

  /** The outcome of an operation that stops at the first failing call. */
  predicate Performed(plan: Plan, done: seq<Write>, failures: nat, ok: bool) {
    if failures == 0 then done == plan.writes && ok == plan.ok
    else !ok && Stopped(plan.writes, done)
  }

  /**
    The error condition a pass may still write after a failed call: it keeps the outcome
    in the stored status, or reports the one whose write has just failed.
   */
  predicate ErrorTail(c: Cluster, key: Key, planned: seq<Write>, done: nat, w: Write) {
    && w.SetStatus? && w.status.completed.Some? && w.key == key && key in c.mustGathers && OperatorFinalizer in c.mustGathers[key].finalizers
    && ReconcileError in w.status.conditions
    && (|| ReportOf(Some(w.status)) == ReportOf(c.mustGathers[key].status)
        || (done < |planned| && planned[done].SetStatus? && ReportOf(Some(w.status)) == ReportOf(Some(planned[done].status))))
  }

  predicate StoppedWithTail(c: Cluster, key: Key, planned: seq<Write>, done: seq<Write>) {
    && done != []
    && var front := done[..|done| - 1];
       Stopped(planned, front) && ErrorTail(ApplyAll(c, front), key, planned, |front|, done[|done| - 1])
  }

  /**
    The outcome of a pass from cluster `c`: without failing calls the whole plan; else an
    error after a prefix of it, possibly with one error condition written at the end.
   */
  predicate Outcome(c: Cluster, key: Key, plan: Plan, done: seq<Write>, failures: nat, ok: bool) {
    if failures == 0 then done == plan.writes && ok == plan.ok
    else !ok && (Stopped(plan.writes, done) || StoppedWithTail(c, key, plan.writes, done))
  }

  lemma PerformedIsOutcome(c: Cluster, key: Key, plan: Plan, done: seq<Write>, failures: nat, ok: bool)
    requires Performed(plan, done, failures, ok)
    ensures Outcome(c, key, plan, done, failures, ok)
  {
  }

  /** A pass that has completed `first` and goes on with another plan. */
  lemma OutcomeAfter(c: Cluster, key: Key, first: seq<Write>, rest: Plan, done: seq<Write>, failures: nat, ok: bool)
    requires Outcome(ApplyAll(c, first), key, rest, done, failures, ok)
    ensures Outcome(c, key, Then(first, rest), first + done, failures, ok)
  {
    if failures > 0 {
      if Stopped(rest.writes, done) {
        StoppedAfter(first, rest.writes, done);
      } else {
        TailAfter(c, key, first, rest.writes, done);
      }
    }
  }

  lemma StoppedAfter(first: seq<Write>, rest: seq<Write>, done: seq<Write>)
    requires Stopped(rest, done)
    ensures Stopped(first + rest, first + done)
  {
  }

  lemma TailAfter(c: Cluster, key: Key, first: seq<Write>, rest: seq<Write>, done: seq<Write>)
    requires StoppedWithTail(ApplyAll(c, first), key, rest, done)
    ensures StoppedWithTail(c, key, first + rest, first + done)
  {
    var front := done[..|done| - 1];
    assert (first + done)[..|first + done| - 1] == first + front;
    ApplyAllConcat(c, first, front);
    StoppedAfter(first, rest, front);
    assert |front| < |rest| ==> (first + rest)[|first + front|] == rest[|front|];
  }

  lemma PerformedAfter(first: seq<Write>, rest: Plan, done: seq<Write>, failures: nat, ok: bool)
    requires Performed(rest, done, failures, ok)
    ensures Performed(Then(first, rest), first + done, failures, ok)
  {
  }

  /** Carrying out `first` completely and then another operation, on the cluster as well. */
  lemma Compose(c: Cluster, first: seq<Write>, rest: Plan, done: seq<Write>, failures: nat, ok: bool)
    requires Performed(rest, done, failures, ok)
    ensures Performed(Then(first, rest), first + done, failures, ok)
    ensures ApplyAll(c, first + done) == ApplyAll(ApplyAll(c, first), done)
  {
    PerformedAfter(first, rest, done, failures, ok);
    ApplyAllConcat(c, first, done);
  }

  lemma CompletionIgnoresCounters(cfg: Config, c: Cluster, key: Key, mg: MustGather, phase: Phase)
    ensures CompletionPlan(cfg, Apply(c, CountError), key, mg, phase) == CompletionPlan(cfg, c, key, mg, phase)
  {
    assert Apply(c, CountError) == c.(errors := c.errors + 1);
    if cfg.trustedCa != "" {
      ReleaseDependsOnConfigMaps(cfg, c, Apply(c, CountError), key.ns, mg.uid);
    }
  }

  lemma CleanupParts(cfg: Config, c: Cluster, key: Key, uid: Uid, release: seq<Write>)
    requires OwnedJob(c, key, uid)
    requires release == if cfg.trustedCa == "" then [] else ReleasePlan(cfg, c, key.ns, uid)
    ensures Plan(CleanupPlan(cfg, c, key, uid), true)
            == Then(PodDeletions(PodsOf(c.pods, key.ns, c.jobs[key].uid)), Plan([DeleteJob(key)] + release, true))
  {
    var pods := PodDeletions(PodsOf(c.pods, key.ns, c.jobs[key].uid));
    assert pods + [DeleteJob(key)] + release == pods + ([DeleteJob(key)] + release);
  }

  lemma ReleaseDependsOnConfigMaps(cfg: Config, c: Cluster, c': Cluster, ns: string, uid: Uid)
    requires c'.configMaps == c.configMaps
    ensures ReleasePlan(cfg, c', ns, uid) == ReleasePlan(cfg, c, ns, uid)
  {
  }

  /** A call may fail before anything is written: no plan starts with the counter. */
  lemma PassMayStopAtOnce(cfg: Config, obs: Obs, pod: PodTemplate, c: Cluster, key: Key)
    ensures Stopped(PassPlan(cfg, obs, pod, c, key).writes, [])
  {
    if key in c.mustGathers {
      var mg := c.mustGathers[key];
      GatherMayStopAtOnce(cfg, obs, pod, ApplyAll(c, CaPlan(cfg, c, key, mg.uid).writes), key, mg);
    }
  }

  lemma GatherMayStopAtOnce(cfg: Config, obs: Obs, pod: PodTemplate, c: Cluster, key: Key, mg: MustGather)
    ensures Stopped(GatherPlan(cfg, obs, pod, c, key, mg).writes, [])
  {
  }

  // ---------- what the writes of an operation leave alone ----------

  predicate LeavesResources(ws: seq<Write>) {
    forall w | w in ws :: !w.SetFinalizers? && !w.SetStatus?
  }

  lemma {:induction false} ResourcesFrame(c: Cluster, ws: seq<Write>)
    requires LeavesResources(ws)
    ensures ApplyAll(c, ws).mustGathers == c.mustGathers
  {
    if ws != [] {
      var front, w := ws[..|ws| - 1], ws[|ws| - 1];
      assert w in ws && forall v | v in front :: v in ws;
      ResourcesFrame(c, front);
      WriteLeavesResources(ApplyAll(c, front), w);
    }
  }

  lemma WriteLeavesResources(c: Cluster, w: Write)
    requires !w.SetFinalizers? && !w.SetStatus?
    ensures Apply(c, w).mustGathers == c.mustGathers
  {
  }

  lemma WriteKeepsJobs(c: Cluster, w: Write)
    requires !w.CreateJob? && !w.DeleteJob?
    ensures var c' := Apply(c, w);
            c'.jobs == c.jobs && c'.nextUid == c.nextUid && c'.cleaned == c.cleaned && c'.collected == c.collected
  {
    if w.CreateConfigMap? || w.SetOwners? || w.DeleteConfigMap? {
      assert Apply(c, w) == c.(configMaps := Apply(c, w).configMaps);
    }
  }

  lemma CleanupLeavesResources(cfg: Config, c: Cluster, key: Key, uid: Uid, done: seq<Write>)
    requires done <= CleanupPlan(cfg, c, key, uid)
    ensures LeavesResources(done) && ApplyAll(c, done).mustGathers == c.mustGathers
  {
    assert forall w | w in done :: w in CleanupPlan(cfg, c, key, uid);
    ResourcesFrame(c, done);
  }

  lemma {:induction false} PodDeletionsFrame(c: Cluster, pods: seq<Pod>)
    ensures var c' := ApplyAll(c, PodDeletions(pods));
            c' == c.(pods := c'.pods) && forall q :: q in c'.pods <==> q in c.pods && q !in pods
  {
    if pods != [] {
      var front := pods[..|pods| - 1];
      PodDeletionsFrame(c, front);
      assert PodDeletions(pods) == PodDeletions(front) + [DeletePod(pods[|pods| - 1])];
      ApplyAllSnoc(c, PodDeletions(front), DeletePod(pods[|pods| - 1]));
      PodDeletionFrame(ApplyAll(c, PodDeletions(front)), pods[|pods| - 1]);
      assert pods == front + [pods[|pods| - 1]];
    }
  }

  lemma PodDeletionFrame(c: Cluster, p: Pod)
    ensures var c' := Apply(c, DeletePod(p)); c' == c.(pods := c'.pods) && forall q :: q in c'.pods <==> q in c.pods && q != p
  {
  }

  /** The pods, then their Job: they are gone, and nothing else is. */
  lemma JobAndPodsGo(c: Cluster, key: Key)
    requires key in c.jobs
    ensures var c' := ApplyAll(c, PodDeletions(PodsOf(c.pods, key.ns, c.jobs[key].uid)) + [DeleteJob(key)]);
            && c' == c.(pods := c'.pods, jobs := c.jobs - {key}, cleaned := c'.cleaned)
            && forall p :: p in c'.pods <==> p in c.pods && !(p.key.ns == key.ns && p.jobUid == Some(c.jobs[key].uid))
  {
    var pods := PodsOf(c.pods, key.ns, c.jobs[key].uid);
    PodDeletionsFrame(c, pods);
    ApplyAllSnoc(c, PodDeletions(pods), DeleteJob(key));
    JobDeletionFrame(ApplyAll(c, PodDeletions(pods)), key);
  }

  lemma JobDeletionFrame(c: Cluster, key: Key)
    ensures var c' := Apply(c, DeleteJob(key)); c' == c.(jobs := c.jobs - {key}, cleaned := c'.cleaned)
  {
  }

  /** The trusted CA copy changes nothing but that one ConfigMap. */
  lemma CaFrame(cfg: Config, c: Cluster, key: Key, uid: Uid, done: seq<Write>)
    requires done <= CaPlan(cfg, c, key, uid).writes
    ensures var c' := ApplyAll(c, done);
            c' == c.(configMaps := c'.configMaps) && forall k | k != CaKey(cfg, key.ns) :: (k in c'.configMaps <==> k in c.configMaps) && (k in c.configMaps ==> c'.configMaps[k] == c.configMaps[k])
  {
    var ws := CaPlan(cfg, c, key, uid).writes;
    assert done == [] || done == ws;
    if done != [] {
      assert ws[..0] == [];
      assert ApplyAll(c, ws) == Apply(c, ws[0]);
    }
  }

  /** Once the copy is in place, it is there to be referred to as well. */
  lemma ConfigAfterCa(cfg: Config, c: Cluster, key: Key, uid: Uid, config: string)
    requires CaPlan(cfg, c, key, uid).ok
    ensures Key(key.ns, config) in ApplyAll(c, CaPlan(cfg, c, key, uid).writes).configMaps
            <==> Key(key.ns, config) in c.configMaps || (NeedsCa(cfg, key.ns) && config == cfg.trustedCa)
  {
    CaFrame(cfg, c, key, uid, CaPlan(cfg, c, key, uid).writes);
    var ws := CaPlan(cfg, c, key, uid).writes;
    if ws == [] {
      assert ApplyAll(c, ws) == c;
    } else {
      ApplyOne(c, ws[0]);
      assert ws == [ws[0]];
    }
  }

  /** Looking up the Job after the copy is in place, in terms of the cluster before it. */
  lemma LookedAfterCa(cfg: Config, c: Cluster, key: Key, ca: seq<Write>, rest: seq<Write>, failures: nat, looked: bool)
    requires key in c.mustGathers && OperatorFinalizer in c.mustGathers[key].finalizers && !c.mustGathers[key].deleting
    requires var mg := c.mustGathers[key]; var plan := CaPlan(cfg, c, key, mg.uid); var c1 := ApplyAll(c, ca);
             && !IsOperatorAccount(cfg, key, mg.spec) && plan.ok && ca == plan.writes
             && (looked ==> ConfigFound(c1, key, mg.spec))
             && (failures == 0 && !looked ==> !ConfigFound(c1, key, mg.spec))
             && (CountError in rest <==> looked && FailedForGood(c1, key))
    ensures Looked(cfg, c, key, ca + rest, failures, looked)
  {
    var mg := c.mustGathers[key];
    CaFrame(cfg, c, key, mg.uid, ca);
    ConfigAfterCa(cfg, c, key, mg.uid, ConfigRef(mg.spec.obfuscate));
  }

  /** A pass that could not put the copy in place, whether a call failed or the source is missing. */
  lemma PassWithoutCa(cfg: Config, obs: Obs, pod: PodTemplate, c: Cluster, key: Key, rest: Plan, done: seq<Write>, failures: nat, ok: bool)
    requires key in c.mustGathers && OperatorFinalizer in c.mustGathers[key].finalizers && !c.mustGathers[key].deleting
    requires var mg := c.mustGathers[key]; var ca := CaPlan(cfg, c, key, mg.uid);
             && !IsOperatorAccount(cfg, key, mg.spec) && (failures == 0 ==> !ca.ok)
             && rest == GatherPlan(cfg, obs, pod, ApplyAll(c, ca.writes), key, mg)
             && Outcome(c, key, AfterCa(key, mg, ca, rest), done, failures, ok)
    requires CountError !in done
    ensures Outcome(c, key, ActivePlan(cfg, obs, pod, c, key, c.mustGathers[key]), done, failures, ok)
    ensures Looked(cfg, c, key, done, failures, false)
  {
  }

  /** A pass that has put the copy in place and gone on. */
  lemma PassAfterCa(cfg: Config, obs: Obs, pod: PodTemplate, c: Cluster, key: Key, ca: seq<Write>, rest: seq<Write>, failures: nat, ok: bool, looked: bool)
    requires key in c.mustGathers && OperatorFinalizer in c.mustGathers[key].finalizers && !c.mustGathers[key].deleting
    requires var mg := c.mustGathers[key]; var plan := CaPlan(cfg, c, key, mg.uid); var c1 := ApplyAll(c, ca);
             && !IsOperatorAccount(cfg, key, mg.spec) && plan.ok && ca == plan.writes
             && Outcome(c1, key, GatherPlan(cfg, obs, pod, c1, key, mg), rest, failures, ok)
             && (looked ==> ConfigFound(c1, key, mg.spec))
             && (failures == 0 && !looked ==> !ConfigFound(c1, key, mg.spec))
             && (CountError in rest <==> looked && FailedForGood(c1, key))
    ensures Outcome(c, key, ActivePlan(cfg, obs, pod, c, key, c.mustGathers[key]), ca + rest, failures, ok)
    ensures Looked(cfg, c, key, ca + rest, failures, looked)
    ensures ApplyAll(c, ca + rest) == ApplyAll(ApplyAll(c, ca), rest)
  {
    OutcomeAfter(c, key, ca, GatherPlan(cfg, obs, pod, ApplyAll(c, ca), key, c.mustGathers[key]), rest, failures, ok);
    LookedAfterCa(cfg, c, key, ca, rest, failures, looked);
    ApplyAllConcat(c, ca, rest);
  }

  /** A pass that is not planned to count an error does not count one when it is cut short. */
  lemma NoErrorUnplanned(c: Cluster, key: Key, plan: Plan, done: seq<Write>, failures: nat, ok: bool)
    requires Outcome(c, key, plan, done, failures, ok) && CountError !in plan.writes
    ensures CountError !in done
  {
    if failures > 0 && !Stopped(plan.writes, done) {
      assert done == done[..|done| - 1] + [done[|done| - 1]];
    }
  }

  /** The copy does not change which pod is compiled. */
  lemma PodAfterCa(cfg: Config, obs: Obs, c: Cluster, c': Cluster, key: Key)
    requires c'.mustGathers == c.mustGathers && c'.imageStreams == c.imageStreams
    ensures PodFor(cfg, obs, c', key) == PodFor(cfg, obs, c, key)
  {
  }
}
