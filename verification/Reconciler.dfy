/**
  The reconciler, call by call, over a cluster whose every API call may fail.

  `faults` is the schedule of failures: each call takes its head, true meaning that the
  call fails and has no effect; when the schedule is used up, calls succeed. Every
  method says which plan it carries out, how far it got, and what it wrote.
 */
module Reconciler {
  import opened Api
  import opened Naming
  import opened JobController
  import opened JobTemplate
  import opened Sftp
  import opened Cluster
  import opened Plan

  /** How many of the scheduled calls fail. */
  function Pending(faults: seq<bool>): nat {
    if faults == [] then 0 else (if faults[0] then 1 else 0) + Pending(faults[1..])
  }

  datatype Lookup<T> = Found(value: T) | NotFound | Unavailable

  datatype Response = Done | Conflict | Unreachable

  class Reconciler {
    const cfg: Config
    var cluster: Cluster
    var faults: seq<bool>

    constructor (cfg: Config, cluster: Cluster, faults: seq<bool>)
      ensures this.cfg == cfg && this.cluster == cluster && this.faults == faults
    {
      this.cfg, this.cluster, this.faults := cfg, cluster, faults;
    }

    // ---------- the API ----------

    method Call() returns (ok: bool)
      modifies this`faults
      ensures Pending(old(faults)) == Pending(faults) + if ok then 0 else 1
    {
      if faults == [] {
        return true;
      }
      ok := !faults[0];
      faults := faults[1..];
    }

    method Get<T>(objects: map<Key, T>, key: Key) returns (r: Lookup<T>)
      modifies this`faults
      ensures Pending(old(faults)) == Pending(faults) + if r.Unavailable? then 1 else 0
      ensures !r.Unavailable? ==> r == if key in objects then Found(objects[key]) else NotFound
    {
      var ok := Call();
      if !ok {
        return Unavailable;
      }
      return if key in objects then Found(objects[key]) else NotFound;
    }

    method ListPods(ns: string, jobUid: Uid) returns (r: Lookup<seq<Pod>>)
      modifies this`faults
      ensures Pending(old(faults)) == Pending(faults) + if r.Unavailable? then 1 else 0
      ensures !r.Unavailable? ==> r == Found(PodsOf(cluster.pods, ns, jobUid))
    {
      var ok := Call();
      return if ok then Found(PodsOf(cluster.pods, ns, jobUid)) else Unavailable;
    }

    /** Create, update or delete: Conflict if the object is missing, or in the way of a create. */
    method Send(w: Write) returns (r: Response)
      requires w.IsCall()
      modifies this`cluster, this`faults
      ensures Pending(old(faults)) == Pending(faults) + if r.Unreachable? then 1 else 0
      ensures !r.Unreachable? ==> r == if Applicable(old(cluster), w) then Done else Conflict
      ensures cluster == if r.Done? then Apply(old(cluster), w) else old(cluster)
    {
      var ok := Call();
      if !ok {
        return Unreachable;
      }
      if !Applicable(cluster, w) {
        return Conflict;
      }
      cluster := Apply(cluster, w);
      return Done;
    }

    // ---------- status reports ----------

    method ManageError(key: Key, mg: MustGather, issue: Issue) returns (ok: bool, ghost done: seq<Write>)
      modifies this`cluster, this`faults
      ensures !ok && cluster == ApplyAll(old(cluster), done)
      ensures done == [] || (done == Complaint(key, mg, issue).writes && done != [])
      ensures Pending(faults) <= Pending(old(faults))
      ensures key in old(cluster.mustGathers) && Pending(faults) == Pending(old(faults)) ==> done == Complaint(key, mg, issue).writes
    {
      var w := SetStatus(key, ErrorStatus(mg.status, mg.generation, issue));
      var r := Send(w);
      done := if r.Done? then [w] else [];
      ApplyOne(old(cluster), w);
      ok := false;
    }

    method ManageSuccess(key: Key, mg: MustGather) returns (ok: bool, ghost done: seq<Write>)
      requires key in cluster.mustGathers
      modifies this`cluster, this`faults
      ensures cluster == ApplyAll(old(cluster), done)
      ensures Pending(faults) <= Pending(old(faults))
      ensures Performed(Approval(key, mg, mg.status), done, Pending(old(faults)) - Pending(faults), ok)
    {
      var w := SetStatus(key, SuccessStatus(mg.status, mg.generation));
      var r := Send(w);
      done := if r.Done? then [w] else [];
      ApplyOne(old(cluster), w);
      ok := r.Done?;
    }

    /** Writes a status; if that fails, reports the failure with the same outcome. */
    method ReportStatus(key: Key, mg: MustGather, status: Status) returns (ok: bool, ghost done: seq<Write>)
      requires status.completed.Some? && key in cluster.mustGathers && OperatorFinalizer in cluster.mustGathers[key].finalizers
      modifies this`cluster, this`faults
      ensures cluster == ApplyAll(old(cluster), done)
      ensures Pending(faults) <= Pending(old(faults))
      ensures ok <==> Pending(old(faults)) == Pending(faults)
      ensures ok ==> done == [SetStatus(key, status)]
      ensures !ok ==> done == [] || (|done| == 1 && ErrorTail(old(cluster), key, [SetStatus(key, status)], 0, done[0]))
    {
      var w := SetStatus(key, status);
      var r := Send(w);
      if r.Done? {
        ApplyOne(old(cluster), w);
        return true, [w];
      }
      ok, done := ManageError(key, mg.(status := Some(status)), StatusUpdateFailed);
    }

    method SetValidationFailureStatus(key: Key, mg: MustGather, why: Validation) returns (ok: bool, ghost done: seq<Write>)
      requires key in cluster.mustGathers && OperatorFinalizer in cluster.mustGathers[key].finalizers
      modifies this`cluster, this`faults
      ensures cluster == ApplyAll(old(cluster), done)
      ensures Pending(faults) <= Pending(old(faults))
      ensures Outcome(old(cluster), key, Rejection(key, mg, why), done, Pending(old(faults)) - Pending(faults), ok)
      ensures CountError !in done
    {
      ok, done := ReportStatus(key, mg, RejectedStatus(mg, why));
      if !ok && done != [] {
        assert done[..|done| - 1] == [];
      }
    }

    // ---------- the trusted CA copy ----------

    method EnsureTrustedCaConfigMap(key: Key, mg: MustGather) returns (ok: bool, ghost done: seq<Write>)
      modifies this`cluster, this`faults
      ensures cluster == ApplyAll(old(cluster), done)
      ensures Pending(faults) <= Pending(old(faults))
      ensures Performed(EnsurePlan(cfg, old(cluster), key, mg.uid), done, Pending(old(faults)) - Pending(faults), ok)
    {
      done := [];
      if key.ns == cfg.namespace {
        return true, done;
      }
      var source := Get(cluster.configMaps, CaKey(cfg, cfg.namespace));
      if !source.Found? {
        return false, done;
      }
      var existing := Get(cluster.configMaps, CaKey(cfg, key.ns));
      if existing.Unavailable? {
        return false, done;
      }
      var w: Write;
      if existing.NotFound? {
        w := CreateConfigMap(CaKey(cfg, key.ns), ConfigMap([CaRef(key, mg.uid)], source.value.labels, source.value.data));
      } else {
        var owners := existing.value.owners;
        var present := false;
        for i := 0 to |owners|
          invariant !present && !Owns(owners[..i], mg.uid)
        {
          if owners[i].uid == mg.uid {
            present := true;
            break;
          }
        }
        assert owners[..|owners|] == owners;
        if present {
          return true, done;
        }
        w := SetOwners(CaKey(cfg, key.ns), owners + [CaRef(key, mg.uid)]);
      }
      var r := Send(w);
      ok := r.Done?;
      done := if ok then [w] else [];
      ApplyOne(old(cluster), w);
    }

    method CleanupTrustedCaConfigMap(key: Key, mg: MustGather) returns (ok: bool, ghost done: seq<Write>)
      modifies this`cluster, this`faults
      ensures cluster == ApplyAll(old(cluster), done)
      ensures Pending(faults) <= Pending(old(faults))
      ensures Performed(Plan(ReleasePlan(cfg, old(cluster), key.ns, mg.uid), true), done, Pending(old(faults)) - Pending(faults), ok)
    {
      done := [];
      if key.ns == cfg.namespace {
        return true, done;
      }
      var existing := Get(cluster.configMaps, CaKey(cfg, key.ns));
      if existing.Unavailable? {
        return false, done;
      }
      if existing.NotFound? {
        return true, done;
      }
      var owners := existing.value.owners;
      var updated: seq<OwnerRef> := [];
      for i := 0 to |owners|
        invariant updated == Without(owners[..i], mg.uid)
      {
        assert owners[..i + 1][..i] == owners[..i];
        if owners[i].uid != mg.uid {
          updated := updated + [owners[i]];
        }
      }
      assert owners[..|owners|] == owners;
      var w := if updated == [] then DeleteConfigMap(CaKey(cfg, key.ns)) else SetOwners(CaKey(cfg, key.ns), updated);
      var r := Send(w);
      ok := r.Done?;
      done := if ok then [w] else [];
      ApplyOne(old(cluster), w);
    }

    // ---------- cleanup ----------

    /** Deletes the listed pods one by one; a pod that is already gone is not an error. */
    method DeletePods(pods: seq<Pod>) returns (ok: bool, ghost done: seq<Write>)
      modifies this`cluster, this`faults
      ensures cluster == ApplyAll(old(cluster), done)
      ensures Pending(faults) <= Pending(old(faults))
      ensures Performed(Plan(PodDeletions(pods), true), done, Pending(old(faults)) - Pending(faults), ok)
    {
      done := [];
      for i := 0 to |pods|
        invariant done == PodDeletions(pods)[..i]
        invariant cluster == ApplyAll(old(cluster), done)
        invariant Pending(faults) == Pending(old(faults))
      {
        var w := DeletePod(pods[i]);
        var r := Send(w);
        if r.Unreachable? {
          return false, done;
        }
        ApplyAllSnoc(old(cluster), done, w);
        done := done + [w];
      }
      ok := true;
    }

    method CleanupMustGatherResources(key: Key, mg: MustGather) returns (ok: bool, ghost done: seq<Write>)
      modifies this`cluster, this`faults
      ensures cluster == ApplyAll(old(cluster), done)
      ensures Pending(faults) <= Pending(old(faults))
      ensures Performed(Plan(CleanupPlan(cfg, old(cluster), key, mg.uid), true), done, Pending(old(faults)) - Pending(faults), ok)
    {
      ghost var c0 := cluster;
      done := [];
      var found := Get(cluster.jobs, key);
      if found.Unavailable? {
        return false, done;
      }
      if found.NotFound? {
        return true, done;
      }
      var job := found.value;
      var owned := false;
      for i := 0 to |job.owners|
        invariant !owned && !Owns(job.owners[..i], mg.uid)
      {
        if job.owners[i].uid == mg.uid {
          owned := true;
          break;
        }
      }
      assert job.owners[..|job.owners|] == job.owners;
      if !owned {
        return true, done;
      }

      ok, done := DeleteJobAndPods(key, mg, job);
    }

    /** The pods, then their Job, then the hold on the trusted CA copy. */
    method DeleteJobAndPods(key: Key, mg: MustGather, job: Job) returns (ok: bool, ghost done: seq<Write>)
      requires OwnedJob(cluster, key, mg.uid) && job == cluster.jobs[key]
      modifies this`cluster, this`faults
      ensures cluster == ApplyAll(old(cluster), done)
      ensures Pending(faults) <= Pending(old(faults))
      ensures Performed(Plan(CleanupPlan(cfg, old(cluster), key, mg.uid), true), done, Pending(old(faults)) - Pending(faults), ok)
    {
      ghost var c0, budget := cluster, Pending(faults);
      var listed := ListPods(key.ns, job.uid);
      if !listed.Found? {
        return false, [];
      }
      var pods := listed.value;
      ghost var release := if cfg.trustedCa == "" then [] else ReleasePlan(cfg, c0, key.ns, mg.uid);
      ghost var next := Plan([DeleteJob(key)] + release, true);
      CleanupParts(cfg, c0, key, mg.uid, release);
      ok, done := DeletePods(pods);
      if !ok {
        return;
      }
      PodDeletionsFrame(c0, pods);
      ghost var first := done;
      ReleaseDependsOnConfigMaps(cfg, c0, cluster, key.ns, mg.uid);
      ghost var rest;
      ok, rest := DeleteJobAndRelease(key, mg, release);
      Compose(c0, first, next, rest, budget - Pending(faults), ok);
      done := first + rest;
    }

    method DeleteJobAndRelease(key: Key, mg: MustGather, ghost release: seq<Write>) returns (ok: bool, ghost done: seq<Write>)
      requires key in cluster.jobs
      requires release == if cfg.trustedCa == "" then [] else ReleasePlan(cfg, cluster, key.ns, mg.uid)
      modifies this`cluster, this`faults
      ensures cluster == ApplyAll(old(cluster), done)
      ensures Pending(faults) <= Pending(old(faults))
      ensures Performed(Plan([DeleteJob(key)] + release, true), done, Pending(old(faults)) - Pending(faults), ok)
    {
      ghost var c0, budget := cluster, Pending(faults);
      var r := Send(DeleteJob(key));
      if !r.Done? {
        return false, [];
      }
      ghost var first := [DeleteJob(key)];
      ApplyOne(c0, DeleteJob(key));
      if cfg.trustedCa != "" {
        ReleaseDependsOnConfigMaps(cfg, c0, cluster, key.ns, mg.uid);
        ghost var rest;
        ok, rest := CleanupTrustedCaConfigMap(key, mg);
        Compose(c0, first, Plan(release, true), rest, budget - Pending(faults), ok);
        done := first + rest;
        return;
      }
      return true, first;
    }

    // ---------- the image and the credentials ----------

    method GetMustGatherImage(obs: Obs, spec: Spec) returns (image: Image)
      ensures image == ResolveImage(cfg, obs, cluster, spec)
    {
      if spec.imageStream.None? {
        return Image(cfg.defaultImage);
      }
      var at := Key(cfg.namespace, spec.imageStream.value.name);
      if obs.imageStreamUnavailable || at !in cluster.imageStreams {
        return NoImage(StreamUnavailable);
      }
      var tags := cluster.imageStreams[at];
      var foundTag, pullable, ref := false, false, "";
      for i := 0 to |tags|
        invariant !foundTag && FromTags(tags, spec.imageStream.value.tag) == FromTags(tags[i..], spec.imageStream.value.tag)
      {
        if tags[i].name == spec.imageStream.value.tag {
          foundTag := true;
          if |tags[i].items| > 0 && tags[i].items[0] != "" {
            pullable := true;
            ref := tags[i].items[0];
          }
          assert FromTags(tags, spec.imageStream.value.tag) == if pullable then Image(ref) else NoImage(TagNotPullable);
          break;
        }
      }
      if !foundTag {
        return NoImage(TagNotFound);
      }
      if !pullable {
        return NoImage(TagNotPullable);
      }
      return Image(ref);
    }

    /** The secret lookup, the two field checks and the dial; `failed` when the lookup itself failed. */
    method CheckSecret(obs: Obs, key: Key, spec: Spec) returns (failed: bool, verdict: Credentials)
      modifies this`faults
      ensures Pending(old(faults)) == Pending(faults) + if failed then 1 else 0
      ensures !failed ==> verdict == CheckCredentials(obs, cluster, key, spec)
    {
      var wanted := SecretToCheck(spec);
      if wanted.None? {
        return false, NotNeeded;
      }
      var found := Get(cluster.secrets, Key(key.ns, wanted.value));
      if found.Unavailable? {
        return true, NotNeeded;
      }
      if found.NotFound? {
        return false, NoSecret;
      }
      var secret := found.value;
      if "username" !in secret || |secret["username"]| == 0 {
        return false, Unusable(UsernameMissing(wanted.value));
      }
      if "password" !in secret || |secret["password"]| == 0 {
        return false, Unusable(PasswordMissing(wanted.value));
      }
      var dial := obs.dial(secret["username"], secret["password"], Deref(spec.upload.value.sftp.value.host));
      var err, _ := ValidateSftpWithRetry(dial);
      DialSucceedsIff(dial);
      if err.Some? {
        return false, Unusable(SftpUnreachable);
      }
      return false, Accepted;
    }

    method GetJobFromInstance(obs: Obs, key: Key, mg: MustGather, image: string, operatorImage: string) returns (job: Job)
      ensures job == NewJob(key, mg, CompilePod(image, operatorImage, mg.spec, cfg.trustedCa,
                                                DirectoryName(ClusterIdSuffix(obs.clusterId), obs.now, obs.draw), ProxiesFrom(obs.proxyVars)))
    {
      var dir := GenerateDirectoryName(obs.clusterId, obs.now, obs.draw);
      var pod := GetJobTemplate(image, operatorImage, mg.spec, cfg.trustedCa, dir, obs.proxyVars);
      job := Job(0, ByOperator(mg.uid, Retains(mg.spec)), [OwnerRef(MUST_GATHER_KIND, key.name, mg.uid, true)], Some(pod.backoffLimit), pod, FRESH);
    }

    // ---------- the steps of a pass ----------

    /** Reports an error that the cluster's contents, not a failing call, gave rise to. */
    method Complain(key: Key, mg: MustGather, issue: Issue) returns (ok: bool, ghost done: seq<Write>)
      requires key in cluster.mustGathers
      modifies this`cluster, this`faults
      ensures cluster == ApplyAll(old(cluster), done)
      ensures Pending(faults) <= Pending(old(faults))
      ensures Performed(Complaint(key, mg, issue), done, Pending(old(faults)) - Pending(faults), ok)
      ensures CountError !in done
    {
      ok, done := ManageError(key, mg, issue);
    }

    /** Gives up, after a failing call or as planned: the prefix `before` of the plan is done, the error is reported. */
    method GiveUp(key: Key, mg: MustGather, issue: Issue, ghost c0: Cluster, ghost plan: Plan, ghost before: seq<Write>, ghost budget: nat)
      returns (ok: bool, ghost done: seq<Write>)
      requires cluster == ApplyAll(c0, before)
      requires Pending(faults) < budget || (Pending(faults) == budget && before == [] && plan == Complaint(key, mg, issue))
      requires Stopped(plan.writes, before)
      requires key in cluster.mustGathers && OperatorFinalizer in cluster.mustGathers[key].finalizers
      requires ReportOf(mg.status) == ReportOf(cluster.mustGathers[key].status)
      modifies this`cluster, this`faults
      ensures cluster == ApplyAll(c0, done)
      ensures Pending(faults) <= Pending(old(faults))
      ensures Outcome(c0, key, plan, done, budget - Pending(faults), ok)
      ensures CountError in done <==> CountError in before
      ensures done == before || done == before + Complaint(key, mg, issue).writes
      ensures Pending(faults) == Pending(old(faults)) ==> done == before + Complaint(key, mg, issue).writes
    {
      ghost var tail;
      ok, tail := ManageError(key, mg, issue);
      done := before + tail;
      ApplyAllConcat(c0, before, tail);
      if tail != [] {
        assert done[..|done| - 1] == before;
        assert ErrorTail(ApplyAll(c0, before), key, plan.writes, |before|, tail[0]);
      }
    }

    method HandleJobCompletion(key: Key, mg: MustGather, phase: Phase, reason: Reason) returns (ok: bool, ghost done: seq<Write>)
      requires key in cluster.mustGathers && cluster.mustGathers[key] == mg && OperatorFinalizer in mg.finalizers
      requires reason == ReasonFor(phase)
      modifies this`cluster, this`faults
      ensures cluster == ApplyAll(old(cluster), done)
      ensures Pending(faults) <= Pending(old(faults))
      ensures Outcome(old(cluster), key, Plan(CompletionPlan(cfg, old(cluster), key, mg, phase), true), done, Pending(old(faults)) - Pending(faults), ok)
    {
      ghost var c0, budget := cluster, Pending(faults);
      var status := Base(mg.status).(phase := Some(phase), completed := Some(true), reason := Some(reason));
      ghost var first := [SetStatus(key, status)];
      ghost var rest := if Retains(mg.spec) then [] else CleanupPlan(cfg, c0, key, mg.uid);
      ghost var plan := Plan(CompletionPlan(cfg, c0, key, mg, phase), true);
      assert plan.writes == first + rest;
      ok, done := ReportStatus(key, mg, status);
      if !ok {
        if done == [] {
          assert Stopped(plan.writes, []);
        } else {
          assert done[..|done| - 1] == [];
          assert ErrorTail(c0, key, plan.writes, 0, done[0]);
        }
        return;
      }
      if !Retains(mg.spec) {
        ghost var c1 := cluster;
        assert c1 == Apply(c0, SetStatus(key, status)) by {
          ApplyOne(c0, SetStatus(key, status));
        }
        assert CleanupPlan(cfg, c1, key, mg.uid) == rest;
        ghost var done2;
        ok, done2 := CleanupMustGatherResources(key, mg);
        ApplyAllConcat(c0, first, done2);
        PerformedAfter(first, Plan(rest, true), done2, budget - Pending(faults), ok);
        CleanupLeavesResources(cfg, c1, key, mg.uid, done2);
        if !ok {
          ok, done := GiveUp(key, mg.(status := Some(status)), CleanupFailed, c0, plan, first + done2, budget);
          return;
        }
        done := first + done2;
        return;
      }
      assert first + [] == first;
    }

    method UpdateStatus(key: Key, mg: MustGather, job: Job) returns (ok: bool, ghost done: seq<Write>)
      requires key in cluster.mustGathers
      modifies this`cluster, this`faults
      ensures cluster == ApplyAll(old(cluster), done)
      ensures Pending(faults) <= Pending(old(faults))
      ensures Performed(Approval(key, mg, Some(Base(mg.status).(completed := Some(job.status.completionTime)))), done,
                        Pending(old(faults)) - Pending(faults), ok)
    {
      var status := Base(mg.status).(completed := Some(job.status.completionTime));
      ok, done := ManageSuccess(key, mg.(status := Some(status)));
    }

    /** Counts the error, then completes as failed. */
    method RecordFailure(key: Key, mg: MustGather) returns (ok: bool, ghost done: seq<Write>)
      requires key in cluster.mustGathers && cluster.mustGathers[key] == mg && OperatorFinalizer in mg.finalizers
      modifies this`cluster, this`faults
      ensures cluster == ApplyAll(old(cluster), done)
      ensures Pending(faults) <= Pending(old(faults))
      ensures Outcome(old(cluster), key, Plan([CountError] + CompletionPlan(cfg, old(cluster), key, mg, Failed), true), done,
                      Pending(old(faults)) - Pending(faults), ok)
      ensures CountError in done
    {
      ghost var c0, budget := cluster, Pending(faults);
      cluster := Apply(cluster, CountError);
      ApplyOne(c0, CountError);
      CompletionIgnoresCounters(cfg, c0, key, mg, Failed);
      ghost var rest;
      ok, rest := HandleJobCompletion(key, mg, Failed, JobFailed);
      OutcomeAfter(c0, key, [CountError], Plan(CompletionPlan(cfg, c0, key, mg, Failed), true), rest, budget - Pending(faults), ok);
      ApplyAllConcat(c0, [CountError], rest);
      done := [CountError] + rest;
    }

    /** The verdict on a Job that exists. */
    method FollowJob(key: Key, mg: MustGather, job: Job) returns (ok: bool, ghost done: seq<Write>)
      requires key in cluster.mustGathers && cluster.mustGathers[key] == mg && OperatorFinalizer in mg.finalizers
      modifies this`cluster, this`faults
      ensures cluster == ApplyAll(old(cluster), done)
      ensures Pending(faults) <= Pending(old(faults))
      ensures Outcome(old(cluster), key, JobPlan(cfg, old(cluster), key, mg, job), done, Pending(old(faults)) - Pending(faults), ok)
      ensures CountError in done <==> VerdictOf(job.status, job.backoffLimit) == Finished(Failed)
    {
      ghost var c0, budget := cluster, Pending(faults);
      if job.status.active == 0 {
        if job.status.succeeded > 0 {
          ok, done := HandleJobCompletion(key, mg, Completed, JobSucceeded);
          NoErrorUnplanned(c0, key, JobPlan(cfg, c0, key, mg, job), done, budget - Pending(faults), ok);
          return;
        }
        var limit := 0;
        if job.backoffLimit.Some? {
          limit := job.backoffLimit.value;
        }
        if job.status.failed > limit {
          ok, done := RecordFailure(key, mg);
          return;
        }
      }
      ok, done := UpdateStatus(key, mg, job);
      NoErrorUnplanned(c0, key, JobPlan(cfg, c0, key, mg, job), done, budget - Pending(faults), ok);
    }

    /** No Job yet: validate, then create it. */
    method StartJob(obs: Obs, key: Key, mg: MustGather, ghost pod: PodTemplate) returns (ok: bool, ghost done: seq<Write>)
      requires key in cluster.mustGathers && cluster.mustGathers[key] == mg && OperatorFinalizer in mg.finalizers
      requires key !in cluster.jobs && pod == PodFor(cfg, obs, cluster, key)
      modifies this`cluster, this`faults
      ensures cluster == ApplyAll(old(cluster), done)
      ensures Pending(faults) <= Pending(old(faults))
      ensures Outcome(old(cluster), key, CreatePlan(cfg, obs, pod, old(cluster), key, mg), done, Pending(old(faults)) - Pending(faults), ok)
      ensures CountError !in done
    {
      ghost var c0, budget := cluster, Pending(faults);
      ghost var plan := CreatePlan(cfg, obs, pod, c0, key, mg);
      var image := GetMustGatherImage(obs, mg.spec);
      if image.NoImage? {
        ok, done := SetValidationFailureStatus(key, mg, ImageInvalid(image.fault));
        return;
      }
      if obs.operatorImage.None? {
        ok, done := Complain(key, mg, NoOperatorImage);
        return;
      }
      var job := GetJobFromInstance(obs, key, mg, image.ref, obs.operatorImage.value);
      assert job == NewJob(key, mg, pod);
      ok, done := ValidateAndCreate(obs, key, mg, job, pod);
    }

    /** The checks on the ServiceAccount and the Secret, then the creation of the compiled Job. */
    method ValidateAndCreate(obs: Obs, key: Key, mg: MustGather, job: Job, ghost pod: PodTemplate) returns (ok: bool, ghost done: seq<Write>)
      requires key in cluster.mustGathers && cluster.mustGathers[key] == mg && OperatorFinalizer in mg.finalizers
      requires key !in cluster.jobs && job == NewJob(key, mg, pod)
      requires ResolveImage(cfg, obs, cluster, mg.spec).Image? && obs.operatorImage.Some?
      modifies this`cluster, this`faults
      ensures cluster == ApplyAll(old(cluster), done)
      ensures Pending(faults) <= Pending(old(faults))
      ensures Outcome(old(cluster), key, CreatePlan(cfg, obs, pod, old(cluster), key, mg), done, Pending(old(faults)) - Pending(faults), ok)
      ensures CountError !in done
    {
      ghost var c0, budget := cluster, Pending(faults);
      ghost var plan := CreatePlan(cfg, obs, pod, c0, key, mg);
      var account := Get(cluster.serviceAccounts, Key(key.ns, mg.spec.serviceAccount));
      if account.NotFound? {
        ok, done := SetValidationFailureStatus(key, mg, ServiceAccountMissing(mg.spec.serviceAccount));
        return;
      }
      if account.Unavailable? {
        return false, [];
      }
      var failed, verdict := CheckSecret(obs, key, mg.spec);
      if failed {
        return false, [];
      }
      if verdict.NoSecret? {
        ok, done := Complain(key, mg, SecretMissing(SecretToCheck(mg.spec).value));
        return;
      }
      if verdict.Unusable? {
        ok, done := SetValidationFailureStatus(key, mg, verdict.why);
        return;
      }
      ok, done := CreateJob(obs, key, mg, job);
    }

    method CreateJob(obs: Obs, key: Key, mg: MustGather, job: Job) returns (ok: bool, ghost done: seq<Write>)
      requires key in cluster.mustGathers && cluster.mustGathers[key] == mg && OperatorFinalizer in mg.finalizers
      requires key !in cluster.jobs
      modifies this`cluster, this`faults
      ensures cluster == ApplyAll(old(cluster), done)
      ensures Pending(faults) <= Pending(old(faults))
      ensures Outcome(old(cluster), key, Then([Write.CreateJob(key, job), CountGather], Approval(key, mg, mg.status)), done,
                      Pending(old(faults)) - Pending(faults), ok)
      ensures CountError !in done
    {
      ghost var c0, budget := cluster, Pending(faults);
      ghost var first := [Write.CreateJob(key, job), CountGather];
      ghost var plan := Then(first, Approval(key, mg, mg.status));
      var r := Send(Write.CreateJob(key, job));
      if r.Unreachable? {
        assert ApplyAll(c0, []) == c0;
        ok, done := GiveUp(key, mg, JobCreateFailed, c0, plan, [], budget);
        return;
      }
      cluster := Apply(cluster, CountGather);
      ApplyOne(c0, Write.CreateJob(key, job));
      ApplyAllSnoc(c0, [Write.CreateJob(key, job)], CountGather);
      assert first == [Write.CreateJob(key, job)] + [CountGather];
      ghost var done2;
      ok, done2 := ManageSuccess(key, mg);
      PerformedAfter(first, Approval(key, mg, mg.status), done2, budget - Pending(faults), ok);
      PerformedIsOutcome(c0, key, plan, first + done2, budget - Pending(faults), ok);
      ApplyAllConcat(c0, first, done2);
      done := first + done2;
    }

    /** Everything after the trusted CA copy is in place. */
    method Gather(obs: Obs, key: Key, mg: MustGather, ghost pod: PodTemplate) returns (ok: bool, ghost done: seq<Write>, ghost looked: bool)
      requires key in cluster.mustGathers && cluster.mustGathers[key] == mg && OperatorFinalizer in mg.finalizers
      requires pod == PodFor(cfg, obs, cluster, key)
      modifies this`cluster, this`faults
      ensures cluster == ApplyAll(old(cluster), done)
      ensures Pending(faults) <= Pending(old(faults))
      ensures Outcome(old(cluster), key, GatherPlan(cfg, obs, pod, old(cluster), key, mg), done, Pending(old(faults)) - Pending(faults), ok)
      ensures looked ==> ConfigFound(old(cluster), key, mg.spec)
      ensures !looked && Pending(faults) == Pending(old(faults)) ==> !ConfigFound(old(cluster), key, mg.spec)
      ensures CountError in done <==> looked && FailedForGood(old(cluster), key)
    {
      ghost var c0, budget := cluster, Pending(faults);
      ghost var plan := GatherPlan(cfg, obs, pod, c0, key, mg);
      assert ApplyAll(c0, []) == c0;
      looked := false;
      var config := ConfigRef(mg.spec.obfuscate);
      if config != "" {
        var found := Get(cluster.configMaps, Key(key.ns, config));
        if found.Unavailable? {
          GatherMayStopAtOnce(cfg, obs, pod, c0, key, mg);
          ok, done := GiveUp(key, mg, ObfuscationConfigMissing, c0, plan, [], budget);
          return;
        }
        if found.NotFound? {
          ok, done := Complain(key, mg, ObfuscationConfigMissing);
          return;
        }
      }
      var existing := Get(cluster.jobs, key);
      if existing.Unavailable? {
        GatherMayStopAtOnce(cfg, obs, pod, c0, key, mg);
        ok, done := GiveUp(key, mg, JobLookupFailed, c0, plan, [], budget);
        return;
      }
      looked := true;
      if existing.NotFound? {
        ok, done := StartJob(obs, key, mg, pod);
      } else {
        ok, done := FollowJob(key, mg, existing.value);
      }
    }

    /** A resource marked for deletion: clean up unless it retains, then let it go. */
    method FinalizeDeletion(key: Key, mg: MustGather) returns (ok: bool, ghost done: seq<Write>)
      requires key in cluster.mustGathers && cluster.mustGathers[key] == mg
      modifies this`cluster, this`faults
      ensures cluster == ApplyAll(old(cluster), done)
      ensures Pending(faults) <= Pending(old(faults))
      ensures Outcome(old(cluster), key, DeletionPlan(cfg, old(cluster), key, mg), done, Pending(old(faults)) - Pending(faults), ok)
    {
      ghost var c0, budget := cluster, Pending(faults);
      ghost var plan := DeletionPlan(cfg, c0, key, mg);
      done := [];
      if OperatorFinalizer !in mg.finalizers {
        return true, done;
      }
      ghost var first := if Retains(mg.spec) then [] else CleanupPlan(cfg, c0, key, mg.uid);
      assert plan.writes == first + [SetFinalizers(key, WithoutOperator(mg.finalizers))];
      if !Retains(mg.spec) {
        ok, done := CleanupMustGatherResources(key, mg);
        if !ok {
          assert Stopped(plan.writes, done);
          return;
        }
        CleanupLeavesResources(cfg, c0, key, mg.uid, done);
      } else {
        assert ApplyAll(c0, done) == c0;
      }
      ok, done := RemoveFinalizer(key, mg, c0, plan, done, budget);
    }

    /** The last step of a deletion, when the prefix `before` of the plan is done. */
    method RemoveFinalizer(key: Key, mg: MustGather, ghost c0: Cluster, ghost plan: Plan, ghost before: seq<Write>, ghost budget: nat)
      returns (ok: bool, ghost done: seq<Write>)
      requires cluster == ApplyAll(c0, before) && Pending(faults) == budget
      requires plan == Plan(before + [SetFinalizers(key, WithoutOperator(mg.finalizers))], true)
      requires key in cluster.mustGathers && cluster.mustGathers[key] == mg && OperatorFinalizer in mg.finalizers
      modifies this`cluster, this`faults
      ensures cluster == ApplyAll(c0, done)
      ensures Pending(faults) <= Pending(old(faults))
      ensures Outcome(c0, key, plan, done, budget - Pending(faults), ok)
    {
      var w := SetFinalizers(key, WithoutOperator(mg.finalizers));
      var r := Send(w);
      if !r.Done? {
        ok, done := GiveUp(key, mg, FinalizerUpdateFailed, c0, plan, before, budget);
        return;
      }
      ApplyAllSnoc(c0, before, w);
      return true, before + [w];
    }

    method AddFinalizer(key: Key, mg: MustGather) returns (ok: bool, ghost done: seq<Write>)
      requires key in cluster.mustGathers
      modifies this`cluster, this`faults
      ensures cluster == ApplyAll(old(cluster), done)
      ensures Pending(faults) <= Pending(old(faults))
      ensures Performed(Plan([SetFinalizers(key, mg.finalizers + [OperatorFinalizer])], true), done, Pending(old(faults)) - Pending(faults), ok)
    {
      var w := SetFinalizers(key, mg.finalizers + [OperatorFinalizer]);
      var r := Send(w);
      ok := r.Done?;
      done := if ok then [w] else [];
      ApplyOne(old(cluster), w);
    }

    /**
      One pass. With no failing call it carries out its plan to the end; with failing
      calls it ends with an error after a prefix of the plan, and at most one error
      condition. Nothing else is ever written.
     */
    method Reconcile(key: Key, obs: Obs) returns (ok: bool, ghost done: seq<Write>, ghost looked: bool)
      modifies this`cluster, this`faults
      ensures cluster == ApplyAll(old(cluster), done)
      ensures Pending(faults) <= Pending(old(faults))
      ensures Outcome(old(cluster), key, PassPlan(cfg, obs, PodFor(cfg, obs, old(cluster), key), old(cluster), key), done,
                      Pending(old(faults)) - Pending(faults), ok)
      ensures Looked(cfg, old(cluster), key, done, Pending(old(faults)) - Pending(faults), looked)
    {
      ghost var c0, budget := cluster, Pending(faults);
      ghost var pod := PodFor(cfg, obs, c0, key);
      PassMayStopAtOnce(cfg, obs, pod, c0, key);
      looked := false;
      var found := Get(cluster.mustGathers, key);
      if found.NotFound? {
        return true, [], false;
      }
      if found.Unavailable? {
        return false, [], false;
      }
      var mg := found.value;
      if mg.deleting {
        ok, done := FinalizeDeletion(key, mg);
        NoErrorUnplanned(c0, key, DeletionPlan(cfg, c0, key, mg), done, budget - Pending(faults), ok);
        return;
      }
      ok, done, looked := ReconcileActive(key, mg, obs, pod);
    }

    method ReconcileActive(key: Key, mg: MustGather, obs: Obs, ghost pod: PodTemplate) returns (ok: bool, ghost done: seq<Write>, ghost looked: bool)
      requires key in cluster.mustGathers && cluster.mustGathers[key] == mg && !mg.deleting
      requires pod == PodFor(cfg, obs, cluster, key)
      modifies this`cluster, this`faults
      ensures cluster == ApplyAll(old(cluster), done)
      ensures Pending(faults) <= Pending(old(faults))
      ensures Outcome(old(cluster), key, ActivePlan(cfg, obs, pod, old(cluster), key, mg), done, Pending(old(faults)) - Pending(faults), ok)
      ensures Looked(cfg, old(cluster), key, done, Pending(old(faults)) - Pending(faults), looked)
    {
      ghost var c0, budget := cluster, Pending(faults);
      ghost var plan := ActivePlan(cfg, obs, pod, c0, key, mg);
      looked := false;
      if OperatorFinalizer !in mg.finalizers {
        ok, done := AddFinalizer(key, mg);
        PerformedIsOutcome(c0, key, plan, done, budget - Pending(faults), ok);
        NoErrorUnplanned(c0, key, plan, done, budget - Pending(faults), ok);
        return;
      }
      if key.ns == cfg.namespace && mg.spec.serviceAccount == cfg.serviceAccount {
        ok, done := SetValidationFailureStatus(key, mg, OperatorAccount(mg.spec.serviceAccount));
        return;
      }
      ok, done, looked := EnsureThenGather(key, mg, obs, pod);
    }

    method EnsureThenGather(key: Key, mg: MustGather, obs: Obs, ghost pod: PodTemplate) returns (ok: bool, ghost done: seq<Write>, ghost looked: bool)
      requires key in cluster.mustGathers && cluster.mustGathers[key] == mg && !mg.deleting
      requires OperatorFinalizer in mg.finalizers && !IsOperatorAccount(cfg, key, mg.spec)
      requires pod == PodFor(cfg, obs, cluster, key)
      modifies this`cluster, this`faults
      ensures cluster == ApplyAll(old(cluster), done)
      ensures Pending(faults) <= Pending(old(faults))
      ensures Outcome(old(cluster), key, ActivePlan(cfg, obs, pod, old(cluster), key, mg), done, Pending(old(faults)) - Pending(faults), ok)
      ensures Looked(cfg, old(cluster), key, done, Pending(old(faults)) - Pending(faults), looked)
    {
      ghost var c0, budget := cluster, Pending(faults);
      ok, done := EnsureCa(key, mg);
      if !ok {
        ok, done, looked := GiveUpWithoutCa(key, mg, obs, pod, c0, done, budget);
        return;
      }
      ok, done, looked := GatherAfterCa(key, mg, obs, pod, c0, done);
    }

    method GiveUpWithoutCa(key: Key, mg: MustGather, obs: Obs, ghost pod: PodTemplate, ghost c0: Cluster, ghost before: seq<Write>, ghost budget: nat)
      returns (ok: bool, ghost done: seq<Write>, ghost looked: bool)
      requires key in c0.mustGathers && c0.mustGathers[key] == mg && !mg.deleting
      requires OperatorFinalizer in mg.finalizers && !IsOperatorAccount(cfg, key, mg.spec)
      requires cluster == ApplyAll(c0, before) && Pending(faults) <= budget
      requires Performed(CaPlan(cfg, c0, key, mg.uid), before, budget - Pending(faults), false)
      modifies this`cluster, this`faults
      ensures cluster == ApplyAll(c0, done)
      ensures Pending(faults) <= Pending(old(faults))
      ensures Outcome(c0, key, ActivePlan(cfg, obs, pod, c0, key, mg), done, budget - Pending(faults), ok)
      ensures Looked(cfg, c0, key, done, budget - Pending(faults), looked)
    {
      ghost var ca := CaPlan(cfg, c0, key, mg.uid);
      ghost var rest := GatherPlan(cfg, obs, pod, ApplyAll(c0, ca.writes), key, mg);
      CaFrame(cfg, c0, key, mg.uid, before);
      GatherMayStopAtOnce(cfg, obs, pod, ApplyAll(c0, ca.writes), key, mg);
      ok, done := ReportCaFailure(key, mg, c0, ca, rest, before, budget);
      PassWithoutCa(cfg, obs, pod, c0, key, rest, done, budget - Pending(faults), ok);
      looked := false;
    }

    /** The rest of a pass that started from `c0`, with the copy in place. */
    method GatherAfterCa(key: Key, mg: MustGather, obs: Obs, ghost pod: PodTemplate, ghost c0: Cluster, ghost ca: seq<Write>)
      returns (ok: bool, ghost done: seq<Write>, ghost looked: bool)
      requires key in c0.mustGathers && c0.mustGathers[key] == mg && !mg.deleting
      requires OperatorFinalizer in mg.finalizers && !IsOperatorAccount(cfg, key, mg.spec)
      requires Performed(CaPlan(cfg, c0, key, mg.uid), ca, 0, true) && cluster == ApplyAll(c0, ca)
      requires pod == PodFor(cfg, obs, c0, key)
      modifies this`cluster, this`faults
      ensures cluster == ApplyAll(c0, done)
      ensures Pending(faults) <= Pending(old(faults))
      ensures Outcome(c0, key, ActivePlan(cfg, obs, pod, c0, key, mg), done, Pending(old(faults)) - Pending(faults), ok)
      ensures Looked(cfg, c0, key, done, Pending(old(faults)) - Pending(faults), looked)
    {
      ghost var budget := Pending(faults);
      CaFrame(cfg, c0, key, mg.uid, ca);
      PodAfterCa(cfg, obs, c0, cluster, key);
      ghost var rest;
      ok, rest, looked := Gather(obs, key, mg, pod);
      PassAfterCa(cfg, obs, pod, c0, key, ca, rest, budget - Pending(faults), ok, looked);
      done := ca + rest;
    }

    /** The copy, if a trusted CA is configured. */
    method EnsureCa(key: Key, mg: MustGather) returns (ok: bool, ghost done: seq<Write>)
      modifies this`cluster, this`faults
      ensures cluster == ApplyAll(old(cluster), done)
      ensures Pending(faults) <= Pending(old(faults))
      ensures Performed(CaPlan(cfg, old(cluster), key, mg.uid), done, Pending(old(faults)) - Pending(faults), ok)
    {
      if cfg.trustedCa != "" {
        ok, done := EnsureTrustedCaConfigMap(key, mg);
        return;
      }
      return true, [];
    }

    method ReportCaFailure(key: Key, mg: MustGather, ghost c0: Cluster, ghost ca: Plan, ghost rest: Plan, ghost before: seq<Write>, ghost budget: nat)
      returns (ok: bool, ghost done: seq<Write>)
      requires cluster == ApplyAll(c0, before) && Pending(faults) <= budget
      requires Performed(ca, before, budget - Pending(faults), false)
      requires !ca.ok ==> ca.writes == []
      requires CountError !in ca.writes
      requires Stopped(rest.writes, [])
      requires key in cluster.mustGathers && cluster.mustGathers[key] == mg && OperatorFinalizer in mg.finalizers
      modifies this`cluster, this`faults
      ensures cluster == ApplyAll(c0, done)
      ensures Pending(faults) <= Pending(old(faults))
      ensures Outcome(c0, key, AfterCa(key, mg, ca, rest), done, budget - Pending(faults), ok)
      ensures CountError !in done
    {
      assert Stopped(AfterCa(key, mg, ca, rest).writes, before);
      ok, done := GiveUp(key, mg, TrustedCaFailed, c0, AfterCa(key, mg, ca, rest), before, budget);
    }
  }
}
