/**
  The Job status the reconciler reads, the verdict it draws from it, and the part of
  the Kubernetes Job controller that moves the status: one pod at a time
  (restartPolicy Never), a new pod after each failure until `backoffLimit` is exceeded.
 */
module JobController {
  import opened Api

  datatype JobStatus = JobStatus(active: nat, succeeded: nat, failed: nat, completionTime: bool)

  const FRESH := JobStatus(0, 0, 0, false)

  /** The limit the Job template asks for. */
  const BACKOFF_LIMIT := 3

  datatype Verdict = Running | Finished(phase: Phase)

  /** What a pass concludes from a Job that exists. */
  function VerdictOf(st: JobStatus, backoffLimit: Option<nat>): Verdict {
    var limit := if backoffLimit.Some? then backoffLimit.value else 0;
    if st.active > 0 then Running
    else if st.succeeded > 0 then Finished(Completed)
    else if st.failed > limit then Finished(Failed)
    else Running
  }

  function ReasonFor(phase: Phase): Reason {
    if phase == Completed then JobSucceeded else JobFailed
  }

  // ---------- the Job controller ----------

  /** Whether the Job controller may still start a pod. */
  predicate MayStart(st: JobStatus, limit: nat) {
    st.active == 0 && st.succeeded == 0 && st.failed <= limit
  }

  ghost predicate JobStep(st: JobStatus, st': JobStatus, limit: nat) {
    || (MayStart(st, limit) && st' == st.(active := 1))
    || (st.active > 0 && st' == st.(active := st.active - 1, failed := st.failed + 1))
    || (st.active > 0 && st' == st.(active := st.active - 1, succeeded := st.succeeded + 1))
    || (st.active == 0 && st.succeeded > 0 && st' == st.(completionTime := true))
  }

  /** What every step of the Job controller keeps. */
  predicate JobInv(st: JobStatus, limit: nat) {
    && st.active + st.succeeded <= 1
    && st.failed + st.active + st.succeeded <= limit + 1
    && (st.completionTime ==> st.succeeded > 0)
  }

  ghost predicate JobRun(run: seq<JobStatus>, limit: nat) {
    && |run| > 0 && run[0] == FRESH
    && forall i | 0 <= i < |run| - 1 :: JobStep(run[i], run[i + 1], limit)
  }

  lemma {:induction false} JobRunInv(run: seq<JobStatus>, limit: nat, i: nat)
    requires JobRun(run, limit) && i < |run|
    ensures JobInv(run[i], limit)
  {
    if i > 0 {
      JobRunInv(run, limit, i - 1);
      assert JobStep(run[i - 1], run[i - 1 + 1], limit);
    }
  }

  /**
    On every run, Failed is reported exactly when no pod runs, none succeeded and none
    may be started any more; Completed exactly when a pod succeeded; and the gaps
    between retries, where no pod is active either, are reported as running.
   */
  lemma VerdictAgreesWithJobController(run: seq<JobStatus>, limit: nat, i: nat)
    requires JobRun(run, limit) && i < |run|
    ensures VerdictOf(run[i], Some(limit)) == Finished(Failed)
            <==> run[i].active == 0 && run[i].succeeded == 0 && !MayStart(run[i], limit)
    ensures VerdictOf(run[i], Some(limit)) == Finished(Failed) <==> run[i].failed == limit + 1
    ensures VerdictOf(run[i], Some(limit)) == Finished(Completed) <==> run[i].succeeded == 1
    ensures VerdictOf(run[i], Some(limit)) == Running <==> run[i].active == 1 || MayStart(run[i], limit)
  {
    JobRunInv(run, limit, i);
  }

  /** One step of the Job controller never takes a verdict back. */
  lemma VerdictSurvivesStep(st: JobStatus, st': JobStatus, limit: nat)
    requires JobInv(st, limit) && JobStep(st, st', limit)
    ensures JobInv(st', limit)
    ensures VerdictOf(st, Some(limit)).Finished? ==> VerdictOf(st', Some(limit)) == VerdictOf(st, Some(limit))
  {
  }

  /** A verdict, once drawn, is the verdict of every later state of the Job. */
  lemma {:induction false} VerdictIsStable(run: seq<JobStatus>, limit: nat, i: nat, j: nat)
    requires JobRun(run, limit) && i <= j < |run|
    requires VerdictOf(run[i], Some(limit)).Finished?
    ensures VerdictOf(run[j], Some(limit)) == VerdictOf(run[i], Some(limit))
  {
    if i < j {
      VerdictIsStable(run, limit, i, j - 1);
      JobRunInv(run, limit, j - 1);
      assert JobStep(run[j - 1], run[j - 1 + 1], limit);
      VerdictSurvivesStep(run[j - 1], run[j], limit);
    }
  }
}
