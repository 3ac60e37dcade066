# The must-gather operator, modelled and proved

The must-gather operator turns a `MustGather` resource into one Kubernetes Job that
collects diagnostic data and, if asked, obfuscates and uploads it. Nearly all of its state
and branching is in one reconciler that works on a cluster it shares with users, with the
Job controller and with garbage collection, through API calls any of which may fail, and
in one compiler that turns a spec into a pod. This project models both and proves what
they keep over every run.

## How the model is built

* **Api, Cluster** are the data: the resource with its CRD rules as the predicate
  `Admitted`, the objects of the cluster, and the effect of every API write.
* **Plan** says what one pass means to do: the list of writes it would make from a given
  cluster if every call went through. **Reconciler** is the operator itself, a class whose
  methods make their API calls one by one against a schedule of failures. `Reconcile` is
  proved to carry out its plan to the end when no call fails, and otherwise a prefix of
  it, with at most one error condition written at the end. A failed call has no effect.
* **Protocol** gives the rule each write must obey at the moment it is made; every write
  of every pass obeys it, wherever the pass is cut short. **Invariants** shows that
  a write that obeys the rules keeps the invariants of the shared cluster, and
  **Environment** that everything the rest of the cluster does keeps them too.
* **Wakeups** is the event filters and the work queue. **Runs** puts it together: passes
  taken from the queue one at a time, between arbitrary actions of everybody else.
* **Theorems, Gate, Deletion, Counters, Failures, FirstReport, Outcomes, CaEvents** hold
  the statements over whole runs. The safety statements hold between any two writes of
  a pass, not only between passes. A run may also restart the operator, between two
  passes or anywhere in the middle of one.
* **Effects** says what a pass has done when no call has failed, case by case and without
  naming a plan: the conditions are read off the cluster before, the effects off the
  cluster after. **Filters** says what the event filters let through and what they keep out.
* **Examples** holds complete runs, from an untouched cluster, that show the limits below.
* **TrustedCa** treats the trusted CA copy of a namespace as a reference count.
* **JobController** is the part of the Kubernetes Job controller that moves a Job's status.
* **JobTemplate** is the compiler, **TemplateProperties** what it guarantees, **PodMeaning**
  what the containers of a compiled pod find in their variables and mounts, **Shell**
  the meaning of the two shell programs it embeds, **Naming** and **Text** the directory
  names and sub-paths, **Sftp** the pre-flight check.

Passes are serial, as the operator sets them up: one worker, under a leader lock
(`controllers/mustgather/mustgather_controller.go:396-412`, `main.go:138-148`).

## What the code does not do

Where a promise turned out not to hold, the code is modelled as it is, and the exact
condition is proved.

* A temporary trouble can be final, although `docs/design/controller.md:30` says that
  transient errors are retried. `Failures.TemporaryTroubleIsFinal` says exactly when, for
  every pass that would create a Job: if the resource names an ImageStream and the stream
  cannot be read at that moment, or if there is a secret to check and no dial within the
  bound succeeds after only transient errors, three timeouts included. Then the pass ends
  without an error and the resource is declared failed and completed; in every other case
  the pass does what it would have done. `Failures.UnreadableStreamExample` and
  `Failures.ThreeTimeoutsExample` give an input for each.
* The verdict is read off whatever Job has the resource's name, owned or not; only cleanup
  looks at owners. A new resource can be declared completed by the retained Job of a
  deleted one of the same name, without ever gathering: `Examples.OutcomeTakenOver` is such
  a run. `Outcomes.ReportedOutcomeIsItsOwnIff` says exactly when a reported outcome is that
  of the resource's own Job: for a Job the operator made, if and only if the Job found
  under the name lists the resource as an owner; for anybody else's Job, never.
* The first report on a resource is refused. The CRD requires `completed` of every status
  (`deploy/crds/operator.openshift.io_mustgathers.yaml:428-429`), and the operator leaves it
  out until a validation failure, a verdict or a running Job sets it. So a pass
  that creates a Job for a resource with no status always ends with an error and is
  retried, and a complaint about such a resource is never stored. `FirstReport.FirstReportIsRefused` gives the
  exact condition: no status has been stored yet.
* The error counter counts passes, not failed runs. It is exactly the number of passes since
  the last restart that have looked up a Job that had failed for good
  (`Counters.CountersAreConserved`); `Examples.OneFailureCountsTwice` is a run in which one
  failed Job is counted twice, because the cleanup of the first pass fails.
* Cleanup gives up the hold on the trusted CA copy if and only if it finds a Job of the
  instance (`TrustedCa.CleanupReleasesIff`). If the pass is cut short between deleting the
  Job and releasing the copy, the reference stays until garbage collection drops it
  or the cleanup of a later Job of the instance does. In `Examples.HoldOutlivesHolder` the
  resource is deleted meanwhile, and the copy still lists it when it is gone.
* A Job that goes away wakes nobody (`Theorems.JobRemovalWakesNobody`), as
  `docs/design/predicates.md:25` admits. `Theorems.NoLostWakeUp` is therefore about Jobs
  that are still there: the one the last pass saw, or one that has not begun.
* `docs/design/predicates.md:14` speaks of events of the trusted CA copy that reconcile a
  MustGather. Events are attributed to a controller (`CaEvents.ConfigMapEventWakes`), and the
  references the operator puts on its copies are not controller references, so those
  copies wake nobody (`CaEvents.CopyWritesWakeNobody`, `CaEvents.CopyActionsWakeNobody`).
  A ConfigMap that a user puts in the copy's place can (`CaEvents.PlacedCopyWakes`).

## Model

| member | source | states |
|---|---|---|
| Reconciler.Reconciler.Reconcile | controllers/mustgather/mustgather_controller.go:106-320 | One pass under any failure schedule: no failing call means the whole plan and its result; otherwise an error after a prefix of the plan plus at most one error condition that keeps the reported outcome. Nothing else is written. A status the CRD refuses is not written either. An error is counted exactly if the pass has looked up a Job that has failed for good. |
| Reconciler.Reconciler.FinalizeDeletion | controllers/mustgather/mustgather_controller.go:126-155 | Cleanup unless retained, then the finalizer; a failed cleanup leaves the finalizer in place. |
| Reconciler.Reconciler.RemoveFinalizer | controllers/mustgather/mustgather_controller.go:144-153 | Removes only the operator's finalizer; a failed update is reported and ends the pass with an error. |
| Reconciler.Reconciler.AddFinalizer | controllers/mustgather/mustgather_controller.go:415-426 | Appends the finalizer, or fails without effect. |
| Reconciler.Reconciler.ReconcileActive | controllers/mustgather/mustgather_controller.go:157-179 | Finalizer first, then the operator-account check, then the trusted CA copy, then the rest. |
| Reconciler.Reconciler.Gather | controllers/mustgather/mustgather_controller.go:181-318 | The obfuscation config check, then either the verdict on the Job or its creation; and whether the Job was looked up. |
| Reconciler.Reconciler.StartJob | controllers/mustgather/mustgather_controller.go:206-214 | An unusable image is rejected for good, a missing operator image is retried. |
| Reconciler.Reconciler.ValidateAndCreate | controllers/mustgather/mustgather_controller.go:216-290 | A missing account or bad credentials are rejected for good, a missing secret is retried, otherwise the Job is created. |
| Reconciler.Reconciler.CreateJob | controllers/mustgather/mustgather_controller.go:282-290 | Creates the Job and counts it, with no call between the two, then reports success, which is refused, and ends the pass with an error, if nothing was reported before. |
| Reconciler.Reconciler.CheckSecret | controllers/mustgather/mustgather_controller.go:232-280 | Accepts exactly a secret with both fields non-empty whose credentials the server takes within the retry bound. |
| Reconciler.Reconciler.FollowJob | controllers/mustgather/mustgather_controller.go:293-318 | Running, completed or failed, with the error counted before completion. |
| Reconciler.Reconciler.HandleJobCompletion | controllers/mustgather/mustgather_controller.go:322-343 | The outcome is stored before anything is deleted; a failed cleanup is reported without changing that outcome. |
| Reconciler.Reconciler.UpdateStatus | controllers/mustgather/mustgather_controller.go:345-352 | Completed mirrors the Job's completion time; phase and reason stay. |
| Reconciler.Reconciler.SetValidationFailureStatus | controllers/mustgather/mustgather_controller.go:359-393 | Failed, completed, with the reason, and no error; if the write fails, an error with the same outcome. |
| Reconciler.Reconciler.GetMustGatherImage | controllers/mustgather/mustgather_controller.go:448-483 | The loop over tags finds what the first tag of that name offers. |
| Reconciler.Reconciler.GetJobFromInstance | controllers/mustgather/mustgather_controller.go:428-446 | The Job is the compiled template, owned by the resource as its controller. |
| Reconciler.Reconciler.CleanupMustGatherResources | controllers/mustgather/mustgather_controller.go:486-561 | Nothing if no owned Job is found; else pods, Job and trusted CA hold, in this order, up to the first failure. |
| Reconciler.Reconciler.DeletePods | controllers/mustgather/mustgather_controller.go:533-542 | Deletes the listed pods in order up to the first failing call; a pod already gone is no failure. |
| Reconciler.Reconciler.EnsureTrustedCaConfigMap | controllers/mustgather/mustgather_controller.go:565-651 | Creates the copy with this owner, or adds the owner if it is missing, or changes nothing. |
| Reconciler.Reconciler.CleanupTrustedCaConfigMap | controllers/mustgather/mustgather_controller.go:656-707 | Drops this owner and keeps the others; deletes the copy when no owner is left. |
| Effects.FirstPass | controllers/mustgather/mustgather_controller.go:157-160 | A first look puts the finalizer behind the others, does nothing else and ends well. |
| Effects.NothingToDo | controllers/mustgather/mustgather_controller.go:112-119 | Nothing is done for a resource that is gone, or going and no longer held. |
| Effects.AccountIsRefused | controllers/mustgather/mustgather_controller.go:165-171 | The operator's own account in its own namespace is given up for good, with that reason, before anything else is touched. |
| Effects.MissingCaIsRetried | controllers/mustgather/mustgather_controller.go:174-179 | Without a trusted CA to copy the pass ends with an error and leaves the outcome. |
| Effects.MissingConfigIsRetried | controllers/mustgather/mustgather_controller.go:181-189 | So it does without the obfuscation config, the copy being in place; unless the config is that copy. |
| Effects.MissingJobIsCreatedOrNot | controllers/mustgather/mustgather_controller.go:206-290 | Nine obstacles in their order: with none the Job is made, for this resource, fresh and counted; the first one decides whether the pass ends with an error, leaving the outcome, or gives the resource up for the reason that belongs to it. |
| Effects.CreatedIffInOrder | controllers/mustgather/mustgather_controller.go:206-290 | A Job comes of it iff none of the obstacles stands; a retry without a Job iff the first is a missing operator image or a missing secret. |
| Effects.OneFirstObstacle | controllers/mustgather/mustgather_controller.go:206-280 | Either all is in order or exactly one obstacle is the first. |
| Effects.RunningJobIsReported | controllers/mustgather/mustgather_controller.go:345-352 | Over a running Job the pass ends well and stores `completed` as the completion time has it and the success condition, and touches nothing else. |
| Effects.EndedJobIsSettled | controllers/mustgather/mustgather_controller.go:297-343 | Over an ended Job the outcome is stored, an error is counted iff it failed, and Job, pods and hold go iff the resource owns the Job and does not retain it. |
| Effects.DeletionTakesAll | controllers/mustgather/mustgather_controller.go:126-155 | A deletion pass takes off the finalizer, and with it the resource if no other is left, and Job, pods and hold iff owned and not retained. |
| Effects.CleanupCleansUp | controllers/mustgather/mustgather_controller.go:486-561 | Cleanup removes the owned Job, exactly its pods, and the hold, and changes nothing if no owned Job is found. |
| Protocol.PlanIsLegal | controllers/mustgather/mustgather_controller.go:106-320 | Every planned write obeys the protocol's rules in the cluster it is applied to. |
| Protocol.PassIsLegal | controllers/mustgather/mustgather_controller.go:106-343 | So does every write of a pass that failing calls cut short anywhere. |
| Protocol.CleanupIsLegal | controllers/mustgather/mustgather_controller.go:486-561 | Cleanup obeys the rules, leaves no owned Job behind and no resource changed. |
| Invariants.WritePreserves | controllers/mustgather/mustgather_controller.go:106-707 | Any write that obeys the rules keeps all invariants of the shared cluster. |
| Invariants.LegalPreserves | controllers/mustgather/mustgather_controller.go:106-707 | And so does any list of such writes, at every point. |
| Environment.ActionPreserves | controllers/mustgather/mustgather_controller.go:396-412 | Users, the Job controller and garbage collection keep the invariants as well. |
| Runs.StepKeepsInv | controllers/mustgather/mustgather_controller.go:106-412 | Each step of a run, a restart in the middle of a pass included, keeps the cluster and queue invariants together. |
| Runs.StepIsLegal | controllers/mustgather/mustgather_controller.go:106-343 | Every write of every step obeys the rules, wherever a failing call or a restart cuts it short. |
| Runs.RunKeepsInv | controllers/mustgather/mustgather_controller.go:106-412 | They hold in every state of every run. |
| Theorems.JobsKeepTheirTrustedCa | controllers/mustgather/mustgather_controller.go:173-179 | Dependency: at every point of every run a Job of a stored resource finds its namespace's CA copy, held by that resource, whatever the others do. |
| Theorems.NoOrphans | controllers/mustgather/mustgather_controller.go:126-160 | A Job of a non-retaining resource exists only while that very resource is stored with the finalizer; each pod only while its Job exists. |
| Theorems.NothingLeftBehind | controllers/mustgather/mustgather_controller.go:130-153 | Once the resource or its finalizer is gone, no Job and no pod made for it is left. |
| Theorems.FinalizerDiscipline | controllers/mustgather/mustgather_controller.go:126-160 | Adding the finalizer precedes every other write; it comes off last, and only when no owned Job is left or the resource retains. |
| Theorems.OthersFinalizersAreKept | controllers/mustgather/mustgather_controller.go:146-148 | No pass adds, drops or reorders anybody else's finalizers. |
| Theorems.OutcomeIsDurable | controllers/mustgather/mustgather_controller.go:322-341 | Whenever completion deletes a pod or a Job, phase, reason and completed are already stored, and are those of the Job's verdict. |
| Theorems.DeletesOnlyItsOwn | controllers/mustgather/mustgather_controller.go:507-545 | Deletion frame: nothing for a retaining resource; otherwise only an owned Job without pods, pods of that Job, and a CA copy nobody else owns. |
| Theorems.WriteIsEnabled | controllers/mustgather/mustgather_controller.go:106-343 | Every write of every run obeys the rules in the state it is made in. |
| Counters.CountersAreConserved | controllers/mustgather/mustgather_controller.go:283-311 | In every state of every run the total counter equals the operator Jobs made since the last restart, present, cleaned up or collected, and the error counter equals the passes since then that observed a terminal failure. |
| Theorems.NoLostWakeUp | controllers/mustgather/predicates.go:11-68 | An instance not in the queue has the generation, finalizers and Job status its last pass left; a Job of its own that this pass did not see has not begun. |
| Theorems.NothingIsForgotten | controllers/mustgather/mustgather_controller.go:126-160 | An instance nobody will look at has the finalizer iff it is not being deleted; a finished Job's outcome is in its status, and the Job is still there only if it is retained. |
| Theorems.VerdictOnOperatorJobs | controllers/mustgather/mustgather_controller.go:293-312 | In every state the verdict on an operator Job is what the Job controller means by its status. |
| Theorems.JobRemovalWakesNobody | controllers/mustgather/predicates.go:24-29 | The limit of the wake-up guarantee: removing a Job puts nobody in the queue. |
| Wakeups.CompletePassSettles | controllers/mustgather/mustgather_controller.go:106-320 | A pass that ends without an error leaves its instance settled or wakes it again, by its own finalizer write. |
| Wakeups.LegalIsLocal | controllers/mustgather/mustgather_controller.go:106-343 | A pass changes no other resource and no other Job. |
| Runs.ActionDisturbsOnlyTheWoken | controllers/mustgather/predicates.go:53-68 | Whatever others do, an instance the filters do not wake is undisturbed. |
| Filters.ResourceEventWakes | controllers/mustgather/predicates.go:53-68 | A change of one resource wakes it, and only it, iff it comes, goes, or changes its generation or its finalizers. |
| Filters.StatusWakesNobody | controllers/mustgather/predicates.go:62-63 | A report wakes nobody. |
| Filters.JobEventWakes | controllers/mustgather/predicates.go:11-34 | A change of one Job wakes the MustGather that is its first controller, iff the Job stays and its status changes. |
| Filters.QuietPassRests | controllers/mustgather/predicates.go:53-68 | In every run a pass that leaves the finalizers alone puts its resource back in the queue iff it ends with an error, and nobody else. |
| Gate.JobsAreGated | controllers/mustgather/mustgather_controller.go:157-290 | Creation gate: finalizer, not deleting, not the operator's account, existing account and obfuscation config, held CA copy, no Job of that name; and the Job gathers with the default image, or with the newest item of the first tag of that name in the named stream. |
| Gate.FromTagsFinds | controllers/mustgather/mustgather_controller.go:460-482 | A resolved image is the newest item of the first tag with that name. |
| Gate.CreatedPodIsCompiled | controllers/mustgather/mustgather_controller.go:428-446 | The created pod is compiled from the spec and the streams as they are when it is created. |
| Gate.CreatedJobsReadVettedSecrets | controllers/mustgather/mustgather_controller.go:232-280 | Every secret a created pod reads was found complete and accepted by its server in the same pass. |
| Gate.CheckedIsWhatIsRead | controllers/mustgather/template.go:95-108 | For an admitted spec the secret checked and the secret read are the same. |
| Gate.CompiledSecretsAreVetted | controllers/mustgather/template.go:472-505 | Without admission too, the pod reads no secret that was not checked. |
| Gate.RunKeepsSpecs | api/v1/mustgather_types.go:25-30 | Every stored spec of every run is an admitted one. |
| Gate.SpecsNeverChange | api/v1/mustgather_types.go:307 | A resource has the same spec at any two points of a run, whatever updates users ask for. |
| Gate.CreatedJobsAreWellFormed | api/v1/mustgather_types.go:142-143 | In every run every created Job has a well-formed pod that reads exactly the checked secret. |
| Gate.JobsLogInAsDialled | controllers/mustgather/mustgather_controller.go:265-277 | In every run the user, password and host in a created Job's upload variables are ones the server took in that pass. |
| Gate.CreatedJobsKeepTheirData | controllers/mustgather/template.go:206-225 | In every run each container of a created Job has at /must-gather the volume and directory that belong there; the Job has three retries and is owned by its resource alone. |
| Deletion.PassesAreUsedUp | controllers/mustgather/mustgather_controller.go:126-155 | Until a deleted resource is released, every pass over it has met a failing call. |
| Deletion.DeletionConverges | controllers/mustgather/mustgather_controller.go:126-155 | After more passes than failed calls the finalizer is off and no Job or pod made for it is left; until then it stays in the queue. |
| Counters.PassCounts | controllers/mustgather/mustgather_controller.go:303-311 | A pass, whatever fails in it, adds exactly one error if it observes a terminal failure, and none otherwise. |
| Counters.PassOwesNothing | controllers/mustgather/mustgather_controller.go:282-290 | No failing call separates the creation of a Job from its count. |
| Examples.OneFailureCountsTwice | controllers/mustgather/mustgather_controller.go:307-343 | A run from an untouched cluster in which one Job is made, fails for good and is counted as two errors. |
| Failures.RejectionTouchesNothing | controllers/mustgather/mustgather_controller.go:354-393 | A new validation failure is reported as failed and completed, and touches no Job, no pod and no counter, even when cut short. |
| Failures.OnlyReachabilityMatters | controllers/mustgather/mustgather_controller.go:265-277 | Two passes that differ only in how dialling went write the same if the server is reachable in both or in neither. |
| Failures.NoImageIff | controllers/mustgather/mustgather_controller.go:460-480 | Exactly when an image stream offers nothing. |
| Failures.TemporaryTroubleIsFinal | controllers/mustgather/mustgather_controller.go:206-277 | Exactly when a trouble with the stream or the server is a final failure of a pass that would create a Job; in every other case the pass does the same. |
| Failures.UnreadableStreamIsFinal | controllers/mustgather/mustgather_controller.go:454-458 | In particular, a stream that cannot be read at that moment is a final failure iff the resource names one. |
| Failures.UnreadableStreamExample | controllers/mustgather/mustgather_controller.go:207-211 | A concrete cluster and an admitted resource where an unreadable stream does it. |
| Failures.ThreeTimeoutsExample | controllers/mustgather/mustgather_controller.go:265-277 | And one where three timeouts do. |
| FirstReport.FirstReportIsRefused | api/v1/mustgather_types.go:283-285 | Without a failing call, a pass that creates a Job ends with an error and reports nothing iff no status was stored before; and so it is with every complaint. |
| FirstReport.CreationIsReportedIff | controllers/mustgather/mustgather_controller.go:283-290 | The creation of a Job is reported, and the pass ends well, iff the stored status has `completed`. |
| FirstReport.ComplaintIsStoredIff | controllers/mustgather/mustgather_controller.go:173-213 | A complaint that no failing call gave rise to is stored iff the stored status has `completed`. |
| FirstReport.RunKeepsStatuses | controllers/mustgather/mustgather_controller.go:286-393 | No status without `completed` is ever stored. |
| Outcomes.ReportsAreJustified | controllers/mustgather/mustgather_controller.go:293-393 | What any pass, complete or cut short, leaves as the reported outcome: the one before, a validation failure, or what the verdict on the Job in this pass calls for. |
| Outcomes.OutcomeIsEarned | controllers/mustgather/mustgather_controller.go:297-328 | Whenever a status says that the Job succeeded or failed, an earlier pass of the run over that very resource found a Job of its name that had, and the status has said so since. |
| Outcomes.AnyJobDecides | controllers/mustgather/mustgather_controller.go:191-195 | A complete pass reports how the Job of the resource's name has ended, whoever owns it, and leaves all Jobs and pods alone if the resource is no owner. |
| Outcomes.ReportedOutcomeIsItsOwnIff | controllers/mustgather/mustgather_controller.go:293-312 | A reported outcome is that of the resource's own Job iff the Job found, one of the operator's, listed the resource as an owner. |
| Examples.OutcomeTakenOver | controllers/mustgather/mustgather_controller.go:191-301 | A run in which the retained Job of a deleted resource completes a new one of the same name that never gathers. |
| TrustedCa.OwnersAreAReferenceCount | controllers/mustgather/mustgather_controller.go:565-707 | Over every sequence of calls by any number of instances the copy exists iff somebody holds it, its owners are those whose last call was ensure, each once, and its data is the operator's. |
| TrustedCa.CleanupReleasesIff | controllers/mustgather/mustgather_controller.go:497-519 | Cleanup releases the copy exactly when it finds an owned Job. |
| TrustedCa.HoldIsTaken | controllers/mustgather/mustgather_controller.go:586-648 | A hold is one more owner reference, of kind MustGather, with this name and uid, not a controller; a new copy has the source's labels and data; a hold that is there is left alone. |
| TrustedCa.DeadHoldsAreCollected | controllers/mustgather/mustgather_controller.go:603-610 | A hold whose holder is gone can be collected, and collection drops it and no hold of anybody alive. |
| Examples.HoldOutlivesHolder | controllers/mustgather/mustgather_controller.go:544-557 | A run in which a complete deletion pass lets a resource go and the copy still lists it. |
| CaEvents.ConfigMapEventWakes | controllers/mustgather/mustgather_controller.go:401-403 | A ConfigMap event wakes exactly the controllers before and after it, and only under the trusted CA's name. |
| CaEvents.OperatorCopiesAreUncontrolled | controllers/mustgather/mustgather_controller.go:603-640 | A copy the operator made never has a controller, whatever happens to its owners. |
| CaEvents.CopyWritesWakeNobody | controllers/mustgather/mustgather_controller.go:565-707 | So no write of a pass wakes anybody through a copy that is absent or the operator's. |
| CaEvents.CopyActionsWakeNobody | controllers/mustgather/mustgather_controller.go:401-403 | Nor does garbage collection of such a copy's owners. |
| CaEvents.PlacedCopyWakes | controllers/mustgather/predicates.go:36-51 | A ConfigMap put in the copy's place by a user, with a controller reference, wakes that controller. |
| JobController.VerdictAgreesWithJobController | controllers/mustgather/mustgather_controller.go:293-312 | On every run of the Job controller: Failed iff no retry is left and nothing succeeded, Completed iff a pod succeeded, Running in the gaps between retries. |
| JobController.VerdictIsStable | controllers/mustgather/mustgather_controller.go:293-312 | A verdict is never taken back while the Job remains. |
| JobController.JobRunInv | controllers/mustgather/template.go:267-294 | One pod at a time and at most backoffLimit + 1 of them. |
| Sftp.ValidateSftpWithRetry | controllers/mustgather/validation.go:173-189 | At most three dials; success iff some attempt within the bound succeeds after only transient errors; otherwise which error is returned. |
| Sftp.WrappingKeepsTransience | controllers/mustgather/validation.go:73-84 | Wrapping to any depth neither hides nor makes up a transient error. |
| Sftp.TransienceOverChain | controllers/mustgather/validation.go:73-84 | An error is transient iff its chain holds a missed deadline or a cancellation, or the first error in it that can tell calls it a timeout. |
| Plan.DialSucceedsIff | controllers/mustgather/validation.go:173-189 | The decision of the retry loop is reachability. |
| JobTemplate.GetJobTemplate | controllers/mustgather/template.go:125-204 | Builds the compiled pod. |
| JobTemplate.InitializeJobTemplate | controllers/mustgather/template.go:206-302 | Volumes, account and backoff limit. |
| JobTemplate.GetGatherContainer | controllers/mustgather/template.go:304-387 | Builds the gather container. |
| JobTemplate.GetUploadContainer | controllers/mustgather/template.go:389-548 | Builds the upload container. |
| JobTemplate.GetUploadMounts | controllers/mustgather/template.go:409-460 | Its mounts, in source mode, on a claim and on scratch space. |
| JobTemplate.GetUploadEnv | controllers/mustgather/template.go:462-545 | Its environment. |
| JobTemplate.ReadProxies | controllers/mustgather/template.go:135-149 | Of several settings of a proxy variable the last one counts. |
| TemplateProperties.CompiledPodIsWellFormed | controllers/mustgather/template.go:125-302 | For every admitted spec: at least one container, distinct container, volume and variable names, distinct mount paths, declared volumes, and upload polls iff there is a gather container. |
| TemplateProperties.EmptyPodIff | controllers/mustgather/template.go:179-201 | Exactly which specs would compile to a pod without containers; none of them is admitted. |
| TemplateProperties.UploadEnvDistinct | controllers/mustgather/template.go:462-545 | No variable of the upload container is set twice. |
| TemplateProperties.DataIsShared | controllers/mustgather/template.go:409-423 | Gather and upload see the same volume and sub-path. |
| TemplateProperties.ClaimsAreConfined | controllers/mustgather/template.go:207-225 | At most one volume is backed by a claim; a source claim is read-only. |
| TemplateProperties.SourceIsReadOnly | controllers/mustgather/template.go:413-418 | No container can write to a source claim. |
| TemplateProperties.CleanedBundleIsKept | controllers/mustgather/template.go:425-441 | With obfuscation on, the cleaned output is uploaded with the SFTP variables set or lands on the claim at the gather sub-path. |
| TemplateProperties.CompiledPodSecrets | controllers/mustgather/template.go:472-505 | A compiled pod reads exactly the secret of its SFTP upload. |
| PodMeaning.OutputIsWhereItBelongs | controllers/mustgather/template.go:207-225 | For every admitted spec each container has at /must-gather the source claim read-only iff there is a source, else the storage claim in the run's directory iff there is storage, else scratch space. |
| PodMeaning.UploadWorksWhereItMay | controllers/mustgather/template.go:425-441 | /must-gather-upload is the same directory of the claim iff obfuscation is on, without a source and with storage; else scratch space. |
| PodMeaning.ConfigMapsAreShown | controllers/mustgather/template.go:325-331 | The trusted CA is mounted in each container iff configured, the obfuscation config in upload iff referred to, read-only, at their places. |
| PodMeaning.SftpVariables | controllers/mustgather/template.go:472-505 | Looked up by name: user and password from their own fields of the secret, case, host and internal flag; none of the five without an SFTP upload. |
| PodMeaning.ModeVariables | controllers/mustgather/template.go:462-523 | The directories, the prefix, and the obfuscation variables iff asked for. |
| PodMeaning.ProxiesArePassedOn | controllers/mustgather/template.go:135-149 | Each proxy variable of the upload container is the last setting of the operator's own, iff that is not empty. |
| PodMeaning.UploadKnowsTheLogin | controllers/mustgather/template.go:186-201 | A pod with an SFTP upload has an upload container with the operator's image and the login. |
| PodMeaning.DefaultGatherRuns | controllers/mustgather/template.go:355-368 | Without a custom command: which binary, the timeout rounded up to seconds, chown iff obfuscated here, and the given arguments. |
| PodMeaning.GatherVariables | controllers/mustgather/template.go:370-384 | How far back to look: a positive duration or a time under its own name, and nothing else. |
| PodMeaning.ThreeRetries | controllers/mustgather/template.go:40-40 | A compiled Job fails for good exactly at its fourth failure. |
| Shell.WrappingPreservesMeaning | controllers/mustgather/template.go:339-354 | With or without the wrapper the container runs the same argv first and ends with its status, whatever chown returns. |
| Shell.WrapperLife | controllers/mustgather/constant.go:41-44 | The wrapper runs its arguments, then chown, and exits with the first status. |
| Shell.ZeroArgumentIsNeeded | controllers/mustgather/template.go:344-344 | Without the placeholder for $0 the program name would be lost. |
| Shell.WaitForGather | controllers/mustgather/template.go:53-53 | The counter is the current quiet streak; upload starts exactly at the first five quiet polls in a row. |
| Shell.StartIsFirstQuietPeriod | controllers/mustgather/template.go:53-53 | That point is unique, follows a busy poll or the start, and lies 150 seconds after the streak began. |
| Shell.QuietStreakMeans | controllers/mustgather/template.go:53-53 | A streak of k means that the last k polls were quiet. |
| Naming.GenerateDirectoryName | pkg/mustgatherutil/util.go:43-76 | The dotted name, with and without a cluster id. |
| Naming.DirectoryNameParts | pkg/mustgatherutil/util.go:43-57 | Taken apart at its dots the name is must-gather, local, the suffix if there is one, the time, the draw. |
| Naming.FormatTimeReads | pkg/mustgatherutil/util.go:37-37 | Each field of the time can be read off in its place. |
| Naming.SuffixIsTheEnd | pkg/mustgatherutil/util.go:66-70 | The suffix is the end of the cluster's id, twelve characters or all there are. |
| Naming.DirectoryNameInjective | pkg/mustgatherutil/util.go:43-57 | Names collide only for the same cluster suffix, second and random draw. |
| Naming.FormatTimeInjective | pkg/mustgatherutil/util.go:37-50 | The timestamp layout tells any two seconds apart. |
| Text.PaddedInjective | pkg/mustgatherutil/util.go:73-76 | So does the zero-padded decimal, also when it outgrows its width. |
| Naming.TrimmedBaseIsSafe | api/v1/mustgather_types.go:214-214 | An admitted sub-path, trimmed, is relative and has no '..' component. |
| Naming.TrimmedBaseIs | controllers/mustgather/template.go:73-74 | The base is the sub-path asked for, cut only at its ends and only of white space and slashes. |
| Naming.OutputPathIsContained | controllers/mustgather/template.go:68-77 | The output path is relative, has only proper components and ends in the directory name. |
| Naming.RunsAreIsolated | controllers/mustgather/template.go:68-77 | Two runs on the same storage share a path only if suffix, second and draw coincide. |

## Left out

- Network dialling, SSH and SFTP handshakes, proxy lookup, `normalizeHostAddress`: a dial attempt is a result the pass learns.
- `classifySFTPError`: a table of substrings; only the text it puts in front of an error, which the model keeps arbitrary.
- The admission policy, `main.go`, `k8sutil`, metric registration, generated code, the v1alpha1 types: easy members only.
- The upload script and must-gather-clean: not part of this model.
- The text of the default gather script and its exit status, and the formatting of durations and times: scripts and texts are terms.
- Builtins and functions as wrapped commands: the wrapper is modelled for commands that do not act on the shell that runs them.
- Events, log lines, `LastUpdate` and the transition times of conditions; phases, reasons, messages and the finalizer's name are constructors instead of texts.
- Admission rules on DNS names, on the maximum length of lists and strings, and on durations.
- Two passes at the same time, stale reads and write conflicts: passes are serial and atomic towards the rest of the cluster, though not towards failures.
- A failed write that took effect all the same: a call that fails changes nothing.
- Failing reads of ImageStream and ClusterVersion: they do not end a pass through the failure schedule, so they are part of what a pass learns.
- Reconciler.Reconciler.Reconcile: does not say after which failing calls an error condition is written, because a failing call is not named; it says that at most one is, at the end, and that the reported outcome stays.
- Owners of other kinds than MustGather: the garbage collector takes them as alive; it drops references on ConfigMaps and removes Jobs whose owners are all gone, and nothing else.
- Users changing what the operator made: Jobs of the operator, and the trusted CA copy once it is there. Before it is there, a user may put a ConfigMap of their own in its place.
- Users taking the operator's finalizer off by hand: they may edit the other finalizers, and everything said of a held resource rests on that.
- Deletion of Jobs is immediate, without finalizers or propagation of their own.
- Affinity, tolerations, restart policy and the shared process namespace of the pod: constants.
- The contents of volumes: data routing is stated by volume, path and sub-path.
