/**
  What counts as an error, what a rejection leaves alone, and how far the SFTP server and
  the image registry can influence a pass.
 */
module Failures {
  import opened Api
  import opened JobController
  import opened JobTemplate
  import opened Sftp
  import opened Cluster
  import opened Plan
  import opened Protocol
  import opened Environment
  import opened Runs

  // ---------- rejections ----------

  function ReportAt(c: Cluster, key: Key): Report {
    if key in c.mustGathers then ReportOf(c.mustGathers[key].status) else Report(None, None, None)
  }

  /** Neither Jobs nor pods nor counters are touched. */
  predicate Inert(w: Write) {
    w.SetStatus? || w.CreateConfigMap? || w.SetOwners?
  }

  predicate AllInert(ws: seq<Write>) {
    forall w | w in ws :: Inert(w)
  }

  /** The reason that was there before, or the outcome of a Job. */
  predicate NoNewRejection(prior: Option<Reason>, r: Report) {
    r.reason in [prior, Some(JobSucceeded), Some(JobFailed)]
  }

  /** A new rejection says that the run has failed and is over. */
  predicate RejectsForGood(prior: Option<Reason>, r: Report) {
    NoNewRejection(prior, r) || (r.phase == Some(Failed) && r.completed == Some(true))
  }

  /** Every status that is written has a report of the given kind. */
  predicate AllReport(ws: seq<Write>, kind: Report -> bool) {
    forall w | w in ws && w.SetStatus? :: kind(ReportOf(Some(w.status)))
  }

  lemma JobPlanReports(cfg: Config, c: Cluster, key: Key, mg: MustGather, job: Job)
    ensures var ws, prior := JobPlan(cfg, c, key, mg, job).writes, Base(mg.status).reason;
            AllReport(ws, r => NoNewRejection(prior, r))
  {
  }

  lemma GatherRejectsOrActs(cfg: Config, obs: Obs, pod: PodTemplate, c: Cluster, key: Key, mg: MustGather)
    ensures var ws, prior := GatherPlan(cfg, obs, pod, c, key, mg).writes, Base(mg.status).reason;
            && (AllInert(ws) || AllReport(ws, r => NoNewRejection(prior, r)))
            && AllReport(ws, r => RejectsForGood(prior, r))
  {
    var ws, prior := GatherPlan(cfg, obs, pod, c, key, mg).writes, Base(mg.status).reason;
    if key in c.jobs {
      JobPlanReports(cfg, c, key, mg, c.jobs[key]);
    } else if ws == [] || ws[0].SetStatus? {
      assert AllInert(ws);
    } else {
      assert ws == [CreateJob(key, NewJob(key, mg, pod)), CountGather] + Stored(key, SuccessStatus(mg.status, mg.generation));
    }
  }

  lemma PlanRejectsOrActs(cfg: Config, obs: Obs, pod: PodTemplate, c: Cluster, key: Key)
    ensures var ws, prior := PassPlan(cfg, obs, pod, c, key).writes, ReportAt(c, key).reason;
            && (AllInert(ws) || AllReport(ws, r => NoNewRejection(prior, r)))
            && AllReport(ws, r => RejectsForGood(prior, r))
  {
    if key in c.mustGathers {
      var mg := c.mustGathers[key];
      var ca := CaPlan(cfg, c, key, mg.uid);
      var ws, prior := PassPlan(cfg, obs, pod, c, key).writes, ReportAt(c, key).reason;
      if mg.deleting || !Held(c, key) {
        assert forall w | w in ws :: !w.SetStatus?;
      } else if IsOperatorAccount(cfg, key, mg.spec) || !ca.ok {
        assert AllInert(ws);
      } else {
        var rest := GatherPlan(cfg, obs, pod, ApplyAll(c, ca.writes), key, mg).writes;
        GatherRejectsOrActs(cfg, obs, pod, ApplyAll(c, ca.writes), key, mg);
        assert ws == ca.writes + rest;
        assert AllInert(ca.writes) && forall w | w in ca.writes :: !w.SetStatus?;
      }
    }
  }

  lemma WriteKeepsReport(c: Cluster, key: Key, w: Write, kind: Report -> bool)
    requires key in c.mustGathers ==> kind(ReportAt(c, key))
    requires w.SetStatus? ==> kind(ReportOf(Some(w.status)))
    ensures key in Apply(c, w).mustGathers ==> key in c.mustGathers && kind(ReportAt(Apply(c, w), key))
  {
    if !w.SetStatus? && !w.SetFinalizers? {
      WriteLeavesResources(c, w);
    }
  }

  /** The stored report is the old one or one that was written. */
  lemma {:induction false} ReportIsOldOrWritten(c: Cluster, key: Key, ws: seq<Write>, kind: Report -> bool)
    requires key in c.mustGathers ==> kind(ReportAt(c, key))
    requires AllReport(ws, kind)
    ensures key in ApplyAll(c, ws).mustGathers ==> kind(ReportAt(ApplyAll(c, ws), key))
  {
    if ws != [] {
      var front := ws[..|ws| - 1];
      assert ws[|ws| - 1] in ws && forall w | w in front :: w in ws;
      ReportIsOldOrWritten(c, key, front, kind);
      WriteKeepsReport(ApplyAll(c, front), key, ws[|ws| - 1], kind);
    }
  }

  /** What a plan reports is all that is reported when it is cut short, and all that is stored. */
  lemma CutShortReports(c: Cluster, key: Key, planned: seq<Write>, done: seq<Write>, kind: Report -> bool)
    requires key in c.mustGathers ==> kind(ReportAt(c, key))
    requires AllReport(planned, kind) && CutShort(c, key, planned, done)
    ensures key in ApplyAll(c, done).mustGathers ==> kind(ReportAt(ApplyAll(c, done), key))
  {
    if !(done <= planned) {
      var front := done[..|done| - 1];
      assert AllReport(front, kind);
      ReportIsOldOrWritten(c, key, front, kind);
      assert |front| < |planned| ==> planned[|front|] in planned;
      assert done == front + [done[|done| - 1]];
    }
    ReportIsOldOrWritten(c, key, done, kind);
  }

  lemma WriteIsInert(c: Cluster, w: Write)
    requires Inert(w)
    ensures var c' := Apply(c, w);
            c'.jobs == c.jobs && c'.pods == c.pods && c'.gathers == c.gathers && c'.errors == c.errors
  {
  }

  lemma {:induction false} InertWrites(c: Cluster, ws: seq<Write>)
    requires AllInert(ws)
    ensures var c' := ApplyAll(c, ws);
            c'.jobs == c.jobs && c'.pods == c.pods && c'.gathers == c.gathers && c'.errors == c.errors
  {
    if ws != [] {
      var front := ws[..|ws| - 1];
      assert ws[|ws| - 1] in ws && forall w | w in front :: w in ws;
      InertWrites(c, front);
      WriteIsInert(ApplyAll(c, front), ws[|ws| - 1]);
    }
  }

  lemma RejectionIsInert(c: Cluster, key: Key, planned: seq<Write>, done: seq<Write>, why: Validation)
    requires var prior := ReportAt(c, key).reason;
             && (AllInert(planned) || AllReport(planned, r => NoNewRejection(prior, r)))
             && AllReport(planned, r => RejectsForGood(prior, r))
    requires CutShort(c, key, planned, done)
    requires ReportAt(c, key).reason != Some(Invalid(why)) && ReportAt(ApplyAll(c, done), key).reason == Some(Invalid(why))
    ensures AllInert(done)
    ensures ReportAt(ApplyAll(c, done), key) == Report(Some(Failed), Some(true), Some(Invalid(why)))
  {
    var prior := ReportAt(c, key).reason;
    CutShortReports(c, key, planned, done, r => RejectsForGood(prior, r));
    if AllReport(planned, r => NoNewRejection(prior, r)) {
      CutShortReports(c, key, planned, done, r => NoNewRejection(prior, r));
    } else if !(done <= planned) {
      assert done == done[..|done| - 1] + [done[|done| - 1]];
    }
  }

  /**
    A pass that comes to reject its resource, with a validation failure that was not in
    the status before, reports it as failed and completed, and touches no Job, no pod
    and neither counter.
   */
  lemma RejectionTouchesNothing(cfg: Config, c: Cluster, l: Label, why: Validation)
    requires IsCut(cfg, c, l)
    requires ReportAt(c, l.key).reason != Some(Invalid(why)) && ReportAt(ApplyAll(c, l.done), l.key).reason == Some(Invalid(why))
    ensures var c' := ApplyAll(c, l.done);
            && c'.jobs == c.jobs && c'.pods == c.pods && c'.gathers == c.gathers && c'.errors == c.errors
            && ReportAt(c', l.key) == Report(Some(Failed), Some(true), Some(Invalid(why)))
  {
    var pod := PodFor(cfg, l.obs, c, l.key);
    PlanRejectsOrActs(cfg, l.obs, pod, c, l.key);
    RejectionIsInert(c, l.key, PassPlan(cfg, l.obs, pod, c, l.key).writes, l.done, why);
    InertWrites(c, l.done);
  }

  // ---------- the SFTP server ----------

  /** Everything a pass learns is the same, but perhaps how dialling went. */
  ghost predicate DifferOnlyInDialling(a: Obs, b: Obs) {
    a == b.(dial := a.dial)
  }

  lemma CredentialsDependOnReachability(a: Obs, b: Obs, c: Cluster, key: Key, spec: Spec)
    requires forall user, password, host :: Reachable(a.dial(user, password, host)) <==> Reachable(b.dial(user, password, host))
    ensures CheckCredentials(a, c, key, spec) == CheckCredentials(b, c, key, spec)
  {
    if SecretToCheck(spec).Some? && Key(key.ns, SecretToCheck(spec).value) in c.secrets {
      var secret := c.secrets[Key(key.ns, SecretToCheck(spec).value)];
      var user, password, host := Field(secret, "username"), Field(secret, "password"), Deref(spec.upload.value.sftp.value.host);
      DialSucceedsIff(a.dial(user, password, host));
      DialSucceedsIff(b.dial(user, password, host));
      assert Reachable(a.dial(user, password, host)) <==> Reachable(b.dial(user, password, host));
    }
  }

  /**
    Only whether the server can be reached matters to a pass: which errors it answered
    with, how many and in which order, leaves no trace in what is written.
   */
  lemma OnlyReachabilityMatters(cfg: Config, a: Obs, b: Obs, c: Cluster, key: Key)
    requires DifferOnlyInDialling(a, b)
    requires forall user, password, host :: Reachable(a.dial(user, password, host)) <==> Reachable(b.dial(user, password, host))
    ensures PassPlan(cfg, a, PodFor(cfg, a, c, key), c, key) == PassPlan(cfg, b, PodFor(cfg, b, c, key), c, key)
  {
    var pod := PodFor(cfg, a, c, key);
    assert pod == PodFor(cfg, b, c, key);
    if key in c.mustGathers {
      var mg := c.mustGathers[key];
      var c1 := ApplyAll(c, CaPlan(cfg, c, key, mg.uid).writes);
      CredentialsDependOnReachability(a, b, c1, key, mg.spec);
      assert ResolveImage(cfg, a, c1, mg.spec) == ResolveImage(cfg, b, c1, mg.spec);
      assert CreatePlan(cfg, a, pod, c1, key, mg) == CreatePlan(cfg, b, pod, c1, key, mg);
    }
  }

  // ---------- the image stream ----------

  /** No usable image: the stream cannot be read, or its first tag of that name has nothing to pull. */
  lemma {:induction false} NoImageIff(tags: seq<Tag>, wanted: string)
    ensures FromTags(tags, wanted).NoImage?
            <==> forall j | 0 <= j < |tags| ::
                   tags[j].name == wanted && (forall m | 0 <= m < j :: tags[m].name != wanted)
                   ==> tags[j].items == [] || tags[j].items[0] == ""
  {
    if tags != [] {
      NoImageIff(tags[1..], wanted);
      if tags[0].name != wanted {
        assert forall j | 0 < j < |tags| :: tags[j] == tags[1..][j - 1];
        assert forall j | 0 <= j < |tags| - 1 :: tags[1..][j] == tags[j + 1];
      }
    }
  }

  /** A pass from this cluster would create a Job if everything it asks for is in order. */
  predicate CreatesJob(cfg: Config, obs: Obs, c: Cluster, key: Key) {
    && Held(c, key) && !c.mustGathers[key].deleting
    && ReachesJob(cfg, c, key, c.mustGathers[key]) && key !in c.jobs
    && exists w | w in PassPlan(cfg, obs, PodFor(cfg, obs, c, key), c, key).writes :: w.CreateJob?
  }

  lemma PassReachesCreation(cfg: Config, obs: Obs, pod: PodTemplate, c: Cluster, key: Key)
    requires Held(c, key) && !c.mustGathers[key].deleting
    requires ReachesJob(cfg, c, key, c.mustGathers[key]) && key !in c.jobs
    ensures var mg := c.mustGathers[key]; var ca := CaPlan(cfg, c, key, mg.uid);
            PassPlan(cfg, obs, pod, c, key) == Then(ca.writes, CreatePlan(cfg, obs, pod, ApplyAll(c, ca.writes), key, mg))
  {
    var mg := c.mustGathers[key];
    ConfigAfterCa(cfg, c, key, mg.uid, ConfigRef(mg.spec.obfuscate));
    CaFrame(cfg, c, key, mg.uid, CaPlan(cfg, c, key, mg.uid).writes);
  }

  lemma UnreadableStreamRejects(cfg: Config, obs: Obs, pod: PodTemplate, c: Cluster, key: Key, mg: MustGather)
    requires obs.imageStreamUnavailable && mg.spec.imageStream.Some?
    ensures CreatePlan(cfg, obs, pod, c, key, mg) == Rejection(key, mg, ImageInvalid(StreamUnavailable))
  {
  }

  lemma StreamDoesNotMatter(cfg: Config, obs: Obs, pod: PodTemplate, c: Cluster, key: Key, mg: MustGather, unavailable: bool)
    requires mg.spec.imageStream.None?
    ensures CreatePlan(cfg, obs, pod, c, key, mg) == CreatePlan(cfg, obs.(imageStreamUnavailable := unavailable), pod, c, key, mg)
  {
    assert CheckCredentials(obs, c, key, mg.spec) == CheckCredentials(obs.(imageStreamUnavailable := unavailable), c, key, mg.spec);
  }

  /**
    A passing trouble with the image stream is final. Whenever a pass would create a Job,
    the same pass with the stream unreadable at that moment does exactly the same if the
    resource names no stream; if it does name one, the pass creates no Job and ends
    without an error, so that nothing retries it, having declared the resource failed
    and completed.
   */
  lemma UnreadableStreamIsFinal(cfg: Config, obs: Obs, c: Cluster, key: Key)
    requires CreatesJob(cfg, obs, c, key)
    ensures var mg := c.mustGathers[key]; var bad := obs.(imageStreamUnavailable := true);
            var plan := PassPlan(cfg, bad, PodFor(cfg, bad, c, key), c, key);
            plan == if mg.spec.imageStream.None? then PassPlan(cfg, obs, PodFor(cfg, obs, c, key), c, key)
                    else Then(CaPlan(cfg, c, key, mg.uid).writes, Rejection(key, mg, ImageInvalid(StreamUnavailable)))
  {
    var mg := c.mustGathers[key];
    var bad := obs.(imageStreamUnavailable := true);
    var c1 := ApplyAll(c, CaPlan(cfg, c, key, mg.uid).writes);
    var pod, badPod := PodFor(cfg, obs, c, key), PodFor(cfg, bad, c, key);
    PassReachesCreation(cfg, obs, pod, c, key);
    PassReachesCreation(cfg, bad, badPod, c, key);
    if mg.spec.imageStream.Some? {
      UnreadableStreamRejects(cfg, bad, badPod, c1, key, mg);
    } else {
      assert pod == badPod;
      StreamDoesNotMatter(cfg, obs, pod, c1, key, mg, true);
    }
  }

  // ---------- temporary troubles ----------

  /** Everything a pass learns is the same, but perhaps the two reads of things that may be down for a while. */
  ghost predicate DifferOnlyInReads(a: Obs, b: Obs) {
    a == b.(imageStreamUnavailable := a.imageStreamUnavailable, dial := a.dial)
  }

  predicate StreamTrouble(obs: Obs, spec: Spec) {
    spec.imageStream.Some? && obs.imageStreamUnavailable
  }

  /** There is a secret to check, and no attempt within the bound succeeds after only transient errors. */
  ghost predicate ServerTrouble(obs: Obs, c: Cluster, key: Key, spec: Spec) {
    && SecretToCheck(spec).Some? && Key(key.ns, SecretToCheck(spec).value) in c.secrets
    && var secret := c.secrets[Key(key.ns, SecretToCheck(spec).value)];
       !Reachable(obs.dial(Field(secret, "username"), Field(secret, "password"), Deref(spec.upload.value.sftp.value.host)))
  }

  /** Errors that are all transient, as many as there are attempts, make a server unreachable too. */
  lemma TransientErrorsExhaust(dial: Dial)
    requires forall n: nat | n < MAX_RETRIES :: dial(n).Some? && IsTransientError(dial(n).value)
    ensures !Reachable(dial)
  {
  }

  lemma CreationUnderTrouble(cfg: Config, obs: Obs, bad: Obs, pod: PodTemplate, badPod: PodTemplate, c: Cluster, key: Key, mg: MustGather)
    requires DifferOnlyInReads(bad, obs)
    requires exists w | w in CreatePlan(cfg, obs, pod, c, key, mg).writes :: w.CreateJob?
    ensures !StreamTrouble(bad, mg.spec) ==> ResolveImage(cfg, bad, c, mg.spec) == ResolveImage(cfg, obs, c, mg.spec)
    ensures CreatePlan(cfg, bad, badPod, c, key, mg)
            == if StreamTrouble(bad, mg.spec) then Rejection(key, mg, ImageInvalid(StreamUnavailable))
               else if ServerTrouble(bad, c, key, mg.spec) then Rejection(key, mg, SftpUnreachable)
               else CreatePlan(cfg, obs, badPod, c, key, mg)
  {
    if SecretToCheck(mg.spec).Some? && Key(key.ns, SecretToCheck(mg.spec).value) in c.secrets {
      var secret := c.secrets[Key(key.ns, SecretToCheck(mg.spec).value)];
      DialSucceedsIff(bad.dial(Field(secret, "username"), Field(secret, "password"), Deref(mg.spec.upload.value.sftp.value.host)));
    }
  }

  lemma NoStreamTroubleSamePod(cfg: Config, obs: Obs, bad: Obs, c: Cluster, c1: Cluster, key: Key)
    requires DifferOnlyInReads(bad, obs) && key in c.mustGathers && c1.imageStreams == c.imageStreams
    requires ResolveImage(cfg, bad, c1, c.mustGathers[key].spec) == ResolveImage(cfg, obs, c1, c.mustGathers[key].spec)
    ensures PodFor(cfg, bad, c, key) == PodFor(cfg, obs, c, key)
  {
  }

  /**
    Exactly when a temporary trouble is final. Take any pass that would create a Job, and
    the same pass with the image stream and the server as they happen to be at another
    moment. If the resource names a stream that cannot be read, or has a secret to check
    and the server cannot be reached within the bound, though it may only have timed out,
    the resource is declared failed and completed and the pass ends without an error, so
    that nothing retries it. In every other case the pass does exactly the same.
   */
  lemma TemporaryTroubleIsFinal(cfg: Config, obs: Obs, bad: Obs, c: Cluster, key: Key)
    requires CreatesJob(cfg, obs, c, key) && DifferOnlyInReads(bad, obs)
    ensures var mg := c.mustGathers[key];
            PassPlan(cfg, bad, PodFor(cfg, bad, c, key), c, key)
            == if StreamTrouble(bad, mg.spec) then
                 Then(CaPlan(cfg, c, key, mg.uid).writes, Rejection(key, mg, ImageInvalid(StreamUnavailable)))
               else if ServerTrouble(bad, c, key, mg.spec) then
                 Then(CaPlan(cfg, c, key, mg.uid).writes, Rejection(key, mg, SftpUnreachable))
               else PassPlan(cfg, obs, PodFor(cfg, obs, c, key), c, key)
  {
    var mg := c.mustGathers[key];
    var ca := CaPlan(cfg, c, key, mg.uid).writes;
    var c1 := ApplyAll(c, ca);
    var pod, badPod := PodFor(cfg, obs, c, key), PodFor(cfg, bad, c, key);
    PassReachesCreation(cfg, obs, pod, c, key);
    PassReachesCreation(cfg, bad, badPod, c, key);
    CaFrame(cfg, c, key, mg.uid, ca);
    CreationWithin(cfg, obs, pod, c, key);
    CreationUnderTrouble(cfg, obs, bad, pod, badPod, c1, key, mg);
    if !StreamTrouble(bad, mg.spec) {
      NoStreamTroubleSamePod(cfg, obs, bad, c, c1, key);
    }
  }

  lemma CreationWithin(cfg: Config, obs: Obs, pod: PodTemplate, c: Cluster, key: Key)
    requires CreatesJob(cfg, obs, c, key) && pod == PodFor(cfg, obs, c, key)
    ensures var mg := c.mustGathers[key];
            exists w | w in CreatePlan(cfg, obs, pod, ApplyAll(c, CaPlan(cfg, c, key, mg.uid).writes), key, mg).writes :: w.CreateJob?
  {
    var mg := c.mustGathers[key];
    var ca := CaPlan(cfg, c, key, mg.uid).writes;
    PassReachesCreation(cfg, obs, pod, c, key);
    CreationBehind(ca, CreatePlan(cfg, obs, pod, ApplyAll(c, ca), key, mg).writes);
  }

  lemma CreationBehind(ca: seq<Write>, rest: seq<Write>)
    requires (forall w | w in ca :: !w.CreateJob?) && exists w | w in ca + rest :: w.CreateJob?
    ensures exists w | w in rest :: w.CreateJob?
  {
  }

  // ---------- examples ----------

  /** A resource in need of nothing but its account. */
  function PlainSpec(): Spec {
    Spec("sa", None, None, None, None, None, None, None)
  }

  function ExampleCluster(spec: Spec, secrets: map<Key, map<string, string>>, imageStreams: map<Key, seq<Tag>>): Cluster {
    Cluster(map[Key("ns", "run") := MustGather(0, 1, false, [OperatorFinalizer], spec, None)], map[], [], map[], secrets,
            map[Key("ns", "sa") := ()], imageStreams, 1, 0, 0, 0, 0)
  }

  lemma ExampleCreates(cfg: Config, obs: Obs, c: Cluster, spec: Spec, secrets: map<Key, map<string, string>>, imageStreams: map<Key, seq<Tag>>)
    requires cfg == Config("", "operator", "default", "operator-sa") && c == ExampleCluster(spec, secrets, imageStreams)
    requires obs.operatorImage.Some? && spec.serviceAccount == "sa" && spec.obfuscate.None?
    requires ResolveImage(cfg, obs, c, spec).Image? && CheckCredentials(obs, c, Key("ns", "run"), spec) in [NotNeeded, Accepted]
    ensures CreatesJob(cfg, obs, c, Key("ns", "run"))
  {
    var key := Key("ns", "run");
    var pod := PodFor(cfg, obs, c, key);
    assert ApplyAll(c, []) == c;
    PassReachesCreation(cfg, obs, pod, c, key);
    assert CreatePlan(cfg, obs, pod, c, key, c.mustGathers[key]).writes[0].CreateJob?;
  }

  /** An admitted resource that names a stream, in a cluster where all is well: unread for a moment, the stream fails it for good. */
  lemma UnreadableStreamExample(obs: Obs) returns (cfg: Config, c: Cluster, key: Key)
    requires obs.operatorImage.Some? && !obs.imageStreamUnavailable
    ensures CreatesJob(cfg, obs, c, key) && Admitted(c.mustGathers[key].spec)
    ensures StreamTrouble(obs.(imageStreamUnavailable := true), c.mustGathers[key].spec)
  {
    key := Key("ns", "run");
    cfg := Config("", "operator", "default", "operator-sa");
    var tags := [Tag("latest", ["registry/custom"])];
    var spec := PlainSpec().(imageStream := Some(ImageStreamTagRef("custom", "latest")));
    var streams := map[Key("operator", "custom") := tags];
    c := ExampleCluster(spec, map[], streams);
    assert FromTags(tags, "latest") == Image("registry/custom");
    ExampleCreates(cfg, obs, c, spec, map[], streams);
  }

  /** An admitted resource with an SFTP upload, and a server that answers now but timed out three times before. */
  lemma ThreeTimeoutsExample(obs: Obs) returns (cfg: Config, c: Cluster, key: Key, good: Dial, bad: Dial)
    requires obs.operatorImage.Some?
    ensures CreatesJob(cfg, obs.(dial := (user, password, host) => good), c, key) && Admitted(c.mustGathers[key].spec)
    ensures IsTransientError(DeadlineExceeded) && forall n: nat :: bad(n) == Some(DeadlineExceeded)
    ensures ServerTrouble(obs.(dial := (user, password, host) => bad), c, key, c.mustGathers[key].spec)
  {
    key := Key("ns", "run");
    cfg := Config("", "operator", "default", "operator-sa");
    var spec := PlainSpec().(upload := Some(UploadTarget(UPLOAD_TYPE_SFTP, Some(SftpSpec("case", "login", None, None)))));
    var secret := map["username" := "user", "password" := "word"];
    var secrets := map[Key("ns", "login") := secret];
    c := ExampleCluster(spec, secrets, map[]);
    good, bad := (n: nat) => None, (n: nat) => Some(DeadlineExceeded);
    assert forall n: nat :: bad(n) == Some(DeadlineExceeded);
    TransientErrorsExhaust(bad);
    GoodCredentials(obs.(dial := (user, password, host) => good), c, key, spec, "login");
    ExampleCreates(cfg, obs.(dial := (user, password, host) => good), c, spec, secrets, map[]);
  }

  lemma GoodCredentials(obs: Obs, c: Cluster, key: Key, spec: Spec, name: string)
    requires SecretToCheck(spec) == Some(name) && Key(key.ns, name) in c.secrets
    requires c.secrets[Key(key.ns, name)] == map["username" := "user", "password" := "word"]
    requires obs.dial("user", "word", Deref(spec.upload.value.sftp.value.host))(0).None?
    ensures CheckCredentials(obs, c, key, spec) == Accepted
  {
  }
}
