/**
  What has been established when a Job is created, and what the Job then is.
 */
module Gate {
  import opened Api
  import Naming
  import opened JobTemplate
  import opened Sftp
  import opened Cluster
  import opened Plan
  import opened Protocol
  import opened Invariants
  import opened Environment
  import opened Runs
  import opened Theorems
  import Text
  import PodMeaning
  import TemplateProperties

  /** The secret holds usable credentials, and the server accepted them in this pass. */
  ghost predicate VettedSecret(obs: Obs, c: Cluster, ns: string, secret: string, host: string) {
    && Key(ns, secret) in c.secrets
    && var data := c.secrets[Key(ns, secret)];
       && "username" in data && data["username"] != "" && "password" in data && data["password"] != ""
       && Reachable(obs.dial(data["username"], data["password"], host))
  }

  lemma {:induction false} FromTagsFinds(tags: seq<Tag>, wanted: string)
    requires FromTags(tags, wanted).Image?
    ensures exists j: nat | FirstPullable(tags, wanted, j) :: FromTags(tags, wanted) == Image(tags[j].items[0])
  {
    if tags[0].name == wanted {
      assert FirstPullable(tags, wanted, 0);
    } else {
      FromTagsFinds(tags[1..], wanted);
      var j: nat :| FirstPullable(tags[1..], wanted, j) && FromTags(tags[1..], wanted) == Image(tags[1..][j].items[0]);
      assert tags[j + 1] == tags[1..][j];
      forall m | 0 <= m < j + 1 ensures tags[m].name != wanted {
        assert m > 0 ==> tags[m] == tags[1..][m - 1];
      }
      assert FirstPullable(tags, wanted, j + 1);
    }
  }

  /** What CheckCredentials accepts, in terms of the secret and the server. */
  lemma AcceptedMeansVetted(obs: Obs, c: Cluster, key: Key, spec: Spec)
    requires CheckCredentials(obs, c, key, spec) == Accepted
    ensures SecretToCheck(spec).Some? && spec.upload.Some? && spec.upload.value.sftp.Some?
    ensures VettedSecret(obs, c, key.ns, SecretToCheck(spec).value, Deref(spec.upload.value.sftp.value.host))
  {
    var data := c.secrets[Key(key.ns, SecretToCheck(spec).value)];
    DialSucceedsIff(obs.dial(Field(data, "username"), Field(data, "password"), Deref(spec.upload.value.sftp.value.host)));
  }

  /** The checks before creation cover whatever the compiled pod will read. */
  lemma CompiledSecretsAreVetted(cfg: Config, obs: Obs, c: Cluster, key: Key, spec: Spec, image: string, operatorImage: string, dir: string,
                                 proxies: Proxies, secret: string)
    requires CheckCredentials(obs, c, key, spec) in [NotNeeded, Accepted]
    requires TemplateProperties.ReadsSecret(CompilePod(image, operatorImage, spec, cfg.trustedCa, dir, proxies), secret)
    ensures SecretToCheck(spec) == Some(secret)
    ensures VettedSecret(obs, c, key.ns, secret, Deref(spec.upload.value.sftp.value.host))
  {
    TemplateProperties.CompiledPodSecrets(image, operatorImage, spec, cfg.trustedCa, dir, proxies, secret);
    AcceptedMeansVetted(obs, c, key, spec);
  }

  /** For an admitted spec, the secret checked and the secret the pod reads are the same one. */
  lemma CheckedIsWhatIsRead(cfg: Config, spec: Spec, image: string, operatorImage: string, dir: string, proxies: Proxies, secret: string)
    requires Admitted(spec)
    ensures TemplateProperties.ReadsSecret(CompilePod(image, operatorImage, spec, cfg.trustedCa, dir, proxies), secret)
            <==> SecretToCheck(spec) == Some(secret)
  {
    TemplateProperties.CompiledPodSecrets(image, operatorImage, spec, cfg.trustedCa, dir, proxies, secret);
  }

  /**
    Creation gate: when a pass creates a Job, the resource has the finalizer and is not
    being deleted, no Job has its name, it does not run as the operator, its
    ServiceAccount and its obfuscation ConfigMap exist, its trusted CA copy is held, and
    its gather container runs the default image or, if a stream is named, the newest item
    of the first tag of that name.
   */
  lemma JobsAreGated(cfg: Config, states: seq<System>, labels: seq<Label>, i: nat, n: nat)
    requires Run(cfg, states, labels) && i < |labels| && labels[i].Writes() && n < |labels[i].done| && labels[i].done[n].CreateJob?
    ensures var c, l := At(states, labels, i, n), labels[i];
            && l.done[n].key == l.key && Held(c, l.key) && l.key !in c.jobs
            && var spec := c.mustGathers[l.key].spec;
               && !c.mustGathers[l.key].deleting && !IsOperatorAccount(cfg, l.key, spec)
               && Key(l.key.ns, spec.serviceAccount) in c.serviceAccounts
               && (ConfigRef(spec.obfuscate) != "" ==> Key(l.key.ns, ConfigRef(spec.obfuscate)) in c.configMaps)
               && (NeedsCa(cfg, l.key.ns) ==> HoldsCa(cfg, c, l.key.ns, c.mustGathers[l.key].uid))
               && GathersWithAllowedImage(cfg, c, spec, l.done[n].job.pod)
  {
    CreatedPodIsCompiled(cfg, states, labels, i, n);
    var c, l := At(states, labels, i, n), labels[i];
    var spec := c.mustGathers[l.key].spec;
    var ref := ResolveImage(cfg, l.obs, c, spec).ref;
    CompiledPodGathersWith(cfg, ref, l.obs.operatorImage.value, spec, DirectoryFor(l.obs), ProxiesFrom(l.obs.proxyVars));
    if spec.imageStream.Some? {
      FromTagsFinds(c.imageStreams[Key(cfg.namespace, spec.imageStream.value.name)], spec.imageStream.value.tag);
    }
  }

  ghost predicate GathersWith(pod: PodTemplate, image: string) {
    forall container | container in pod.containers && container.name == GATHER :: container.image == image
  }

  /** The first tag of that name, and something to pull behind it. */
  ghost predicate FirstPullable(tags: seq<Tag>, wanted: string, j: nat) {
    && j < |tags| && tags[j].name == wanted && (forall m | 0 <= m < j :: tags[m].name != wanted)
    && tags[j].items != [] && tags[j].items[0] != ""
  }

  ghost predicate GathersWithAllowedImage(cfg: Config, c: Cluster, spec: Spec, pod: PodTemplate) {
    if spec.imageStream.None? then GathersWith(pod, cfg.defaultImage)
    else
      var at := Key(cfg.namespace, spec.imageStream.value.name);
      && at in c.imageStreams
      && exists j: nat | FirstPullable(c.imageStreams[at], spec.imageStream.value.tag, j) :: GathersWith(pod, c.imageStreams[at][j].items[0])
  }

  lemma CompiledPodGathersWith(cfg: Config, image: string, operatorImage: string, spec: Spec, dir: string, proxies: Proxies)
    ensures GathersWith(CompilePod(image, operatorImage, spec, cfg.trustedCa, dir, proxies), image)
  {
  }

  /** A pass changes neither the spec nor the streams its pod is compiled from. */
  lemma {:induction false} InputsDoNotChange(cfg: Config, obs: Obs, pod: PodTemplate, c: Cluster, key: Key, ws: seq<Write>)
    requires Legal(cfg, obs, pod, c, key, ws)
    ensures var c' := ApplyAll(c, ws);
            && c'.imageStreams == c.imageStreams
            && (key in c'.mustGathers ==> key in c.mustGathers && c'.mustGathers[key].spec == c.mustGathers[key].spec)
  {
    if ws != [] {
      InputsDoNotChange(cfg, obs, pod, c, key, ws[..|ws| - 1]);
      WriteKeepsInputs(cfg, obs, pod, ApplyAll(c, ws[..|ws| - 1]), key, ws[|ws| - 1]);
    }
  }

  lemma WriteKeepsInputs(cfg: Config, obs: Obs, pod: PodTemplate, c: Cluster, key: Key, w: Write)
    requires Enabled(cfg, obs, pod, c, key, w)
    ensures var c' := Apply(c, w);
            && c'.imageStreams == c.imageStreams
            && (key in c'.mustGathers ==> key in c.mustGathers && c'.mustGathers[key].spec == c.mustGathers[key].spec)
  {
    WriteKeepsStreams(c, w);
    if w.SetFinalizers? {
      FinalizersChange(c, key, w.finalizers);
    } else if !w.SetStatus? {
      WriteLeavesResources(c, w);
    }
  }

  lemma WriteKeepsStreams(c: Cluster, w: Write)
    ensures Apply(c, w).imageStreams == c.imageStreams
  {
  }

  /** The pod of a created Job is compiled from the spec stored at that moment and the image resolved at that moment. */
  lemma CreatedPodIsCompiled(cfg: Config, states: seq<System>, labels: seq<Label>, i: nat, n: nat)
    requires Run(cfg, states, labels) && i < |labels| && labels[i].Writes() && n < |labels[i].done| && labels[i].done[n].CreateJob?
    ensures var c, l := At(states, labels, i, n), labels[i];
            && l.done[n].key == l.key
            && CreationGate(cfg, l.obs, l.done[n].job.pod, c, l.key, l.done[n].job)
            && l.done[n].job.pod == CompilePod(ResolveImage(cfg, l.obs, c, c.mustGathers[l.key].spec).ref, l.obs.operatorImage.value,
                                               c.mustGathers[l.key].spec, cfg.trustedCa, DirectoryFor(l.obs), ProxiesFrom(l.obs.proxyVars))
  {
    WriteIsEnabled(cfg, states, labels, i, n);
    var c, l, c0 := At(states, labels, i, n), labels[i], states[i].c;
    var pod := PodFor(cfg, l.obs, c0, l.key);
    assert StepAt(cfg, states, labels, i);
    StepIsLegal(cfg, states[i], l, states[i + 1]);
    LegalPrefix(cfg, l.obs, pod, c0, l.key, l.done, n);
    InputsDoNotChange(cfg, l.obs, pod, c0, l.key, l.done[..n]);
    assert l.done[..0] == [];
  }

  function DirectoryFor(obs: Obs): string {
    Naming.DirectoryName(Naming.ClusterIdSuffix(obs.clusterId), obs.now, obs.draw)
  }

  /**
    Every secret the pod of a created Job reads was, in the same pass, found in its
    namespace with a user name and a password, and accepted by the server it is for.
   */
  lemma CreatedJobsReadVettedSecrets(cfg: Config, states: seq<System>, labels: seq<Label>, i: nat, n: nat, secret: string)
    requires Run(cfg, states, labels) && i < |labels| && labels[i].Writes() && n < |labels[i].done| && labels[i].done[n].CreateJob?
    requires TemplateProperties.ReadsSecret(labels[i].done[n].job.pod, secret)
    ensures var c, l := At(states, labels, i, n), labels[i];
            && l.key in c.mustGathers
            && var spec := c.mustGathers[l.key].spec;
               && spec.upload.Some? && spec.upload.value.sftp.Some? && spec.upload.value.sftp.value.secret == secret
               && VettedSecret(l.obs, c, l.key.ns, secret, Deref(spec.upload.value.sftp.value.host))
  {
    CreatedPodIsCompiled(cfg, states, labels, i, n);
    var c, l := At(states, labels, i, n), labels[i];
    var spec := c.mustGathers[l.key].spec;
    CompiledSecretsAreVetted(cfg, l.obs, c, l.key, spec, ResolveImage(cfg, l.obs, c, spec).ref, l.obs.operatorImage.value,
                             DirectoryFor(l.obs), ProxiesFrom(l.obs.proxyVars), secret);
  }

  /** What a container finds in a variable, the secrets being as they are. */
  function TextOf(c: Cluster, ns: string, value: Option<EnvValue>): Option<string> {
    match value
    case Some(Literal(text)) => Some(text)
    case Some(SecretField(secret, field)) =>
      if Key(ns, secret) in c.secrets && field in c.secrets[Key(ns, secret)] then Some(c.secrets[Key(ns, secret)][field]) else None
    case _ => None
  }

  /** The login in an environment is one the server took in this pass. */
  ghost predicate LoginWorks(obs: Obs, c: Cluster, ns: string, env: seq<EnvVar>) {
    var user := TextOf(c, ns, TemplateProperties.Lookup(env, "username"));
    var password := TextOf(c, ns, TemplateProperties.Lookup(env, "password"));
    var host := TextOf(c, ns, TemplateProperties.Lookup(env, "host"));
    && user.Some? && user.value != "" && password.Some? && password.value != "" && host.Some?
    && Reachable(obs.dial(user.value, password.value, host.value))
  }

  lemma VettedLoginWorks(obs: Obs, c: Cluster, ns: string, env: seq<EnvVar>, sftp: SftpSpec)
    requires TemplateProperties.HasSftpEnv(env, sftp) && VettedSecret(obs, c, ns, sftp.secret, Deref(sftp.host))
    ensures LoginWorks(obs, c, ns, env)
  {
  }

  /**
    A created Job that uploads by SFTP logs in as the pass has: in the same pass, the
    server named by the container's environment took the user and the password that
    environment stands for.
   */
  lemma JobsLogInAsDialled(cfg: Config, states: seq<System>, labels: seq<Label>, i: nat, n: nat)
    requires Run(cfg, states, labels) && i < |labels| && labels[i].Writes() && n < |labels[i].done| && labels[i].done[n].CreateJob?
    requires var c := At(states, labels, i, n); labels[i].key in c.mustGathers && PodMeaning.UploadsBySftp(c.mustGathers[labels[i].key].spec)
    ensures var c, l := At(states, labels, i, n), labels[i]; var pod := l.done[n].job.pod;
            && TemplateProperties.HasContainer(pod, UPLOAD)
            && forall container | container in pod.containers && container.name == UPLOAD :: LoginWorks(l.obs, c, l.key.ns, container.env)
  {
    CreatedPodIsCompiled(cfg, states, labels, i, n);
    var c, l := At(states, labels, i, n), labels[i];
    var spec := c.mustGathers[l.key].spec;
    var image := ResolveImage(cfg, l.obs, c, spec).ref;
    PodMeaning.UploadKnowsTheLogin(image, l.obs.operatorImage.value, spec, cfg.trustedCa, DirectoryFor(l.obs), ProxiesFrom(l.obs.proxyVars));
    AcceptedMeansVetted(l.obs, c, l.key, spec);
    forall container | container in l.done[n].job.pod.containers && container.name == UPLOAD
      ensures LoginWorks(l.obs, c, l.key.ns, container.env)
    {
      VettedLoginWorks(l.obs, c, l.key.ns, container.env, spec.upload.value.sftp.value);
    }
  }

  // ---------- what admission adds ----------

  /** Specs never change, so what was admitted stays admitted. */
  ghost predicate SpecsAdmitted(c: Cluster) {
    forall k | k in c.mustGathers :: Admitted(c.mustGathers[k].spec)
  }

  lemma WriteKeepsSpecs(c: Cluster, w: Write)
    requires SpecsAdmitted(c)
    ensures SpecsAdmitted(Apply(c, w))
  {
    if !w.SetFinalizers? && !w.SetStatus? {
      WriteLeavesResources(c, w);
    }
  }

  lemma {:induction false} WritesKeepSpecs(c: Cluster, ws: seq<Write>)
    requires SpecsAdmitted(c)
    ensures SpecsAdmitted(ApplyAll(c, ws))
  {
    if ws != [] {
      WritesKeepSpecs(c, ws[..|ws| - 1]);
      WriteKeepsSpecs(ApplyAll(c, ws[..|ws| - 1]), ws[|ws| - 1]);
    }
  }

  lemma ActionKeepsSpecs(cfg: Config, c: Cluster, a: Action)
    requires SpecsAdmitted(c) && Allowed(cfg, c, a)
    ensures SpecsAdmitted(Perform(c, a))
  {
    ActionFrame(c, a);
    if a.MarkDeleted? {
      MarkedFrame(c, a.key);
    } else if a.EditFinalizers? {
      FinalizersChange(c, a.key, a.finalizers);
    }
  }

  lemma {:induction false} RunKeepsSpecs(cfg: Config, states: seq<System>, labels: seq<Label>, i: nat)
    requires Run(cfg, states, labels) && i < |states|
    ensures SpecsAdmitted(states[i].c)
  {
    if i > 0 {
      RunKeepsSpecs(cfg, states, labels, i - 1);
      assert StepAt(cfg, states, labels, i - 1);
      StepKeepsSpecs(cfg, states[i - 1], labels[i - 1], states[i]);
    }
  }

  lemma StepKeepsSpecs(cfg: Config, s: System, l: Label, s': System)
    requires SpecsAdmitted(s.c) && Step(cfg, s, l, s')
    ensures SpecsAdmitted(s'.c)
  {
    if l.Writes() {
      WritesKeepSpecs(s.c, l.done);
    } else if l.Act? {
      ActionKeepsSpecs(cfg, s.c, l.action);
    }
  }

  lemma StepKeepsSpecOf(cfg: Config, s: System, l: Label, s': System, k: Key)
    requires Step(cfg, s, l, s') && k in s'.c.mustGathers && s'.c.mustGathers[k].uid < s.c.nextUid
    ensures k in s.c.mustGathers && s.c.mustGathers[k].uid == s'.c.mustGathers[k].uid && s.c.mustGathers[k].spec == s'.c.mustGathers[k].spec
  {
    if l.Writes() {
      WritesKeepSpecOf(s.c, l.done, k);
    } else if l.Act? {
      ActionKeepsSpecOf(s.c, l.action, k);
    }
  }

  lemma WriteKeepsSpecOf(c: Cluster, w: Write, k: Key)
    requires k in Apply(c, w).mustGathers
    ensures var c' := Apply(c, w);
            k in c.mustGathers && c'.mustGathers[k].uid == c.mustGathers[k].uid && c'.mustGathers[k].spec == c.mustGathers[k].spec
  {
    if w.SetFinalizers? && w.key in c.mustGathers {
      FinalizersChange(c, w.key, w.finalizers);
    } else if !w.SetFinalizers? && !w.SetStatus? {
      WriteLeavesResources(c, w);
    }
  }

  lemma {:induction false} WritesKeepSpecOf(c: Cluster, ws: seq<Write>, k: Key)
    requires k in ApplyAll(c, ws).mustGathers
    ensures var c' := ApplyAll(c, ws);
            k in c.mustGathers && c'.mustGathers[k].uid == c.mustGathers[k].uid && c'.mustGathers[k].spec == c.mustGathers[k].spec
  {
    if ws != [] {
      WriteKeepsSpecOf(ApplyAll(c, ws[..|ws| - 1]), ws[|ws| - 1], k);
      WritesKeepSpecOf(c, ws[..|ws| - 1], k);
    }
  }

  lemma ActionKeepsSpecOf(c: Cluster, a: Action, k: Key)
    requires k in Perform(c, a).mustGathers && Perform(c, a).mustGathers[k].uid < c.nextUid
    ensures var c' := Perform(c, a);
            k in c.mustGathers && c'.mustGathers[k].uid == c.mustGathers[k].uid && c'.mustGathers[k].spec == c.mustGathers[k].spec
  {
    ActionFrame(c, a);
    if a.MarkDeleted? && a.key in c.mustGathers {
      MarkedFrame(c, a.key);
    } else if a.EditFinalizers? && a.key in c.mustGathers {
      FinalizersChange(c, a.key, a.finalizers);
    }
  }

  /** Immutability over whole runs: a resource that exists at two points has the same spec at both, whatever users ask for. */
  lemma {:induction false} SpecsNeverChange(cfg: Config, states: seq<System>, labels: seq<Label>, i: nat, j: nat, k: Key)
    requires Run(cfg, states, labels) && i <= j < |states|
    requires k in states[i].c.mustGathers && k in states[j].c.mustGathers
    requires states[i].c.mustGathers[k].uid == states[j].c.mustGathers[k].uid
    ensures states[i].c.mustGathers[k].spec == states[j].c.mustGathers[k].spec
  {
    if i < j {
      UidsBelow(cfg, states, labels, i);
      UidsOnlyGrow(cfg, states, labels, i, j - 1);
      assert StepAt(cfg, states, labels, j - 1);
      StepKeepsSpecOf(cfg, states[j - 1], labels[j - 1], states[j], k);
      SpecsNeverChange(cfg, states, labels, i, j - 1, k);
    }
  }

  lemma {:induction false} UidsOnlyGrow(cfg: Config, states: seq<System>, labels: seq<Label>, i: nat, j: nat)
    requires Run(cfg, states, labels) && i <= j < |states|
    ensures states[i].c.nextUid <= states[j].c.nextUid
  {
    if i < j {
      UidsOnlyGrow(cfg, states, labels, i, j - 1);
      UidsGrowInStep(cfg, states, labels, j - 1);
    }
  }

  lemma UidsGrowInStep(cfg: Config, states: seq<System>, labels: seq<Label>, i: nat)
    requires Run(cfg, states, labels) && i < |labels|
    ensures states[i].c.nextUid <= states[i + 1].c.nextUid
  {
    UidsBelow(cfg, states, labels, i);
    assert StepAt(cfg, states, labels, i);
    StepHandsOutUids(cfg, states[i], labels[i], states[i + 1]);
  }

  lemma UidsBelow(cfg: Config, states: seq<System>, labels: seq<Label>, i: nat)
    requires Run(cfg, states, labels) && i < |states|
    ensures UidsInv(states[i].c) && JobUidsBelow(states[i].c)
  {
    RunKeepsInv(cfg, states, labels, i);
  }

  lemma StepHandsOutUids(cfg: Config, s: System, l: Label, s': System)
    requires Step(cfg, s, l, s') && JobUidsBelow(s.c)
    ensures s.c.nextUid <= s'.c.nextUid
  {
    if l.Writes() {
      UidsGrow(s.c, l.done);
    } else if l.Act? {
      ActionFrame(s.c, l.action);
    }
  }

  /**
    In every run every Job is created with a pod the API server accepts, and the secrets
    the pod reads are exactly the one that was checked, or none if none was.
   */
  lemma CreatedJobsAreWellFormed(cfg: Config, states: seq<System>, labels: seq<Label>, i: nat, n: nat)
    requires Run(cfg, states, labels) && i < |labels| && labels[i].Writes() && n < |labels[i].done| && labels[i].done[n].CreateJob?
    ensures var c, l := At(states, labels, i, n), labels[i];
            && l.key in c.mustGathers && Admitted(c.mustGathers[l.key].spec)
            && TemplateProperties.WellFormed(l.done[n].job.pod)
            && forall secret :: TemplateProperties.ReadsSecret(l.done[n].job.pod, secret) <==> SecretToCheck(c.mustGathers[l.key].spec) == Some(secret)
  {
    CreatedPodIsCompiled(cfg, states, labels, i, n);
    RunKeepsSpecs(cfg, states, labels, i);
    var c, l := At(states, labels, i, n), labels[i];
    WritesKeepSpecs(states[i].c, l.done[..n]);
    var spec := c.mustGathers[l.key].spec;
    PodOfAdmitted(cfg, spec, ResolveImage(cfg, l.obs, c, spec).ref, l.obs.operatorImage.value, DirectoryFor(l.obs), ProxiesFrom(l.obs.proxyVars));
  }

  /**
    And its data is where it belongs, in a directory of this pass's own; it has three
    retries, and is owned by its resource alone, as its controller.
   */
  lemma CreatedJobsKeepTheirData(cfg: Config, states: seq<System>, labels: seq<Label>, i: nat, n: nat)
    requires Run(cfg, states, labels) && i < |labels| && labels[i].Writes() && n < |labels[i].done| && labels[i].done[n].CreateJob?
    requires labels[i].obs.clusterId.Some? ==> Text.Lacks(labels[i].obs.clusterId.value, '/')
    ensures var c, l := At(states, labels, i, n), labels[i]; var job := l.done[n].job;
            && l.key in c.mustGathers
            && (forall container | container in job.pod.containers ::
                  PodMeaning.SeesOutput(job.pod, container, c.mustGathers[l.key].spec, DirectoryFor(l.obs)))
            && job.backoffLimit == Some(3) && job.pod.serviceAccount == c.mustGathers[l.key].spec.serviceAccount
            && job.owners == [OwnerRef("MustGather", l.key.name, c.mustGathers[l.key].uid, true)]
  {
    CreatedPodIsCompiled(cfg, states, labels, i, n);
    RunKeepsSpecs(cfg, states, labels, i);
    var c, l := At(states, labels, i, n), labels[i];
    WritesKeepSpecs(states[i].c, l.done[..n]);
    var spec := c.mustGathers[l.key].spec;
    CompiledPodKeepsData(cfg, l.obs, ResolveImage(cfg, l.obs, c, spec).ref, spec);
  }

  lemma CompiledPodKeepsData(cfg: Config, obs: Obs, image: string, spec: Spec)
    requires Admitted(spec) && obs.operatorImage.Some? && (obs.clusterId.Some? ==> Text.Lacks(obs.clusterId.value, '/'))
    ensures var pod := CompilePod(image, obs.operatorImage.value, spec, cfg.trustedCa, DirectoryFor(obs), ProxiesFrom(obs.proxyVars));
            && (forall container | container in pod.containers :: PodMeaning.SeesOutput(pod, container, spec, DirectoryFor(obs)))
            && pod.backoffLimit == 3 && pod.serviceAccount == spec.serviceAccount
  {
    Naming.DirectoryNameIsComponent(Naming.ClusterIdSuffix(obs.clusterId), obs.now, obs.draw);
    PodMeaning.OutputIsWhereItBelongs(image, obs.operatorImage.value, spec, cfg.trustedCa, DirectoryFor(obs), ProxiesFrom(obs.proxyVars));
  }

  lemma PodOfAdmitted(cfg: Config, spec: Spec, image: string, operatorImage: string, dir: string, proxies: Proxies)
    requires Admitted(spec)
    ensures var pod := CompilePod(image, operatorImage, spec, cfg.trustedCa, dir, proxies);
            && TemplateProperties.WellFormed(pod)
            && forall secret :: TemplateProperties.ReadsSecret(pod, secret) <==> SecretToCheck(spec) == Some(secret)
  {
    TemplateProperties.CompiledPodIsWellFormed(image, operatorImage, spec, cfg.trustedCa, dir, proxies);
    forall secret
      ensures TemplateProperties.ReadsSecret(CompilePod(image, operatorImage, spec, cfg.trustedCa, dir, proxies), secret)
              <==> SecretToCheck(spec) == Some(secret)
    {
      CheckedIsWhatIsRead(cfg, spec, image, operatorImage, dir, proxies, secret);
    }
  }
}
