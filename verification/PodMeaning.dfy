/**
  What a compiled pod means to its containers: what they find under the name of
  a variable, what is mounted where, and what gather runs.
 */
module PodMeaning {
  import opened Api
  import opened Text
  import opened Naming
  import opened JobController
  import opened JobTemplate
  import opened TemplateProperties

  // ---------- the upload container's environment ----------

  /** Upload goes by SFTP: there is such a target, with a case and a secret. */
  predicate UploadsBySftp(spec: Spec) {
    && spec.upload.Some? && spec.upload.value.kind == "SFTP" && spec.upload.value.sftp.Some?
    && spec.upload.value.sftp.value.caseId != "" && spec.upload.value.sftp.value.secret != ""
  }

  /** With an SFTP upload the five variables say where and as whom to log in; without one none of them is there. */
  lemma SftpVariables(spec: Spec, dir: string, proxies: Proxies)
    ensures var env := UploadEnv(spec, dir, proxies);
            if UploadsBySftp(spec) then HasSftpEnv(env, spec.upload.value.sftp.value)
            else forall name | name in {"username", "password", "caseid", "host", "internal_user"} :: Lookup(env, name) == None
  {
    if UploadsBySftp(spec) {
      UploadEnvHasSftp(spec, dir, proxies);
    } else {
      forall name | name in {"username", "password", "caseid", "host", "internal_user"}
        ensures Lookup(UploadEnv(spec, dir, proxies), name) == None
      {
        NoSftpVariable(spec, dir, proxies, name);
      }
    }
  }

  lemma NoSftpVariable(spec: Spec, dir: string, proxies: Proxies, name: string)
    requires !HasSftpUpload(spec) && name in SftpNames()
    ensures Lookup(UploadEnv(spec, dir, proxies), name) == None
  {
    EnvParts(spec, dir, proxies);
    NotDrawn(BaseEnv(), BaseNames(), name);
    NotDrawn(ModeEnv(spec, dir), ModeNames(), name);
    NotDrawn(ProxyEnv(proxies), ProxyNames(), name);
    AbsentIfNowhere(BaseEnv(), SftpPart(spec), ModeEnv(spec, dir), ProxyEnv(proxies), name);
  }

  lemma NotDrawn(env: seq<EnvVar>, names: set<string>, name: string)
    requires Drawn(env, names) && name !in names
    ensures forall e | e in env :: e.name != name
  {
  }

  /** A variable that is there exactly under a condition. */
  ghost predicate SetIff(env: seq<EnvVar>, name: string, condition: bool, text: string) {
    Lookup(env, name) == if condition then Some(Literal(text)) else None
  }

  lemma PresentIfIn(a: seq<EnvVar>, b: seq<EnvVar>, c: seq<EnvVar>, d: seq<EnvVar>, e: EnvVar)
    requires DistinctNames(a + b + c + d) && (e in a || e in b || e in c || e in d)
    ensures Lookup(a + b + c + d, e.name) == Some(e.value)
  {
    PartsAreIn(a, b, c, d);
    LookupFinds(a + b + c + d, e);
  }

  lemma AbsentIfNowhere(a: seq<EnvVar>, b: seq<EnvVar>, c: seq<EnvVar>, d: seq<EnvVar>, name: string)
    requires forall e | e in a || e in b || e in c || e in d :: e.name != name
    ensures Lookup(a + b + c + d, name) == None
  {
    PartsAreIn(a, b, c, d);
    LookupMisses(a + b + c + d, name);
  }

  lemma EnvParts(spec: Spec, dir: string, proxies: Proxies)
    ensures Drawn(BaseEnv(), BaseNames()) && Drawn(SftpPart(spec), SftpNames())
    ensures Drawn(ModeEnv(spec, dir), ModeNames()) && Drawn(ProxyEnv(proxies), ProxyNames())
    ensures DistinctNames(BaseEnv() + SftpPart(spec) + ModeEnv(spec, dir) + ProxyEnv(proxies))
  {
    BaseEnvDrawn();
    SftpEnvDrawn(spec);
    ModeEnvDrawn(spec, dir);
    ProxyEnvDrawn(proxies);
    UploadEnvDistinct(spec, dir, proxies);
  }

  /** Where to read, where to write, what to call the bundle, and whether and how to obfuscate. */
  lemma ModeVariables(spec: Spec, dir: string, proxies: Proxies)
    ensures var env := UploadEnv(spec, dir, proxies);
            && SetIff(env, "must_gather_output", true, "/must-gather")
            && SetIff(env, "must_gather_upload", true, "/must-gather-upload")
            && SetIff(env, "FILENAME_PREFIX", true, dir)
            && SetIff(env, "obfuscate", spec.obfuscate.Some? && spec.obfuscate.value.enabled == Some(true), "true")
            && SetIff(env, "obfuscate_config",
                      spec.obfuscate.Some? && spec.obfuscate.value.configRef.Some? && spec.obfuscate.value.configRef.value != "",
                      "/etc/must-gather-clean/custom-config/config.yaml")
  {
    var a, b, c, d := BaseEnv(), SftpPart(spec), ModeEnv(spec, dir), ProxyEnv(proxies);
    EnvParts(spec, dir, proxies);
    assert a[0] in a && a[1] in a && c[|c| - 1] in c;
    PresentIfIn(a, b, c, d, a[0]);
    PresentIfIn(a, b, c, d, a[1]);
    PresentIfIn(a, b, c, d, c[|c| - 1]);
    ObfuscationVariables(spec, a, b, c, d);
  }

  lemma ObfuscationVariables(spec: Spec, a: seq<EnvVar>, b: seq<EnvVar>, c: seq<EnvVar>, d: seq<EnvVar>)
    requires DistinctNames(a + b + c + d)
    requires Drawn(a, BaseNames()) && Drawn(b, SftpNames()) && Drawn(d, ProxyNames()) && exists dir :: c == ModeEnv(spec, dir)
    ensures SetIff(a + b + c + d, "obfuscate", ObfuscationEnabled(spec.obfuscate), "true")
    ensures SetIff(a + b + c + d, "obfuscate_config", ConfigRef(spec.obfuscate) != "", OBFUSCATE_PATH)
  {
    if ObfuscationEnabled(spec.obfuscate) {
      assert c[0] == EnvVar("obfuscate", Literal("true")) && c[0] in c;
      PresentIfIn(a, b, c, d, c[0]);
    } else {
      AbsentIfNowhere(a, b, c, d, "obfuscate");
    }
    if ConfigRef(spec.obfuscate) != "" {
      assert c[|c| - 2] == EnvVar("obfuscate_config", Literal(OBFUSCATE_PATH)) && c[|c| - 2] in c;
      PresentIfIn(a, b, c, d, c[|c| - 2]);
    } else {
      AbsentIfNowhere(a, b, c, d, "obfuscate_config");
    }
  }

  /** The operator's proxies are passed on, each under its own name, those that are set. */
  lemma ProxyVariables(spec: Spec, dir: string, proxies: Proxies)
    ensures var env := UploadEnv(spec, dir, proxies);
            && SetIff(env, "http_proxy", proxies.http != "", proxies.http)
            && SetIff(env, "https_proxy", proxies.https != "", proxies.https)
            && SetIff(env, "no_proxy", proxies.no != "", proxies.no)
  {
    EnvParts(spec, dir, proxies);
    var a, b, c, d := BaseEnv(), SftpPart(spec), ModeEnv(spec, dir), ProxyEnv(proxies);
    ProxyVariable(a, b, c, d, proxies, "http_proxy", proxies.http);
    ProxyVariable(a, b, c, d, proxies, "https_proxy", proxies.https);
    ProxyVariable(a, b, c, d, proxies, "no_proxy", proxies.no);
  }

  lemma ProxyVariable(a: seq<EnvVar>, b: seq<EnvVar>, c: seq<EnvVar>, d: seq<EnvVar>, proxies: Proxies, name: string, value: string)
    requires DistinctNames(a + b + c + d) && Drawn(a, BaseNames()) && Drawn(b, SftpNames()) && Drawn(c, ModeNames())
    requires d == ProxyEnv(proxies)
    requires || (name == "http_proxy" && value == proxies.http) || (name == "https_proxy" && value == proxies.https)
             || (name == "no_proxy" && value == proxies.no)
    ensures SetIff(a + b + c + d, name, value != "", value)
  {
    if value == "" {
      AbsentIfNowhere(a, b, c, d, name);
    } else {
      PresentIfIn(a, b, c, d, EnvVar(name, Literal(value)));
    }
  }

  // ---------- the operator's own proxy settings ----------

  /** The last setting of a variable counts; one that is never set is empty. */
  ghost predicate LastSetting(vars: seq<(string, string)>, name: string, value: string) {
    || (value == "" && forall i | 0 <= i < |vars| :: vars[i].0 != name)
    || exists i | 0 <= i < |vars| :: vars[i] == (name, value) && forall j | i < j < |vars| :: vars[j].0 != name
  }

  lemma {:induction false} LastValueIs(vars: seq<(string, string)>, name: string)
    ensures LastSetting(vars, name, LastValue(vars, name))
  {
    if vars != [] {
      var n := |vars| - 1;
      if vars[n].0 == name {
        assert vars[n] == (name, LastValue(vars, name));
      } else {
        LastValueIs(vars[..n], name);
        if i :| 0 <= i < n && vars[..n][i] == (name, LastValue(vars[..n], name)) && forall j | i < j < n :: vars[..n][j].0 != name {
          assert vars[i] == (name, LastValue(vars, name));
          assert forall j | i < j < |vars| :: j < n ==> vars[j] == vars[..n][j];
        } else {
          assert forall i | 0 <= i < |vars| :: i < n ==> vars[i] == vars[..n][i];
        }
      }
    }
  }

  /** From the operator's environment to the upload container's: the last setting of each proxy, if it is not empty. */
  lemma ProxiesArePassedOn(spec: Spec, dir: string, vars: seq<(string, string)>) returns (http: string, https: string, no: string)
    ensures LastSetting(vars, "HTTP_PROXY", http) && LastSetting(vars, "HTTPS_PROXY", https) && LastSetting(vars, "NO_PROXY", no)
    ensures var env := UploadEnv(spec, dir, ProxiesFrom(vars));
            && SetIff(env, "http_proxy", http != "", http) && SetIff(env, "https_proxy", https != "", https) && SetIff(env, "no_proxy", no != "", no)
  {
    http, https, no := LastValue(vars, "HTTP_PROXY"), LastValue(vars, "HTTPS_PROXY"), LastValue(vars, "NO_PROXY");
    LastValueIs(vars, "HTTP_PROXY");
    LastValueIs(vars, "HTTPS_PROXY");
    LastValueIs(vars, "NO_PROXY");
    ProxyVariables(spec, dir, ProxiesFrom(vars));
  }

  // ---------- the gather container ----------

  /** Without a custom command: the audit binary iff asked for, the timeout rounded up to seconds, chown iff the bundle is obfuscated here. */
  lemma DefaultGatherRuns(spec: Spec)
    requires spec.gather.None? || spec.gather.value.command.None? || spec.gather.value.command.value == []
    ensures var command := GatherCommand(spec);
            && command.Bash? && !command.zero && command.script.DefaultGather?
            && var script := command.script;
               && script.binary == (if spec.gather.Some? && spec.gather.value.audit == Some(true) then "gather_audit_logs" else "gather")
               && (script.chown <==> spec.obfuscate.Some? && spec.obfuscate.value.enabled == Some(true) && spec.obfuscate.value.source.None?)
               && GatherArgs(spec) == (if spec.gather.Some? then spec.gather.value.args else [])
               && var nanos := if spec.timeout.Some? then spec.timeout.value else 0;
                  1_000_000_000 * (script.seconds - 1) < nanos <= 1_000_000_000 * script.seconds
  {
  }

  /** How far back to look: a positive duration or a time, each under its own name, and nothing else. */
  lemma GatherVariables(spec: Spec)
    ensures Lookup(GatherEnv(spec), "MUST_GATHER_SINCE")
            == if spec.gather.Some? && spec.gather.value.since.Some? && spec.gather.value.since.value > 0
               then Some(DurationText(spec.gather.value.since.value)) else None
    ensures Lookup(GatherEnv(spec), "MUST_GATHER_SINCE_TIME")
            == if spec.gather.Some? && spec.gather.value.sinceTime.Some? then Some(TimeText(spec.gather.value.sinceTime.value)) else None
    ensures forall e | e in GatherEnv(spec) :: e.name in {"MUST_GATHER_SINCE", "MUST_GATHER_SINCE_TIME"}
  {
    var env := GatherEnv(spec);
    if env != [] {
      assert env[1..] == [] || env[1..] == [env[1]];
      assert |env| == 2 ==> env[1..][1..] == [];
    }
  }

  // ---------- what is mounted at /must-gather ----------

  /** What must be behind /must-gather: the source claim for reading, the storage claim, or scratch space. */
  function BehindOutput(spec: Spec): VolumeSource {
    if spec.obfuscate.Some? && spec.obfuscate.value.source.Some? then Claim(spec.obfuscate.value.source.value.claim, true)
    else if spec.storage.Some? then Claim(spec.storage.value.volume.claim, false)
    else EmptyDir
  }

  /** And where in it: the source's sub-path, a directory of this run below the storage's, or the root of the scratch space. */
  ghost predicate OutputDirectory(spec: Spec, dir: string, subPath: string) {
    if spec.obfuscate.Some? && spec.obfuscate.value.source.Some? then
      subPath == Trim(Deref(spec.obfuscate.value.source.value.subPath), IsSlash)
    else if spec.storage.Some? then
      subPath != "" && subPath[0] != '/' && Split(subPath, '/') == Kept(Split(TrimmedBase(spec.storage.value.volume), '/')) + [dir]
    else
      subPath == ""
  }

  ghost predicate SeesOutput(pod: PodTemplate, container: Container, spec: Spec, dir: string) {
    && (exists m :: m in container.mounts && m.path == "/must-gather")
    && (forall m | m in container.mounts && m.path == "/must-gather" ::
          && OutputDirectory(spec, dir, m.subPath)
          && (exists v :: v in pod.volumes && v.name == m.volume)
          && forall v | v in pod.volumes && v.name == m.volume :: v.source == BehindOutput(spec))
  }

  lemma OutputVolume(spec: Spec, ca: string, v: Volume)
    requires Admitted(spec) && v in VolumesOf(spec, ca) && v.name == OUTPUT_VOLUME
    ensures v.source == BehindOutput(spec)
  {
  }

  lemma OutputVolumeIsThere(spec: Spec, ca: string)
    ensures exists v :: v in VolumesOf(spec, ca) && v.name == OUTPUT_VOLUME
  {
    assert VolumesOf(spec, ca)[0].name == OUTPUT_VOLUME;
  }

  lemma GatherDirectory(spec: Spec, dir: string)
    requires Admitted(spec) && Proper(dir) && Lacks(dir, '/') && !HasSource(spec.obfuscate)
    ensures OutputDirectory(spec, dir, GatherSubPath(spec, dir))
  {
    if spec.storage.Some? {
      SubPathParts(spec.storage.value, dir);
    }
  }

  lemma GatherSees(image: string, spec: Spec, ca: string, dir: string, pod: PodTemplate)
    requires Admitted(spec) && Proper(dir) && Lacks(dir, '/') && !HasSource(spec.obfuscate) && pod.volumes == VolumesOf(spec, ca)
    ensures SeesOutput(pod, GatherContainer(image, spec, ca, dir), spec, dir)
  {
    var mounts := [GatherMount(spec, dir)] + When(ca != "", TRUSTED_CA_MOUNT);
    assert mounts[0] in mounts;
    GatherDirectory(spec, dir);
    OutputVolumeIsThere(spec, ca);
    forall v | v in pod.volumes && v.name == OUTPUT_VOLUME ensures v.source == BehindOutput(spec) {
      OutputVolume(spec, ca, v);
    }
  }

  lemma OnlyOneAtOutput(spec: Spec, ca: string, dir: string, m: Mount)
    requires m in UploadMounts(spec, ca, dir) && m.path == OUTPUT_PATH
    ensures m == UploadOutputMount(spec, dir)
  {
  }

  lemma UploadSees(image: string, spec: Spec, ca: string, dir: string, proxies: Proxies, pod: PodTemplate)
    requires Admitted(spec) && Proper(dir) && Lacks(dir, '/') && pod.volumes == VolumesOf(spec, ca)
    ensures SeesOutput(pod, UploadContainer(image, spec, ca, dir, proxies), spec, dir)
  {
    var mounts := UploadMounts(spec, ca, dir);
    assert mounts[0] == UploadOutputMount(spec, dir) && mounts[0] in mounts;
    MountPlaces(spec, dir);
    if !HasSource(spec.obfuscate) {
      GatherDirectory(spec, dir);
    }
    OutputVolumeIsThere(spec, ca);
    forall m | m in mounts && m.path == OUTPUT_PATH ensures m == mounts[0] {
      OnlyOneAtOutput(spec, ca, dir, m);
    }
    forall v | v in pod.volumes && v.name == OUTPUT_VOLUME ensures v.source == BehindOutput(spec) {
      OutputVolume(spec, ca, v);
    }
  }

  lemma PairSees(pod: PodTemplate, g: bool, gather: Container, u: bool, upload: Container, spec: Spec, dir: string)
    requires pod.containers == When(g, gather) + When(u, upload)
    requires (g ==> SeesOutput(pod, gather, spec, dir)) && SeesOutput(pod, upload, spec, dir)
    ensures forall container | container in pod.containers :: SeesOutput(pod, container, spec, dir)
  {
  }

  /**
    For every admitted spec and every run directory, each container of the compiled pod
    has at /must-gather exactly the volume that belongs there, at the right place: the
    source claim, read-only, if there is a source; else the storage claim, in this run's
    own directory, if there is storage; else scratch space.
   */
  lemma OutputIsWhereItBelongs(image: string, operatorImage: string, spec: Spec, ca: string, dir: string, proxies: Proxies)
    requires Admitted(spec) && Proper(dir) && Lacks(dir, '/')
    ensures var pod := CompilePod(image, operatorImage, spec, ca, dir, proxies);
            forall container | container in pod.containers :: SeesOutput(pod, container, spec, dir)
  {
    var pod := CompilePod(image, operatorImage, spec, ca, dir, proxies);
    if !HasSource(spec.obfuscate) {
      GatherSees(image, spec, ca, dir, pod);
    }
    UploadSees(operatorImage, spec, ca, dir, proxies, pod);
    PairSees(pod, !HasSource(spec.obfuscate), GatherContainer(image, spec, ca, dir),
             NeedsUpload(spec), UploadContainer(operatorImage, spec, ca, dir, proxies), spec, dir);
  }

  // ---------- what else is mounted ----------

  /** The cleaned bundle is written next to the gathered one if that is kept on a claim; otherwise to scratch space. */
  ghost predicate WorksWhereItMay(pod: PodTemplate, upload: Container, spec: Spec, dir: string) {
    && (exists m :: m in upload.mounts && m.path == "/must-gather-upload")
    && (forall m, v | m in upload.mounts && m.path == "/must-gather-upload" && v in pod.volumes && v.name == m.volume ::
          && !m.readOnly
          && if spec.obfuscate.Some? && spec.obfuscate.value.enabled == Some(true) && spec.obfuscate.value.source.None? && spec.storage.Some?
             then v.source == Claim(spec.storage.value.volume.claim, false) && OutputDirectory(spec, dir, m.subPath)
             else v.source == EmptyDir && m.subPath == "" && v.name == "must-gather-upload")
  }

  lemma OnlyOneAtWork(spec: Spec, ca: string, dir: string, m: Mount)
    requires m in UploadMounts(spec, ca, dir) && m.path == UPLOAD_PATH
    ensures m == UploadWorkMount(spec, dir)
  {
  }

  lemma WorkVolume(spec: Spec, ca: string, v: Volume)
    requires v in VolumesOf(spec, ca) && v.name == UPLOAD_VOLUME
    ensures v.source == EmptyDir
  {
  }

  lemma UploadWorksWhereItMay(image: string, spec: Spec, ca: string, dir: string, proxies: Proxies, pod: PodTemplate)
    requires Admitted(spec) && Proper(dir) && Lacks(dir, '/') && pod.volumes == VolumesOf(spec, ca)
    ensures WorksWhereItMay(pod, UploadContainer(image, spec, ca, dir, proxies), spec, dir)
  {
    var mounts := UploadMounts(spec, ca, dir);
    var work := UploadWorkMount(spec, dir);
    assert mounts[1] == work && mounts[1] in mounts;
    MountPlaces(spec, dir);
    if !HasSource(spec.obfuscate) {
      GatherDirectory(spec, dir);
    }
    forall m, v | m in mounts && m.path == UPLOAD_PATH && v in pod.volumes && v.name == m.volume
      ensures m == work && (v.name == OUTPUT_VOLUME ==> v.source == BehindOutput(spec)) && (v.name == UPLOAD_VOLUME ==> v.source == EmptyDir)
    {
      OnlyOneAtWork(spec, ca, dir, m);
      if v.name == OUTPUT_VOLUME {
        OutputVolume(spec, ca, v);
      } else {
        WorkVolume(spec, ca, v);
      }
    }
  }

  /** Read-only, at one place: the ConfigMap of that name. */
  ghost predicate Shows(pod: PodTemplate, container: Container, path: string, key: string, configMap: string) {
    exists m, v :: m in container.mounts && v in pod.volumes && v.name == m.volume
                   && m.path == path && m.subPath == key && m.readOnly && v.source == FromConfigMap(configMap)
  }

  /** Nothing is mounted there. */
  ghost predicate Bare(container: Container, path: string) {
    forall m | m in container.mounts :: m.path != path
  }

  /** The trusted CA is in every container iff one is configured; the obfuscation config is in the upload container iff one is referred to. */
  lemma ConfigMapsAreShown(image: string, operatorImage: string, spec: Spec, ca: string, dir: string, proxies: Proxies)
    ensures var pod := CompilePod(image, operatorImage, spec, ca, dir, proxies);
            var gather, upload := GatherContainer(image, spec, ca, dir), UploadContainer(operatorImage, spec, ca, dir, proxies);
            && (forall container | container in [gather, upload] ::
                  if ca != "" then Shows(pod, container, "/etc/pki/tls/certs", "", ca) else Bare(container, "/etc/pki/tls/certs"))
            && var o := spec.obfuscate;
               if o.Some? && o.value.configRef.Some? && o.value.configRef.value != ""
               then Shows(pod, upload, "/etc/must-gather-clean/custom-config/config.yaml", "config.yaml", o.value.configRef.value)
               else Bare(upload, "/etc/must-gather-clean/custom-config/config.yaml")
  {
    var pod := CompilePod(image, operatorImage, spec, ca, dir, proxies);
    var gather, upload := GatherContainer(image, spec, ca, dir), UploadContainer(operatorImage, spec, ca, dir, proxies);
    MountPlaces(spec, dir);
    CaIsShown(gather, pod, spec, ca, [GatherMount(spec, dir)], []);
    CaIsShown(upload, pod, spec, ca, [UploadOutputMount(spec, dir), UploadWorkMount(spec, dir)],
              When(ConfigRef(spec.obfuscate) != "", Mount(OBFUSCATE_VOLUME, OBFUSCATE_PATH, OBFUSCATE_KEY, true)));
    ObfuscationConfigIsShown(upload, pod, spec, ca, dir);
  }

  lemma CaIsShown(container: Container, pod: PodTemplate, spec: Spec, ca: string, before: seq<Mount>, after: seq<Mount>)
    requires container.mounts == before + When(ca != "", TRUSTED_CA_MOUNT) + after && pod.volumes == VolumesOf(spec, ca)
    requires forall m | m in before || m in after :: m.path != TRUSTED_CA_PATH
    ensures if ca != "" then Shows(pod, container, TRUSTED_CA_PATH, "", ca) else Bare(container, TRUSTED_CA_PATH)
  {
    if ca != "" {
      assert container.mounts[|before|] == TRUSTED_CA_MOUNT && TRUSTED_CA_MOUNT in container.mounts;
      assert pod.volumes[2] == Volume(TRUSTED_CA_VOLUME, FromConfigMap(ca)) && pod.volumes[2] in pod.volumes;
    }
  }

  lemma ObfuscationConfigIsShown(upload: Container, pod: PodTemplate, spec: Spec, ca: string, dir: string)
    requires upload.mounts == UploadMounts(spec, ca, dir) && pod.volumes == VolumesOf(spec, ca)
    ensures if ConfigRef(spec.obfuscate) != "" then Shows(pod, upload, OBFUSCATE_PATH, OBFUSCATE_KEY, ConfigRef(spec.obfuscate))
            else Bare(upload, OBFUSCATE_PATH)
  {
    MountPlaces(spec, dir);
    if ConfigRef(spec.obfuscate) != "" {
      var m, v := upload.mounts[|upload.mounts| - 1], pod.volumes[|pod.volumes| - 1];
      assert m == Mount(OBFUSCATE_VOLUME, OBFUSCATE_PATH, OBFUSCATE_KEY, true) && m in upload.mounts;
      assert v == Volume(OBFUSCATE_VOLUME, FromConfigMap(ConfigRef(spec.obfuscate))) && v in pod.volumes;
    }
  }

  // ---------- the containers of the pod ----------

  /** A pod with an upload by SFTP has an upload container, and every container of that name knows the login. */
  lemma UploadKnowsTheLogin(image: string, operatorImage: string, spec: Spec, ca: string, dir: string, proxies: Proxies)
    requires UploadsBySftp(spec)
    ensures var pod := CompilePod(image, operatorImage, spec, ca, dir, proxies);
            && HasContainer(pod, UPLOAD)
            && forall container | container in pod.containers && container.name == UPLOAD ::
                 container.image == operatorImage && HasSftpEnv(container.env, spec.upload.value.sftp.value)
  {
    var gather, upload := GatherContainer(image, spec, ca, dir), UploadContainer(operatorImage, spec, ca, dir, proxies);
    SftpVariables(spec, dir, proxies);
    LastOfPair(!HasSource(spec.obfuscate), gather, upload);
  }

  /** A Job gets three retries. */
  lemma ThreeRetries(image: string, operatorImage: string, spec: Spec, ca: string, dir: string, proxies: Proxies, run: seq<JobStatus>, i: nat)
    requires JobRun(run, CompilePod(image, operatorImage, spec, ca, dir, proxies).backoffLimit) && i < |run|
    ensures VerdictOf(run[i], Some(CompilePod(image, operatorImage, spec, ca, dir, proxies).backoffLimit)) == Finished(Failed)
            <==> run[i].failed == 4
    ensures run[i].failed + run[i].succeeded + run[i].active <= 4
  {
    JobRunInv(run, CompilePod(image, operatorImage, spec, ca, dir, proxies).backoffLimit, i);
  }
}
