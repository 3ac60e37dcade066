/**
  The Job compiler: from a MustGather spec to the pod of its Job.

  The functions say what the pod consists of; the methods build it the way the
  operator does, appending to lists and setting fields, and are proved to build that.
  Shell scripts are terms; the module Shell gives them their meaning.
 */
module JobTemplate {
  import opened Api
  import opened Text
  import opened Naming
  import opened JobController

  datatype VolumeSource = EmptyDir | Claim(name: string, readOnly: bool) | FromConfigMap(name: string)
  datatype Volume = Volume(name: string, source: VolumeSource)
  datatype Mount = Mount(volume: string, path: string, subPath: string, readOnly: bool)
  datatype EnvValue = Literal(text: string) | SecretField(secret: string, field: string) | DurationText(nanos: int) | TimeText(time: string)
  datatype EnvVar = EnvVar(name: string, value: EnvValue)

  datatype Script =
    | DefaultGather(seconds: int, binary: string, chown: bool)  // timeout <seconds> bash ... '/usr/bin/<binary>'
    | ArgsThenChown                                             // "$@", then chown, then the status of "$@"
    | PollThenUpload                                            // ssh set-up, wait for gather to be quiet, upload
    | UploadNow                                                 // ssh set-up, upload

  /** `Bash(script, zero)` is /bin/bash -c script, followed by "--" as $0 if `zero`. */
  datatype Command = Argv(words: seq<string>) | Bash(script: Script, zero: bool)

  datatype Container = Container(name: string, image: string, command: Command, args: seq<string>, mounts: seq<Mount>, env: seq<EnvVar>)

  datatype PodTemplate = PodTemplate(volumes: seq<Volume>, containers: seq<Container>, serviceAccount: string, backoffLimit: nat)

  /** The operator's own proxy settings. */
  datatype Proxies = Proxies(http: string, https: string, no: string)

  const OUTPUT_VOLUME := "must-gather-output"
  const UPLOAD_VOLUME := "must-gather-upload"
  const TRUSTED_CA_VOLUME := "trusted-ca"
  const OBFUSCATE_VOLUME := "obfuscate-config"
  const OUTPUT_PATH := "/must-gather"
  const UPLOAD_PATH := "/must-gather-upload"
  const TRUSTED_CA_PATH := "/etc/pki/tls/certs"
  const OBFUSCATE_PATH := "/etc/must-gather-clean/custom-config/config.yaml"
  const OBFUSCATE_KEY := "config.yaml"
  const GATHER := "gather"
  const UPLOAD := "upload"
  const GATHER_AUDIT_BINARY := "gather_audit_logs"
  const GATHER_BINARY := "gather"

  // ---------- what the spec asks for ----------

  predicate ObfuscationEnabled(o: Option<Obfuscation>) {
    o.Some? && IsTrue(o.value.enabled)
  }

  predicate NeedsChown(o: Option<Obfuscation>) {
    ObfuscationEnabled(o) && o.value.source.None?
  }

  predicate HasSource(o: Option<Obfuscation>) {
    o.Some? && o.value.source.Some? && o.value.source.value.claim != ""
  }

  function ConfigRef(o: Option<Obfuscation>): string {
    if o.Some? && o.value.configRef.Some? then o.value.configRef.value else ""
  }

  predicate HasSftpUpload(spec: Spec) {
    && spec.upload.Some?
    && spec.upload.value.kind == UPLOAD_TYPE_SFTP
    && spec.upload.value.sftp.Some?
    && spec.upload.value.sftp.value.caseId != ""
    && spec.upload.value.sftp.value.secret != ""
  }

  function SftpOf(spec: Spec): Option<SftpSpec> {
    if HasSftpUpload(spec) then spec.upload.value.sftp else None
  }

  predicate NeedsUpload(spec: Spec) {
    ObfuscationEnabled(spec.obfuscate) || HasSftpUpload(spec)
  }

  predicate StoresOnVolume(storage: Option<Storage>) {
    storage.Some? && storage.value.kind == STORAGE_TYPE_PV
  }

  // ---------- what the pod consists of ----------

  function When<T>(c: bool, x: T): seq<T> {
    if c then [x] else []
  }

  function OutputSource(spec: Spec): VolumeSource {
    if HasSource(spec.obfuscate) then Claim(spec.obfuscate.value.source.value.claim, true)
    else if StoresOnVolume(spec.storage) && spec.storage.value.volume.claim != "" then Claim(spec.storage.value.volume.claim, false)
    else EmptyDir
  }

  function VolumesOf(spec: Spec, ca: string): seq<Volume> {
    [Volume(OUTPUT_VOLUME, OutputSource(spec)), Volume(UPLOAD_VOLUME, EmptyDir)]
    + When(ca != "", Volume(TRUSTED_CA_VOLUME, FromConfigMap(ca)))
    + When(ConfigRef(spec.obfuscate) != "", Volume(OBFUSCATE_VOLUME, FromConfigMap(ConfigRef(spec.obfuscate))))
  }

  function GatherSubPath(spec: Spec, dir: string): string {
    Deref(OutputSubPath(spec.storage, dir))
  }

  const TRUSTED_CA_MOUNT := Mount(TRUSTED_CA_VOLUME, TRUSTED_CA_PATH, "", true)

  function CustomCommand(spec: Spec): seq<string> {
    if spec.gather.Some? && spec.gather.value.command.Some? then spec.gather.value.command.value else []
  }

  function CustomArgs(spec: Spec): seq<string> {
    if spec.gather.Some? then spec.gather.value.args else []
  }

  function CeilSeconds(nanos: int): int {
    -(-nanos / 1_000_000_000)
  }

  function GatherCommand(spec: Spec): Command {
    if CustomCommand(spec) == [] then
      Bash(DefaultGather(if spec.timeout.Some? then CeilSeconds(spec.timeout.value) else 0,
                         if spec.gather.Some? && IsTrue(spec.gather.value.audit) then GATHER_AUDIT_BINARY else GATHER_BINARY,
                         NeedsChown(spec.obfuscate)), false)
    else if NeedsChown(spec.obfuscate) then Bash(ArgsThenChown, true)
    else Argv(CustomCommand(spec))
  }

  function GatherArgs(spec: Spec): seq<string> {
    if CustomCommand(spec) != [] && NeedsChown(spec.obfuscate) then CustomCommand(spec) + CustomArgs(spec) else CustomArgs(spec)
  }

  function GatherEnv(spec: Spec): seq<EnvVar> {
    if spec.gather.None? then []
    else
      var g := spec.gather.value;
      (if g.since.Some? && g.since.value > 0 then [EnvVar("MUST_GATHER_SINCE", DurationText(g.since.value))] else [])
      + (if g.sinceTime.Some? then [EnvVar("MUST_GATHER_SINCE_TIME", TimeText(g.sinceTime.value))] else [])
  }

  function GatherContainer(image: string, spec: Spec, ca: string, dir: string): Container {
    Container(GATHER, image, GatherCommand(spec), GatherArgs(spec),
              [Mount(OUTPUT_VOLUME, OUTPUT_PATH, GatherSubPath(spec, dir), false)] + When(ca != "", TRUSTED_CA_MOUNT),
              GatherEnv(spec))
  }

  function UploadOutputMount(spec: Spec, dir: string): Mount {
    if HasSource(spec.obfuscate) then
      Mount(OUTPUT_VOLUME, OUTPUT_PATH, Trim(Deref(spec.obfuscate.value.source.value.subPath), IsSlash), true)
    else
      Mount(OUTPUT_VOLUME, OUTPUT_PATH, GatherSubPath(spec, dir), false)
  }

  /** Cleaned output goes next to the gathered output when that is persisted, else to scratch space. */
  function UploadWorkMount(spec: Spec, dir: string): Mount {
    if ObfuscationEnabled(spec.obfuscate) && !HasSource(spec.obfuscate) && StoresOnVolume(spec.storage) then
      Mount(OUTPUT_VOLUME, UPLOAD_PATH, GatherSubPath(spec, dir), false)
    else
      Mount(UPLOAD_VOLUME, UPLOAD_PATH, "", false)
  }

  function SftpEnv(sftp: SftpSpec): seq<EnvVar> {
    [EnvVar("username", SecretField(sftp.secret, "username")),
     EnvVar("password", SecretField(sftp.secret, "password")),
     EnvVar("caseid", Literal(sftp.caseId)),
     EnvVar("host", Literal(Deref(sftp.host))),
     EnvVar("internal_user", Literal(if IsTrue(sftp.internalUser) then "true" else "false"))]
  }

  function BaseEnv(): seq<EnvVar> {
    [EnvVar("must_gather_output", Literal(OUTPUT_PATH)), EnvVar("must_gather_upload", Literal(UPLOAD_PATH))]
  }

  function ModeEnv(spec: Spec, dir: string): seq<EnvVar> {
    When(ObfuscationEnabled(spec.obfuscate), EnvVar("obfuscate", Literal("true")))
    + When(ConfigRef(spec.obfuscate) != "", EnvVar("obfuscate_config", Literal(OBFUSCATE_PATH)))
    + [EnvVar("FILENAME_PREFIX", Literal(dir))]
  }

  function ProxyEnv(proxies: Proxies): seq<EnvVar> {
    When(proxies.http != "", EnvVar("http_proxy", Literal(proxies.http)))
    + When(proxies.https != "", EnvVar("https_proxy", Literal(proxies.https)))
    + When(proxies.no != "", EnvVar("no_proxy", Literal(proxies.no)))
  }

  function SftpPart(spec: Spec): seq<EnvVar> {
    if HasSftpUpload(spec) then SftpEnv(SftpOf(spec).value) else []
  }

  function UploadEnv(spec: Spec, dir: string, proxies: Proxies): seq<EnvVar> {
    BaseEnv() + SftpPart(spec) + ModeEnv(spec, dir) + ProxyEnv(proxies)
  }

  function UploadMounts(spec: Spec, ca: string, dir: string): seq<Mount> {
    [UploadOutputMount(spec, dir), UploadWorkMount(spec, dir)]
    + When(ca != "", TRUSTED_CA_MOUNT)
    + When(ConfigRef(spec.obfuscate) != "", Mount(OBFUSCATE_VOLUME, OBFUSCATE_PATH, OBFUSCATE_KEY, true))
  }

  function UploadContainer(image: string, spec: Spec, ca: string, dir: string, proxies: Proxies): Container {
    Container(UPLOAD, image, Bash(if HasSource(spec.obfuscate) then UploadNow else PollThenUpload, false), [],
              UploadMounts(spec, ca, dir), UploadEnv(spec, dir, proxies))
  }

  function CompilePod(image: string, operatorImage: string, spec: Spec, ca: string, dir: string, proxies: Proxies): PodTemplate {
    PodTemplate(VolumesOf(spec, ca),
                When(!HasSource(spec.obfuscate), GatherContainer(image, spec, ca, dir))
                + When(NeedsUpload(spec), UploadContainer(operatorImage, spec, ca, dir, proxies)),
                spec.serviceAccount, BACKOFF_LIMIT)
  }

  // ---------- how the operator builds it ----------

  function LastValue(vars: seq<(string, string)>, name: string): string {
    if vars == [] then ""
    else if vars[|vars| - 1].0 == name then vars[|vars| - 1].1
    else LastValue(vars[..|vars| - 1], name)
  }

  function ProxiesFrom(vars: seq<(string, string)>): Proxies {
    Proxies(LastValue(vars, "HTTP_PROXY"), LastValue(vars, "HTTPS_PROXY"), LastValue(vars, "NO_PROXY"))
  }

  /** Of several settings of one variable the last one counts. */
  method ReadProxies(vars: seq<(string, string)>) returns (proxies: Proxies)
    ensures proxies == ProxiesFrom(vars)
  {
    proxies := Proxies("", "", "");
    for i := 0 to |vars|
      invariant proxies == ProxiesFrom(vars[..i])
    {
      assert vars[..i + 1][..i] == vars[..i];
      if vars[i].0 == "HTTP_PROXY" {
        proxies := proxies.(http := vars[i].1);
      } else if vars[i].0 == "HTTPS_PROXY" {
        proxies := proxies.(https := vars[i].1);
      } else if vars[i].0 == "NO_PROXY" {
        proxies := proxies.(no := vars[i].1);
      }
    }
    assert vars[..|vars|] == vars;
  }

  method InitializeJobTemplate(spec: Spec, ca: string) returns (pod: PodTemplate)
    ensures pod == PodTemplate(VolumesOf(spec, ca), [], spec.serviceAccount, BACKOFF_LIMIT)
  {
    var output := Volume(OUTPUT_VOLUME, EmptyDir);
    if HasSource(spec.obfuscate) {
      output := output.(source := Claim(spec.obfuscate.value.source.value.claim, true));
    } else if StoresOnVolume(spec.storage) && spec.storage.value.volume.claim != "" {
      output := output.(source := Claim(spec.storage.value.volume.claim, false));
    }
    var volumes := [output, Volume(UPLOAD_VOLUME, EmptyDir)];
    if ca != "" {
      volumes := volumes + [Volume(TRUSTED_CA_VOLUME, FromConfigMap(ca))];
    }
    if ConfigRef(spec.obfuscate) != "" {
      volumes := volumes + [Volume(OBFUSCATE_VOLUME, FromConfigMap(ConfigRef(spec.obfuscate)))];
    }
    pod := PodTemplate(volumes, [], spec.serviceAccount, BACKOFF_LIMIT);
  }

  method GetGatherEnv(spec: Spec) returns (env: seq<EnvVar>)
    ensures env == GatherEnv(spec)
  {
    env := [];
    if spec.gather.Some? {
      var g := spec.gather.value;
      if g.since.Some? && g.since.value > 0 {
        env := env + [EnvVar("MUST_GATHER_SINCE", DurationText(g.since.value))];
      }
      if g.sinceTime.Some? {
        env := env + [EnvVar("MUST_GATHER_SINCE_TIME", TimeText(g.sinceTime.value))];
      }
    }
  }

  method GetGatherContainer(image: string, spec: Spec, ca: string, dir: string) returns (c: Container)
    ensures c == GatherContainer(image, spec, ca, dir)
  {
    var binary := GATHER_BINARY;
    if spec.gather.Some? && IsTrue(spec.gather.value.audit) {
      binary := GATHER_AUDIT_BINARY;
    }
    var mount := Mount(OUTPUT_VOLUME, OUTPUT_PATH, "", false);
    var subPath := OutputSubPath(spec.storage, dir);
    if subPath.Some? {
      mount := mount.(subPath := subPath.value);
    }
    var mounts := [mount];
    if ca != "" {
      mounts := mounts + [TRUSTED_CA_MOUNT];
    }
    c := Container(GATHER, image, Argv([]), [], mounts, []);
    var command, args := CustomCommand(spec), CustomArgs(spec);
    if |command| > 0 {
      if NeedsChown(spec.obfuscate) {
        c := c.(command := Bash(ArgsThenChown, true), args := command + args);
      } else {
        c := c.(command := Argv(command), args := args);
      }
    } else {
      var timeout := if spec.timeout.Some? then spec.timeout.value else 0;
      c := c.(command := Bash(DefaultGather(CeilSeconds(timeout), binary, NeedsChown(spec.obfuscate)), false), args := args);
    }
    var env := GetGatherEnv(spec);
    c := c.(env := env);
  }

  method GetUploadMounts(spec: Spec, ca: string, dir: string) returns (mounts: seq<Mount>)
    ensures mounts == UploadMounts(spec, ca, dir)
  {
    var output := Mount(OUTPUT_VOLUME, OUTPUT_PATH, "", false);
    if HasSource(spec.obfuscate) {
      output := output.(readOnly := true);
      var subPath := Trim(Deref(spec.obfuscate.value.source.value.subPath), IsSlash);
      if subPath != "" {
        output := output.(subPath := subPath);
      }
    } else {
      var subPath := OutputSubPath(spec.storage, dir);
      if subPath.Some? {
        output := output.(subPath := subPath.value);
      }
    }
    var work := Mount(UPLOAD_VOLUME, UPLOAD_PATH, "", false);
    if ObfuscationEnabled(spec.obfuscate) && !HasSource(spec.obfuscate) && StoresOnVolume(spec.storage) {
      work := work.(volume := OUTPUT_VOLUME, subPath := JoinPath(TrimmedBase(spec.storage.value.volume), dir));
    }
    mounts := [output, work];
    if ca != "" {
      mounts := mounts + [TRUSTED_CA_MOUNT];
    }
    if ConfigRef(spec.obfuscate) != "" {
      mounts := mounts + [Mount(OBFUSCATE_VOLUME, OBFUSCATE_PATH, OBFUSCATE_KEY, true)];
    }
  }

  method AppendMode(env: seq<EnvVar>, spec: Spec, dir: string) returns (r: seq<EnvVar>)
    ensures r == env + ModeEnv(spec, dir)
  {
    r := env;
    if ObfuscationEnabled(spec.obfuscate) {
      r := r + [EnvVar("obfuscate", Literal("true"))];
    }
    if ConfigRef(spec.obfuscate) != "" {
      r := r + [EnvVar("obfuscate_config", Literal(OBFUSCATE_PATH))];
    }
    r := r + [EnvVar("FILENAME_PREFIX", Literal(dir))];
  }

  method AppendProxies(env: seq<EnvVar>, proxies: Proxies) returns (r: seq<EnvVar>)
    ensures r == env + ProxyEnv(proxies)
  {
    r := env;
    if proxies.http != "" {
      r := r + [EnvVar("http_proxy", Literal(proxies.http))];
    }
    if proxies.https != "" {
      r := r + [EnvVar("https_proxy", Literal(proxies.https))];
    }
    if proxies.no != "" {
      r := r + [EnvVar("no_proxy", Literal(proxies.no))];
    }
  }

  method GetUploadEnv(spec: Spec, dir: string, proxies: Proxies) returns (env: seq<EnvVar>)
    ensures env == UploadEnv(spec, dir, proxies)
  {
    env := BaseEnv();
    var sftp := SftpOf(spec);
    if sftp.Some? {
      env := env + SftpEnv(sftp.value);
    }
    env := AppendMode(env, spec, dir);
    env := AppendProxies(env, proxies);
  }

  method GetUploadContainer(image: string, spec: Spec, ca: string, dir: string, proxies: Proxies) returns (c: Container)
    ensures c == UploadContainer(image, spec, ca, dir, proxies)
  {
    var script := PollThenUpload;
    if HasSource(spec.obfuscate) {
      script := UploadNow;
    }
    var mounts := GetUploadMounts(spec, ca, dir);
    var env := GetUploadEnv(spec, dir, proxies);
    c := Container(UPLOAD, image, Bash(script, false), [], mounts, env);
  }

  method GetJobTemplate(image: string, operatorImage: string, spec: Spec, ca: string, dir: string, vars: seq<(string, string)>)
    returns (pod: PodTemplate)
    ensures pod == CompilePod(image, operatorImage, spec, ca, dir, ProxiesFrom(vars))
  {
    pod := InitializeJobTemplate(spec, ca);
    var proxies := ReadProxies(vars);
    if !HasSource(spec.obfuscate) {
      var gather := GetGatherContainer(image, spec, ca, dir);
      pod := pod.(containers := pod.containers + [gather]);
    }
    if NeedsUpload(spec) {
      var upload := GetUploadContainer(operatorImage, spec, ca, dir, proxies);
      pod := pod.(containers := pod.containers + [upload]);
    }
  }
}
