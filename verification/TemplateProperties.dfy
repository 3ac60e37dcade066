/**
  What the Job compiler guarantees, given what the CRD rules guarantee.
 */
module TemplateProperties {
  import opened Api
  import opened Text
  import opened Naming
  import opened JobTemplate

  // ---------- well-formedness ----------

  ghost predicate DistinctVolumes(volumes: seq<Volume>) {
    forall i, j | 0 <= i < j < |volumes| :: volumes[i].name != volumes[j].name
  }

  ghost predicate DistinctPaths(mounts: seq<Mount>) {
    forall i, j | 0 <= i < j < |mounts| :: mounts[i].path != mounts[j].path
  }

  ghost predicate DistinctNames(env: seq<EnvVar>) {
    forall i, j | 0 <= i < j < |env| :: env[i].name != env[j].name
  }

  ghost predicate Declared(mounts: seq<Mount>, volumes: seq<Volume>) {
    forall m | m in mounts :: exists v | v in volumes :: v.name == m.volume
  }

  ghost predicate WellFormedContainer(c: Container, volumes: seq<Volume>) {
    DistinctNames(c.env) && DistinctPaths(c.mounts) && Declared(c.mounts, volumes)
  }

  /** What the API server and the kubelet demand of a pod. */
  ghost predicate WellFormed(pod: PodTemplate) {
    && pod.containers != []
    && (forall i, j | 0 <= i < j < |pod.containers| :: pod.containers[i].name != pod.containers[j].name)
    && DistinctVolumes(pod.volumes)
    && forall c | c in pod.containers :: WellFormedContainer(c, pod.volumes)
  }

  ghost predicate HasContainer(pod: PodTemplate, name: string) {
    exists c | c in pod.containers :: c.name == name
  }

  /** The variables of `env` are distinct and all named in `names`. */
  ghost predicate Drawn(env: seq<EnvVar>, names: set<string>) {
    DistinctNames(env) && forall e | e in env :: e.name in names
  }

  lemma DrawnConcat(a: seq<EnvVar>, as_: set<string>, b: seq<EnvVar>, bs: set<string>)
    requires Drawn(a, as_) && Drawn(b, bs) && as_ !! bs
    ensures Drawn(a + b, as_ + bs)
  {
    var env := a + b;
    forall i, j | 0 <= i < j < |env| ensures env[i].name != env[j].name {
      if i < |a| <= j {
        assert env[i] in a && env[j] in b;
      }
    }
  }

  function BaseNames(): set<string> { {"must_gather_output", "must_gather_upload"} }
  function SftpNames(): set<string> { {"username", "password", "caseid", "host", "internal_user"} }
  function ModeNames(): set<string> { {"obfuscate", "obfuscate_config", "FILENAME_PREFIX"} }
  function ProxyNames(): set<string> { {"http_proxy", "https_proxy", "no_proxy"} }

  lemma NamesAreDisjoint()
    ensures BaseNames() !! SftpNames()
    ensures BaseNames() + SftpNames() !! ModeNames()
    ensures BaseNames() + SftpNames() + ModeNames() !! ProxyNames()
  {
  }

  lemma BaseEnvDrawn()
    ensures Drawn(BaseEnv(), BaseNames())
  {
  }

  lemma SftpEnvDrawn(spec: Spec)
    ensures Drawn(SftpPart(spec), SftpNames())
  {
  }

  lemma ModeEnvDrawn(spec: Spec, dir: string)
    ensures Drawn(ModeEnv(spec, dir), ModeNames())
  {
  }

  lemma ProxyEnvDrawn(proxies: Proxies)
    ensures Drawn(ProxyEnv(proxies), ProxyNames())
  {
  }

  lemma FourPartsDistinct(a: seq<EnvVar>, b: seq<EnvVar>, c: seq<EnvVar>, d: seq<EnvVar>)
    requires Drawn(a, BaseNames()) && Drawn(b, SftpNames()) && Drawn(c, ModeNames()) && Drawn(d, ProxyNames())
    ensures DistinctNames(a + b + c + d)
  {
    NamesAreDisjoint();
    DrawnConcat(a, BaseNames(), b, SftpNames());
    DrawnConcat(a + b, BaseNames() + SftpNames(), c, ModeNames());
    DrawnConcat(a + b + c, BaseNames() + SftpNames() + ModeNames(), d, ProxyNames());
  }

  lemma UploadEnvDistinct(spec: Spec, dir: string, proxies: Proxies)
    ensures DistinctNames(UploadEnv(spec, dir, proxies))
  {
    BaseEnvDrawn();
    SftpEnvDrawn(spec);
    ModeEnvDrawn(spec, dir);
    ProxyEnvDrawn(proxies);
    FourPartsDistinct(BaseEnv(), SftpPart(spec), ModeEnv(spec, dir), ProxyEnv(proxies));
  }

  lemma MountPlaces(spec: Spec, dir: string)
    ensures UploadOutputMount(spec, dir).path == OUTPUT_PATH && UploadOutputMount(spec, dir).volume == OUTPUT_VOLUME
    ensures UploadWorkMount(spec, dir).path == UPLOAD_PATH && UploadWorkMount(spec, dir).volume in [OUTPUT_VOLUME, UPLOAD_VOLUME]
  {
  }

  lemma FourMountsDistinct(output: Mount, work: Mount, ca: seq<Mount>, config: seq<Mount>, volumes: seq<Volume>)
    requires output.path == OUTPUT_PATH && DeclaresVolume(volumes, output.volume)
    requires work.path == UPLOAD_PATH && DeclaresVolume(volumes, work.volume)
    requires ca == [] || (ca == [TRUSTED_CA_MOUNT] && DeclaresVolume(volumes, TRUSTED_CA_VOLUME))
    requires config == [] || (|config| == 1 && config[0].path == OBFUSCATE_PATH && DeclaresVolume(volumes, config[0].volume))
    ensures DistinctPaths([output, work] + ca + config) && Declared([output, work] + ca + config, volumes)
  {
  }

  lemma UploadMountsDistinct(spec: Spec, ca: string, dir: string)
    ensures DistinctPaths(UploadMounts(spec, ca, dir)) && Declared(UploadMounts(spec, ca, dir), VolumesOf(spec, ca))
  {
    VolumesDeclared(spec, ca);
    MountPlaces(spec, dir);
    FourMountsDistinct(UploadOutputMount(spec, dir), UploadWorkMount(spec, dir), When(ca != "", TRUSTED_CA_MOUNT),
                       When(ConfigRef(spec.obfuscate) != "", Mount(OBFUSCATE_VOLUME, OBFUSCATE_PATH, OBFUSCATE_KEY, true)),
                       VolumesOf(spec, ca));
  }

  lemma UploadIsWellFormed(image: string, spec: Spec, ca: string, dir: string, proxies: Proxies)
    ensures WellFormedContainer(UploadContainer(image, spec, ca, dir, proxies), VolumesOf(spec, ca))
  {
    UploadEnvDistinct(spec, dir, proxies);
    UploadMountsDistinct(spec, ca, dir);
  }

  lemma GatherIsWellFormed(image: string, spec: Spec, ca: string, dir: string)
    ensures WellFormedContainer(GatherContainer(image, spec, ca, dir), VolumesOf(spec, ca))
  {
    VolumesDeclared(spec, ca);
    GatherEnvDistinct(spec);
    TwoMountsDistinct(GatherMount(spec, dir), When(ca != "", TRUSTED_CA_MOUNT), VolumesOf(spec, ca));
  }

  lemma GatherEnvDistinct(spec: Spec)
    ensures DistinctNames(GatherEnv(spec))
  {
  }

  lemma TwoMountsDistinct(output: Mount, ca: seq<Mount>, volumes: seq<Volume>)
    requires output.path == OUTPUT_PATH && DeclaresVolume(volumes, output.volume)
    requires ca == [] || (ca == [TRUSTED_CA_MOUNT] && DeclaresVolume(volumes, TRUSTED_CA_VOLUME))
    ensures DistinctPaths([output] + ca) && Declared([output] + ca, volumes)
  {
  }

  ghost predicate DeclaresVolume(volumes: seq<Volume>, name: string) {
    exists v | v in volumes :: v.name == name
  }

  lemma VolumesDeclared(spec: Spec, ca: string)
    ensures var vs := VolumesOf(spec, ca);
            && DistinctVolumes(vs)
            && DeclaresVolume(vs, OUTPUT_VOLUME) && DeclaresVolume(vs, UPLOAD_VOLUME)
            && (DeclaresVolume(vs, TRUSTED_CA_VOLUME) <==> ca != "")
            && (DeclaresVolume(vs, OBFUSCATE_VOLUME) <==> ConfigRef(spec.obfuscate) != "")
  {
    var vs := VolumesOf(spec, ca);
    assert vs[0].name == OUTPUT_VOLUME && vs[1].name == UPLOAD_VOLUME;
    if ca != "" {
      assert vs[2].name == TRUSTED_CA_VOLUME;
    }
    if ConfigRef(spec.obfuscate) != "" {
      assert vs[|vs| - 1].name == OBFUSCATE_VOLUME;
    }
  }

  /** Exactly which specs compile to a pod without containers: none that is admitted. */
  lemma EmptyPodIff(image: string, operatorImage: string, spec: Spec, ca: string, dir: string, proxies: Proxies)
    ensures CompilePod(image, operatorImage, spec, ca, dir, proxies).containers == []
            <==> HasSource(spec.obfuscate) && !ObfuscationEnabled(spec.obfuscate) && !HasSftpUpload(spec)
    ensures Admitted(spec) ==> CompilePod(image, operatorImage, spec, ca, dir, proxies).containers != []
  {
  }

  lemma PairIsWellFormed(pod: PodTemplate, g: bool, gather: Container, u: bool, upload: Container)
    requires pod.containers == When(g, gather) + When(u, upload) && (g || u)
    requires gather.name == GATHER && upload.name == UPLOAD
    requires DistinctVolumes(pod.volumes) && WellFormedContainer(gather, pod.volumes) && WellFormedContainer(upload, pod.volumes)
    ensures WellFormed(pod)
    ensures HasContainer(pod, GATHER) <==> g
    ensures HasContainer(pod, UPLOAD) <==> u
    ensures forall c | c in pod.containers && c.name == UPLOAD :: c == upload
  {
    if g {
      assert gather in pod.containers;
    }
    if u {
      assert upload in pod.containers;
    }
  }

  /**
    Every admitted spec compiles to a well-formed pod, and the upload container waits
    for gather processes exactly when there is a gather container to wait for.
   */
  lemma CompiledPodIsWellFormed(image: string, operatorImage: string, spec: Spec, ca: string, dir: string, proxies: Proxies)
    requires Admitted(spec)
    ensures var pod := CompilePod(image, operatorImage, spec, ca, dir, proxies);
            && WellFormed(pod)
            && (HasContainer(pod, GATHER) <==> spec.obfuscate.None? || spec.obfuscate.value.source.None?)
            && (HasContainer(pod, UPLOAD) <==> spec.upload.Some? || ObfuscationEnabled(spec.obfuscate))
            && forall c | c in pod.containers && c.name == UPLOAD ::
                 (c.command == Bash(PollThenUpload, false) <==> HasContainer(pod, GATHER))
  {
    VolumesDeclared(spec, ca);
    GatherIsWellFormed(image, spec, ca, dir);
    UploadIsWellFormed(operatorImage, spec, ca, dir, proxies);
    PairIsWellFormed(CompilePod(image, operatorImage, spec, ca, dir, proxies),
                     !HasSource(spec.obfuscate), GatherContainer(image, spec, ca, dir),
                     NeedsUpload(spec), UploadContainer(operatorImage, spec, ca, dir, proxies));
  }

  // ---------- where the data goes ----------

  ghost predicate ClaimBacked(v: Volume) {
    v.source.Claim?
  }

  /** The mount a container sees at a path. */
  function MountAt(c: Container, path: string): Option<Mount> {
    FindMount(c.mounts, path)
  }

  function FindMount(mounts: seq<Mount>, path: string): Option<Mount> {
    if mounts == [] then None else if mounts[0].path == path then Some(mounts[0]) else FindMount(mounts[1..], path)
  }

  lemma FirstMountFound(first: Mount, rest: seq<Mount>)
    ensures FindMount([first] + rest, first.path) == Some(first)
  {
  }

  lemma SecondMountFound(first: Mount, second: Mount, rest: seq<Mount>)
    requires first.path != second.path
    ensures FindMount([first, second] + rest, second.path) == Some(second)
  {
    assert ([first, second] + rest)[1..] == [second] + rest;
    FirstMountFound(second, rest);
  }

  function GatherMount(spec: Spec, dir: string): Mount {
    Mount(OUTPUT_VOLUME, OUTPUT_PATH, GatherSubPath(spec, dir), false)
  }

  lemma GatherMountsAt(image: string, spec: Spec, ca: string, dir: string)
    ensures MountAt(GatherContainer(image, spec, ca, dir), OUTPUT_PATH) == Some(GatherMount(spec, dir))
  {
    FirstMountFound(GatherMount(spec, dir), When(ca != "", TRUSTED_CA_MOUNT));
  }

  lemma UploadMountsAt(spec: Spec, ca: string, dir: string)
    ensures FindMount(UploadMounts(spec, ca, dir), OUTPUT_PATH) == Some(UploadOutputMount(spec, dir))
    ensures FindMount(UploadMounts(spec, ca, dir), UPLOAD_PATH) == Some(UploadWorkMount(spec, dir))
    ensures !HasSource(spec.obfuscate) ==> UploadOutputMount(spec, dir) == GatherMount(spec, dir)
  {
    MountPlaces(spec, dir);
    TwoMountsFound(UploadOutputMount(spec, dir), UploadWorkMount(spec, dir), When(ca != "", TRUSTED_CA_MOUNT),
                   When(ConfigRef(spec.obfuscate) != "", Mount(OBFUSCATE_VOLUME, OBFUSCATE_PATH, OBFUSCATE_KEY, true)));
  }

  lemma TwoMountsFound(o: Mount, w: Mount, ca: seq<Mount>, config: seq<Mount>)
    requires o.path == OUTPUT_PATH && w.path == UPLOAD_PATH
    ensures FindMount([o, w] + ca + config, OUTPUT_PATH) == Some(o) && FindMount([o, w] + ca + config, UPLOAD_PATH) == Some(w)
  {
    var rest := ca + config;
    assert [o, w] + ca + config == [o] + ([w] + rest) == [o, w] + rest;
    FirstMountFound(o, [w] + rest);
    SecondMountFound(o, w, rest);
  }

  lemma PairShares(pod: PodTemplate, g: bool, gather: Container, u: bool, upload: Container)
    requires pod.containers == When(g, gather) + When(u, upload)
    requires g ==> MountAt(gather, OUTPUT_PATH) == MountAt(upload, OUTPUT_PATH)
    ensures forall c, d | c in pod.containers && d in pod.containers :: MountAt(c, OUTPUT_PATH) == MountAt(d, OUTPUT_PATH)
  {
  }

  /** Gather and upload see the same directory of the same volume at /must-gather. */
  lemma DataIsShared(image: string, operatorImage: string, spec: Spec, ca: string, dir: string, proxies: Proxies)
    ensures var pod := CompilePod(image, operatorImage, spec, ca, dir, proxies);
            forall c, d | c in pod.containers && d in pod.containers :: MountAt(c, OUTPUT_PATH) == MountAt(d, OUTPUT_PATH)
  {
    GatherMountsAt(image, spec, ca, dir);
    UploadMountsAt(spec, ca, dir);
    PairShares(CompilePod(image, operatorImage, spec, ca, dir, proxies),
               !HasSource(spec.obfuscate), GatherContainer(image, spec, ca, dir),
               NeedsUpload(spec), UploadContainer(operatorImage, spec, ca, dir, proxies));
  }

  /** At most one volume is backed by a claim, the output volume; a source claim only ever for reading. */
  lemma ClaimsAreConfined(spec: Spec, ca: string)
    ensures forall v | v in VolumesOf(spec, ca) && ClaimBacked(v) :: v == Volume(OUTPUT_VOLUME, OutputSource(spec))
    ensures HasSource(spec.obfuscate) ==> OutputSource(spec) == Claim(spec.obfuscate.value.source.value.claim, true)
  {
  }

  lemma SourceMountsReadOnly(spec: Spec, ca: string, dir: string, m: Mount)
    requires HasSource(spec.obfuscate)
    requires m in UploadMounts(spec, ca, dir) && m.volume == OUTPUT_VOLUME
    ensures m.readOnly
  {
  }

  /** No container can write to a source claim. */
  lemma SourceIsReadOnly(image: string, operatorImage: string, spec: Spec, ca: string, dir: string, proxies: Proxies, c: Container, m: Mount)
    requires HasSource(spec.obfuscate)
    requires c in CompilePod(image, operatorImage, spec, ca, dir, proxies).containers && m in c.mounts && m.volume == OUTPUT_VOLUME
    ensures m.readOnly
  {
    SourceMountsReadOnly(spec, ca, dir, m);
  }

  /** What a container finds under the name of a variable. */
  function Lookup(env: seq<EnvVar>, name: string): Option<EnvValue> {
    if env == [] then None else if env[0].name == name then Some(env[0].value) else Lookup(env[1..], name)
  }

  lemma {:induction false} LookupFinds(env: seq<EnvVar>, e: EnvVar)
    requires DistinctNames(env) && e in env
    ensures Lookup(env, e.name) == Some(e.value)
  {
    if env[0] != e {
      LookupFinds(env[1..], e);
    }
  }

  lemma {:induction false} LookupMisses(env: seq<EnvVar>, name: string)
    requires forall e | e in env :: e.name != name
    ensures Lookup(env, name) == None
  {
    if env != [] {
      assert env[0] in env && forall e | e in env[1..] :: e in env;
      LookupMisses(env[1..], name);
    }
  }

  /** The credentials, the case and the server an upload by SFTP goes by. */
  ghost predicate HasSftpEnv(env: seq<EnvVar>, sftp: SftpSpec) {
    && Lookup(env, "username") == Some(SecretField(sftp.secret, "username"))
    && Lookup(env, "password") == Some(SecretField(sftp.secret, "password"))
    && Lookup(env, "caseid") == Some(Literal(sftp.caseId))
    && Lookup(env, "host") == Some(Literal(if sftp.host.Some? then sftp.host.value else ""))
    && Lookup(env, "internal_user") == Some(Literal(if sftp.internalUser == Some(true) then "true" else "false"))
  }

  lemma UploadEnvHasSftp(spec: Spec, dir: string, proxies: Proxies)
    requires HasSftpUpload(spec)
    ensures HasSftpEnv(UploadEnv(spec, dir, proxies), SftpOf(spec).value)
  {
    var sftp := SftpOf(spec).value;
    var env := UploadEnv(spec, dir, proxies);
    UploadEnvDistinct(spec, dir, proxies);
    PartsAreIn(BaseEnv(), SftpPart(spec), ModeEnv(spec, dir), ProxyEnv(proxies));
    var part := SftpEnv(sftp);
    assert part[0] in part && part[1] in part && part[2] in part && part[3] in part && part[4] in part;
    LookupFinds(env, part[0]);
    LookupFinds(env, part[1]);
    LookupFinds(env, part[2]);
    LookupFinds(env, part[3]);
    LookupFinds(env, part[4]);
  }

  lemma PartsAreIn(a: seq<EnvVar>, b: seq<EnvVar>, c: seq<EnvVar>, d: seq<EnvVar>)
    ensures forall e :: e in a + b + c + d <==> e in a || e in b || e in c || e in d
  {
  }

  /** The cleaned bundle ends up in the directory of the claim that gather wrote to. */
  ghost predicate CleanedInPlace(spec: Spec, ca: string, dir: string) {
    && spec.storage.Some?
    && OutputSource(spec) == Claim(spec.storage.value.volume.claim, false)
    && FindMount(UploadMounts(spec, ca, dir), UPLOAD_PATH)
       == Some(Mount(OUTPUT_VOLUME, UPLOAD_PATH, GatherSubPath(spec, dir), false))
    && FindMount(UploadMounts(spec, ca, dir), OUTPUT_PATH) == Some(GatherMount(spec, dir))
  }

  /**
    With obfuscation on, an admitted spec never loses the cleaned bundle: there is an
    upload container, and it either has the SFTP credentials and case in its environment
    or cleans in place on the persistent volume.
   */
  lemma CleanedBundleIsKept(image: string, operatorImage: string, spec: Spec, ca: string, dir: string, proxies: Proxies)
    requires Admitted(spec) && ObfuscationEnabled(spec.obfuscate)
    ensures UploadContainer(operatorImage, spec, ca, dir, proxies) in CompilePod(image, operatorImage, spec, ca, dir, proxies).containers
    ensures || (spec.upload.Some? && HasSftpEnv(UploadEnv(spec, dir, proxies), spec.upload.value.sftp.value))
            || CleanedInPlace(spec, ca, dir)
  {
    var upload := UploadContainer(operatorImage, spec, ca, dir, proxies);
    LastOfPair(!HasSource(spec.obfuscate), GatherContainer(image, spec, ca, dir), upload);
    if spec.upload.Some? {
      UploadEnvHasSftp(spec, dir, proxies);
    } else {
      UploadMountsAt(spec, ca, dir);
    }
  }

  lemma LastOfPair(g: bool, gather: Container, upload: Container)
    ensures upload in When(g, gather) + When(true, upload)
    ensures forall c | c in When(g, gather) + When(true, upload) :: c == gather || c == upload
  {
    var pair := When(g, gather) + When(true, upload);
    assert pair[|pair| - 1] == upload;
  }

  // ---------- credentials ----------

  ghost predicate EnvReads(env: seq<EnvVar>, secret: string) {
    exists e, field | e in env :: e.value == SecretField(secret, field)
  }

  /** The secrets a pod reads through its environment. */
  ghost predicate ReadsSecret(pod: PodTemplate, secret: string) {
    exists c | c in pod.containers :: EnvReads(c.env, secret)
  }

  lemma PairReads(pod: PodTemplate, g: bool, gather: Container, u: bool, upload: Container, secret: string)
    requires pod.containers == When(g, gather) + When(u, upload) && !EnvReads(gather.env, secret)
    ensures ReadsSecret(pod, secret) <==> u && EnvReads(upload.env, secret)
  {
    if u {
      LastOfPair(g, gather, upload);
    }
  }

  lemma GatherReadsNoSecret(spec: Spec, secret: string)
    ensures !EnvReads(GatherEnv(spec), secret)
  {
  }

  lemma UploadEnvSecrets(spec: Spec, dir: string, proxies: Proxies, e: EnvVar)
    requires e in UploadEnv(spec, dir, proxies) && e.value.SecretField?
    ensures HasSftpUpload(spec) && e.value.secret == SftpOf(spec).value.secret
  {
    OnlySftpPartReads(spec, dir, proxies, e);
  }

  lemma OnlySftpPartReads(spec: Spec, dir: string, proxies: Proxies, e: EnvVar)
    requires e in UploadEnv(spec, dir, proxies) && e.value.SecretField?
    ensures e in SftpPart(spec)
  {
  }

  lemma {:induction false} LookedUpIsIn(env: seq<EnvVar>, name: string)
    requires Lookup(env, name).Some?
    ensures exists e :: e in env && e.name == name && e.value == Lookup(env, name).value
  {
    if env[0].name == name {
      assert env[0] in env;
    } else {
      LookedUpIsIn(env[1..], name);
    }
  }

  lemma UploadReads(spec: Spec, dir: string, proxies: Proxies, secret: string)
    ensures EnvReads(UploadEnv(spec, dir, proxies), secret) <==> HasSftpUpload(spec) && SftpOf(spec).value.secret == secret
  {
    if EnvReads(UploadEnv(spec, dir, proxies), secret) {
      var e, field :| e in UploadEnv(spec, dir, proxies) && e.value == SecretField(secret, field);
      UploadEnvSecrets(spec, dir, proxies, e);
    }
    if HasSftpUpload(spec) && SftpOf(spec).value.secret == secret {
      UploadEnvHasSftp(spec, dir, proxies);
      LookedUpIsIn(UploadEnv(spec, dir, proxies), "username");
    }
  }

  /** The only secret a compiled pod reads is the one its SFTP upload names. */
  lemma CompiledPodSecrets(image: string, operatorImage: string, spec: Spec, ca: string, dir: string, proxies: Proxies, secret: string)
    ensures ReadsSecret(CompilePod(image, operatorImage, spec, ca, dir, proxies), secret)
            <==> HasSftpUpload(spec) && SftpOf(spec).value.secret == secret
  {
    GatherReadsNoSecret(spec, secret);
    UploadReads(spec, dir, proxies, secret);
    PairReads(CompilePod(image, operatorImage, spec, ca, dir, proxies),
              !HasSource(spec.obfuscate), GatherContainer(image, spec, ca, dir),
              NeedsUpload(spec), UploadContainer(operatorImage, spec, ca, dir, proxies), secret);
  }
}
