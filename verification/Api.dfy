/**
  The MustGather custom resource: its spec, the admission rules the CRD puts on it
  and its status.

  A Go pointer or an optional field is an `Option`. Fixed texts that the operator
  writes (finalizer name, phases, reasons, messages) are constructors, so that two
  of them are equal exactly when the texts are.
 */
module Api {

  datatype Option<+T> = None | Some(value: T)

  datatype Key = Key(ns: string, name: string)

  /** Object identity. The API server hands these out in increasing order and never twice. */
  type Uid = nat

  function Deref(s: Option<string>): string {
    if s.Some? then s.value else ""
  }

  // ---------- spec ----------

  datatype ImageStreamTagRef = ImageStreamTagRef(name: string, tag: string)

  datatype GatherSpec = GatherSpec(
    audit: Option<bool>, command: Option<seq<string>>, args: seq<string>,
    since: Option<int>, sinceTime: Option<string>)

  datatype SftpSpec = SftpSpec(caseId: string, secret: string, internalUser: Option<bool>, host: Option<string>)

  datatype UploadTarget = UploadTarget(kind: string, sftp: Option<SftpSpec>)

  datatype VolumeConfig = VolumeConfig(claim: string, subPath: Option<string>)

  datatype Storage = Storage(kind: string, volume: VolumeConfig)

  datatype Obfuscation = Obfuscation(enabled: Option<bool>, configRef: Option<string>, source: Option<VolumeConfig>)

  datatype Spec = Spec(
    serviceAccount: string,
    imageStream: Option<ImageStreamTagRef>,
    gather: Option<GatherSpec>,
    timeout: Option<int>,
    upload: Option<UploadTarget>,
    retain: Option<bool>,
    storage: Option<Storage>,
    obfuscate: Option<Obfuscation>)

  const UPLOAD_TYPE_SFTP := "SFTP"
  const STORAGE_TYPE_PV := "PersistentVolume"

  predicate IsTrue(b: Option<bool>) {
    b == Some(true)
  }

  predicate Retains(spec: Spec) {
    IsTrue(spec.retain)
  }

  // ---------- admission ----------

  predicate HasDotDot(s: string) {
    exists i | 0 <= i < |s| - 1 :: s[i] == '.' && s[i + 1] == '.'
  }

  predicate AdmittedVolume(v: VolumeConfig) {
    && v.claim != ""
    && (v.subPath.Some? ==> !HasDotDot(v.subPath.value))
  }

  predicate AdmittedUpload(u: UploadTarget) {
    && u.kind == UPLOAD_TYPE_SFTP
    && u.sftp.Some?
    && u.sftp.value.caseId != ""
    && u.sftp.value.secret != ""
  }

  predicate AdmittedObfuscation(spec: Spec, o: Obfuscation) {
    && (o.configRef.Some? ==> o.configRef.value != "")
    && (o.source.Some? ==> AdmittedVolume(o.source.value))
    // enabled needs somewhere to put the cleaned bundle
    && (IsTrue(o.enabled) ==> spec.upload.Some? || o.source.Some? || spec.storage.Some?)
    // a source needs obfuscation, an upload target, and excludes every gather option
    && (o.source.Some? ==>
          && IsTrue(o.enabled)
          && spec.upload.Some?
          && spec.imageStream.None?
          && (spec.gather.Some? ==> spec.gather.value.command.None? && !IsTrue(spec.gather.value.audit)))
  }

  /** The CRD validation rules: what the API server lets through. */
  predicate Admitted(spec: Spec) {
    && spec.serviceAccount != ""
    && (spec.imageStream.Some? ==> spec.imageStream.value.name != "" && spec.imageStream.value.tag != "")
    && (spec.gather.Some? ==>
          var g := spec.gather.value;
          && (IsTrue(g.audit) ==> spec.imageStream.None? && (g.command.None? || g.command.value == []))
          && !(g.since.Some? && g.sinceTime.Some?))
    && (spec.upload.Some? ==> AdmittedUpload(spec.upload.value))
    && (spec.storage.Some? ==> spec.storage.value.kind == STORAGE_TYPE_PV && AdmittedVolume(spec.storage.value.volume))
    && (spec.obfuscate.Some? ==> AdmittedObfuscation(spec, spec.obfuscate.value))
  }

  // ---------- status ----------

  datatype Phase = Completed | Failed

  datatype ImageFault = StreamUnavailable | TagNotFound | TagNotPullable

  /** Why a pass gave up for good: the text behind "<kind> validation failed: <detail>". */
  datatype Validation =
    | OperatorAccount(account: string)
    | ServiceAccountMissing(account: string)
    | ImageInvalid(fault: ImageFault)
    | UsernameMissing(secret: string)
    | PasswordMissing(secret: string)
    | SftpUnreachable

  datatype Reason = JobSucceeded | JobFailed | Invalid(why: Validation)

  /** What a retried pass complains about in its condition. */
  datatype Issue =
    | TrustedCaFailed | ObfuscationConfigMissing | JobLookupFailed | NoOperatorImage
    | SecretMissing(secret: string) | JobCreateFailed | StatusUpdateFailed | FinalizerUpdateFailed | CleanupFailed

  datatype ConditionType = ReconcileSuccess | ReconcileError

  datatype Condition = CycleSucceeded(observed: nat) | CycleFailed(issue: Issue, observed: nat) | ValidationFailed(why: Validation, observed: nat)

  datatype Status = Status(
    phase: Option<Phase>, completed: Option<bool>, reason: Option<Reason>,
    conditions: map<ConditionType, Condition>)

  const EMPTY_STATUS := Status(None, None, None, map[])

  function Base(st: Option<Status>): Status {
    if st.Some? then st.value else EMPTY_STATUS
  }

  /** The part of the status that reports the outcome, conditions aside. */
  datatype Report = Report(phase: Option<Phase>, completed: Option<bool>, reason: Option<Reason>)

  function ReportOf(st: Option<Status>): Report {
    Report(Base(st).phase, Base(st).completed, Base(st).reason)
  }

  function WithCondition(st: Option<Status>, t: ConditionType, c: Condition): Status {
    Base(st).(conditions := Base(st).conditions[t := c])
  }

  function ErrorStatus(st: Option<Status>, generation: nat, issue: Issue): Status {
    WithCondition(st, ReconcileError, CycleFailed(issue, generation))
  }

  function SuccessStatus(st: Option<Status>, generation: nat): Status {
    WithCondition(st, ReconcileSuccess, CycleSucceeded(generation))
  }

  // ---------- object ----------

  datatype Finalizer = OperatorFinalizer | OtherFinalizer(name: string)

  datatype MustGather = MustGather(
    uid: Uid, generation: nat, deleting: bool, finalizers: seq<Finalizer>, spec: Spec, status: Option<Status>)
}
