/**
  The objects the operator shares with the rest of the cluster, and what each API write
  does to them. Only identity, ownership and the fields the operator reads are kept.
 */
module Cluster {
  import opened Api
  import opened JobController
  import opened JobTemplate

  /** Who made an object: for a Job of the operator, the resource it was made for and whether that one retains. */
  datatype Origin = ByOperator(mg: Uid, retain: bool) | ByOthers

  datatype OwnerRef = OwnerRef(kind: string, name: string, uid: Uid, controller: bool)

  const MUST_GATHER_KIND := "MustGather"

  datatype Job = Job(uid: Uid, origin: Origin, owners: seq<OwnerRef>, backoffLimit: Option<nat>, pod: PodTemplate, status: JobStatus)

  /** `jobUid` and `jobName` are the labels controller-uid and job-name. */
  datatype Pod = Pod(key: Key, origin: Origin, jobName: string, jobUid: Option<Uid>)

  datatype ConfigMap = ConfigMap(owners: seq<OwnerRef>, labels: map<string, string>, data: map<string, string>)

  datatype Tag = Tag(name: string, items: seq<string>)

  datatype Cluster = Cluster(
    mustGathers: map<Key, MustGather>,
    jobs: map<Key, Job>,
    pods: seq<Pod>,
    configMaps: map<Key, ConfigMap>,
    secrets: map<Key, map<string, string>>,
    serviceAccounts: map<Key, ()>,
    imageStreams: map<Key, seq<Tag>>,
    nextUid: Uid,
    gathers: nat,    // the metric counting performed must-gathers
    errors: nat,     // the metric counting must-gathers with errors
    cleaned: nat,    // history: operator Jobs deleted by the operator
    collected: nat)  // history: operator Jobs deleted by garbage collection

  // ---------- ownership ----------

  predicate Owns(owners: seq<OwnerRef>, uid: Uid) {
    exists r | r in owners :: r.uid == uid
  }

  function Without(owners: seq<OwnerRef>, uid: Uid): (rest: seq<OwnerRef>)
    ensures forall r | r in rest :: r in owners && r.uid != uid
    ensures forall r | r in owners && r.uid != uid :: r in rest
  {
    if owners == [] then []
    else
      var front := Without(owners[..|owners| - 1], uid);
      if owners[|owners| - 1].uid == uid then front else front + [owners[|owners| - 1]]
  }

  /** Whether the Job with this key lists this resource as an owner. */
  predicate OwnedJob(c: Cluster, key: Key, uid: Uid) {
    key in c.jobs && Owns(c.jobs[key].owners, uid)
  }

  function PodsOf(pods: seq<Pod>, ns: string, jobUid: Uid): (r: seq<Pod>)
    ensures forall p | p in r :: p in pods && p.key.ns == ns && p.jobUid == Some(jobUid)
    ensures forall p | p in pods && p.key.ns == ns && p.jobUid == Some(jobUid) :: p in r
  {
    if pods == [] then []
    else
      var front := PodsOf(pods[..|pods| - 1], ns, jobUid);
      var p := pods[|pods| - 1];
      if p.key.ns == ns && p.jobUid == Some(jobUid) then front + [p] else front
  }

  function WithoutPod(pods: seq<Pod>, p: Pod): (r: seq<Pod>)
    ensures forall q :: q in r <==> q in pods && q != p
  {
    if pods == [] then []
    else if pods[0] == p then WithoutPod(pods[1..], p)
    else [pods[0]] + WithoutPod(pods[1..], p)
  }

  // ---------- writes ----------

  /** What the operator writes: API calls, and the two counters it keeps in memory. */
  datatype Write =
    | SetFinalizers(key: Key, finalizers: seq<Finalizer>)
    | SetStatus(key: Key, status: Status)
    | CreateConfigMap(key: Key, configMap: ConfigMap)
    | SetOwners(key: Key, owners: seq<OwnerRef>)
    | DeleteConfigMap(key: Key)
    | CreateJob(key: Key, job: Job)
    | DeletePod(pod: Pod)
    | DeleteJob(key: Key)
    | CountGather
    | CountError
  {
    /** Whether the write is an API call, which can fail. */
    predicate IsCall() {
      !CountGather? && !CountError?
    }
  }

  /**
    Whether the API server takes a write: the object it names is there, a create needs
    its name to be free, and the CRD requires `completed` of every status.
   */
  predicate Applicable(c: Cluster, w: Write) {
    match w
    case SetFinalizers(key, _) => key in c.mustGathers
    case SetStatus(key, status) => key in c.mustGathers && status.completed.Some?
    case CreateConfigMap(key, _) => key !in c.configMaps
    case SetOwners(key, _) => key in c.configMaps
    case DeleteConfigMap(key) => key in c.configMaps
    case CreateJob(key, _) => key !in c.jobs
    case DeletePod(p) => p in c.pods
    case DeleteJob(key) => key in c.jobs
    case CountGather => true
    case CountError => true
  }

  /** Removing the last finalizer of a resource marked for deletion removes the resource. */
  function StoreFinalizers(c: Cluster, key: Key, finalizers: seq<Finalizer>): Cluster
    requires key in c.mustGathers
  {
    var mg := c.mustGathers[key];
    if mg.deleting && finalizers == [] then c.(mustGathers := c.mustGathers - {key})
    else c.(mustGathers := c.mustGathers[key := mg.(finalizers := finalizers)])
  }

  /** The effect of a write; one that is not applicable has none. */
  function Apply(c: Cluster, w: Write): Cluster {
    if !Applicable(c, w) then c else
    match w
    case SetFinalizers(key, finalizers) => StoreFinalizers(c, key, finalizers)
    case SetStatus(key, status) => c.(mustGathers := c.mustGathers[key := c.mustGathers[key].(status := Some(status))])
    case CreateConfigMap(key, configMap) => c.(configMaps := c.configMaps[key := configMap])
    case SetOwners(key, owners) => c.(configMaps := c.configMaps[key := c.configMaps[key].(owners := owners)])
    case DeleteConfigMap(key) => c.(configMaps := c.configMaps - {key})
    case CreateJob(key, job) => c.(jobs := c.jobs[key := job.(uid := c.nextUid, status := FRESH)], nextUid := c.nextUid + 1)
    case DeletePod(p) => c.(pods := WithoutPod(c.pods, p))
    case DeleteJob(key) =>
      c.(jobs := c.jobs - {key}, cleaned := c.cleaned + if c.jobs[key].origin.ByOperator? then 1 else 0)
    case CountGather => c.(gathers := c.gathers + 1)
    case CountError => c.(errors := c.errors + 1)
  }

  function ApplyAll(c: Cluster, ws: seq<Write>): Cluster {
    if ws == [] then c else Apply(ApplyAll(c, ws[..|ws| - 1]), ws[|ws| - 1])
  }

  lemma {:induction false} ApplyAllConcat(c: Cluster, a: seq<Write>, b: seq<Write>)
    ensures ApplyAll(c, a + b) == ApplyAll(ApplyAll(c, a), b)
  {
    if b == [] {
      assert a + b == a;
    } else {
      ApplyAllConcat(c, a, b[..|b| - 1]);
      assert (a + b)[..|a + b| - 1] == a + b[..|b| - 1];
    }
  }

  lemma ApplyAllSnoc(c: Cluster, ws: seq<Write>, w: Write)
    ensures ApplyAll(c, ws + [w]) == Apply(ApplyAll(c, ws), w)
  {
    assert (ws + [w])[..|ws|] == ws;
  }

  lemma ApplyOne(c: Cluster, w: Write)
    ensures ApplyAll(c, [w]) == Apply(c, w)
  {
    assert [w][..0] == [];
    assert ApplyAll(c, []) == c;
  }
}
