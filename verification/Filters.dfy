/**
  What the event filters keep out. A change of one object wakes whom it should and
  nobody else; in particular no report of a pass puts its own resource back in the queue.
 */
module Filters {
  import opened Api
  import opened JobController
  import opened JobTemplate
  import opened Cluster
  import opened Plan
  import opened Protocol
  import opened Environment
  import opened Wakeups
  import opened Runs
  import opened CaEvents

  /** A change of one resource wakes it, and only it, and only if it comes, goes, or changes its generation or its finalizers. */
  lemma ResourceEventWakes(cfg: Config, c: Cluster, c': Cluster, k: Key, x: Key)
    requires c' == c.(mustGathers := c'.mustGathers)
    requires forall j | j != k :: (j in c'.mustGathers <==> j in c.mustGathers) && (j in c.mustGathers ==> c'.mustGathers[j] == c.mustGathers[j])
    ensures x in Wakes(cfg, c, c')
            <==> && x == k
                 && if k in c.mustGathers && k in c'.mustGathers then
                      || c.mustGathers[k].generation != c'.mustGathers[k].generation
                      || c.mustGathers[k].finalizers != c'.mustGathers[k].finalizers
                    else k in c.mustGathers || k in c'.mustGathers
  {
    assert k in c.mustGathers || k in c'.mustGathers ==> k in c.mustGathers.Keys + c'.mustGathers.Keys;
  }

  /** So a report wakes nobody, whatever it says. */
  lemma StatusWakesNobody(cfg: Config, c: Cluster, k: Key, status: Option<Status>)
    requires k in c.mustGathers
    ensures Wakes(cfg, c, c.(mustGathers := c.mustGathers[k := c.mustGathers[k].(status := status)])) == {}
  {
    var c' := c.(mustGathers := c.mustGathers[k := c.mustGathers[k].(status := status)]);
    forall x ensures x !in Wakes(cfg, c, c') {
      ResourceEventWakes(cfg, c, c', k, x);
    }
  }

  /** The MustGather of this name is the first controller among the owners. */
  ghost predicate ControlledBy(owners: seq<OwnerRef>, name: string) {
    exists i :: 0 <= i < |owners| && owners[i].controller && owners[i].kind == "MustGather" && owners[i].name == name
                && forall j | 0 <= j < i :: !owners[j].controller
  }

  lemma {:induction false} ControllerIsFirst(owners: seq<OwnerRef>, ns: string, x: Key)
    ensures ControllerIn(ns, owners) == Some(x) <==> x.ns == ns && ControlledBy(owners, x.name)
  {
    if owners != [] && !owners[0].controller {
      ControllerIsFirst(owners[1..], ns, x);
      assert ControlledBy(owners[1..], x.name) <==> ControlledBy(owners, x.name) by {
        ControlledBehind(owners, x.name);
      }
    } else if owners != [] && owners[0].kind == MUST_GATHER_KIND && owners[0].name == x.name {
      assert ControlledBy(owners, x.name);
    }
  }

  lemma ControlledBehind(owners: seq<OwnerRef>, name: string)
    requires owners != [] && !owners[0].controller
    ensures ControlledBy(owners[1..], name) <==> ControlledBy(owners, name)
  {
    if ControlledBy(owners, name) {
      var i :| 0 <= i < |owners| && owners[i].controller && owners[i].kind == "MustGather" && owners[i].name == name
               && forall j | 0 <= j < i :: !owners[j].controller;
      assert owners[1..][i - 1] == owners[i] && forall j | 0 <= j < i - 1 :: owners[1..][j] == owners[j + 1];
    }
    if ControlledBy(owners[1..], name) {
      var i :| 0 <= i < |owners| - 1 && owners[1..][i].controller && owners[1..][i].kind == "MustGather" && owners[1..][i].name == name
               && forall j | 0 <= j < i :: !owners[1..][j].controller;
      assert owners[i + 1] == owners[1..][i] && forall j | 0 < j < i + 1 :: owners[j] == owners[1..][j - 1];
    }
  }

  /** A change of one Job wakes the MustGather that controls it, and only if the Job stays and its status changes. */
  lemma JobEventWakes(cfg: Config, c: Cluster, c': Cluster, k: Key, x: Key)
    requires c' == c.(jobs := c'.jobs)
    requires forall j | j != k :: (j in c'.jobs <==> j in c.jobs) && (j in c.jobs ==> c'.jobs[j] == c.jobs[j])
    ensures x in Wakes(cfg, c, c')
            <==> && k in c.jobs && k in c'.jobs && c.jobs[k].uid == c'.jobs[k].uid && c.jobs[k].status != c'.jobs[k].status
                 && x.ns == k.ns && ControlledBy(c'.jobs[k].owners, x.name)
  {
    if k in c'.jobs {
      ControllerIsFirst(c'.jobs[k].owners, k.ns, x);
    }
    OnlyThisJob(cfg, c, c', k, x);
  }

  lemma OnlyThisJob(cfg: Config, c: Cluster, c': Cluster, k: Key, x: Key)
    requires c' == c.(jobs := c'.jobs)
    requires forall j | j != k :: (j in c'.jobs <==> j in c.jobs) && (j in c.jobs ==> c'.jobs[j] == c.jobs[j])
    ensures x in Wakes(cfg, c, c')
            <==> && k in c.jobs && k in c'.jobs && c.jobs[k].uid == c'.jobs[k].uid && c.jobs[k].status != c'.jobs[k].status
                 && Controller(k, c'.jobs[k]) == Some(x)
  {
    assert forall j | j in c.jobs && JobWakes(c, c', j) :: j == k;
  }

  // ---------- passes ----------

  /** Where there is a copy of the trusted CA, nobody controls it. */
  ghost predicate CopyUncontrolled(cfg: Config, c: Cluster, ns: string) {
    NeedsCa(cfg, ns) ==> Uncontrolled(c, CaKey(cfg, ns))
  }

  lemma JobWriteWakesNobody(cfg: Config, c: Cluster, c': Cluster)
    requires c'.mustGathers == c.mustGathers && c'.configMaps == c.configMaps
    requires forall j | j in c.jobs && j in c'.jobs :: c'.jobs[j] == c.jobs[j]
    ensures Wakes(cfg, c, c') == {}
  {
  }

  lemma JobWriteKeepsJobs(c: Cluster, w: Write)
    requires w.CreateJob? || w.DeleteJob?
    ensures var c' := Apply(c, w);
            && c'.mustGathers == c.mustGathers && c'.configMaps == c.configMaps
            && forall j | j in c.jobs && j in c'.jobs :: c'.jobs[j] == c.jobs[j]
  {
  }

  lemma QuietWrite(cfg: Config, obs: Obs, pod: PodTemplate, c: Cluster, key: Key, w: Write)
    requires Enabled(cfg, obs, pod, c, key, w) && !w.SetFinalizers? && CopyUncontrolled(cfg, c, key.ns)
    ensures Wakes(cfg, c, Apply(c, w)) == {} && CopyUncontrolled(cfg, Apply(c, w), key.ns)
  {
    if w.SetStatus? {
      StatusWakesNobody(cfg, c, w.key, Some(w.status));
    } else if w.CreateJob? || w.DeleteJob? {
      JobWriteKeepsJobs(c, w);
      JobWriteWakesNobody(cfg, c, Apply(c, w));
    } else if w.CreateConfigMap? || w.SetOwners? || w.DeleteConfigMap? {
      QuietConfigMapWrite(cfg, obs, pod, c, key, w);
    } else {
      WriteLeavesResources(c, w);
      WriteKeepsJobs(c, w);
      OtherWriteKeepsConfigMaps(c, w);
    }
  }

  lemma QuietConfigMapWrite(cfg: Config, obs: Obs, pod: PodTemplate, c: Cluster, key: Key, w: Write)
    requires Enabled(cfg, obs, pod, c, key, w) && CopyUncontrolled(cfg, c, key.ns)
    requires w.CreateConfigMap? || w.SetOwners? || w.DeleteConfigMap?
    ensures Wakes(cfg, c, Apply(c, w)) == {} && CopyUncontrolled(cfg, Apply(c, w), key.ns)
  {
    WriteLeavesResources(c, w);
    WriteKeepsJobs(c, w);
    WriteKeepsUncontrolled(cfg, obs, pod, c, key, w);
  }

  lemma {:induction false} QuietWrites(cfg: Config, obs: Obs, pod: PodTemplate, c: Cluster, key: Key, ws: seq<Write>)
    requires Legal(cfg, obs, pod, c, key, ws) && CopyUncontrolled(cfg, c, key.ns)
    requires forall w | w in ws :: !w.SetFinalizers?
    ensures WokenBy(cfg, c, ws) == {} && CopyUncontrolled(cfg, ApplyAll(c, ws), key.ns)
  {
    if ws != [] {
      var front := ws[..|ws| - 1];
      assert ws[|ws| - 1] in ws && forall w | w in front :: w in ws;
      QuietWrites(cfg, obs, pod, c, key, front);
      QuietWrite(cfg, obs, pod, ApplyAll(c, front), key, ws[|ws| - 1]);
    }
  }

  /**
    In every run, a pass that leaves the finalizers alone wakes nobody: whatever it
    reports, creates, deletes and releases, its resource is back in the queue iff the
    pass ends with an error, and nobody else comes into it. (The copy of the trusted CA
    in its namespace, if there is one, must be the operator's.)
   */
  lemma QuietPassRests(cfg: Config, states: seq<System>, labels: seq<Label>, i: nat)
    requires Run(cfg, states, labels) && i < |labels| && labels[i].Pass?
    requires forall w | w in labels[i].done :: !w.SetFinalizers?
    requires var at := CaKey(cfg, labels[i].key.ns); at in states[i].c.configMaps && NeedsCa(cfg, at.ns) ==> OperatorMade(states, labels, i, at)
    ensures states[i + 1].queue == states[i].queue - {labels[i].key} + if labels[i].ok then {} else {labels[i].key}
  {
    var l, at := labels[i], CaKey(cfg, labels[i].key.ns);
    if at in states[i].c.configMaps && NeedsCa(cfg, at.ns) {
      OperatorCopiesAreUncontrolled(cfg, states, labels, i, at);
    }
    assert StepAt(cfg, states, labels, i);
    StepIsLegal(cfg, states[i], l, states[i + 1]);
    QuietWrites(cfg, l.obs, PodFor(cfg, l.obs, states[i].c, l.key), states[i].c, l.key, l.done);
  }
}
