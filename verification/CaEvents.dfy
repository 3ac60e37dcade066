/**
  Events of ConfigMaps, and why those of the operator's own copies wake nobody.
 */
module CaEvents {
  import opened Api
  import opened JobTemplate
  import opened Cluster
  import opened Plan
  import opened Protocol
  import opened Environment
  import opened Wakeups
  import opened Runs
  import opened Theorems

  /** A change of one ConfigMap wakes exactly the controllers it has before and after, and only under the trusted CA's name. */
  lemma ConfigMapEventWakes(cfg: Config, c: Cluster, c': Cluster, at: Key, k: Key)
    requires c' == c.(configMaps := c'.configMaps)
    requires forall x | x != at :: (x in c.configMaps <==> x in c'.configMaps) && (x in c.configMaps ==> c'.configMaps[x] == c.configMaps[x])
    ensures k in Wakes(cfg, c, c')
            <==> ConfigMapPasses(cfg, c, c', at) && (ConfigMapController(c, at) == Some(k) || ConfigMapController(c', at) == Some(k))
  {
    assert forall x | ConfigMapPasses(cfg, c, c', x) :: x == at;
  }

  /** A user who puts a ConfigMap in the copy's place can have it wake whom they like. */
  lemma PlacedCopyWakes(cfg: Config, c: Cluster, k: Key, uid: Uid, labels: map<string, string>, data: map<string, string>)
    requires NeedsCa(cfg, k.ns) && CaKey(cfg, k.ns) !in c.configMaps
    ensures var put := PutConfigMap(CaKey(cfg, k.ns), ConfigMap([OwnerRef(MUST_GATHER_KIND, k.name, uid, true)], labels, data));
            Allowed(cfg, c, put) && k in Wakes(cfg, c, Perform(c, put))
  {
    var at := CaKey(cfg, k.ns);
    var put := PutConfigMap(at, ConfigMap([OwnerRef(MUST_GATHER_KIND, k.name, uid, true)], labels, data));
    ConfigMapEventWakes(cfg, c, Perform(c, put), at, k);
  }

  // ---------- copies without a controller ----------

  ghost predicate NoController(owners: seq<OwnerRef>) {
    forall r | r in owners :: !r.controller
  }

  lemma {:induction false} NoControllerNobody(owners: seq<OwnerRef>)
    requires NoController(owners)
    ensures FirstController(owners) == None
  {
    if owners != [] {
      assert owners[0] in owners && forall r | r in owners[1..] :: r in owners;
      NoControllerNobody(owners[1..]);
    }
  }

  /** There is no ConfigMap, or one that nobody controls. */
  ghost predicate Uncontrolled(c: Cluster, at: Key) {
    at in c.configMaps ==> NoController(c.configMaps[at].owners)
  }

  lemma UncontrolledWakesNobody(cfg: Config, c: Cluster, c': Cluster, at: Key)
    requires Uncontrolled(c, at) && Uncontrolled(c', at)
    requires forall x | x != at :: (x in c.configMaps <==> x in c'.configMaps) && (x in c.configMaps ==> c'.configMaps[x] == c.configMaps[x])
    ensures ConfigMapsWake(cfg, c, c') == {}
  {
    if at in c.configMaps {
      NoControllerNobody(c.configMaps[at].owners);
    }
    if at in c'.configMaps {
      NoControllerNobody(c'.configMaps[at].owners);
    }
    assert forall x | ConfigMapPasses(cfg, c, c', x) :: x == at;
  }

  lemma OtherWriteKeepsConfigMaps(c: Cluster, w: Write)
    requires !w.CreateConfigMap? && !w.SetOwners? && !w.DeleteConfigMap?
    ensures Apply(c, w).configMaps == c.configMaps
  {
  }

  lemma WriteKeepsUncontrolled(cfg: Config, obs: Obs, pod: PodTemplate, c: Cluster, key: Key, w: Write)
    requires Enabled(cfg, obs, pod, c, key, w) && Uncontrolled(c, CaKey(cfg, key.ns))
    ensures Uncontrolled(Apply(c, w), CaKey(cfg, key.ns)) && ConfigMapsWake(cfg, c, Apply(c, w)) == {}
  {
    if !w.CreateConfigMap? && !w.SetOwners? && !w.DeleteConfigMap? {
      OtherWriteKeepsConfigMaps(c, w);
    }
    UncontrolledWakesNobody(cfg, c, Apply(c, w), CaKey(cfg, key.ns));
  }

  lemma {:induction false} LegalKeepsUncontrolled(cfg: Config, obs: Obs, pod: PodTemplate, c: Cluster, key: Key, ws: seq<Write>)
    requires Legal(cfg, obs, pod, c, key, ws) && Uncontrolled(c, CaKey(cfg, key.ns))
    ensures Uncontrolled(ApplyAll(c, ws), CaKey(cfg, key.ns))
  {
    if ws != [] {
      LegalKeepsUncontrolled(cfg, obs, pod, c, key, ws[..|ws| - 1]);
      WriteKeepsUncontrolled(cfg, obs, pod, ApplyAll(c, ws[..|ws| - 1]), key, ws[|ws| - 1]);
    }
  }

  lemma LegalWritesWakeNobody(cfg: Config, obs: Obs, pod: PodTemplate, c: Cluster, key: Key, ws: seq<Write>, n: nat)
    requires Legal(cfg, obs, pod, c, key, ws) && n < |ws| && Uncontrolled(c, CaKey(cfg, key.ns))
    ensures ConfigMapsWake(cfg, ApplyAll(c, ws[..n]), ApplyAll(c, ws[..n + 1])) == {}
  {
    LegalPrefix(cfg, obs, pod, c, key, ws, n);
    LegalKeepsUncontrolled(cfg, obs, pod, c, key, ws[..n]);
    LegalAt(cfg, obs, pod, c, key, ws, n);
    WriteKeepsUncontrolled(cfg, obs, pod, ApplyAll(c, ws[..n]), key, ws[n]);
    assert ws[..n + 1] == ws[..n] + [ws[n]];
    ApplyAllSnoc(c, ws[..n], ws[n]);
  }

  /** A pass changes no copy but that of its own namespace. */
  lemma WriteKeepsOtherCopies(cfg: Config, obs: Obs, pod: PodTemplate, c: Cluster, key: Key, w: Write, at: Key)
    requires Enabled(cfg, obs, pod, c, key, w) && at != CaKey(cfg, key.ns)
    ensures at in Apply(c, w).configMaps <==> at in c.configMaps
    ensures at in c.configMaps ==> Apply(c, w).configMaps[at] == c.configMaps[at]
  {
    if !w.CreateConfigMap? && !w.SetOwners? && !w.DeleteConfigMap? {
      OtherWriteKeepsConfigMaps(c, w);
    }
  }

  lemma {:induction false} LegalKeepsOtherCopies(cfg: Config, obs: Obs, pod: PodTemplate, c: Cluster, key: Key, ws: seq<Write>, at: Key)
    requires Legal(cfg, obs, pod, c, key, ws) && at != CaKey(cfg, key.ns)
    ensures at in ApplyAll(c, ws).configMaps <==> at in c.configMaps
    ensures at in c.configMaps ==> ApplyAll(c, ws).configMaps[at] == c.configMaps[at]
  {
    if ws != [] {
      LegalKeepsOtherCopies(cfg, obs, pod, c, key, ws[..|ws| - 1], at);
      WriteKeepsOtherCopies(cfg, obs, pod, ApplyAll(c, ws[..|ws| - 1]), key, ws[|ws| - 1], at);
    }
  }

  lemma ActionKeepsUncontrolled(cfg: Config, c: Cluster, a: Action, at: Key)
    requires Allowed(cfg, c, a) && IsCaCopy(cfg, at) && at in c.configMaps && Uncontrolled(c, at)
    ensures Uncontrolled(Perform(c, a), at)
    ensures OnConfigMaps(a) && a.key == at ==> ConfigMapsWake(cfg, c, Perform(c, a)) == {}
  {
    if OnConfigMaps(a) {
      ConfigMapActionKeepsUncontrolled(cfg, c, a, at);
    } else {
      ActionKeepsConfigMaps(c, a);
    }
  }

  lemma ConfigMapActionKeepsUncontrolled(cfg: Config, c: Cluster, a: Action, at: Key)
    requires OnConfigMaps(a) && Allowed(cfg, c, a) && IsCaCopy(cfg, at) && at in c.configMaps && Uncontrolled(c, at)
    ensures Uncontrolled(Perform(c, a), at)
    ensures a.key == at ==> ConfigMapsWake(cfg, c, Perform(c, a)) == {}
  {
    if a.key == at {
      assert a.CollectOwners?;
      CollectionKeepsUncontrolled(cfg, c, at);
    }
  }

  lemma CollectionKeepsUncontrolled(cfg: Config, c: Cluster, at: Key)
    requires at in c.configMaps && Uncontrolled(c, at)
    ensures var c' := Perform(c, CollectOwners(at)); Uncontrolled(c', at) && ConfigMapsWake(cfg, c, c') == {}
  {
    UncontrolledWakesNobody(cfg, c, Perform(c, CollectOwners(at)), at);
  }

  lemma ActionKeepsConfigMaps(c: Cluster, a: Action)
    requires !OnConfigMaps(a)
    ensures Perform(c, a).configMaps == c.configMaps
  {
    if OnResources(a) {
      ResourceActionFrame(c, a);
    } else if OnJobs(a) {
      JobActionFrame(c, a);
    } else if OnPods(a) {
      PodActionFrame(c, a);
    } else if a.EditSpec? {
      EditingChangesNothing(c, a.key, a.spec);
    } else {
      assert a.SetInputs?;
    }
  }

  // ---------- over whole runs ----------

  /** The copy that is there at point `n` was made by the operator. */
  ghost predicate OperatorMade(states: seq<System>, labels: seq<Label>, n: nat, at: Key)
    requires n <= |labels| < |states|
  {
    && n > 0 && at in states[n].c.configMaps
    && if at in states[n - 1].c.configMaps then OperatorMade(states, labels, n - 1, at) else labels[n - 1].Writes()
  }

  lemma StepKeepsUncontrolled(cfg: Config, s: System, l: Label, s': System, at: Key)
    requires Step(cfg, s, l, s') && IsCaCopy(cfg, at) && Uncontrolled(s.c, at) && (at in s.c.configMaps || l.Writes())
    ensures Uncontrolled(s'.c, at)
  {
    if l.Writes() {
      StepIsLegal(cfg, s, l, s');
      var pod := PodFor(cfg, l.obs, s.c, l.key);
      if at == CaKey(cfg, l.key.ns) {
        LegalKeepsUncontrolled(cfg, l.obs, pod, s.c, l.key, l.done);
      } else {
        LegalKeepsOtherCopies(cfg, l.obs, pod, s.c, l.key, l.done, at);
      }
    } else if l.Act? {
      ActionKeepsUncontrolled(cfg, s.c, l.action, at);
    }
  }

  /** A copy the operator made never has a controller. */
  lemma {:induction false} OperatorCopiesAreUncontrolled(cfg: Config, states: seq<System>, labels: seq<Label>, n: nat, at: Key)
    requires Run(cfg, states, labels) && n < |states| && IsCaCopy(cfg, at) && OperatorMade(states, labels, n, at)
    ensures Uncontrolled(states[n].c, at)
  {
    if at in states[n - 1].c.configMaps {
      OperatorCopiesAreUncontrolled(cfg, states, labels, n - 1, at);
    }
    assert StepAt(cfg, states, labels, n - 1);
    StepKeepsUncontrolled(cfg, states[n - 1], labels[n - 1], states[n], at);
  }

  /**
    So copies of the operator wake nobody: if the copy of a namespace is absent or was
    made by the operator, no write of a pass in that namespace, creation, update or
    deletion of the copy, wakes anybody through a ConfigMap.
   */
  lemma CopyWritesWakeNobody(cfg: Config, states: seq<System>, labels: seq<Label>, i: nat, n: nat)
    requires Run(cfg, states, labels) && i < |labels| && labels[i].Writes() && n < |labels[i].done|
    requires NeedsCa(cfg, labels[i].key.ns)
    requires var at := CaKey(cfg, labels[i].key.ns); at in states[i].c.configMaps ==> OperatorMade(states, labels, i, at)
    ensures ConfigMapsWake(cfg, ApplyAll(states[i].c, labels[i].done[..n]), ApplyAll(states[i].c, labels[i].done[..n + 1])) == {}
  {
    var l, at := labels[i], CaKey(cfg, labels[i].key.ns);
    if at in states[i].c.configMaps {
      OperatorCopiesAreUncontrolled(cfg, states, labels, i, at);
    }
    assert StepAt(cfg, states, labels, i);
    StepIsLegal(cfg, states[i], l, states[i + 1]);
    LegalWritesWakeNobody(cfg, l.obs, PodFor(cfg, l.obs, states[i].c, l.key), states[i].c, l.key, l.done, n);
  }

  /** Nor does garbage collection, or anybody else who touches a copy the operator made. */
  lemma CopyActionsWakeNobody(cfg: Config, states: seq<System>, labels: seq<Label>, i: nat, at: Key)
    requires Run(cfg, states, labels) && i < |labels| && labels[i].Act? && OnConfigMaps(labels[i].action) && labels[i].action.key == at
    requires IsCaCopy(cfg, at) && OperatorMade(states, labels, i, at)
    ensures ConfigMapsWake(cfg, states[i].c, states[i + 1].c) == {}
  {
    OperatorCopiesAreUncontrolled(cfg, states, labels, i, at);
    assert StepAt(cfg, states, labels, i);
    ActionKeepsUncontrolled(cfg, states[i].c, labels[i].action, at);
  }
}
