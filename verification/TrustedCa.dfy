/**
  The shared copy of the trusted CA: its owner list is a reference count.
 */
module TrustedCa {
  import opened Api
  import opened Cluster
  import opened Plan
  import opened Protocol
  import opened Environment

  /** A call for an instance in the namespace; one that does not go through changes nothing. */
  datatype CaCall = Ensure(name: string, uid: Uid, through: bool) | Cleanup(uid: Uid, through: bool)

  function Effect(cfg: Config, c: Cluster, ns: string, call: CaCall): Cluster {
    match call
    case Ensure(name, uid, through) => if through then ApplyAll(c, EnsurePlan(cfg, c, Key(ns, name), uid).writes) else c
    case Cleanup(uid, through) => if through then ApplyAll(c, ReleasePlan(cfg, c, ns, uid)) else c
  }

  function Effects(cfg: Config, c: Cluster, ns: string, calls: seq<CaCall>): Cluster {
    if calls == [] then c else Effect(cfg, Effects(cfg, c, ns, calls[..|calls| - 1]), ns, calls[|calls| - 1])
  }

  /** The instances whose last call that went through was an ensure. */
  function Holders(calls: seq<CaCall>): set<Uid> {
    if calls == [] then {}
    else
      var before := Holders(calls[..|calls| - 1]);
      match calls[|calls| - 1]
      case Ensure(_, uid, through) => if through then before + {uid} else before
      case Cleanup(uid, through) => if through then before - {uid} else before
  }

  ghost predicate Distinct(owners: seq<OwnerRef>) {
    forall i, j | 0 <= i < j < |owners| :: owners[i].uid != owners[j].uid
  }

  /** The copy is there iff somebody holds it, and then it lists its holders, each once. */
  ghost predicate Counts(cfg: Config, c: Cluster, ns: string, holders: set<Uid>) {
    var at, source := CaKey(cfg, ns), CaKey(cfg, cfg.namespace);
    && source in c.configMaps
    && (at in c.configMaps <==> holders != {})
    && (at in c.configMaps ==>
          && Distinct(c.configMaps[at].owners)
          && (forall uid :: Owns(c.configMaps[at].owners, uid) <==> uid in holders)
          && c.configMaps[at].data == c.configMaps[source].data)
  }

  lemma {:induction false} WithoutKeepsDistinct(owners: seq<OwnerRef>, uid: Uid)
    requires Distinct(owners)
    ensures Distinct(Without(owners, uid))
  {
    if owners != [] {
      var front, last := owners[..|owners| - 1], owners[|owners| - 1];
      WithoutKeepsDistinct(front, uid);
      forall r | r in Without(front, uid) ensures r.uid != last.uid {
        assert r in front;
      }
    }
  }

  lemma OwnsAfterAppend(owners: seq<OwnerRef>, r: OwnerRef, uid: Uid)
    ensures Owns(owners + [r], uid) <==> Owns(owners, uid) || uid == r.uid
  {
    if Owns(owners, uid) {
      var o :| o in owners && o.uid == uid;
      assert o in owners + [r];
    }
    assert (owners + [r])[|owners|] == r;
  }

  lemma EnsureCounts(cfg: Config, c: Cluster, ns: string, name: string, uid: Uid, holders: set<Uid>)
    requires NeedsCa(cfg, ns) && Counts(cfg, c, ns, holders)
    ensures Counts(cfg, ApplyAll(c, EnsurePlan(cfg, c, Key(ns, name), uid).writes), ns, holders + {uid})
  {
    var at := CaKey(cfg, ns);
    var ws := EnsurePlan(cfg, c, Key(ns, name), uid).writes;
    if ws == [] {
      assert holders + {uid} == holders;
    } else {
      ApplyOne(c, ws[0]);
      assert ws == [ws[0]];
      var c' := Apply(c, ws[0]);
      OwnerCounts(cfg, c, Apply(c, ws[0]), ns, CaRef(Key(ns, name), uid), holders);
    }
  }

  /** One more owner, who was none before. */
  lemma OwnerCounts(cfg: Config, c: Cluster, c': Cluster, ns: string, r: OwnerRef, holders: set<Uid>)
    requires NeedsCa(cfg, ns) && Counts(cfg, c, ns, holders)
    requires var at, source := CaKey(cfg, ns), CaKey(cfg, cfg.namespace);
             var before := if at in c.configMaps then c.configMaps[at].owners else [];
             && !Owns(before, r.uid) && at in c'.configMaps && c'.configMaps[at].owners == before + [r]
             && source in c'.configMaps && c'.configMaps[source] == c.configMaps[source]
             && c'.configMaps[at].data == c.configMaps[source].data
    ensures Counts(cfg, c', ns, holders + {r.uid})
  {
    var at := CaKey(cfg, ns);
    var before := if at in c.configMaps then c.configMaps[at].owners else [];
    forall u ensures Owns(before + [r], u) <==> u in holders + {r.uid} {
      OwnsAfterAppend(before, r, u);
    }
    forall i | 0 <= i < |before| ensures before[i].uid != r.uid {
      assert before[i] in before;
    }
  }

  lemma CleanupCounts(cfg: Config, c: Cluster, ns: string, uid: Uid, holders: set<Uid>)
    requires NeedsCa(cfg, ns) && Counts(cfg, c, ns, holders)
    ensures Counts(cfg, ApplyAll(c, ReleasePlan(cfg, c, ns, uid)), ns, holders - {uid})
  {
    var at := CaKey(cfg, ns);
    var ws := ReleasePlan(cfg, c, ns, uid);
    if ws == [] {
      assert holders - {uid} == holders;
    } else {
      ApplyOne(c, ws[0]);
      assert ws == [ws[0]];
      var owners := c.configMaps[at].owners;
      var rest := Without(owners, uid);
      WithoutKeepsDistinct(owners, uid);
      forall u ensures Owns(rest, u) <==> u in holders - {uid} {
        if u in holders - {uid} {
          var o :| o in owners && o.uid == u;
          assert o in rest;
        }
      }
      if rest != [] {
        assert Owns(rest, rest[0].uid);
      }
    }
  }

  /**
    Over every sequence of calls by any number of instances, starting without a copy:
    the copy exists exactly while somebody holds it, carries the operator's data, and
    its owners are the instances whose last call was an ensure, each listed once.
   */
  lemma {:induction false} OwnersAreAReferenceCount(cfg: Config, c: Cluster, ns: string, calls: seq<CaCall>)
    requires NeedsCa(cfg, ns) && CaKey(cfg, cfg.namespace) in c.configMaps && CaKey(cfg, ns) !in c.configMaps
    ensures Counts(cfg, Effects(cfg, c, ns, calls), ns, Holders(calls))
  {
    if calls != [] {
      var front := calls[..|calls| - 1];
      OwnersAreAReferenceCount(cfg, c, ns, front);
      var c1 := Effects(cfg, c, ns, front);
      match calls[|calls| - 1]
      case Ensure(name, uid, through) =>
        if through {
          EnsureCounts(cfg, c1, ns, name, uid, Holders(front));
        }
      case Cleanup(uid, through) =>
        if through {
          CleanupCounts(cfg, c1, ns, uid, Holders(front));
        }
    }
  }

  /**
    The cleanup of a run gives up the hold exactly when it finds a Job of the instance:
    without one the owner reference stays behind.
   */
  lemma CleanupReleasesIff(cfg: Config, c: Cluster, key: Key, uid: Uid)
    requires NeedsCa(cfg, key.ns)
    ensures HoldsCa(cfg, ApplyAll(c, CleanupPlan(cfg, c, key, uid)), key.ns, uid)
            <==> HoldsCa(cfg, c, key.ns, uid) && !OwnedJob(c, key, uid)
  {
    if OwnedJob(c, key, uid) {
      var pods := PodsOf(c.pods, key.ns, c.jobs[key].uid);
      var release := ReleasePlan(cfg, c, key.ns, uid);
      PodDeletionsFrame(c, pods);
      ApplyAllSnoc(c, PodDeletions(pods), DeleteJob(key));
      var c1 := ApplyAll(c, PodDeletions(pods) + [DeleteJob(key)]);
      ApplyAllConcat(c, PodDeletions(pods) + [DeleteJob(key)], release);
      ReleaseDependsOnConfigMaps(cfg, c, c1, key.ns, uid);
      ReleaseLetsGo(cfg, c1, key.ns, uid);
    }
  }

  /** A hold is taken as a MustGather of this name, not as a controller; one that was there stays as it was. */
  lemma HoldIsTaken(cfg: Config, c: Cluster, key: Key, uid: Uid)
    requires cfg.trustedCa != "" && key.ns != cfg.namespace && Key(cfg.namespace, cfg.trustedCa) in c.configMaps
    ensures var at := Key(key.ns, cfg.trustedCa); var plan := EnsurePlan(cfg, c, key, uid); var c' := ApplyAll(c, plan.writes);
            && plan.ok && at in c'.configMaps
            && (HoldsCa(cfg, c, key.ns, uid) ==> c' == c)
            && (!HoldsCa(cfg, c, key.ns, uid) ==>
                  c'.configMaps[at].owners == (if at in c.configMaps then c.configMaps[at].owners else [])
                                              + [OwnerRef("MustGather", key.name, uid, false)])
            && (at !in c.configMaps ==> c'.configMaps[at].data == c.configMaps[Key(cfg.namespace, cfg.trustedCa)].data
                                        && c'.configMaps[at].labels == c.configMaps[Key(cfg.namespace, cfg.trustedCa)].labels)
  {
    var ws := EnsurePlan(cfg, c, key, uid).writes;
    if ws == [] {
      assert ApplyAll(c, ws) == c;
    } else {
      ApplyOne(c, ws[0]);
      assert ws == [ws[0]];
    }
  }

  /** Whoever holds the copy in `ns`, holds it as a MustGather. */
  ghost predicate HoldersAreMustGathers(cfg: Config, c: Cluster, ns: string, uid: Uid) {
    CaKey(cfg, ns) in c.configMaps ==> forall r | r in c.configMaps[CaKey(cfg, ns)].owners && r.uid == uid :: r.kind == "MustGather"
  }

  /** A hold whose holder is gone is there to be collected, and collection drops it and no hold of anybody who is left. */
  lemma DeadHoldsAreCollected(cfg: Config, c: Cluster, ns: string, uid: Uid)
    requires HoldsCa(cfg, c, ns, uid) && !Alive(c, uid) && HoldersAreMustGathers(cfg, c, ns, uid)
    ensures var collect := CollectOwners(CaKey(cfg, ns));
            && Allowed(cfg, c, collect) && !HoldsCa(cfg, Perform(c, collect), ns, uid)
            && forall other | Alive(c, other) && HoldsCa(cfg, c, ns, other) :: HoldsCa(cfg, Perform(c, collect), ns, other)
  {
    var at := CaKey(cfg, ns);
    var r :| r in c.configMaps[at].owners && r.uid == uid;
    assert Dangling(c, r) && r !in LiveOwners(c, c.configMaps[at].owners);
    forall other | Alive(c, other) && HoldsCa(cfg, c, ns, other) ensures HoldsCa(cfg, Perform(c, CollectOwners(at)), ns, other) {
      CollectionKeepsHolds(cfg, c, at, ns, other);
    }
  }

  lemma ReleaseLetsGo(cfg: Config, c: Cluster, ns: string, uid: Uid)
    requires NeedsCa(cfg, ns)
    ensures !HoldsCa(cfg, ApplyAll(c, ReleasePlan(cfg, c, ns, uid)), ns, uid)
  {
    var ws := ReleasePlan(cfg, c, ns, uid);
    if ws != [] {
      ApplyOne(c, ws[0]);
      assert ws == [ws[0]];
    }
  }
}
