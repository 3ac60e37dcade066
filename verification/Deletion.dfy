/**
  Deletion converges: a resource marked for deletion needs at most one pass more than
  there are failing calls in its passes, whatever else happens in between.
 */
module Deletion {
  import opened Api
  import opened JobTemplate
  import opened Cluster
  import opened Plan
  import opened Protocol
  import opened Invariants
  import opened Environment
  import opened Runs
  import Theorems

  /** The identity is taken; the resource that has it, if still stored, has this name and is marked for deletion. */
  ghost predicate Doomed(c: Cluster, key: Key, uid: Uid) {
    uid < c.nextUid && forall k | k in c.mustGathers && c.mustGathers[k].uid == uid :: k == key && c.mustGathers[k].deleting
  }

  /** The operator has no hold on the resource any more. */
  predicate Released(c: Cluster, key: Key, uid: Uid) {
    key in c.mustGathers && c.mustGathers[key].uid == uid ==> OperatorFinalizer !in c.mustGathers[key].finalizers
  }

  /** How many passes over `key` there are among the labels, and how many calls fail in them. */
  function Passes(labels: seq<Label>, key: Key): nat {
    if labels == [] then 0
    else Passes(labels[..|labels| - 1], key) + if IsPassOver(labels[|labels| - 1], key) then 1 else 0
  }

  function FailedCalls(labels: seq<Label>, key: Key): nat {
    if labels == [] then 0
    else FailedCalls(labels[..|labels| - 1], key) + if IsPassOver(labels[|labels| - 1], key) then labels[|labels| - 1].failures else 0
  }

  predicate IsPassOver(l: Label, key: Key) {
    l.Pass? && l.key == key
  }

  // ---------- no step goes back ----------

  lemma FinalizersKeepDoom(c: Cluster, k: Key, finalizers: seq<Finalizer>, key: Key, uid: Uid)
    requires k in c.mustGathers && Doomed(c, key, uid)
    requires c.mustGathers[k].deleting && OperatorFinalizer in finalizers ==> OperatorFinalizer in c.mustGathers[k].finalizers
    ensures var c' := StoreFinalizers(c, k, finalizers); Doomed(c', key, uid) && (Released(c, key, uid) ==> Released(c', key, uid))
  {
    FinalizersChange(c, k, finalizers);
  }

  lemma StatusKeepsDoom(c: Cluster, k: Key, status: Status, key: Key, uid: Uid)
    requires k in c.mustGathers && Doomed(c, key, uid)
    ensures var c' := c.(mustGathers := c.mustGathers[k := c.mustGathers[k].(status := Some(status))]);
            Doomed(c', key, uid) && (Released(c, key, uid) ==> Released(c', key, uid))
  {
  }

  lemma WriteKeepsDoom(cfg: Config, obs: Obs, pod: PodTemplate, c: Cluster, who: Key, w: Write, key: Key, uid: Uid)
    requires Enabled(cfg, obs, pod, c, who, w) && Doomed(c, key, uid)
    ensures Doomed(Apply(c, w), key, uid)
    ensures Released(c, key, uid) ==> Released(Apply(c, w), key, uid)
  {
    if w.SetFinalizers? {
      FinalizersKeepDoom(c, who, w.finalizers, key, uid);
    } else if w.SetStatus? {
      StatusKeepsDoom(c, who, w.status, key, uid);
    } else {
      OtherWriteKeepsUids(c, w);
    }
  }

  lemma OtherWriteKeepsUids(c: Cluster, w: Write)
    requires !w.SetFinalizers? && !w.SetStatus?
    ensures Apply(c, w).mustGathers == c.mustGathers && Apply(c, w).nextUid >= c.nextUid
  {
  }

  lemma {:induction false} LegalKeepsDoom(cfg: Config, obs: Obs, pod: PodTemplate, c: Cluster, who: Key, ws: seq<Write>, key: Key, uid: Uid)
    requires Legal(cfg, obs, pod, c, who, ws) && Doomed(c, key, uid)
    ensures Doomed(ApplyAll(c, ws), key, uid)
    ensures Released(c, key, uid) ==> Released(ApplyAll(c, ws), key, uid)
  {
    if ws != [] {
      LegalKeepsDoom(cfg, obs, pod, c, who, ws[..|ws| - 1], key, uid);
      WriteKeepsDoom(cfg, obs, pod, ApplyAll(c, ws[..|ws| - 1]), who, ws[|ws| - 1], key, uid);
    }
  }

  lemma ResourceActionKeepsDoom(c: Cluster, a: Action, key: Key, uid: Uid)
    requires Doomed(c, key, uid) && (a.CreateMustGather? || a.MarkDeleted?)
    ensures var c' := Perform(c, a); Doomed(c', key, uid) && (Released(c, key, uid) ==> Released(c', key, uid))
  {
    if a.MarkDeleted? {
      MarkedFrame(c, a.key);
    }
  }

  lemma ActionKeepsDoom(cfg: Config, c: Cluster, a: Action, key: Key, uid: Uid)
    requires Allowed(cfg, c, a) && Doomed(c, key, uid)
    ensures Doomed(Perform(c, a), key, uid)
    ensures Released(c, key, uid) ==> Released(Perform(c, a), key, uid)
  {
    if a.CreateMustGather? || a.MarkDeleted? {
      ResourceActionKeepsDoom(c, a, key, uid);
    } else if a.EditFinalizers? {
      FinalizersKeepDoom(c, a.key, a.finalizers, key, uid);
    } else {
      ActionFrame(c, a);
    }
  }

  lemma StepKeepsDoom(cfg: Config, s: System, l: Label, s': System, key: Key, uid: Uid)
    requires Step(cfg, s, l, s') && Doomed(s.c, key, uid)
    ensures Doomed(s'.c, key, uid)
    ensures Released(s.c, key, uid) ==> Released(s'.c, key, uid)
  {
    if l.Writes() {
      StepIsLegal(cfg, s, l, s');
      LegalKeepsDoom(cfg, l.obs, PodFor(cfg, l.obs, s.c, l.key), s.c, l.key, l.done, key, uid);
    } else if l.Act? {
      ActionKeepsDoom(cfg, s.c, l.action, key, uid);
    }
  }

  // ---------- one undisturbed pass is enough ----------

  lemma CompletePassReleases(cfg: Config, obs: Obs, pod: PodTemplate, c: Cluster, key: Key, uid: Uid)
    requires Doomed(c, key, uid)
    ensures Released(ApplyAll(c, PassPlan(cfg, obs, pod, c, key).writes), key, uid)
  {
    if Released(c, key, uid) {
      PlanIsLegal(cfg, obs, pod, c, key);
      LegalKeepsDoom(cfg, obs, pod, c, key, PassPlan(cfg, obs, pod, c, key).writes, key, uid);
    } else {
      DeletionPlanReleases(cfg, c, key);
    }
  }

  lemma DeletionPlanReleases(cfg: Config, c: Cluster, key: Key)
    requires Held(c, key)
    ensures var mg := c.mustGathers[key]; !Held(ApplyAll(c, DeletionPlan(cfg, c, key, mg).writes), key)
  {
    var mg := c.mustGathers[key];
    var first := if Retains(mg.spec) then [] else CleanupPlan(cfg, c, key, mg.uid);
    if Retains(mg.spec) {
      assert ApplyAll(c, first) == c;
    } else {
      CleanupLeavesResources(cfg, c, key, mg.uid, first);
    }
    ApplyAllSnoc(c, first, SetFinalizers(key, WithoutOperator(mg.finalizers)));
    FinalizersOff(ApplyAll(c, first), key, WithoutOperator(mg.finalizers));
  }

  lemma FinalizersOff(c: Cluster, key: Key, finalizers: seq<Finalizer>)
    requires key in c.mustGathers && OperatorFinalizer !in finalizers
    ensures !Held(Apply(c, SetFinalizers(key, finalizers)), key)
  {
  }

  /** A step over `key` without a failing call releases; no step takes that back. */
  lemma StepReleases(cfg: Config, s: System, l: Label, s': System, key: Key, uid: Uid)
    requires Step(cfg, s, l, s') && Doomed(s.c, key, uid)
    ensures Doomed(s'.c, key, uid)
    ensures Released(s.c, key, uid) || (IsPassOver(l, key) && l.failures == 0) ==> Released(s'.c, key, uid)
  {
    StepKeepsDoom(cfg, s, l, s', key, uid);
    if IsPassOver(l, key) && l.failures == 0 {
      CompletePassReleases(cfg, l.obs, PodFor(cfg, l.obs, s.c, key), s.c, key, uid);
    }
  }

  lemma CountLast(labels: seq<Label>, i: nat, j: nat, key: Key)
    requires i < j <= |labels|
    ensures var l := labels[j - 1];
            && Passes(labels[i..j], key) == Passes(labels[i..j - 1], key) + (if IsPassOver(l, key) then 1 else 0)
            && FailedCalls(labels[i..j], key) == FailedCalls(labels[i..j - 1], key) + (if IsPassOver(l, key) then l.failures else 0)
  {
    assert labels[i..j][..|labels[i..j]| - 1] == labels[i..j - 1];
  }

  /** Until the resource is released, every pass over it has met a failing call. */
  lemma {:induction false} PassesAreUsedUp(cfg: Config, states: seq<System>, labels: seq<Label>, i: nat, j: nat, key: Key, uid: Uid)
    requires Run(cfg, states, labels) && i <= j < |states|
    requires Doomed(states[i].c, key, uid)
    ensures Doomed(states[j].c, key, uid)
    ensures Released(states[j].c, key, uid) || Passes(labels[i..j], key) <= FailedCalls(labels[i..j], key)
  {
    if i < j {
      PassesAreUsedUp(cfg, states, labels, i, j - 1, key, uid);
      CountLast(labels, i, j, key);
      assert StepAt(cfg, states, labels, j - 1);
      StepReleases(cfg, states[j - 1], labels[j - 1], states[j], key, uid);
    }
  }

  /**
    Deletion convergence: from the moment a resource is marked for deletion, as soon as
    there have been more passes over it than calls that failed in them, the operator's
    finalizer is off, and no Job and no pod made for it is left unless it retains; until
    then it stays in the work queue, so passes keep coming.
   */
  lemma DeletionConverges(cfg: Config, states: seq<System>, labels: seq<Label>, i: nat, j: nat, key: Key)
    requires Run(cfg, states, labels) && i <= j < |states|
    requires key in states[i].c.mustGathers && states[i].c.mustGathers[key].deleting
    ensures var uid := states[i].c.mustGathers[key].uid;
            && (Passes(labels[i..j], key) > FailedCalls(labels[i..j], key) ==>
                  && Released(states[j].c, key, uid)
                  && (forall k | k in states[j].c.jobs :: states[j].c.jobs[k].origin != ByOperator(uid, false))
                  && (forall p | p in states[j].c.pods :: p.origin != ByOperator(uid, false)))
            && (!Released(states[j].c, key, uid) ==> key in states[j].queue)
  {
    var uid := states[i].c.mustGathers[key].uid;
    RunKeepsInv(cfg, states, labels, i);
    PassesAreUsedUp(cfg, states, labels, i, j, key, uid);
    if Released(states[j].c, key, uid) {
      Theorems.NothingLeftBehind(cfg, states, labels, j, uid);
    } else if key !in states[j].queue {
      Theorems.NothingIsForgotten(cfg, states, labels, j, key);
    }
  }
}
