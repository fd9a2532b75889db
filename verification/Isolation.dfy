/** Clusters do not interfere: a run that never takes up a cluster leaves all its objects alone. */
module Isolation {
  import opened Api
  import opened Naming
  import opened Machine

  /** The run never starts a pass for the cluster, and nobody edits its spec or its objects. */
  ghost predicate LeavesAlone(id: ClusterId, acts: seq<Action>) {
    forall i :: 0 <= i < |acts| ==> LeavesAloneStep(id, acts[i])
  }

  ghost predicate LeavesAloneStep(id: ClusterId, a: Action) {
    && (a.Start? ==> a.id != id)
    && (a.EditSpec? ==> a.id != id)
    && (a.OutsideEdit? ==> forall l :: a.key != LinkKey(l, id))
  }

  ghost predicate NobodyOn(w: World, id: ClusterId) {
    forall k :: k in w.workers && w.workers[k].Busy? ==> w.workers[k].id != id
  }

  lemma ForeignStep(env: Env, w: World, a: Action, id: ClusterId, l: Link)
    requires NobodyOn(w, id) && LeavesAloneStep(id, a)
    ensures Fetch(Top(Apply(env, w, a).history), LinkKey(l, id)) == Fetch(Top(w.history), LinkKey(l, id))
  {
    if Enabled(env, w, a) && ChangeOf(env, w, a).Some? && ChangeOf(env, w, a).value.key == LinkKey(l, id) {
      match a
      case Put(k, data) => KeysInjective(l, id, WorkerOf(w, k).link, WorkerOf(w, k).id);
      case Publish(k) => KeysInjective(l, id, Report, WorkerOf(w, k).id);
      case EditSpec(i, spec) => KeysInjective(l, id, Report, i);
    }
  }

  lemma StillNobody(env: Env, w: World, a: Action, id: ClusterId)
    requires NobodyOn(w, id) && LeavesAloneStep(id, a)
    ensures NobodyOn(Apply(env, w, a), id)
  {
    if Enabled(env, w, a) {
      forall k | k in WorkersAfter(env, w, a) && WorkersAfter(env, w, a)[k].Busy?
        ensures WorkersAfter(env, w, a)[k].id != id
      {
        WorkerShape(env, w, a, k);
      }
    }
  }

  /** Every object of the cluster is, version included, what it was. */
  lemma {:induction false} ForeignRun(env: Env, w: World, acts: seq<Action>, id: ClusterId, l: Link)
    requires NobodyOn(w, id) && LeavesAlone(id, acts)
    ensures NobodyOn(Exec(env, w, acts), id)
    ensures Fetch(Top(Exec(env, w, acts).history), LinkKey(l, id)) == Fetch(Top(w.history), LinkKey(l, id))
  {
    if acts != [] {
      var init, a := acts[..|acts| - 1], acts[|acts| - 1];
      assert LeavesAlone(id, init) && LeavesAloneStep(id, a);
      ForeignRun(env, w, init, id, l);
      ForeignStep(env, Exec(env, w, init), a, id, l);
      StillNobody(env, Exec(env, w, init), a, id);
    }
  }
}
