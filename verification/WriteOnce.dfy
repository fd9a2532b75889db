/** The ServiceAccount, Role, RoleBinding and Service of a cluster are written once and never again. */
module WriteOnce {
  import opened Api
  import opened Naming
  import opened Machine

  predicate IsWriteOnce(l: Link) {
    l.Account? || l.Permission? || l.Binding? || l.Front?
  }

  /** At such a link a worker either creates or moves on; it never holds an object to update. */
  predicate Creating(b: Worker) {
    b.Busy? && IsWriteOnce(b.link) ==> !b.phase.Polling? && (b.phase.Writing? ==> b.phase.seen.None?)
  }

  ghost predicate AllCreating(w: World) {
    forall k :: k in w.workers ==> Creating(w.workers[k])
  }

  lemma CreatingStep(env: Env, w: World, a: Action)
    requires AllCreating(w)
    ensures AllCreating(Apply(env, w, a))
  {
  }

  lemma KeptStep(env: Env, w: World, a: Action, id: ClusterId, l: Link)
    requires AllCreating(w) && IsWriteOnce(l) && LinkKey(l, id) in Top(w.history)
    requires a.OutsideEdit? ==> a.key != LinkKey(l, id)
    ensures Fetch(Top(Apply(env, w, a).history), LinkKey(l, id)) == Fetch(Top(w.history), LinkKey(l, id))
  {
    if Enabled(env, w, a) && a.Put? {
      var b := WorkerOf(w, a.k);
      if LinkKey(b.link, b.id) == LinkKey(l, id) {
        KeysInjective(b.link, b.id, l, id);
        assert Creating(b);
      }
    }
  }

  /**
   From any world whose workers are idle, however many passes run and whatever the specs become: an object
   of these kinds that is stored stays, version included, exactly as it is.
   */
  lemma {:induction false} WrittenOnce(env: Env, w: World, acts: seq<Action>, id: ClusterId, l: Link)
    requires AllCreating(w) && IsWriteOnce(l) && LinkKey(l, id) in Top(w.history)
    requires forall i :: 0 <= i < |acts| && acts[i].OutsideEdit? ==> acts[i].key != LinkKey(l, id)
    ensures AllCreating(Exec(env, w, acts))
    ensures Fetch(Top(Exec(env, w, acts).history), LinkKey(l, id)) == Fetch(Top(w.history), LinkKey(l, id))
  {
    if acts != [] {
      var init, a := acts[..|acts| - 1], acts[|acts| - 1];
      assert forall i :: 0 <= i < |init| ==> init[i] == acts[i];
      WrittenOnce(env, w, init, id, l);
      CreatingStep(env, Exec(env, w, init), a);
      KeptStep(env, Exec(env, w, init), a, id, l);
    }
  }
}
