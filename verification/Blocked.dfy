/** A spec with a Spark reference that has no defaults blocks the chain for good. */
module Blocked {
  import opened Api
  import opened Naming
  import opened Config
  import opened Machine
  import opened Order

  ghost predicate AlwaysRefused(id: ClusterId, acts: seq<Action>) {
    forall i :: 0 <= i < |acts| && acts[i].EditSpec? && acts[i].id == id ==> Refused(RefsOf(acts[i].spec))
  }

  /** Nothing from the references config map onward is stored, and the spec in force is refused. */
  ghost predicate Stuck(s: Store, id: ClusterId) {
    && (forall l :: Rank(l) >= Rank(RefsConf) ==> !Present(s, l, id))
    && (LinkKey(Report, id) in s && s[LinkKey(Report, id)].body.ClusterBody? ==>
          Refused(RefsOf(s[LinkKey(Report, id)].body.spec)))
  }

  ghost predicate HeldBack(b: Worker, id: ClusterId) {
    b.Busy? && b.id == id ==> Rank(b.link) <= Rank(RefsConf) && (b.link.RefsConf? ==> b.phase.Getting?)
  }

  ghost predicate StuckInv(w: World, id: ClusterId) {
    && Sound(w)
    && (forall i :: 0 <= i < |w.history| ==> Stuck(w.history[i], id))
    && (forall k :: k in w.workers ==> HeldBack(w.workers[k], id))
  }

  lemma StuckWorker(env: Env, w: World, a: Action, id: ClusterId, k: nat)
    requires StuckInv(w, id) && Enabled(env, w, a) && k in WorkersAfter(env, w, a)
    ensures HeldBack(WorkersAfter(env, w, a)[k], id)
  {
    var b := WorkerOf(w, k);
    WorkerShape(env, w, a, k);
    if b.Busy? && b.id == id && b.link.RefsConf? {
      assert Held(w.history, b) && Stuck(w.history[b.base], id);
      AcceptedExactly(env, id.ns, RefsOf(b.spec));
    }
  }

  lemma OnlyEdits(env: Env, w: World, a: Action, id: ClusterId, l: Link)
    requires StuckInv(w, id) && Enabled(env, w, a) && Rank(l) >= Rank(RefsConf)
    requires Fetch(Top(Apply(env, w, a).history), LinkKey(l, id)) != Fetch(Top(w.history), LinkKey(l, id))
    ensures l.Report? && a.EditSpec? && a.id == id
  {
    assert ChangeOf(env, w, a).value.key == LinkKey(l, id);
    assert l.Report? || !Present(Top(w.history), l, id);
    match a
    case Put(k, data) => KeysInjective(l, id, WorkerOf(w, k).link, WorkerOf(w, k).id);
    case Publish(k) =>
    case EditSpec(i, spec) => KeysInjective(l, id, Report, i);
    case OutsideEdit(key, body) =>
  }

  lemma StuckStore(env: Env, w: World, a: Action, id: ClusterId)
    requires StuckInv(w, id) && AlwaysRefused(id, [a])
    ensures Stuck(Top(Apply(env, w, a).history), id)
  {
    var s, t := Top(w.history), Top(Apply(env, w, a).history);
    assert Stuck(s, id) && [a][0] == a;
    forall l | Rank(l) >= Rank(RefsConf) && Fetch(t, LinkKey(l, id)) != Fetch(s, LinkKey(l, id))
      ensures l.Report? && a.EditSpec? && a.id == id
    {
      OnlyEdits(env, w, a, id, l);
    }
    forall l | Rank(l) >= Rank(RefsConf) ensures !Present(t, l, id) {
      assert !Present(s, l, id);
    }
  }

  lemma StuckStep(env: Env, w: World, a: Action, id: ClusterId)
    requires StuckInv(w, id) && AlwaysRefused(id, [a])
    ensures StuckInv(Apply(env, w, a), id)
  {
    SoundStep(env, w, a);
    StuckStore(env, w, a, id);
    if Enabled(env, w, a) {
      forall k | k in WorkersAfter(env, w, a) ensures HeldBack(WorkersAfter(env, w, a)[k], id) {
        StuckWorker(env, w, a, id, k);
      }
    }
  }

  lemma {:induction false} StuckRun(env: Env, w: World, acts: seq<Action>, id: ClusterId)
    requires Initial(env, w) && Stuck(w.history[0], id) && AlwaysRefused(id, acts)
    ensures StuckInv(Exec(env, w, acts), id)
  {
    SoundRun(env, w, acts);
    if acts != [] {
      var init, a := acts[..|acts| - 1], acts[|acts| - 1];
      assert AlwaysRefused(id, init) && AlwaysRefused(id, [a]);
      StuckRun(env, w, init, id);
      StuckStep(env, Exec(env, w, init), a, id);
    }
  }

  /**
   While every spec in force holds such a reference, at any position of its list, no run of any length
   stores the references config map, the workload, the service or a status.
   */
  lemma BlockedForGood(env: Env, w: World, acts: seq<Action>, id: ClusterId, i: nat)
    requires Initial(env, w) && Stuck(w.history[0], id) && AlwaysRefused(id, acts)
    requires i < |Exec(env, w, acts).history|
    ensures var s := Exec(env, w, acts).history[i];
            && LinkKey(RefsConf, id) !in s && LinkKey(Work, id) !in s && LinkKey(Front, id) !in s
            && (LinkKey(Report, id) in s ==> StatusOf(s[LinkKey(Report, id)].body).infos.None?)
  {
    StuckRun(env, w, acts, id);
    var s := Exec(env, w, acts).history[i];
    assert Stuck(s, id);
    assert !Present(s, RefsConf, id) && !Present(s, Work, id) && !Present(s, Front, id) && !Present(s, Report, id);
  }
}
