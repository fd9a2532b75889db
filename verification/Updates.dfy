/**
 No lost updates on config maps: a rewrite replaces exactly the data its writer compared against. The workload
 write carries no version and has no such protection; this says when it takes the workload back.
 */
module Updates {
  import opened Api
  import opened Naming
  import opened Volumes
  import opened Machine

  /** The object a worker holds for its link is one the server really had, under the version it carries. */
  ghost predicate Sighted(h: History, b: Worker) {
    b.Busy? && b.phase.Writing? && b.phase.seen.Some? ==>
      var o, key := b.phase.seen.value, LinkKey(b.link, b.id);
      o.version < |h| && key in h[o.version] && h[o.version][key] == o
  }

  ghost predicate SightedInv(w: World) {
    Sound(w) && forall k :: k in w.workers ==> Sighted(w.history, w.workers[k])
  }

  lemma SightedStep(env: Env, w: World, a: Action)
    requires SightedInv(w)
    ensures SightedInv(Apply(env, w, a))
  {
    SoundStep(env, w, a);
    if Enabled(env, w, a) {
      forall k | k in WorkersAfter(env, w, a)
        ensures Sighted(Apply(env, w, a).history, WorkersAfter(env, w, a)[k])
      {
        SightedWorker(env, w, a, k);
      }
    }
  }

  lemma SightedWorker(env: Env, w: World, a: Action, k: nat)
    requires SightedInv(w) && Enabled(env, w, a) && k in WorkersAfter(env, w, a)
    ensures Sighted(Apply(env, w, a).history, WorkersAfter(env, w, a)[k])
  {
    var b, b' := WorkerOf(w, k), WorkersAfter(env, w, a)[k];
    WorkerShape(env, w, a, k);
    if b'.Busy? && b'.phase.Writing? && b'.phase.seen.Some? && b' != b {
      assert a.Get? && a.k == k;
      assert LinkKey(b.link, b.id) in Seen(w.history, a.lag);
    }
  }

  lemma {:induction false} SightedRun(env: Env, w: World, acts: seq<Action>)
    requires Initial(env, w)
    ensures SightedInv(Exec(env, w, acts))
  {
    SoundRun(env, w, acts);
    if acts != [] {
      SightedRun(env, w, acts[..|acts| - 1]);
      SightedStep(env, Exec(env, w, acts[..|acts| - 1]), acts[|acts| - 1]);
    }
  }

  /**
   In every run, with any number of workers and any lag: an accepted rewrite of a stored config map finds
   there the very object its worker had read, and changes its data. What others wrote since is never lost.
   */
  lemma NoLostUpdate(env: Env, w: World, acts: seq<Action>, k: nat, data: map<string, string>)
    requires Initial(env, w)
    requires var v := Exec(env, w, acts);
             && Enabled(env, v, Put(k, data)) && ChangeOf(env, v, Put(k, data)).Some?
             && IsConfig(WorkerOf(v, k).link) && WorkerOf(v, k).phase.seen.Some?
    ensures var v := Exec(env, w, acts);
            var b := WorkerOf(v, k);
            && Fetch(Top(v.history), LinkKey(b.link, b.id)) == b.phase.seen
            && DataOf(b.phase.seen.value.body) != data
  {
    SightedRun(env, w, acts);
    var v := Exec(env, w, acts);
    var b := WorkerOf(v, k);
    assert Sighted(v.history, b);
    SameVersion(v.history, |v.history| - 1, b.phase.seen.value.version, LinkKey(b.link, b.id));
  }

  // ----- the workload -----

  /** The parts of a spec the workload is made of. */
  predicate SameWorkload(s: Spec, t: Spec) {
    && s.replicas == t.replicas
    && s.image.repository + ":" + s.image.tag == t.image.repository + ":" + t.image.tag
    && s.image.pullPolicy == t.image.pullPolicy
    && SlotsOf(RefsOf(s)) == SlotsOf(RefsOf(t))
  }

  lemma VolumesInjective(name: string, a: seq<Slot>, b: seq<Slot>)
    requires VolumesOf(name, a) == VolumesOf(name, b)
    ensures a == b
  {
    var u, v := VolumesOf(name, a), VolumesOf(name, b);
    assert |a| == |u| == |v| == |b|;
    forall i | 0 <= i < |a| ensures a[i] == b[i] {
      assert u[i] == VolumeOf(name, a[i]) && v[i] == VolumeOf(name, b[i]);
      VolumeNamesInjective(name, a[i], b[i]);
    }
  }

  /** The server's completion hides none of them. */
  lemma WorkloadDependsOn(env: Env, id: ClusterId, s: Spec, t: Spec)
    ensures Complete(env, WorkloadFor(id, s)) == Complete(env, WorkloadFor(id, t)) <==> SameWorkload(s, t)
  {
    var a, b := WorkloadFor(id, s), WorkloadFor(id, t);
    assert Complete(env, a).volumes == a.volumes && Complete(env, b).volumes == b.volumes;
    if a.volumes == b.volumes {
      VolumesInjective(id.name, SlotsOf(RefsOf(s)), SlotsOf(RefsOf(t)));
    }
  }

  /**
   In every run an accepted workload write stores the workload of the spec its worker read when the pass began.
   It is the workload of the spec in force exactly when the two agree on replicas, image, pull policy and the
   mounted files; a worker whose version is still the stored one is never behind.
   */
  lemma WorkloadCurrentExactly(env: Env, w: World, acts: seq<Action>, k: nat, data: map<string, string>)
    requires Initial(env, w)
    requires var v := Exec(env, w, acts);
             && Enabled(env, v, Put(k, data)) && ChangeOf(env, v, Put(k, data)).Some? && WorkerOf(v, k).link.Work?
    ensures var v := Exec(env, w, acts);
            var b, s, t := WorkerOf(v, k), Top(v.history), Top(Apply(env, v, Put(k, data)).history);
            var cluster := LinkKey(Report, b.id);
            && cluster in s && s[cluster].body.ClusterBody?
            && (var current := s[cluster].body.spec;
                && (Fetch(t, LinkKey(Work, b.id)).Some? &&
                    t[LinkKey(Work, b.id)].body == WorkloadBody(Complete(env, WorkloadFor(b.id, current))) <==>
                    SameWorkload(b.spec, current))
                && (s[cluster].version == b.base ==> b.spec == current))
  {
    SoundRun(env, w, acts);
    var v := Exec(env, w, acts);
    var b := WorkerOf(v, k);
    ClusterStored(env, v, k);
    WorkloadDependsOn(env, b.id, b.spec, Top(v.history)[LinkKey(Report, b.id)].body.spec);
  }

  /** The cluster a worker is busy with is stored, and under the version it read it has the spec it read. */
  lemma ClusterStored(env: Env, w: World, k: nat)
    requires Sound(w) && WellTyped(env, Top(w.history)) && WorkerOf(w, k).Busy?
    ensures var b, s := WorkerOf(w, k), Top(w.history);
            var cluster := LinkKey(Report, b.id);
            && cluster in s && s[cluster].body.ClusterBody?
            && (s[cluster].version == b.base ==> b.spec == s[cluster].body.spec)
  {
    var b, s := WorkerOf(w, k), Top(w.history);
    var cluster := LinkKey(Report, b.id);
    assert Held(w.history, b);
    assert cluster in s && TypedBody(env, KyuubiCluster, s[cluster].body);
    if s[cluster].version == b.base {
      SameVersion(w.history, |w.history| - 1, b.base, cluster);
    }
  }
}
