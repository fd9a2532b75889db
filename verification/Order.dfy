/** Crash-safe dependency order: what is stored when, in every run. */
module Order {
  import opened Api
  import opened Naming
  import opened Machine

  /** The link has done its work: its object is stored, or, for the last one, a status list is persisted. */
  predicate Present(s: Store, l: Link, id: ClusterId) {
    && LinkKey(l, id) in s
    && (l.Report? ==> StatusOf(s[LinkKey(l, id)].body).infos.Some?)
  }

  /** A link that has done its work comes after links that have all done theirs. */
  ghost predicate Ordered(s: Store) {
    forall id, l, m :: Rank(l) < Rank(m) && Present(s, m, id) ==> Present(s, l, id)
  }

  ghost predicate Keeps(s: Store, t: Store) {
    forall l, id :: Present(s, l, id) ==> Present(t, l, id)
  }

  /** A worker inside a pass has all earlier links behind it, in the store as it is now. */
  ghost predicate Supported(s: Store, b: Worker) {
    b.Busy? ==>
      && (forall l :: Rank(l) < Rank(b.link) ==> Present(s, l, b.id))
      && (!b.link.Report? && (b.phase.Polling? || (b.phase.Writing? && b.phase.seen.Some?)) ==>
            Present(s, b.link, b.id))
  }

  ghost predicate OrderInv(w: World) {
    && Sound(w)
    && (forall i :: 0 <= i < |w.history| ==> Ordered(w.history[i]))
    && (forall k :: k in w.workers ==> Supported(Top(w.history), w.workers[k]))
  }

  /** No action ever takes a link's work back. */
  lemma StepKeeps(env: Env, w: World, a: Action)
    ensures Keeps(Top(w.history), Top(Apply(env, w, a).history))
  {
    if Enabled(env, w, a) {
      var s, t := Top(w.history), Top(Apply(env, w, a).history);
      forall l, id | Present(s, l, id) ensures Present(t, l, id) {
        var key := LinkKey(l, id);
        if l.Report? {
          assert key.kind == KyuubiCluster;
        }
      }
    }
  }

  /** New work appears only at the link a worker stands at, for its own cluster. */
  lemma NewWork(env: Env, w: World, a: Action, m: Link, id: ClusterId)
    requires OrderInv(w) && Enabled(env, w, a)
    requires !Present(Top(w.history), m, id) && Present(Top(Apply(env, w, a).history), m, id)
    ensures forall l :: Rank(l) < Rank(m) ==> Present(Top(w.history), l, id)
  {
    var c := ChangeOf(env, w, a);
    assert c.Some? && c.value.key == LinkKey(m, id);
    match a
    case Put(k, data) =>
      KeysInjective(m, id, WorkerOf(w, k).link, WorkerOf(w, k).id);
    case Publish(k) =>
      KeysInjective(m, id, Report, WorkerOf(w, k).id);
    case EditSpec(i, spec) =>
      KeysInjective(m, id, Report, i);
      assert false;
    case OutsideEdit(key, body) =>
      assert false;
  }

  lemma OrderedStep(env: Env, w: World, a: Action)
    requires OrderInv(w)
    ensures Ordered(Top(Apply(env, w, a).history))
  {
    var s, t := Top(w.history), Top(Apply(env, w, a).history);
    StepKeeps(env, w, a);
    assert Ordered(s);
    forall id, l, m | Rank(l) < Rank(m) && Present(t, m, id) ensures Present(t, l, id) {
      if !Present(s, m, id) {
        NewWork(env, w, a, m, id);
      }
      assert Present(s, l, id);
    }
  }

  lemma SupportedKept(s: Store, t: Store, b: Worker)
    requires Keeps(s, t) && Supported(s, b)
    ensures Supported(t, b)
  {
  }

  lemma RankNext(l: Link, m: Link)
    requires !m.Report? && Rank(l) < Rank(Next(m))
    ensures Rank(l) < Rank(m) || l == m
  {
  }

  /** A read from any past state proves presence now, because nothing is deleted. */
  lemma SeenPresent(w: World, lag: nat, l: Link, id: ClusterId)
    requires Sound(w) && !l.Report? && LinkKey(l, id) in Seen(w.history, lag)
    ensures Present(Top(w.history), l, id)
  {
  }

  lemma SupportedStep(env: Env, w: World, a: Action, k: nat)
    requires OrderInv(w) && Enabled(env, w, a) && k in WorkersAfter(env, w, a)
    ensures Supported(Top(Apply(env, w, a).history), WorkersAfter(env, w, a)[k])
  {
    var b, b' := WorkerOf(w, k), WorkersAfter(env, w, a)[k];
    if b.Busy? && b'.Busy? {
      var s, t := Top(w.history), Top(Apply(env, w, a).history);
      StepKeeps(env, w, a);
      SupportedKept(s, t, b);
      if b' != b {
        WorkerShape(env, w, a, k);
        if b'.link != b.link || (!b.link.Report? && (b'.phase.Polling? || (b'.phase.Writing? && b'.phase.seen.Some?))) {
          LinkDone(env, w, a, k);
        }
        SupportedNext(t, b, b');
      }
    }
  }

  lemma SupportedNext(t: Store, b: Worker, b': Worker)
    requires b.Busy? && b'.Busy? && b'.id == b.id && Supported(t, b)
    requires b'.link == b.link || (b'.link == Next(b.link) && !b.link.Report? && Present(t, b.link, b.id))
    requires !b'.link.Report? && (b'.phase.Polling? || (b'.phase.Writing? && b'.phase.seen.Some?)) ==>
               b'.link == b.link && Present(t, b.link, b.id)
    ensures Supported(t, b')
  {
    forall l | Rank(l) < Rank(b'.link) ensures Present(t, l, b.id) {
      if b'.link != b.link {
        RankNext(l, b.link);
      }
    }
  }

  /** A worker that moves past a link, or starts to wait on it, leaves the link's object in the store. */
  lemma LinkDone(env: Env, w: World, a: Action, k: nat)
    requires OrderInv(w) && Enabled(env, w, a) && k in WorkersAfter(env, w, a)
    requires WorkerOf(w, k).Busy? && WorkersAfter(env, w, a)[k].Busy? && WorkersAfter(env, w, a)[k] != WorkerOf(w, k)
    requires var b, b' := WorkerOf(w, k), WorkersAfter(env, w, a)[k];
             b'.link != b.link || (!b.link.Report? && (b'.phase.Polling? || (b'.phase.Writing? && b'.phase.seen.Some?)))
    ensures Present(Top(Apply(env, w, a).history), WorkerOf(w, k).link, WorkerOf(w, k).id)
  {
    var s, t := Top(w.history), Top(Apply(env, w, a).history);
    StepKeeps(env, w, a);
    var b := WorkerOf(w, k);
    match a
    case Get(_, lag) => SeenPresent(w, lag, b.link, b.id);
    case Poll(_, lag) => SeenPresent(w, lag, b.link, b.id);
    case Put(_, data) =>
      if !Skips(b, data) {
        assert LinkKey(b.link, b.id) in t;
      }
  }

  lemma OrderStep(env: Env, w: World, a: Action)
    requires OrderInv(w)
    ensures OrderInv(Apply(env, w, a))
  {
    SoundStep(env, w, a);
    OrderedStep(env, w, a);
    if Enabled(env, w, a) {
      forall k | k in WorkersAfter(env, w, a)
        ensures Supported(Top(Apply(env, w, a).history), WorkersAfter(env, w, a)[k])
      {
        SupportedStep(env, w, a, k);
      }
    }
  }

  lemma {:induction false} OrderRun(env: Env, w: World, acts: seq<Action>)
    requires Initial(env, w) && Ordered(w.history[0])
    ensures OrderInv(Exec(env, w, acts))
  {
    if acts != [] {
      OrderRun(env, w, acts[..|acts| - 1]);
      OrderStep(env, Exec(env, w, acts[..|acts| - 1]), acts[|acts| - 1]);
    }
  }

  /** The work of a link lasts: present in one state, present in every later one. */
  ghost predicate Lasting(h: History) {
    forall i, j :: 0 <= i <= j < |h| ==> Keeps(h[i], h[j])
  }

  lemma {:induction false} LastingRun(env: Env, w: World, acts: seq<Action>)
    requires Initial(env, w)
    ensures Lasting(Exec(env, w, acts).history)
  {
    if acts != [] {
      var init, a := acts[..|acts| - 1], acts[|acts| - 1];
      LastingRun(env, w, init);
      StepKeeps(env, Exec(env, w, init), a);
      LastingExtends(Exec(env, w, init).history, Exec(env, w, acts).history);
    }
  }

  lemma LastingExtends(h: History, h': History)
    requires Lasting(h) && (h' == h || (|h'| == |h| + 1 && h <= h')) && Keeps(Top(h), Top(h'))
    ensures Lasting(h')
  {
    var n := |h|;
    forall i, j | 0 <= i <= j < |h'| ensures Keeps(h'[i], h'[j]) {
      if j < n {
        assert Keeps(h[i], h[j]);
      } else if i < n {
        assert Keeps(h[i], h[n - 1]);
      }
    }
  }

  /**
   In every state of every run: a stored workload has its account, role, binding and both config maps;
   a stored service has its workload; a persisted status list has its service.
   */
  lemma DependencyOrder(env: Env, w: World, acts: seq<Action>, i: nat, id: ClusterId)
    requires Initial(env, w) && Ordered(w.history[0])
    requires i < |Exec(env, w, acts).history|
    ensures var s := Exec(env, w, acts).history[i];
            && Ordered(s)
            && (LinkKey(Work, id) in s ==>
                  forall l :: l in {Account, Permission, Binding, KyuubiConf, RefsConf} ==> LinkKey(l, id) in s)
            && (LinkKey(Front, id) in s ==> LinkKey(Work, id) in s)
            && (LinkKey(Report, id) in s && StatusOf(s[LinkKey(Report, id)].body).infos.Some? ==>
                  LinkKey(Front, id) in s)
  {
    OrderRun(env, w, acts);
    var s := Exec(env, w, acts).history[i];
    assert Ordered(s);
    if LinkKey(Work, id) in s {
      assert Present(s, Work, id);
      forall l | l in {Account, Permission, Binding, KyuubiConf, RefsConf} ensures LinkKey(l, id) in s {
        assert Present(s, l, id);
      }
    }
    if LinkKey(Front, id) in s {
      assert Present(s, Front, id);
      assert Present(s, Work, id);
    }
    if Present(s, Report, id) {
      assert Present(s, Front, id);
    }
  }
}
