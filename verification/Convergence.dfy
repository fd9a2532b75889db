/** Fault-free passes converge in two rounds, and passes of different clusters commute. */
module Convergence {
  import opened Base
  import opened Api
  import opened Naming
  import opened Config
  import opened Machine
  import opened Pass
  import opened Text
  import opened Manifest

  /** Both config maps are renderings of the desired files, the workload is the completed desired one. */
  ghost predicate Configured(env: Env, m: Contents, id: ClusterId) {
    && HasCluster(m, id)
    && (forall l: Link :: LinkKey(l, id) in m)
    && (var spec := SpecIn(m, id);
        && Fits(env, id, spec, Choice(DataOf(m[LinkKey(KyuubiConf, id)]), DataOf(m[LinkKey(RefsConf, id)]), 0))
        && m[LinkKey(KyuubiConf, id)].ConfigBody? && m[LinkKey(RefsConf, id)].ConfigBody?
        && m[LinkKey(Work, id)] == WorkloadBody(Complete(env, WorkloadFor(id, spec))))
  }

  /** In addition the persisted status lists the ports of the stored service. */
  ghost predicate Settled(env: Env, m: Contents, id: ClusterId) {
    && Configured(env, m, id)
    && StatusIn(m, id).infos == Some(Exposed(id.name, ViewOf(id, m[LinkKey(Front, id)])))
  }

  /** The two config maps and the workload, under their names, say what the spec in force asks for. */
  ghost predicate Deployed(env: Env, m: Contents, id: ClusterId) {
    && HasCluster(m, id)
    && (forall key :: key in {Key(ConfigMap, id.ns, id.name + "-kyuubi"), Key(ConfigMap, id.ns, id.name + "-clusterrefs"),
                              Key(StatefulSet, id.ns, id.name + "-kyuubi")} ==>
          key in m && Spelled(env, id, SpecIn(m, id), key, m[key]))
  }

  lemma ConfiguredSpelled(env: Env, m: Contents, id: ClusterId)
    requires Configured(env, m, id)
    ensures Deployed(env, m, id)
  {
    var spec := SpecIn(m, id);
    NamesSpelled(id.name);
    ConfigNamesDisjoint(id.name, id.name);
    assert forall l: Link :: LinkKey(l, id) in m;
    KyuubiMeaning(env, spec.conf, DataOf(m[LinkKey(KyuubiConf, id)]));
    RefsMeaning(env, id.ns, RefsOf(spec), DataOf(m[LinkKey(RefsConf, id)]));
    WorkloadSpelled(env, id, spec);
  }

  /** The persisted status lists the ports of the stored service, under the names both have. */
  ghost predicate ReportsPorts(m: Contents, id: ClusterId) {
    var service := Key(Service, id.ns, id.name + "-kyuubi");
    && HasCluster(m, id) && StatusIn(m, id).infos.Some?
    && service in m
    && (m[service].ServiceBody? ==>
          var infos, ports := StatusIn(m, id).infos.value, m[service].ports;
          && |infos| == |ports|
          && forall n :: 0 <= n < |ports| ==>
               infos[n] == ExposedInfo(id.name + "-" + Itoa(n), ports[n].name, id.name + "-kyuubi", ports[n]))
  }

  lemma SettledSpelled(env: Env, m: Contents, id: ClusterId)
    requires Settled(env, m, id)
    ensures ReportsPorts(m, id)
  {
    NamesSpelled(id.name);
    assert LinkKey(Front, id) in m;
  }

  predicate IsConfigKey(key: Key, id: ClusterId) {
    key == LinkKey(KyuubiConf, id) || key == LinkKey(RefsConf, id)
  }

  /** Equal but for the text of the cluster's two config maps. */
  ghost predicate SameButText(m: Contents, n: Contents, id: ClusterId) {
    && m.Keys == n.Keys
    && forall key :: key in m && !IsConfigKey(key, id) ==> n[key] == m[key]
  }

  function Content(m: Contents, key: Key): Option<Body> {
    if key in m then Some(m[key]) else None
  }

  lemma PassKeepsSpec(env: Env, m: Contents, id: ClusterId, c: Choice, now: nat)
    requires HasCluster(m, id)
    ensures var n := PassBodies(env, m, id, c, now); HasCluster(n, id) && SpecIn(n, id) == SpecIn(m, id)
  {
  }

  /** What a pass leaves under each key its cluster owns. */
  function EntryAfter(env: Env, m: Contents, id: ClusterId, c: Choice, now: nat, l: Link): Body
    requires HasCluster(m, id)
  {
    var spec, st := SpecIn(m, id), StatusIn(m, id);
    match l
    case KyuubiConf => ConfigBody(c.kyuubi)
    case RefsConf => ConfigBody(c.refs)
    case Work => WorkloadBody(Complete(env, WorkloadFor(id, spec)))
    case Report =>
      var infos := Exposed(id.name, FrontIn(m, id));
      ClusterBody(spec, if st.infos == Some(infos) then st else NewStatus(st, infos, now, c.pause))
    case _ => if LinkKey(l, id) in m then m[LinkKey(l, id)] else BodyFor(env, id, spec, l, map[])
  }

  lemma AccountsEntry(env: Env, m: Contents, id: ClusterId, spec: Spec, l: Link)
    ensures Content(Accounts(env, m, id, spec), LinkKey(l, id)) ==
            if l in {Account, Permission, Binding} && LinkKey(l, id) !in m then Some(BodyFor(env, id, spec, l, map[]))
            else Content(m, LinkKey(l, id))
  {
  }

  lemma ConfigsEntry(m: Contents, id: ClusterId, c: Choice, l: Link)
    ensures Content(Configs(m, id, c), LinkKey(l, id)) ==
            if l.KyuubiConf? then Some(ConfigBody(c.kyuubi))
            else if l.RefsConf? then Some(ConfigBody(c.refs))
            else Content(m, LinkKey(l, id))
  {
    ConfigNamesDisjoint(id.name, id.name);
  }

  lemma RunningEntry(env: Env, m: Contents, id: ClusterId, spec: Spec, l: Link)
    ensures Content(Running(env, m, id, spec), LinkKey(l, id)) ==
            if l.Work? || (l.Front? && LinkKey(l, id) !in m) then Some(BodyFor(env, id, spec, l, map[]))
            else Content(m, LinkKey(l, id))
  {
  }

  lemma PassEntry(env: Env, m: Contents, id: ClusterId, c: Choice, now: nat, l: Link)
    requires HasCluster(m, id)
    ensures Content(PassBodies(env, m, id, c, now), LinkKey(l, id)) == Some(EntryAfter(env, m, id, c, now, l))
  {
    var spec := SpecIn(m, id);
    var x := Accounts(env, m, id, spec);
    var y := Configs(x, id, c);
    AccountsEntry(env, m, id, spec, l);
    ConfigsEntry(x, id, c, l);
    RunningEntry(env, y, id, spec, l);
  }

  lemma PassEntries(env: Env, m: Contents, id: ClusterId, c: Choice, now: nat)
    requires HasCluster(m, id)
    ensures forall l: Link ::
              Content(PassBodies(env, m, id, c, now), LinkKey(l, id)) == Some(EntryAfter(env, m, id, c, now, l))
  {
    forall l: Link
      ensures Content(PassBodies(env, m, id, c, now), LinkKey(l, id)) == Some(EntryAfter(env, m, id, c, now, l))
    {
      PassEntry(env, m, id, c, now, l);
    }
  }

  /** One pass configures, from any contents whatsoever. */
  lemma OnePassConfigures(env: Env, m: Contents, id: ClusterId, c: Choice, now: nat)
    requires HasCluster(m, id) && Fits(env, id, SpecIn(m, id), c)
    ensures Configured(env, PassBodies(env, m, id, c, now), id)
  {
    PassKeepsSpec(env, m, id, c, now);
    PassEntries(env, m, id, c, now);
    var n := PassBodies(env, m, id, c, now);
    forall l: Link ensures LinkKey(l, id) in n {
      assert Content(n, LinkKey(l, id)).Some?;
    }
    assert Content(n, LinkKey(KyuubiConf, id)) == Some(ConfigBody(c.kyuubi));
    assert Content(n, LinkKey(RefsConf, id)) == Some(ConfigBody(c.refs));
    assert Content(n, LinkKey(Work, id)) == Some(EntryAfter(env, m, id, c, now, Work));
  }

  lemma ReportAfter(env: Env, m: Contents, id: ClusterId, c: Choice, now: nat)
    requires HasCluster(m, id) && LinkKey(Front, id) in m
    ensures var n := PassBodies(env, m, id, c, now);
            && HasCluster(n, id) && LinkKey(Front, id) in n
            && StatusIn(n, id).infos == Some(Exposed(id.name, ViewOf(id, n[LinkKey(Front, id)])))
  {
    PassEntry(env, m, id, c, now, Report);
    PassEntry(env, m, id, c, now, Front);
    assert EntryAfter(env, m, id, c, now, Front) == m[LinkKey(Front, id)];
    assert EntryAfter(env, m, id, c, now, Report).status.infos == Some(Exposed(id.name, FrontIn(m, id)));
  }

  /** The next one finds the service stored and reports its ports. */
  lemma NextPassSettles(env: Env, m: Contents, id: ClusterId, c: Choice, now: nat)
    requires Configured(env, m, id) && Fits(env, id, SpecIn(m, id), c)
    ensures Settled(env, PassBodies(env, m, id, c, now), id)
  {
    OnePassConfigures(env, m, id, c, now);
    ReportAfter(env, m, id, c, now);
  }

  /** On a settled cluster a pass changes nothing but config-map text. */
  lemma SettledPassKeeps(env: Env, m: Contents, id: ClusterId, c: Choice, now: nat)
    requires Settled(env, m, id) && Fits(env, id, SpecIn(m, id), c)
    ensures SameButText(m, PassBodies(env, m, id, c, now), id)
    ensures Settled(env, PassBodies(env, m, id, c, now), id)
  {
    NextPassSettles(env, m, id, c, now);
    SettledContents(env, m, id, c, now);
  }

  lemma SettledContents(env: Env, m: Contents, id: ClusterId, c: Choice, now: nat)
    requires Settled(env, m, id)
    ensures SameButText(m, PassBodies(env, m, id, c, now), id)
  {
    var spec := SpecIn(m, id);
    assert Accounts(env, m, id, spec) == m;
    var y := Configs(m, id, c);
    ConfigsEntry(m, id, c, Work);
    ConfigsEntry(m, id, c, Front);
    assert y[LinkKey(Work, id) := m[LinkKey(Work, id)]] == y;
    assert Running(env, y, id, spec) == y;
    assert FrontIn(m, id) == ViewOf(id, m[LinkKey(Front, id)]);
  }

  // ----- over runs -----

  function Passes(k: nat, id: ClusterId, cs: seq<Choice>): seq<Action> {
    if cs == [] then [] else Passes(k, id, cs[..|cs| - 1]) + PassActs(k, id, cs[|cs| - 1])
  }

  ghost predicate AllFit(env: Env, id: ClusterId, spec: Spec, cs: seq<Choice>) {
    forall i :: 0 <= i < |cs| ==> Fits(env, id, spec, cs[i])
  }

  ghost predicate CanConverge(env: Env, w: World, k: nat, id: ClusterId, cs: seq<Choice>) {
    && Ready(env, w, k, id)
    && HasCluster(Bodies(Top(w.history)), id)
    && AllFit(env, id, SpecIn(Bodies(Top(w.history)), id), cs)
  }

  lemma {:induction false} PassesRun(env: Env, w: World, k: nat, id: ClusterId, cs: seq<Choice>)
    requires CanConverge(env, w, k, id, cs)
    ensures var w' := Exec(env, w, Passes(k, id, cs));
            && Ready(env, w', k, id)
            && HasCluster(Bodies(Top(w'.history)), id)
            && SpecIn(Bodies(Top(w'.history)), id) == SpecIn(Bodies(Top(w.history)), id)
            && (|cs| > 0 ==>
                  var v := Exec(env, w, Passes(k, id, cs[..|cs| - 1]));
                  && HasCluster(Bodies(Top(v.history)), id)
                  && Bodies(Top(w'.history)) == PassBodies(env, Bodies(Top(v.history)), id, cs[|cs| - 1], v.now))
  {
    if cs != [] {
      var init, c := cs[..|cs| - 1], cs[|cs| - 1];
      PassesRun(env, w, k, id, init);
      var v := Exec(env, w, Passes(k, id, init));
      ExecConcat(env, w, Passes(k, id, init), PassActs(k, id, c));
      PassRun(env, v, k, id, c);
      PassKeepsSpec(env, Bodies(Top(v.history)), id, c, v.now);
    }
  }

  lemma {:induction false} PassesSettle(env: Env, w: World, k: nat, id: ClusterId, cs: seq<Choice>)
    requires CanConverge(env, w, k, id, cs) && |cs| >= 1
    ensures var m := Bodies(Top(Exec(env, w, Passes(k, id, cs)).history));
            Configured(env, m, id) && (|cs| >= 2 ==> Settled(env, m, id))
  {
    var init, c := cs[..|cs| - 1], cs[|cs| - 1];
    PassesRun(env, w, k, id, cs);
    PassesRun(env, w, k, id, init);
    var v := Exec(env, w, Passes(k, id, init));
    OnePassConfigures(env, Bodies(Top(v.history)), id, c, v.now);
    if |cs| >= 2 {
      PassesSettle(env, w, k, id, init);
      NextPassSettles(env, Bodies(Top(v.history)), id, c, v.now);
    }
  }

  lemma {:induction false} PassesStay(env: Env, w: World, k: nat, id: ClusterId, cs: seq<Choice>, n: nat)
    requires CanConverge(env, w, k, id, cs) && 2 <= n <= |cs|
    ensures SameButText(Bodies(Top(Exec(env, w, Passes(k, id, cs[..n])).history)),
                        Bodies(Top(Exec(env, w, Passes(k, id, cs)).history)), id)
    decreases |cs|
  {
    if n == |cs| {
      assert cs[..n] == cs;
    } else {
      var init, c := cs[..|cs| - 1], cs[|cs| - 1];
      assert init[..n] == cs[..n];
      PassesStay(env, w, k, id, init, n);
      PassesSettle(env, w, k, id, init);
      PassesRun(env, w, k, id, init);
      PassesRun(env, w, k, id, cs);
      var v := Exec(env, w, Passes(k, id, init));
      SettledPassKeeps(env, Bodies(Top(v.history)), id, c, v.now);
    }
  }

  /**
   Whatever run came before, with its failures, deaths and races: once reads are fresh and calls succeed,
   one pass configures the cluster, two settle its status, and later passes change only the order of
   lines in its config maps.
   */
  lemma Converges(env: Env, w0: World, acts: seq<Action>, k: nat, id: ClusterId, cs: seq<Choice>, n: nat)
    requires Initial(env, w0)
    requires var w := Exec(env, w0, acts);
             && k in w.workers && w.workers[k].Idle?
             && LinkKey(Report, id) in Top(w.history)
             && (HasCluster(Bodies(Top(w.history)), id) ==> AllFit(env, id, SpecIn(Bodies(Top(w.history)), id), cs))
    requires 1 <= n <= |cs|
    ensures var w := Exec(env, w0, acts);
            var m, final := Bodies(Top(Exec(env, w, Passes(k, id, cs[..n])).history)),
                            Bodies(Top(Exec(env, w, Passes(k, id, cs)).history));
            && Configured(env, m, id) && Deployed(env, m, id)
            && (n >= 2 ==> Settled(env, m, id) && ReportsPorts(m, id) && SameButText(m, final, id))
  {
    var w := Exec(env, w0, acts);
    SoundRun(env, w0, acts);
    assert TypedBody(env, KyuubiCluster, Top(w.history)[LinkKey(Report, id)].body);
    PassesSettle(env, w, k, id, cs[..n]);
    var m := Bodies(Top(Exec(env, w, Passes(k, id, cs[..n])).history));
    ConfiguredSpelled(env, m, id);
    if n >= 2 {
      SettledSpelled(env, m, id);
      PassesStay(env, w, k, id, cs, n);
    }
  }

  // ----- commutation -----

  ghost predicate Owns(id: ClusterId, key: Key) {
    exists l: Link :: key == LinkKey(l, id)
  }

  /** Forgetting the two times of a status. */
  function Untimed(b: Option<Body>): Option<Body> {
    if b.Some? && b.value.ClusterBody? then Some(b.value.(status := b.value.status.(created := 0, updated := 0))) else b
  }

  lemma PassFrame(env: Env, m: Contents, id: ClusterId, c: Choice, now: nat, key: Key)
    requires HasCluster(m, id) && !Owns(id, key)
    ensures Content(PassBodies(env, m, id, c, now), key) == Content(m, key)
  {
    assert forall l: Link :: key != LinkKey(l, id);
  }

  /**
   What a pass does to its own cluster depends on that cluster's objects alone, and apart from config-map
   text and times not on the choices either.
   */
  lemma PassLocal(env: Env, m: Contents, n: Contents, id: ClusterId, c: Choice, d: Choice, now: nat, later: nat, l: Link)
    requires HasCluster(m, id) && HasCluster(n, id) && !IsConfig(l)
    requires forall x: Link :: Content(m, LinkKey(x, id)) == Content(n, LinkKey(x, id))
    ensures Untimed(Content(PassBodies(env, m, id, c, now), LinkKey(l, id))) ==
            Untimed(Content(PassBodies(env, n, id, d, later), LinkKey(l, id)))
  {
    PassEntry(env, m, id, c, now, l);
    PassEntry(env, n, id, d, later, l);
    assert Content(m, LinkKey(Report, id)) == Content(n, LinkKey(Report, id));
    assert Content(m, LinkKey(Front, id)) == Content(n, LinkKey(Front, id));
    assert Content(m, LinkKey(l, id)) == Content(n, LinkKey(l, id));
    assert SpecIn(m, id) == SpecIn(n, id) && FrontIn(m, id) == FrontIn(n, id);
  }

  lemma ForeignKeys(a: ClusterId, b: ClusterId, l: Link)
    requires a != b
    ensures !Owns(a, LinkKey(l, b))
  {
    if m: Link :| LinkKey(l, b) == LinkKey(m, a) {
      KeysInjective(l, b, m, a);
    }
  }

  lemma PassKeepsOther(env: Env, m: Contents, a: ClusterId, b: ClusterId, c: Choice, now: nat)
    requires a != b && HasCluster(m, a)
    ensures forall l: Link :: Content(PassBodies(env, m, a, c, now), LinkKey(l, b)) == Content(m, LinkKey(l, b))
    ensures HasCluster(m, b) ==>
              HasCluster(PassBodies(env, m, a, c, now), b) && SpecIn(PassBodies(env, m, a, c, now), b) == SpecIn(m, b)
  {
    forall l: Link ensures Content(PassBodies(env, m, a, c, now), LinkKey(l, b)) == Content(m, LinkKey(l, b)) {
      ForeignKeys(a, b, l);
      PassFrame(env, m, a, c, now, LinkKey(l, b));
    }
    assert Content(PassBodies(env, m, a, c, now), LinkKey(Report, b)) == Content(m, LinkKey(Report, b));
  }

  lemma ConfiguredLocal(env: Env, m: Contents, n: Contents, id: ClusterId)
    requires Configured(env, m, id)
    requires forall x: Link :: Content(m, LinkKey(x, id)) == Content(n, LinkKey(x, id))
    ensures Configured(env, n, id)
  {
    forall x: Link ensures LinkKey(x, id) in n && n[LinkKey(x, id)] == m[LinkKey(x, id)] {
      assert Content(m, LinkKey(x, id)) == Content(n, LinkKey(x, id));
    }
  }

  /** What two passes in either order leave of the first cluster. */
  lemma CommuteOwn(env: Env, m: Contents, a: ClusterId, ca: Choice, da: Choice, b: ClusterId, cb: Choice, db: Choice,
                   t0: nat, t1: nat, u0: nat, u1: nat, l: Link)
    requires a != b && HasCluster(m, a) && HasCluster(m, b) && !IsConfig(l)
    ensures HasCluster(PassBodies(env, m, a, ca, t0), b) && HasCluster(PassBodies(env, m, b, db, u0), a)
    ensures Untimed(Content(PassBodies(env, PassBodies(env, m, a, ca, t0), b, cb, t1), LinkKey(l, a))) ==
            Untimed(Content(PassBodies(env, PassBodies(env, m, b, db, u0), a, da, u1), LinkKey(l, a)))
  {
    PassKeepsOther(env, m, a, b, ca, t0);
    PassKeepsOther(env, m, b, a, db, u0);
    PassKeepsOther(env, PassBodies(env, m, a, ca, t0), b, a, cb, t1);
    PassLocal(env, m, PassBodies(env, m, b, db, u0), a, ca, da, t0, u1, l);
  }

  /** Passes of two clusters commute on contents, up to config-map text and the times in their statuses. */
  lemma ContentsCommute(env: Env, m: Contents, a: ClusterId, ca: Choice, da: Choice, b: ClusterId, cb: Choice, db: Choice,
                        t0: nat, t1: nat, u0: nat, u1: nat, key: Key)
    requires a != b && HasCluster(m, a) && HasCluster(m, b) && !IsConfigKey(key, a) && !IsConfigKey(key, b)
    ensures HasCluster(PassBodies(env, m, a, ca, t0), b) && HasCluster(PassBodies(env, m, b, db, u0), a)
    ensures Untimed(Content(PassBodies(env, PassBodies(env, m, a, ca, t0), b, cb, t1), key)) ==
            Untimed(Content(PassBodies(env, PassBodies(env, m, b, db, u0), a, da, u1), key))
  {
    PassKeepsOther(env, m, a, b, ca, t0);
    PassKeepsOther(env, m, b, a, db, u0);
    if Owns(a, key) {
      var l: Link :| key == LinkKey(l, a);
      CommuteOwn(env, m, a, ca, da, b, cb, db, t0, t1, u0, u1, l);
    } else if Owns(b, key) {
      var l: Link :| key == LinkKey(l, b);
      CommuteOwn(env, m, b, db, cb, a, da, ca, u0, u1, t0, t1, l);
    } else {
      PassFrame(env, m, a, ca, t0, key);
      PassFrame(env, PassBodies(env, m, a, ca, t0), b, cb, t1, key);
      PassFrame(env, m, b, db, u0, key);
      PassFrame(env, PassBodies(env, m, b, db, u0), a, da, u1, key);
    }
  }

  /** One pass for each of two clusters leaves both configured. */
  lemma BothConfigured(env: Env, w: World, j: nat, a: ClusterId, ca: Choice, k: nat, b: ClusterId, cb: Choice)
    requires a != b && CanConverge(env, w, j, a, [ca]) && CanConverge(env, w, k, b, [cb])
    ensures var x := Exec(env, w, PassActs(j, a, ca));
            var z := Exec(env, w, PassActs(j, a, ca) + PassActs(k, b, cb));
            && Bodies(Top(x.history)) == PassBodies(env, Bodies(Top(w.history)), a, ca, w.now)
            && HasCluster(Bodies(Top(x.history)), b)
            && Bodies(Top(z.history)) == PassBodies(env, Bodies(Top(x.history)), b, cb, x.now)
            && Configured(env, Bodies(Top(z.history)), a) && Configured(env, Bodies(Top(z.history)), b)
  {
    var m := Bodies(Top(w.history));
    assert Fits(env, a, SpecIn(m, a), [ca][0]) && Fits(env, b, SpecIn(m, b), [cb][0]);
    PassRun(env, w, j, a, ca);
    var x := Exec(env, w, PassActs(j, a, ca));
    var n := Bodies(Top(x.history));
    PassKeepsOther(env, m, a, b, ca, w.now);
    PassRun(env, x, k, b, cb);
    ExecConcat(env, w, PassActs(j, a, ca), PassActs(k, b, cb));
    OnePassConfigures(env, m, a, ca, w.now);
    OnePassConfigures(env, n, b, cb, x.now);
    PassKeepsOther(env, n, b, a, cb, x.now);
    ConfiguredLocal(env, n, PassBodies(env, n, b, cb, x.now), a);
  }

  /**
   The same over the machine, whatever texts and delays each of the four passes chose: either order leaves
   the same objects up to times and versions, with all config maps renderings of the same files.
   */
  lemma PassesCommute(env: Env, w: World, j: nat, a: ClusterId, ca: Choice, da: Choice, k: nat, b: ClusterId, cb: Choice,
                      db: Choice, key: Key)
    requires a != b && CanConverge(env, w, j, a, [ca]) && CanConverge(env, w, k, b, [cb])
    requires CanConverge(env, w, j, a, [da]) && CanConverge(env, w, k, b, [db])
    ensures var x := Bodies(Top(Exec(env, w, PassActs(j, a, ca) + PassActs(k, b, cb)).history));
            var y := Bodies(Top(Exec(env, w, PassActs(k, b, db) + PassActs(j, a, da)).history));
            && Configured(env, x, a) && Configured(env, y, a) && Configured(env, x, b) && Configured(env, y, b)
            && (!IsConfigKey(key, a) && !IsConfigKey(key, b) ==> Untimed(Content(x, key)) == Untimed(Content(y, key)))
  {
    BothConfigured(env, w, j, a, ca, k, b, cb);
    BothConfigured(env, w, k, b, db, j, a, da);
    if !IsConfigKey(key, a) && !IsConfigKey(key, b) {
      ContentsCommute(env, Bodies(Top(w.history)), a, ca, da, b, cb, db, w.now,
        Exec(env, w, PassActs(j, a, ca)).now, w.now, Exec(env, w, PassActs(k, b, db)).now, key);
    }
  }
}
