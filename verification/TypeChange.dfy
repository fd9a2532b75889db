/**
 What a change of reference types does to reference safety: the runs that break it, and the exact condition
 on the specs under which no run does.
 */
module TypeChange {
  import opened Base
  import opened Render
  import opened Api
  import opened Naming
  import opened Config
  import opened Volumes
  import opened Machine
  import opened References
  import opened Pass
  import opened Convergence
  import opened Company

  // ----- every spec the compiler accepts has something to write -----

  lemma SomeOrder(keys: set<string>) returns (order: seq<string>)
    ensures IsOrder(order, keys)
  {
    if keys == {} {
      order := [];
    } else {
      var k :| k in keys;
      order := SomeOrder(keys - {k});
      order := order + [k];
    }
  }

  lemma SomeText(env: Env, f: File) returns (text: string)
    ensures RendersFile(env, f, text)
  {
    var order := SomeOrder(f.conf.Keys);
    match f
    case Properties(m) => text := KvText(PairsOf(order, m));
    case Site(m) =>
      assert RendersXml(m, XmlText(PairsOf(order, m)));
      text := env.formatXml(XmlText(PairsOf(order, m)));
  }

  lemma SomeTexts(env: Env, files: Files) returns (data: map<string, string>)
    ensures RendersAll(env, files, data)
  {
    forall k | k in files ensures exists text :: RendersFile(env, files[k], text) {
      var text := SomeText(env, files[k]);
    }
    data := map k | k in files :: var text :| RendersFile(env, files[k], text); text;
  }

  lemma SomeChoice(env: Env, id: ClusterId, spec: Spec) returns (c: Choice)
    requires !Refused(RefsOf(spec))
    ensures Fits(env, id, spec, c) && c.refs.Keys == RefKeys(RefsOf(spec))
  {
    AcceptedExactly(env, id.ns, RefsOf(spec));
    var kyuubi := SomeTexts(env, KyuubiFiles(spec.conf));
    var refs := SomeTexts(env, DesiredFiles(env, id.ns, RefsOf(spec)).value);
    CompiledKeys(env, id.ns, FirstPass(RefsOf(spec)), RefsOf(spec));
    c := Choice(kyuubi, refs, 0);
  }

  // ----- pieces of runs -----

  /** A pass after its start, up to the workload. */
  function HalfActs(k: nat, c: Choice): seq<Action> {
    (OnceActs(k) + OnceActs(k) + OnceActs(k)) + (ConfigActs(k, c.kyuubi) + ConfigActs(k, c.refs))
  }

  lemma HalfPass(env: Env, w: World, k: nat, b: Worker, c: Choice) returns (w': World)
    requires AtLink(w, k, b) && b.link.Account? && Fits(env, b.id, b.spec, c) && WellTyped(env, Top(w.history))
    ensures w' == Exec(env, w, HalfActs(k, c))
    ensures WellTyped(env, Top(w'.history)) && w'.workers == w.workers[k := b.(link := Work)]
    ensures var n := Bodies(Top(w'.history));
            && Content(n, LinkKey(Work, b.id)) == Content(Bodies(Top(w.history)), LinkKey(Work, b.id))
            && Content(n, LinkKey(RefsConf, b.id)) == Some(ConfigBody(c.refs))
  {
    var first, second := OnceActs(k) + OnceActs(k) + OnceActs(k), ConfigActs(k, c.kyuubi) + ConfigActs(k, c.refs);
    var w1 := AccountsPart(env, w, k, b);
    TypedExec(env, w, first);
    var b1, b2 := b.(link := KyuubiConf), b.(link := Work);
    w' := ConfigsPart(env, w1, k, b1, c);
    TypedExec(env, w1, second);
    ExecConcat(env, w, first, second);
    ReachesThen(env, w, w1, w', k, b1, b2, Bodies(Top(w1.history)), Bodies(Top(w'.history)));
    HalfContents(env, Bodies(Top(w.history)), b.id, b.spec, c);
  }

  lemma HalfContents(env: Env, m: Contents, id: ClusterId, spec: Spec, c: Choice)
    ensures var n := Configs(Accounts(env, m, id, spec), id, c);
            && Content(n, LinkKey(Work, id)) == Content(m, LinkKey(Work, id))
            && Content(n, LinkKey(RefsConf, id)) == Some(ConfigBody(c.refs))
  {
    var x := Accounts(env, m, id, spec);
    AccountsEntry(env, m, id, spec, Work);
    ConfigsEntry(x, id, c, Work);
    ConfigsEntry(x, id, c, RefsConf);
  }

  /** A whole pass leaves the cluster configured for the spec it read. */
  lemma WholePass(env: Env, w: World, k: nat, id: ClusterId, spec: Spec, c: Choice) returns (w': World)
    requires Ready(env, w, k, id) && HasCluster(Bodies(Top(w.history)), id)
    requires SpecIn(Bodies(Top(w.history)), id) == spec && Fits(env, id, spec, c)
    ensures w' == Exec(env, w, PassActs(k, id, c))
    ensures w'.workers == w.workers && WellTyped(env, Top(w'.history))
    ensures Configured(env, Bodies(Top(w'.history)), id) && SpecIn(Bodies(Top(w'.history)), id) == spec
  {
    var m := Bodies(Top(w.history));
    w' := Exec(env, w, PassActs(k, id, c));
    PassRun(env, w, k, id, c);
    OnePassConfigures(env, m, id, c, w.now);
    PassKeepsSpec(env, m, id, c, w.now);
  }

  lemma Edited(env: Env, w: World, id: ClusterId, spec: Spec) returns (w': World, o: Stored)
    requires WellTyped(env, Top(w.history))
    ensures w' == Exec(env, w, [EditSpec(id, spec)])
    ensures w'.workers == w.workers && WellTyped(env, Top(w'.history))
    ensures HasCluster(Bodies(Top(w'.history)), id) && SpecIn(Bodies(Top(w'.history)), id) == spec
    ensures Fetch(Seen(w'.history, 0), LinkKey(Report, id)) == Some(o) && o.body.ClusterBody? && o.body.spec == spec
    ensures Content(Bodies(Top(w'.history)), LinkKey(Work, id)) == Content(Bodies(Top(w.history)), LinkKey(Work, id))
  {
    w' := Exec(env, w, [EditSpec(id, spec)]);
    Exec1(env, w, EditSpec(id, spec));
    TypedStep(env, w, EditSpec(id, spec));
    var c := EditChange(Top(w.history), id, spec);
    o := Top(w'.history)[c.key];
    assert Content(Bodies(Top(w'.history)), c.key) == Some(c.body);
  }

  lemma Started(env: Env, w: World, k: nat, id: ClusterId, lag: nat, o: Stored) returns (w': World)
    requires k in w.workers && w.workers[k].Idle? && Fetch(Seen(w.history, lag), LinkKey(Report, id)) == Some(o)
    requires o.body.ClusterBody?
    ensures w' == Exec(env, w, [Start(k, id, lag)])
    ensures w' == w.(workers := w.workers[k := Begin(id, o)]) && AtLink(w', k, Begin(id, o))
  {
    w' := Exec(env, w, [Start(k, id, lag)]);
    Exec1(env, w, Start(k, id, lag));
  }

  /** What the store holds once its contents name the workload and the config map. */
  lemma HoldsBodies(env: Env, s: Store, id: ClusterId, spec: Spec, data: map<string, string>)
    requires Content(Bodies(s), LinkKey(Work, id)) == Some(WorkloadBody(Complete(env, WorkloadFor(id, spec))))
    requires Content(Bodies(s), LinkKey(RefsConf, id)) == Some(ConfigBody(data))
    ensures Holds(env, s, id, spec, data.Keys)
  {
    assert Bodies(s)[LinkKey(Work, id)] == s[LinkKey(Work, id)].body;
    assert Bodies(s)[LinkKey(RefsConf, id)] == s[LinkKey(RefsConf, id)].body;
  }

  // ----- runs with few edits -----

  /** Nothing is stored and two workers are idle. */
  const NOTHING := World([map[]], 0, map[0 := Idle, 1 := Idle])

  /** The edits of this cluster's spec stay among these, and nobody else touches its objects. */
  ghost predicate StaysAmong(id: ClusterId, specs: iset<Spec>, acts: seq<Action>) {
    forall i :: 0 <= i < |acts| ==> StepAmong(id, specs, acts[i])
  }

  ghost predicate StepAmong(id: ClusterId, specs: iset<Spec>, a: Action) {
    && (a.EditSpec? && a.id == id ==> a.spec in specs)
    && (a.OutsideEdit? ==> forall l :: a.key != LinkKey(l, id))
  }

  /** The user sets one spec and later, perhaps, another. */
  ghost predicate Changes(id: ClusterId, before: Spec, after: Spec, acts: seq<Action>) {
    exists n: nat :: n <= |acts| && StaysAmong(id, iset{before}, acts[..n]) && StaysAmong(id, iset{after}, acts[n..])
  }

  /** A worker's own steps are no edits. */
  lemma PassAmong(k: nat, id: ClusterId, c: Choice, of: ClusterId, specs: iset<Spec>)
    ensures StaysAmong(of, specs, PassActs(k, id, c))
  {
  }

  lemma HalfAmong(k: nat, c: Choice, of: ClusterId, specs: iset<Spec>)
    ensures StaysAmong(of, specs, HalfActs(k, c))
  {
  }

  lemma AmongConcat(id: ClusterId, specs: iset<Spec>, a: seq<Action>, b: seq<Action>)
    requires StaysAmong(id, specs, a) && StaysAmong(id, specs, b)
    ensures StaysAmong(id, specs, a + b)
  {
  }

  /** The user sets a spec and one worker runs a whole pass. */
  lemma EditThenPass(env: Env, w: World, id: ClusterId, spec: Spec) returns (acts: seq<Action>, w': World)
    requires WellTyped(env, Top(w.history)) && 0 in w.workers && w.workers[0].Idle? && !Refused(RefsOf(spec))
    ensures w' == Exec(env, w, acts) && StaysAmong(id, iset{spec}, acts)
    ensures w.history <= w'.history && w'.workers == w.workers && WellTyped(env, Top(w'.history))
    ensures Configured(env, Bodies(Top(w'.history)), id) && SpecIn(Bodies(Top(w'.history)), id) == spec
  {
    var c := SomeChoice(env, id, spec);
    var w1, o := Edited(env, w, id, spec);
    w' := WholePass(env, w1, 0, id, spec, c);
    acts := [EditSpec(id, spec)] + PassActs(0, id, c);
    ExecConcat(env, w, [EditSpec(id, spec)], PassActs(0, id, c));
    RunGrows(env, w, acts);
    PassAmong(0, id, c, id, iset{spec});
    AmongConcat(id, iset{spec}, [EditSpec(id, spec)], PassActs(0, id, c));
  }

  /** The worker that read this cluster object, when it has come to the workload. */
  function AtWork(id: ClusterId, o: Stored): Worker {
    var b := Begin(id, o);
    if b.Busy? then b.(link := Work) else b
  }

  /** A worker takes up a spec it read, perhaps long ago, and comes as far as the workload. */
  lemma StartThenHalf(env: Env, w: World, k: nat, id: ClusterId, lag: nat, o: Stored, specs: iset<Spec>)
    returns (acts: seq<Action>, w': World, data: map<string, string>)
    requires WellTyped(env, Top(w.history)) && k in w.workers && w.workers[k].Idle?
    requires Fetch(Seen(w.history, lag), LinkKey(Report, id)) == Some(o)
    requires o.body.ClusterBody? && !Refused(RefsOf(o.body.spec))
    ensures w' == Exec(env, w, acts) && StaysAmong(id, specs, acts)
    ensures WellTyped(env, Top(w'.history)) && w'.workers == w.workers[k := AtWork(id, o)]
    ensures data.Keys == RefKeys(RefsOf(o.body.spec))
    ensures var n := Bodies(Top(w'.history));
            && Content(n, LinkKey(Work, id)) == Content(Bodies(Top(w.history)), LinkKey(Work, id))
            && Content(n, LinkKey(RefsConf, id)) == Some(ConfigBody(data))
  {
    var c := SomeChoice(env, id, o.body.spec);
    data := c.refs;
    var w1 := Started(env, w, k, id, lag, o);
    w' := HalfPass(env, w1, k, Begin(id, o), c);
    acts := [Start(k, id, lag)] + HalfActs(k, c);
    ExecConcat(env, w, [Start(k, id, lag)], HalfActs(k, c));
    HalfAmong(k, c, id, specs);
    AmongConcat(id, specs, [Start(k, id, lag)], HalfActs(k, c));
  }

  /** The user sets a spec and a worker takes it up at once, as far as the workload. */
  lemma EditThenHalf(env: Env, w: World, k: nat, id: ClusterId, spec: Spec)
    returns (acts: seq<Action>, w': World, o: Stored, data: map<string, string>)
    requires WellTyped(env, Top(w.history)) && k in w.workers && w.workers[k].Idle? && !Refused(RefsOf(spec))
    ensures w' == Exec(env, w, acts) && StaysAmong(id, iset{spec}, acts)
    ensures WellTyped(env, Top(w'.history)) && w'.workers == w.workers[k := AtWork(id, o)]
    ensures o.body.ClusterBody? && o.body.spec == spec && data.Keys == RefKeys(RefsOf(spec))
    ensures var n := Bodies(Top(w'.history));
            && Content(n, LinkKey(Work, id)) == Content(Bodies(Top(w.history)), LinkKey(Work, id))
            && Content(n, LinkKey(RefsConf, id)) == Some(ConfigBody(data))
  {
    var edit := [EditSpec(id, spec)];
    var w1: World, half: seq<Action>;
    w1, o := Edited(env, w, id, spec);
    half, w', data := StartThenHalf(env, w1, k, id, 0, o, iset{spec});
    ExecConcat(env, w, edit, half);
    AmongConcat(id, iset{spec}, edit, half);
    acts := edit + half;
  }

  /** A run in two stretches, one under each spec. */
  lemma Stitch(env: Env, id: ClusterId, before: Spec, after: Spec, first: seq<Action>, second: seq<Action>)
    requires StaysAmong(id, iset{before}, first) && StaysAmong(id, iset{after}, second)
    ensures Changes(id, before, after, first + second)
    ensures Exec(env, NOTHING, first + second) == Exec(env, Exec(env, NOTHING, first), second)
  {
    var acts := first + second;
    assert acts[..|first|] == first && acts[|first|..] == second;
    ExecConcat(env, NOTHING, first, second);
  }

  lemma ConfiguredWork(env: Env, m: Contents, id: ClusterId)
    requires Configured(env, m, id)
    ensures Content(m, LinkKey(Work, id)) == Some(WorkloadBody(Complete(env, WorkloadFor(id, SpecIn(m, id)))))
  {
  }

  lemma Dangles(env: Env, s: Store, id: ClusterId, spec: Spec, data: map<string, string>, f: string)
    requires Content(Bodies(s), LinkKey(Work, id)) == Some(WorkloadBody(Complete(env, WorkloadFor(id, spec))))
    requires Content(Bodies(s), LinkKey(RefsConf, id)) == Some(ConfigBody(data))
    requires f in RefKeys(RefsOf(spec)) && f !in data
    ensures !VolumesOk(s, id)
  {
    HoldsBodies(env, s, id, spec, data);
    MissingFile(env, s, id, spec, data.Keys, f);
  }

  // ----- the failing runs -----

  /**
   A file is dropped. One worker, fresh reads, no failure: the pass after the edit rewrites the references
   config map before it comes to the workload, whose volumes dangle in between.
   */
  lemma DroppedFileRun(env: Env, id: ClusterId, before: Spec, after: Spec, f: string) returns (acts: seq<Action>)
    requires !Refused(RefsOf(before)) && !Refused(RefsOf(after))
    requires f in RefKeys(RefsOf(before)) && f !in RefKeys(RefsOf(after))
    ensures Changes(id, before, after, acts)
    ensures !VolumesOk(Top(Exec(env, NOTHING, acts).history), id)
  {
    var first, w1 := EditThenPass(env, NOTHING, id, before);
    ConfiguredWork(env, Bodies(Top(w1.history)), id);
    var second, w2, o, data := EditThenHalf(env, w1, 0, id, after);
    Dangles(env, Top(w2.history), id, before, data, f);
    Stitch(env, id, before, after, first, second);
    acts := first + second;
  }

  /**
   A file is added, and nothing is ever dropped. A second worker starts from a lagging read of the old spec,
   after the first has put the new one in place, and rewrites the references config map backwards.
   */
  lemma AddedFileRun(env: Env, id: ClusterId, before: Spec, after: Spec, f: string) returns (acts: seq<Action>)
    requires !Refused(RefsOf(before)) && !Refused(RefsOf(after))
    requires f !in RefKeys(RefsOf(before)) && f in RefKeys(RefsOf(after))
    ensures Changes(id, before, after, acts)
    ensures !VolumesOk(Top(Exec(env, NOTHING, acts).history), id)
  {
    var edit := [EditSpec(id, before)];
    var w1, o := Edited(env, NOTHING, id, before);
    var second, w2 := EditThenPass(env, w1, id, after);
    ConfiguredWork(env, Bodies(Top(w2.history)), id);
    var lag := |w2.history| - |w1.history|;
    assert Seen(w2.history, lag) == Top(w1.history) == Seen(w1.history, 0);
    var half, w3, data := StartThenHalf(env, w2, 1, id, lag, o, iset{after});
    Dangles(env, Top(w3.history), id, after, data, f);
    ExecConcat(env, w1, second, half);
    AmongConcat(id, iset{after}, second, half);
    Stitch(env, id, before, after, edit, second + half);
    acts := edit + (second + half);
  }

  /**
   The workload write carries no version. A worker that lingered since the old spec puts its workload over the
   one of the new spec; no config map is written by that step, and until then nothing dangled.
   */
  lemma StaleWorkloadRun(env: Env, id: ClusterId, before: Spec, after: Spec, f: string)
    returns (acts: seq<Action>, last: Action)
    requires !Refused(RefsOf(before)) && !Refused(RefsOf(after))
    requires f in RefKeys(RefsOf(before)) && f !in RefKeys(RefsOf(after))
    ensures last.Put? && Changes(id, before, after, acts + [last])
    ensures var w := Exec(env, NOTHING, acts);
            && VolumesOk(Top(w.history), id)
            && Enabled(env, w, last) && WorkerOf(w, last.k).link.Work?
            && !VolumesOk(Top(Apply(env, w, last).history), id)
  {
    last := Put(1, map[]);
    var first, w1, o, data := EditThenHalf(env, NOTHING, 1, id, before);
    var second, w2 := Overtaken(env, w1, 1, AtWork(id, o), after, f);
    AmongConcat(id, iset{after}, second, [last]);
    Stitch(env, id, before, after, first, second);
    Stitch(env, id, before, after, first, second + [last]);
    acts := first + second;
    assert acts + [last] == first + (second + [last]);
  }

  /** A whole pass for the new spec overtakes a worker at the workload, which then reads it. */
  lemma Overtaken(env: Env, w: World, k: nat, b: Worker, after: Spec, f: string) returns (acts: seq<Action>, w': World)
    requires AtLink(w, k, b) && b.link.Work? && WellTyped(env, Top(w.history)) && !Refused(RefsOf(after))
    requires 0 in w.workers && w.workers[0].Idle?
    requires f in RefKeys(RefsOf(b.spec)) && f !in RefKeys(RefsOf(after))
    ensures w' == Exec(env, w, acts) && StaysAmong(b.id, iset{after}, acts)
    ensures VolumesOk(Top(w'.history), b.id)
    ensures Enabled(env, w', Put(k, map[])) && WorkerOf(w', k).link.Work?
    ensures !VolumesOk(Top(Apply(env, w', Put(k, map[])).history), b.id)
  {
    var pass, w1 := EditThenPass(env, w, b.id, after);
    w' := LastWrite(env, w1, k, b, after, f);
    Exec1(env, w1, Get(k, 0));
    ExecConcat(env, w, pass, [Get(k, 0)]);
    AmongConcat(b.id, iset{after}, pass, [Get(k, 0)]);
    acts := pass + [Get(k, 0)];
  }

  /** The last two steps of that run: the lingering worker reads the workload, then overwrites it. */
  lemma LastWrite(env: Env, w: World, k: nat, b: Worker, after: Spec, f: string) returns (w': World)
    requires AtLink(w, k, b) && b.link.Work? && WellTyped(env, Top(w.history))
    requires Configured(env, Bodies(Top(w.history)), b.id) && SpecIn(Bodies(Top(w.history)), b.id) == after
    requires f in RefKeys(RefsOf(b.spec)) && f !in RefKeys(RefsOf(after))
    ensures w' == Apply(env, w, Get(k, 0))
    ensures VolumesOk(Top(w'.history), b.id)
    ensures Enabled(env, w', Put(k, map[])) && WorkerOf(w', k).link.Work?
    ensures !VolumesOk(Top(Apply(env, w', Put(k, map[])).history), b.id)
  {
    var id, s, m := b.id, Top(w.history), Bodies(Top(w.history));
    w' := Apply(env, w, Get(k, 0));
    assert Seen(w.history, 0) == s;
    ConfiguredVolumes(env, s, id);
    Exec2(env, w, Get(k, 0), Put(k, map[]));
    WorkLink(env, w, k, b);
    var t := Top(Apply(env, w', Put(k, map[])).history);
    CommitBodies(w.history, LinkKey(Work, id), BodyFor(env, id, b.spec, Work, map[]), LinkKey(RefsConf, id));
    Dangles(env, t, id, b.spec, DataOf(m[LinkKey(RefsConf, id)]), f);
  }

  /** A configured cluster holds exactly the files of its spec, all of them where its volumes look. */
  lemma ConfiguredVolumes(env: Env, s: Store, id: ClusterId)
    requires Configured(env, Bodies(s), id)
    ensures DataOf(Bodies(s)[LinkKey(RefsConf, id)]).Keys == RefKeys(RefsOf(SpecIn(Bodies(s), id)))
    ensures VolumesOk(s, id)
  {
    var m, spec := Bodies(s), SpecIn(Bodies(s), id);
    var data := DataOf(m[LinkKey(RefsConf, id)]);
    assert forall l: Link :: LinkKey(l, id) in m;
    CompiledKeys(env, id.ns, FirstPass(RefsOf(spec)), RefsOf(spec));
    HoldsBodies(env, s, id, spec, data);
    assert m[LinkKey(KyuubiConf, id)] == s[LinkKey(KyuubiConf, id)].body;
    VolumesOkExactly(env, s, id, spec, data.Keys);
  }

  // ----- the exact condition -----

  /** All accepted specs among these call for the same files. */
  ghost predicate SameTypes(specs: iset<Spec>) {
    forall s, t :: s in specs && t in specs && !Refused(RefsOf(s)) && !Refused(RefsOf(t)) ==>
      RefKeys(RefsOf(s)) == RefKeys(RefsOf(t))
  }

  /** No state of any run from an empty namespace, with edits among these specs, has a dangling reference. */
  ghost predicate NeverDangles(env: Env, id: ClusterId, specs: iset<Spec>) {
    forall w, acts, i: nat ::
      && FreshFor(env, w, id)
      && (LinkKey(Report, id) in w.history[0] ==> w.history[0][LinkKey(Report, id)].body.spec in specs)
      && StaysAmong(id, specs, acts)
      && i < |Exec(env, w, acts).history|
      ==> ReferencesOk(Exec(env, w, acts).history[i], id)
  }

  /** The same for the runs in which the user changes the spec at most once. */
  ghost predicate ChangeNeverDangles(env: Env, id: ClusterId, before: Spec, after: Spec) {
    forall w, acts, i: nat ::
      && FreshFor(env, w, id) && LinkKey(Report, id) !in w.history[0]
      && Changes(id, before, after, acts)
      && i < |Exec(env, w, acts).history|
      ==> ReferencesOk(Exec(env, w, acts).history[i], id)
  }

  lemma NothingIsFresh(env: Env, id: ClusterId)
    ensures FreshFor(env, NOTHING, id) && LinkKey(Report, id) !in NOTHING.history[0]
  {
  }

  /**
   A single change of spec is safe in every run exactly when it changes no file: a dropped file breaks a run of
   one worker, an added one a run of two.
   */
  lemma ChangeSafeExactly(env: Env, id: ClusterId, before: Spec, after: Spec)
    requires !Refused(RefsOf(before)) && !Refused(RefsOf(after))
    ensures ChangeNeverDangles(env, id, before, after) <==> RefKeys(RefsOf(before)) == RefKeys(RefsOf(after))
  {
    var files := RefKeys(RefsOf(before));
    if files == RefKeys(RefsOf(after)) {
      forall w, acts, i: nat |
        && FreshFor(env, w, id) && LinkKey(Report, id) !in w.history[0]
        && Changes(id, before, after, acts) && i < |Exec(env, w, acts).history|
        ensures ReferencesOk(Exec(env, w, acts).history[i], id)
      {
        ChangesSameFiles(id, before, after, acts);
        ReferenceSafety(env, w, acts, id, files, i);
      }
    } else {
      var acts := BreakingRun(env, id, before, after);
      NothingIsFresh(env, id);
      var h := Exec(env, NOTHING, acts).history;
      assert !ReferencesOk(h[|h| - 1], id);
    }
  }

  lemma ChangesSameFiles(id: ClusterId, before: Spec, after: Spec, acts: seq<Action>)
    requires Changes(id, before, after, acts) && RefKeys(RefsOf(before)) == RefKeys(RefsOf(after))
    ensures SameFiles(id, RefKeys(RefsOf(before)), acts)
  {
    var n: nat :| n <= |acts| && StaysAmong(id, iset{before}, acts[..n]) && StaysAmong(id, iset{after}, acts[n..]);
    forall i | 0 <= i < |acts| ensures StepAmong(id, iset{before, after}, acts[i]) {
      assert acts[i] == if i < n then acts[..n][i] else acts[n..][i - n];
    }
  }

  /** Whichever way the files differ, some run leaves a reference dangling. */
  lemma BreakingRun(env: Env, id: ClusterId, before: Spec, after: Spec) returns (acts: seq<Action>)
    requires !Refused(RefsOf(before)) && !Refused(RefsOf(after))
    requires RefKeys(RefsOf(before)) != RefKeys(RefsOf(after))
    ensures Changes(id, before, after, acts)
    ensures !VolumesOk(Top(Exec(env, NOTHING, acts).history), id)
  {
    if f :| f in RefKeys(RefsOf(before)) && f !in RefKeys(RefsOf(after)) {
      acts := DroppedFileRun(env, id, before, after, f);
    } else {
      var f :| f !in RefKeys(RefsOf(before)) && f in RefKeys(RefsOf(after));
      acts := AddedFileRun(env, id, before, after, f);
    }
  }

  /**
   Reference safety, exactly: for any set of specs, no run whose edits stay among them ever dangles if and only
   if those the compiler accepts all call for the same files.
   */
  lemma SafeExactly(env: Env, id: ClusterId, specs: iset<Spec>)
    ensures NeverDangles(env, id, specs) <==> SameTypes(specs)
  {
    if SameTypes(specs) {
      SameTypesSafe(env, id, specs);
    } else {
      var s, t :| s in specs && t in specs && !Refused(RefsOf(s)) && !Refused(RefsOf(t)) &&
                  RefKeys(RefsOf(s)) != RefKeys(RefsOf(t));
      var acts := BreakingRun(env, id, s, t);
      NothingIsFresh(env, id);
      ChangesStayAmong(id, s, t, specs, acts);
      var h := Exec(env, NOTHING, acts).history;
      assert !ReferencesOk(h[|h| - 1], id);
    }
  }

  lemma ChangesStayAmong(id: ClusterId, before: Spec, after: Spec, specs: iset<Spec>, acts: seq<Action>)
    requires Changes(id, before, after, acts) && before in specs && after in specs
    ensures StaysAmong(id, specs, acts)
  {
    var n: nat :| n <= |acts| && StaysAmong(id, iset{before}, acts[..n]) && StaysAmong(id, iset{after}, acts[n..]);
    forall i | 0 <= i < |acts| ensures StepAmong(id, specs, acts[i]) {
      assert acts[i] == if i < n then acts[..n][i] else acts[n..][i - n];
    }
  }

  lemma SameTypesSafe(env: Env, id: ClusterId, specs: iset<Spec>)
    requires SameTypes(specs)
    ensures NeverDangles(env, id, specs)
  {
    var files := CommonFiles(specs);
    forall w, acts, i: nat |
      && FreshFor(env, w, id)
      && (LinkKey(Report, id) in w.history[0] ==> w.history[0][LinkKey(Report, id)].body.spec in specs)
      && StaysAmong(id, specs, acts)
      && i < |Exec(env, w, acts).history|
      ensures ReferencesOk(Exec(env, w, acts).history[i], id)
    {
      ReferenceSafety(env, w, acts, id, files, i);
    }
  }

  lemma CommonFiles(specs: iset<Spec>) returns (files: set<string>)
    requires SameTypes(specs)
    ensures forall s :: s in specs ==> CallsFor(s, files)
  {
    if s :| s in specs && !Refused(RefsOf(s)) {
      files := RefKeys(RefsOf(s));
    } else {
      files := {};
    }
  }
}
