/** A fault-free pass with fresh reads: its actions, and what it does to the contents of the store. */
module Pass {
  import opened Base
  import opened Api
  import opened Naming
  import opened Config
  import opened Machine

  /** What a pass chooses: the texts of its two config maps, and how far apart its clock readings are. */
  datatype Choice = Choice(kyuubi: map<string, string>, refs: map<string, string>, pause: nat)

  function OnceActs(k: nat): seq<Action> { [Get(k, 0), Put(k, map[])] }

  function ConfigActs(k: nat, data: map<string, string>): seq<Action> { [Get(k, 0), Put(k, data), Poll(k, 0)] }

  function ReportActs(k: nat, pause: nat): seq<Action> { [Date(k), Tick(pause), Stamp(k), Publish(k)] }

  function PassActs(k: nat, id: ClusterId, c: Choice): seq<Action> {
    [Start(k, id, 0)]
    + OnceActs(k) + OnceActs(k) + OnceActs(k)
    + ConfigActs(k, c.kyuubi) + ConfigActs(k, c.refs)
    + OnceActs(k) + OnceActs(k)
    + ReportActs(k, c.pause)
  }

  type Contents = map<Key, Body>

  function Bodies(s: Store): Contents {
    map key | key in s :: s[key].body
  }

  function Ensure(m: Contents, key: Key, b: Body): Contents {
    if key in m then m else m[key := b]
  }

  predicate HasCluster(m: Contents, id: ClusterId) {
    LinkKey(Report, id) in m && m[LinkKey(Report, id)].ClusterBody?
  }

  function SpecIn(m: Contents, id: ClusterId): Spec
    requires HasCluster(m, id)
  {
    m[LinkKey(Report, id)].spec
  }

  function StatusIn(m: Contents, id: ClusterId): Status
    requires HasCluster(m, id)
  {
    m[LinkKey(Report, id)].status
  }

  /** The service as the pass will report it. */
  function FrontIn(m: Contents, id: ClusterId): ServiceView {
    if LinkKey(Front, id) in m then ViewOf(id, m[LinkKey(Front, id)]) else EMPTY_SERVICE
  }

  function Accounts(env: Env, m: Contents, id: ClusterId, spec: Spec): Contents {
    Ensure(Ensure(Ensure(m,
      LinkKey(Account, id), BodyFor(env, id, spec, Account, map[])),
      LinkKey(Permission, id), BodyFor(env, id, spec, Permission, map[])),
      LinkKey(Binding, id), BodyFor(env, id, spec, Binding, map[]))
  }

  function Configs(m: Contents, id: ClusterId, c: Choice): Contents {
    m[LinkKey(KyuubiConf, id) := ConfigBody(c.kyuubi)][LinkKey(RefsConf, id) := ConfigBody(c.refs)]
  }

  function Running(env: Env, m: Contents, id: ClusterId, spec: Spec): Contents {
    Ensure(m[LinkKey(Work, id) := BodyFor(env, id, spec, Work, map[])],
      LinkKey(Front, id), BodyFor(env, id, spec, Front, map[]))
  }

  function NewStatus(st: Status, infos: seq<ExposedInfo>, now: nat, pause: nat): Status {
    Status(Some(infos), if st.infos.None? then now else st.created, now + pause)
  }

  /** The specification of a pass on contents: who is created, what is overwritten, what is reported. */
  function PassBodies(env: Env, m: Contents, id: ClusterId, c: Choice, now: nat): Contents
    requires HasCluster(m, id)
  {
    var spec, st := SpecIn(m, id), StatusIn(m, id);
    var r := Running(env, Configs(Accounts(env, m, id, spec), id, c), id, spec);
    var infos := Exposed(id.name, FrontIn(m, id));
    if st.infos == Some(infos) then r
    else r[LinkKey(Report, id) := ClusterBody(spec, NewStatus(st, infos, now, c.pause))]
  }

  ghost predicate Fits(env: Env, id: ClusterId, spec: Spec, c: Choice) {
    var files := DesiredFiles(env, id.ns, RefsOf(spec));
    && files.Ok?
    && RendersAll(env, KyuubiFiles(spec.conf), c.kyuubi)
    && RendersAll(env, files.value, c.refs)
  }

  // ----- running short action lists -----

  lemma Exec1(env: Env, w: World, a: Action)
    ensures Exec(env, w, [a]) == Apply(env, w, a)
  {
    assert [a][..0] == [];
  }

  lemma Exec2(env: Env, w: World, a: Action, b: Action)
    ensures Exec(env, w, [a, b]) == Apply(env, Apply(env, w, a), b)
  {
    assert [a, b][..1] == [a];
    Exec1(env, w, a);
  }

  lemma Exec3(env: Env, w: World, a: Action, b: Action, c: Action)
    ensures Exec(env, w, [a, b, c]) == Apply(env, Apply(env, Apply(env, w, a), b), c)
  {
    assert [a, b, c][..2] == [a, b];
    Exec2(env, w, a, b);
  }

  lemma {:induction false} TypedExec(env: Env, w: World, acts: seq<Action>)
    requires WellTyped(env, Top(w.history))
    ensures WellTyped(env, Top(Exec(env, w, acts).history))
  {
    if acts != [] {
      TypedExec(env, w, acts[..|acts| - 1]);
      TypedStep(env, Exec(env, w, acts[..|acts| - 1]), acts[|acts| - 1]);
    }
  }

  // ----- one link -----

  ghost predicate AtLink(w: World, k: nat, b: Worker) {
    k in w.workers && w.workers[k] == b && b.Busy? && b.phase.Getting?
  }

  function CreateIfMissing(s: Store, key: Key, b: Body): Option<Change> {
    if key in s then None else Some(Change(key, b))
  }

  lemma GetStep(env: Env, w: World, k: nat, b: Worker)
    requires AtLink(w, k, b)
    ensures Apply(env, w, Get(k, 0)) == w.(workers := w.workers[k := AfterGet(env, Top(w.history), b)])
  {
    assert Seen(w.history, 0) == Top(w.history);
  }

  lemma PutStep(env: Env, w: World, k: nat, b: Worker, data: map<string, string>)
    requires k in w.workers && w.workers[k] == b && Writable(b) && Renderable(env, b, data)
    ensures Apply(env, w, Put(k, data)) ==
            World(Commit(w.history, PutChange(env, Top(w.history), b, data)), w.now,
                  w.workers[k := AfterPut(Top(w.history), b, data)])
  {
  }

  lemma PollStep(env: Env, w: World, k: nat, b: Worker)
    requires k in w.workers && w.workers[k] == b && b.Busy? && b.phase.Polling?
    ensures Apply(env, w, Poll(k, 0)) == w.(workers := w.workers[k := AfterPoll(Top(w.history), b)])
  {
    assert Seen(w.history, 0) == Top(w.history);
  }

  lemma OnceLink(env: Env, w: World, k: nat, b: Worker)
    requires AtLink(w, k, b) && b.link in {Account, Permission, Binding}
    ensures var c := CreateIfMissing(Top(w.history), LinkKey(b.link, b.id), BodyFor(env, b.id, b.spec, b.link, map[]));
            Exec(env, w, OnceActs(k)) == World(Commit(w.history, c), w.now, w.workers[k := Advance(b)])
  {
    Exec2(env, w, Get(k, 0), Put(k, map[]));
    var w1 := Apply(env, w, Get(k, 0));
    assert Seen(w.history, 0) == Top(w.history);
    if LinkKey(b.link, b.id) in Top(w.history) {
      assert w1.workers[k] == Advance(b);
      assert Apply(env, w1, Put(k, map[])) == w1;
    } else {
      assert w1.workers[k] == b.(phase := Writing(None));
      assert w.workers[k := w1.workers[k]][k := Advance(b)] == w.workers[k := Advance(b)];
    }
  }

  lemma FrontLink(env: Env, w: World, k: nat, b: Worker)
    requires AtLink(w, k, b) && b.link.Front? && b.svc == EMPTY_SERVICE
    ensures var key := LinkKey(Front, b.id);
            var c := CreateIfMissing(Top(w.history), key, BodyFor(env, b.id, b.spec, Front, map[]));
            var view := if key in Top(w.history) then ViewOf(b.id, Top(w.history)[key].body) else EMPTY_SERVICE;
            Exec(env, w, OnceActs(k)) == World(Commit(w.history, c), w.now, w.workers[k := Advance(b.(svc := view))])
  {
    Exec2(env, w, Get(k, 0), Put(k, map[]));
    var w1 := Apply(env, w, Get(k, 0));
    assert Seen(w.history, 0) == Top(w.history);
    if LinkKey(b.link, b.id) in Top(w.history) {
      assert Apply(env, w1, Put(k, map[])) == w1;
    } else {
      assert b.(svc := EMPTY_SERVICE) == b;
      assert w1.workers[k] == b.(phase := Writing(None));
      assert w.workers[k := w1.workers[k]][k := Advance(b)] == w.workers[k := Advance(b)];
    }
  }

  lemma ConfigPresent(env: Env, w: World, k: nat, b: Worker, data: map<string, string>)
    requires AtLink(w, k, b) && IsConfig(b.link) && Renderable(env, b, data)
    requires WellTyped(env, Top(w.history)) && LinkKey(b.link, b.id) in Top(w.history)
    ensures Exec(env, w, ConfigActs(k, data)) ==
            World(Commit(w.history, Some(Change(LinkKey(b.link, b.id), ConfigBody(data)))), w.now,
                  w.workers[k := Advance(b)])
  {
    Exec3(env, w, Get(k, 0), Put(k, data), Poll(k, 0));
    var b1 := b.(phase := Writing(Fetch(Top(w.history), LinkKey(b.link, b.id))));
    var w1 := w.(workers := w.workers[k := b1]);
    GetStep(env, w, k, b);
    PutStep(env, w1, k, b1, data);
    var w2 := Apply(env, w1, Put(k, data));
    assert w2.workers == w.workers[k := Advance(b)];
    assert Apply(env, w2, Poll(k, 0)) == w2;
  }

  lemma ConfigAbsent(env: Env, w: World, k: nat, b: Worker, data: map<string, string>)
    requires AtLink(w, k, b) && IsConfig(b.link) && Renderable(env, b, data)
    requires LinkKey(b.link, b.id) !in Top(w.history)
    ensures Exec(env, w, ConfigActs(k, data)) ==
            World(Commit(w.history, Some(Change(LinkKey(b.link, b.id), ConfigBody(data)))), w.now,
                  w.workers[k := Advance(b)])
  {
    Exec3(env, w, Get(k, 0), Put(k, data), Poll(k, 0));
    var b1, b2 := b.(phase := Writing(None)), b.(phase := Polling);
    var w1 := w.(workers := w.workers[k := b1]);
    GetStep(env, w, k, b);
    PutStep(env, w1, k, b1, data);
    var w2 := Apply(env, w1, Put(k, data));
    assert w2.workers[k] == b2;
    PollStep(env, w2, k, b2);
    assert w.workers[k := b1][k := b2][k := Advance(b)] == w.workers[k := Advance(b)];
  }

  lemma ConfigLink(env: Env, w: World, k: nat, b: Worker, data: map<string, string>)
    requires AtLink(w, k, b) && IsConfig(b.link) && Renderable(env, b, data)
    requires WellTyped(env, Top(w.history))
    ensures Exec(env, w, ConfigActs(k, data)) ==
            World(Commit(w.history, Some(Change(LinkKey(b.link, b.id), ConfigBody(data)))), w.now,
                  w.workers[k := Advance(b)])
  {
    if LinkKey(b.link, b.id) in Top(w.history) {
      ConfigPresent(env, w, k, b, data);
    } else {
      ConfigAbsent(env, w, k, b, data);
    }
  }

  lemma WorkLink(env: Env, w: World, k: nat, b: Worker)
    requires AtLink(w, k, b) && b.link.Work?
    requires WellTyped(env, Top(w.history))
    ensures Exec(env, w, OnceActs(k)) ==
            World(Commit(w.history, Some(Change(LinkKey(Work, b.id), BodyFor(env, b.id, b.spec, Work, map[])))), w.now,
                  w.workers[k := Advance(b)])
  {
    Exec2(env, w, Get(k, 0), Put(k, map[]));
    var key := LinkKey(Work, b.id);
    var b1 := b.(phase := Writing(Fetch(Top(w.history), key)));
    GetStep(env, w, k, b);
    PutStep(env, w.(workers := w.workers[k := b1]), k, b1, map[]);
    assert w.workers[k := b1][k := Advance(b)] == w.workers[k := Advance(b)];
    if key in Top(w.history) {
      var o := Top(w.history)[key];
      assert TypedBody(env, StatefulSet, o.body);
    }
  }

  // ----- the whole pass -----

  lemma CommitBodies(h: History, key: Key, b: Body, other: Key)
    ensures Bodies(Top(Commit(h, Some(Change(key, b))))) == Bodies(Top(h))[key := b]
    ensures Bodies(Top(Commit(h, CreateIfMissing(Top(h), key, b)))) == Ensure(Bodies(Top(h)), key, b)
    ensures other != key ==> Fetch(Top(Commit(h, Some(Change(key, b)))), other) == Fetch(Top(h), other)
    ensures other != key ==> Fetch(Top(Commit(h, CreateIfMissing(Top(h), key, b))), other) == Fetch(Top(h), other)
  {
    var t := Top(Commit(h, Some(Change(key, b))));
    assert Bodies(t).Keys == (Bodies(Top(h))[key := b]).Keys;
  }

  /** What a stretch of a pass leaves: the worker further on, the clock still, the cluster object untouched. */
  ghost predicate Reaches(w: World, w': World, k: nat, b: Worker, m: Contents) {
    && w'.now == w.now
    && w'.workers == w.workers[k := b]
    && Bodies(Top(w'.history)) == m
    && (b.Busy? ==> Fetch(Top(w'.history), LinkKey(Report, b.id)) == Fetch(Top(w.history), LinkKey(Report, b.id)))
  }

  lemma OnceReaches(env: Env, w: World, k: nat, b: Worker)
    requires AtLink(w, k, b) && b.link in {Account, Permission, Binding}
    ensures Reaches(w, Exec(env, w, OnceActs(k)), k, Advance(b),
                    Ensure(Bodies(Top(w.history)), LinkKey(b.link, b.id), BodyFor(env, b.id, b.spec, b.link, map[])))
  {
    OnceLink(env, w, k, b);
    CommitBodies(w.history, LinkKey(b.link, b.id), BodyFor(env, b.id, b.spec, b.link, map[]), LinkKey(Report, b.id));
  }

  lemma ConfigReaches(env: Env, w: World, k: nat, b: Worker, data: map<string, string>)
    requires AtLink(w, k, b) && IsConfig(b.link) && Renderable(env, b, data)
    requires WellTyped(env, Top(w.history))
    ensures Reaches(w, Exec(env, w, ConfigActs(k, data)), k, Advance(b),
                    Bodies(Top(w.history))[LinkKey(b.link, b.id) := ConfigBody(data)])
  {
    ConfigLink(env, w, k, b, data);
    CommitBodies(w.history, LinkKey(b.link, b.id), ConfigBody(data), LinkKey(Report, b.id));
  }

  lemma WorkReaches(env: Env, w: World, k: nat, b: Worker)
    requires AtLink(w, k, b) && b.link.Work?
    requires WellTyped(env, Top(w.history))
    ensures Reaches(w, Exec(env, w, OnceActs(k)), k, Advance(b),
                    Bodies(Top(w.history))[LinkKey(Work, b.id) := BodyFor(env, b.id, b.spec, Work, map[])])
  {
    WorkLink(env, w, k, b);
    CommitBodies(w.history, LinkKey(Work, b.id), BodyFor(env, b.id, b.spec, Work, map[]), LinkKey(Report, b.id));
  }

  lemma FrontReaches(env: Env, w: World, k: nat, b: Worker)
    requires AtLink(w, k, b) && b.link.Front? && b.svc == EMPTY_SERVICE
    ensures Reaches(w, Exec(env, w, OnceActs(k)), k, Advance(b.(svc := FrontIn(Bodies(Top(w.history)), b.id))),
                    Ensure(Bodies(Top(w.history)), LinkKey(Front, b.id), BodyFor(env, b.id, b.spec, Front, map[])))
  {
    FrontLink(env, w, k, b);
    CommitBodies(w.history, LinkKey(Front, b.id), BodyFor(env, b.id, b.spec, Front, map[]), LinkKey(Report, b.id));
  }

  lemma ReachesThen(env: Env, w0: World, w1: World, w2: World, k: nat, b1: Worker, b2: Worker, m1: Contents, m2: Contents)
    requires b1.Busy? && b2.Busy? && b1.id == b2.id
    requires Reaches(w0, w1, k, b1, m1) && Reaches(w1, w2, k, b2, m2)
    ensures Reaches(w0, w2, k, b2, m2)
  {
    assert w0.workers[k := b1][k := b2] == w0.workers[k := b2];
  }

  /** Links one to three. */
  lemma AccountsPart(env: Env, w: World, k: nat, b: Worker) returns (w': World)
    requires AtLink(w, k, b) && b.link.Account?
    ensures w' == Exec(env, w, OnceActs(k) + OnceActs(k) + OnceActs(k))
    ensures Reaches(w, w', k, b.(link := KyuubiConf), Accounts(env, Bodies(Top(w.history)), b.id, b.spec))
  {
    var a := OnceActs(k);
    var b1, b2, b3 := Advance(b), Advance(Advance(b)), Advance(Advance(Advance(b)));
    var w1 := Exec(env, w, a);
    OnceReaches(env, w, k, b);
    var w2 := Exec(env, w1, a);
    OnceReaches(env, w1, k, b1);
    w' := Exec(env, w2, a);
    OnceReaches(env, w2, k, b2);
    ExecConcat(env, w, a, a);
    ExecConcat(env, w, a + a, a);
    ReachesThen(env, w, w1, w2, k, b1, b2, Bodies(Top(w1.history)), Bodies(Top(w2.history)));
    ReachesThen(env, w, w2, w', k, b2, b3, Bodies(Top(w2.history)), Bodies(Top(w'.history)));
    assert b3 == b.(link := KyuubiConf);
  }

  /** Links four and five. */
  lemma ConfigsPart(env: Env, w: World, k: nat, b: Worker, c: Choice) returns (w': World)
    requires AtLink(w, k, b) && b.link.KyuubiConf? && Fits(env, b.id, b.spec, c)
    requires WellTyped(env, Top(w.history))
    ensures w' == Exec(env, w, ConfigActs(k, c.kyuubi) + ConfigActs(k, c.refs))
    ensures Reaches(w, w', k, b.(link := Work), Configs(Bodies(Top(w.history)), b.id, c))
  {
    var w1 := Exec(env, w, ConfigActs(k, c.kyuubi));
    ConfigReaches(env, w, k, b, c.kyuubi);
    TypedExec(env, w, ConfigActs(k, c.kyuubi));
    w' := Exec(env, w1, ConfigActs(k, c.refs));
    ConfigReaches(env, w1, k, Advance(b), c.refs);
    ExecConcat(env, w, ConfigActs(k, c.kyuubi), ConfigActs(k, c.refs));
    ReachesThen(env, w, w1, w', k, Advance(b), Advance(Advance(b)), Bodies(Top(w1.history)), Bodies(Top(w'.history)));
    assert Advance(Advance(b)) == b.(link := Work);
  }

  /** Links six and seven. */
  lemma RunningPart(env: Env, w: World, k: nat, b: Worker) returns (w': World)
    requires AtLink(w, k, b) && b.link.Work? && b.svc == EMPTY_SERVICE
    requires WellTyped(env, Top(w.history))
    ensures w' == Exec(env, w, OnceActs(k) + OnceActs(k))
    ensures var m := Bodies(Top(w.history));
            Reaches(w, w', k, b.(link := Report, phase := Writing(None), svc := FrontIn(m, b.id)),
                    Running(env, m, b.id, b.spec))
  {
    var m := Bodies(Top(w.history));
    var w1 := Exec(env, w, OnceActs(k));
    WorkReaches(env, w, k, b);
    w' := Exec(env, w1, OnceActs(k));
    FrontReaches(env, w1, k, Advance(b));
    assert LinkKey(Front, b.id) != LinkKey(Work, b.id);
    assert FrontIn(Bodies(Top(w1.history)), b.id) == FrontIn(m, b.id);
    var b2 := Advance(Advance(b).(svc := FrontIn(m, b.id)));
    ExecConcat(env, w, OnceActs(k), OnceActs(k));
    ReachesThen(env, w, w1, w', k, Advance(b), b2, Bodies(Top(w1.history)), Bodies(Top(w'.history)));
    assert b2 == b.(link := Report, phase := Writing(None), svc := FrontIn(m, b.id));
  }

  lemma ReportHalves(env: Env, w: World, k: nat, pause: nat)
    ensures Exec(env, w, ReportActs(k, pause)) ==
            Exec(env, Exec(env, w, [Date(k), Tick(pause)]), [Stamp(k), Publish(k)])
  {
    assert ReportActs(k, pause) == [Date(k), Tick(pause)] + [Stamp(k), Publish(k)];
    ExecConcat(env, w, [Date(k), Tick(pause)], [Stamp(k), Publish(k)]);
  }

  lemma DateThenTick(env: Env, w: World, k: nat, b: Worker, pause: nat)
    requires k in w.workers && w.workers[k] == b && Reporting(b) && b.phase.Writing?
    ensures Exec(env, w, [Date(k), Tick(pause)]) ==
            World(w.history, w.now + pause, w.workers[k := AfterDate(b, w.now)])
  {
    Exec2(env, w, Date(k), Tick(pause));
    DateStep(env, w, k, b);
    TickStep(env, w.(workers := w.workers[k := AfterDate(b, w.now)]), pause);
  }

  lemma StampThenPublish(env: Env, w: World, k: nat, b: Worker)
    requires k in w.workers && w.workers[k] == b && Reporting(b) && b.phase.Dated?
    ensures Exec(env, w, [Stamp(k), Publish(k)]) ==
            World(Commit(w.history, PublishChange(Top(w.history), AfterStamp(b, w.now))), w.now, w.workers[k := Idle])
  {
    var b' := AfterStamp(b, w.now);
    Exec2(env, w, Stamp(k), Publish(k));
    StampStep(env, w, k, b);
    PublishStep(env, w.(workers := w.workers[k := b']), k, b');
    assert w.workers[k := b'][k := Idle] == w.workers[k := Idle];
  }

  /** Link eight with nothing new to report: only time passes. */
  lemma ReportKept(env: Env, w: World, k: nat, b: Worker, pause: nat)
    requires k in w.workers && w.workers[k] == b && Reporting(b) && b.phase.Writing?
    requires b.status.infos == Some(Exposed(b.id.name, b.svc))
    ensures Exec(env, w, ReportActs(k, pause)) == World(w.history, w.now + pause, w.workers[k := Idle])
  {
    ReportHalves(env, w, k, pause);
    DateThenTick(env, w, k, b, pause);
    Exec2(env, World(w.history, w.now + pause, w.workers[k := Idle]), Stamp(k), Publish(k));
  }

  /** Link eight with something to report: the times are read, then written. */
  lemma ReportWritten(env: Env, w: World, k: nat, b: Worker, pause: nat)
    requires k in w.workers && w.workers[k] == b && Reporting(b) && b.phase.Writing?
    requires b.status.infos != Some(Exposed(b.id.name, b.svc))
    ensures var first := if b.status.infos.None? then w.now else b.status.created;
            Exec(env, w, ReportActs(k, pause)) ==
            World(Commit(w.history, PublishChange(Top(w.history), b.(phase := Stamped(first, w.now + pause)))),
                  w.now + pause, w.workers[k := Idle])
  {
    var b1 := AfterDate(b, w.now);
    ReportHalves(env, w, k, pause);
    DateThenTick(env, w, k, b, pause);
    StampThenPublish(env, World(w.history, w.now + pause, w.workers[k := b1]), k, b1);
    assert w.workers[k := b1][k := Idle] == w.workers[k := Idle];
  }

  lemma DateStep(env: Env, w: World, k: nat, b: Worker)
    requires k in w.workers && w.workers[k] == b && Reporting(b) && b.phase.Writing?
    ensures Apply(env, w, Date(k)) == w.(workers := w.workers[k := AfterDate(b, w.now)])
  {
  }

  lemma TickStep(env: Env, w: World, d: nat)
    ensures Apply(env, w, Tick(d)) == w.(now := w.now + d)
  {
  }

  lemma StampStep(env: Env, w: World, k: nat, b: Worker)
    requires k in w.workers && w.workers[k] == b && Reporting(b) && b.phase.Dated?
    ensures Apply(env, w, Stamp(k)) == w.(workers := w.workers[k := AfterStamp(b, w.now)])
  {
  }

  lemma PublishStep(env: Env, w: World, k: nat, b: Worker)
    requires k in w.workers && w.workers[k] == b && Reporting(b) && b.phase.Stamped?
    ensures Apply(env, w, Publish(k)) ==
            World(Commit(w.history, PublishChange(Top(w.history), b)), w.now, w.workers[k := Idle])
  {
  }

  /** With nobody in between the version is still the one read, so the write is accepted. */
  lemma ReportPart(env: Env, w: World, k: nat, b: Worker, pause: nat) returns (w': World)
    requires k in w.workers && w.workers[k] == b && Reporting(b) && b.phase.Writing?
    requires Fetch(Top(w.history), LinkKey(Report, b.id)) == Some(Stored(b.base, ClusterBody(b.spec, b.status)))
    ensures w' == Exec(env, w, ReportActs(k, pause))
    ensures w'.now == w.now + pause && w'.workers == w.workers[k := Idle]
    ensures var infos := Exposed(b.id.name, b.svc);
            Bodies(Top(w'.history)) ==
            if b.status.infos == Some(infos) then Bodies(Top(w.history))
            else Bodies(Top(w.history))[LinkKey(Report, b.id) :=
                   ClusterBody(b.spec, NewStatus(b.status, infos, w.now, pause))]
  {
    w' := Exec(env, w, ReportActs(k, pause));
    var infos := Exposed(b.id.name, b.svc);
    if b.status.infos == Some(infos) {
      ReportKept(env, w, k, b, pause);
    } else {
      ReportWritten(env, w, k, b, pause);
      CommitBodies(w.history, LinkKey(Report, b.id),
        ClusterBody(b.spec, NewStatus(b.status, infos, w.now, pause)), LinkKey(Report, b.id));
    }
  }

  lemma PassActsShape(k: nat, id: ClusterId, c: Choice)
    ensures PassActs(k, id, c) ==
            [Start(k, id, 0)]
            + (OnceActs(k) + OnceActs(k) + OnceActs(k))
            + (ConfigActs(k, c.kyuubi) + ConfigActs(k, c.refs))
            + (OnceActs(k) + OnceActs(k))
            + ReportActs(k, c.pause)
  {
  }

  ghost predicate Ready(env: Env, w: World, k: nat, id: ClusterId) {
    && WellTyped(env, Top(w.history))
    && k in w.workers && w.workers[k].Idle?
    && LinkKey(Report, id) in Top(w.history)
  }

  lemma StartPart(env: Env, w: World, k: nat, id: ClusterId) returns (w': World)
    requires Ready(env, w, k, id)
    ensures w' == Exec(env, w, [Start(k, id, 0)])
    ensures w' == World(w.history, w.now, w.workers[k := Begin(id, Top(w.history)[LinkKey(Report, id)])])
  {
    w' := Exec(env, w, [Start(k, id, 0)]);
    Exec1(env, w, Start(k, id, 0));
    assert Seen(w.history, 0) == Top(w.history);
  }

  /** The keys a link writes are not among those a later reader of the pass relies on. */
  lemma PartsKeepFront(env: Env, m: Contents, id: ClusterId, spec: Spec, c: Choice)
    ensures FrontIn(Configs(Accounts(env, m, id, spec), id, c), id) == FrontIn(m, id)
  {
  }

  /** The worker of a fresh read holds the stored cluster. */
  lemma BeginsWith(s: Store, id: ClusterId)
    requires HasCluster(Bodies(s), id)
    ensures var b := Begin(id, s[LinkKey(Report, id)]);
            && b.Busy? && b.spec == SpecIn(Bodies(s), id) && b.status == StatusIn(Bodies(s), id)
            && Fetch(s, LinkKey(Report, id)) == Some(Stored(b.base, ClusterBody(b.spec, b.status)))
  {
  }

  /** From the start of a pass to the workload. */
  lemma FirstHalf(env: Env, w: World, k: nat, id: ClusterId, c: Choice) returns (w0: World, w1: World, w2: World)
    requires Ready(env, w, k, id)
    requires HasCluster(Bodies(Top(w.history)), id) && Fits(env, id, SpecIn(Bodies(Top(w.history)), id), c)
    ensures w0 == Exec(env, w, [Start(k, id, 0)])
    ensures w1 == Exec(env, w0, OnceActs(k) + OnceActs(k) + OnceActs(k))
    ensures w2 == Exec(env, w1, ConfigActs(k, c.kyuubi) + ConfigActs(k, c.refs))
    ensures WellTyped(env, Top(w2.history))
    ensures var m := Bodies(Top(w.history));
            Reaches(w, w2, k, Begin(id, Top(w.history)[LinkKey(Report, id)]).(link := Work),
                    Configs(Accounts(env, m, id, SpecIn(m, id)), id, c))
  {
    var b := Begin(id, Top(w.history)[LinkKey(Report, id)]);
    w0 := StartPart(env, w, k, id);
    w1 := AccountsPart(env, w0, k, b);
    TypedExec(env, w0, OnceActs(k) + OnceActs(k) + OnceActs(k));
    w2 := ConfigsPart(env, w1, k, b.(link := KyuubiConf), c);
    TypedExec(env, w1, ConfigActs(k, c.kyuubi) + ConfigActs(k, c.refs));
  }

  /** A fault-free pass does to the contents exactly what `PassBodies` says, and ends idle. */
  lemma PassRun(env: Env, w: World, k: nat, id: ClusterId, c: Choice)
    requires Ready(env, w, k, id)
    requires HasCluster(Bodies(Top(w.history)), id) && Fits(env, id, SpecIn(Bodies(Top(w.history)), id), c)
    ensures var w' := Exec(env, w, PassActs(k, id, c));
            && Bodies(Top(w'.history)) == PassBodies(env, Bodies(Top(w.history)), id, c, w.now)
            && w'.workers == w.workers && w'.now == w.now + c.pause
            && WellTyped(env, Top(w'.history))
  {
    var m := Bodies(Top(w.history));
    var b := Begin(id, Top(w.history)[LinkKey(Report, id)]);
    BeginsWith(Top(w.history), id);
    var w0, w1, w2 := FirstHalf(env, w, k, id, c);
    PartsKeepFront(env, m, id, b.spec, c);
    var w3, w4 := SecondHalf(env, w2, k, b.(link := Work), c.pause);
    assert w4.workers == w.workers;
    PassChain(env, w, w0, w1, w2, w3, k, id, c);
    TypedExec(env, w, PassActs(k, id, c));
  }

  /** From the workload to the end of a pass. */
  lemma SecondHalf(env: Env, w: World, k: nat, b: Worker, pause: nat) returns (w1: World, w2: World)
    requires AtLink(w, k, b) && b.link.Work? && b.svc == EMPTY_SERVICE && WellTyped(env, Top(w.history))
    requires Fetch(Top(w.history), LinkKey(Report, b.id)) == Some(Stored(b.base, ClusterBody(b.spec, b.status)))
    ensures w1 == Exec(env, w, OnceActs(k) + OnceActs(k)) && w2 == Exec(env, w1, ReportActs(k, pause))
    ensures w2.now == w.now + pause && w2.workers == w.workers[k := Idle]
    ensures var m := Bodies(Top(w.history));
            var r, infos := Running(env, m, b.id, b.spec), Exposed(b.id.name, FrontIn(m, b.id));
            Bodies(Top(w2.history)) ==
            if b.status.infos == Some(infos) then r
            else r[LinkKey(Report, b.id) := ClusterBody(b.spec, NewStatus(b.status, infos, w.now, pause))]
  {
    w1 := RunningPart(env, w, k, b);
    var b1 := b.(link := Report, phase := Writing(None), svc := FrontIn(Bodies(Top(w.history)), b.id));
    w2 := ReportPart(env, w1, k, b1, pause);
    assert w.workers[k := b1][k := Idle] == w.workers[k := Idle];
  }

  lemma PassChain(env: Env, w: World, w0: World, w1: World, w2: World, w3: World, k: nat, id: ClusterId, c: Choice)
    requires w0 == Exec(env, w, [Start(k, id, 0)])
    requires w1 == Exec(env, w0, OnceActs(k) + OnceActs(k) + OnceActs(k))
    requires w2 == Exec(env, w1, ConfigActs(k, c.kyuubi) + ConfigActs(k, c.refs))
    requires w3 == Exec(env, w2, OnceActs(k) + OnceActs(k))
    ensures Exec(env, w, PassActs(k, id, c)) == Exec(env, w3, ReportActs(k, c.pause))
  {
    PassActsShape(k, id, c);
    var p0 := [Start(k, id, 0)];
    var p1 := p0 + (OnceActs(k) + OnceActs(k) + OnceActs(k));
    var p2 := p1 + (ConfigActs(k, c.kyuubi) + ConfigActs(k, c.refs));
    var p3 := p2 + (OnceActs(k) + OnceActs(k));
    ExecConcat(env, w, p0, OnceActs(k) + OnceActs(k) + OnceActs(k));
    ExecConcat(env, w, p1, ConfigActs(k, c.kyuubi) + ConfigActs(k, c.refs));
    ExecConcat(env, w, p2, OnceActs(k) + OnceActs(k));
    ExecConcat(env, w, p3, ReportActs(k, c.pause));
  }
}
