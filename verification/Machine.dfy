/**
 The reconcile protocol as a step machine over an API server.

 The server is the sequence of all the states its store has had; an object's version is the index of
 the state it was written in. Any number of workers run passes. A read may return what any past state
 held, an API call may fail, a pass may die between two calls, and users edit specs at any moment.

 A run is any sequence of actions: an action that is not possible in a state leaves it as it is, so a
 theorem about every action sequence is a theorem about every interleaving.
 */
module Machine {
  import opened Base
  import opened Text
  import opened Api
  import opened Naming
  import opened Config
  import opened Volumes

  // ----- objects and the server -----

  datatype Body =
    | AccountBody(labels: Conf)
    | RoleBody(labels: Conf)
    | BindingBody(account: string, role: string)
    | ConfigBody(data: map<string, string>)
    | WorkloadBody(workload: Workload)
    | ServiceBody(ports: seq<ServicePort>, selector: Conf)
    | ClusterBody(spec: Spec, status: Status)

  datatype Stored = Stored(version: nat, body: Body)

  type Store = map<Key, Stored>

  type History = h: seq<Store> | h != [] witness [map[]]

  function Top(h: History): Store {
    h[|h| - 1]
  }

  /** What a reader that lags behind by `lag` states sees. */
  function Seen(h: History, lag: nat): Store {
    h[if lag < |h| then |h| - 1 - lag else 0]
  }

  datatype Change = Change(key: Key, body: Body)

  /** A write of equal content is not a new state. */
  function Commit(h: History, c: Option<Change>): History {
    if c.None? || (c.value.key in Top(h) && Top(h)[c.value.key].body == c.value.body) then h
    else h + [Top(h)[c.value.key := Stored(|h|, c.value.body)]]
  }

  function Fetch(s: Store, key: Key): Option<Stored> {
    if key in s then Some(s[key]) else None
  }

  function DataOf(b: Body): map<string, string> {
    if b.ConfigBody? then b.data else map[]
  }

  function StatusOf(b: Body): Status {
    if b.ClusterBody? then b.status else NO_STATUS
  }

  const NO_STATUS := Status(None, 0, 0)

  /** The objects of the kinds other parties may edit, and an edit that keeps what the server enforces. */
  predicate Editable(env: Env, key: Key, b: Body) {
    match key.kind
    case ServiceAccount => b.AccountBody?
    case Role => b.RoleBody?
    case RoleBinding => b.BindingBody?
    case ConfigMap => b.ConfigBody?
    case StatefulSet => b.WorkloadBody? && Completed(env, b.workload)
    case _ => false
  }

  // ----- desired objects -----

  function WorkloadFor(id: ClusterId, spec: Spec): Workload {
    Workload(
      ResourceName(id.name),
      spec.replicas,
      Labels(id.name),
      id.name,
      spec.image.repository + ":" + spec.image.tag,
      spec.image.pullPolicy,
      ResourceName(id.name),
      MountsOf(id.name, SlotsOf(RefsOf(spec))),
      VolumesOf(id.name, SlotsOf(RefsOf(spec))),
      map[])
  }

  /** The server completes the fields left out; the completion is a function of the rest. */
  function Complete(env: Env, wl: Workload): Workload {
    wl.(filled := env.fill(wl.(filled := map[])))
  }

  predicate Completed(env: Env, wl: Workload) {
    wl == Complete(env, wl)
  }

  const PORTS := [
    ServicePort("rest", "", None, 10099, 10099, 0),
    ServicePort("thrift-binary", "", None, 10009, 10009, 0)]

  function BodyFor(env: Env, id: ClusterId, spec: Spec, l: Link, data: map<string, string>): Body
    requires !l.Report?
  {
    match l
    case Account => AccountBody(Labels(id.name))
    case Permission => RoleBody(Labels(id.name))
    case Binding => BindingBody(ResourceName(id.name), ResourceName(id.name))
    case KyuubiConf => ConfigBody(data)
    case RefsConf => ConfigBody(data)
    case Work => WorkloadBody(Complete(env, WorkloadFor(id, spec)))
    case Front => ServiceBody(env.fillPorts(PORTS), Labels(id.name))
  }

  /** The documented default, an empty tag for `latest`, reaches the Kyuubi container exactly when the tag is not empty. */
  lemma KyuubiImageTag(env: Env, id: ClusterId, spec: Spec)
    ensures BodyFor(env, id, spec, Work, map[]).workload.image == ImageOf(spec.image) <==> spec.image.tag != ""
    ensures spec.image.tag == "" ==> BodyFor(env, id, spec, Work, map[]).workload.image == spec.image.repository + ":"
  {
    var r := spec.image.repository;
    assert r + ":" + "" == r + ":";
    assert |r + ":" + "latest"| == |r| + 7;
  }

  /** The default as it fails: `apache/kyuubi` without a tag is not `apache/kyuubi:latest`. */
  lemma UntaggedKyuubiImage(env: Env, id: ClusterId, spec: Spec)
    requires spec.image == ImageConfig("apache/kyuubi", "", "", "")
    ensures BodyFor(env, id, spec, Work, map[]).workload.image == "apache/kyuubi:"
    ensures ImageOf(spec.image) == "apache/kyuubi:latest"
  {
    assert "apache/kyuubi" + ":" + "" == "apache/kyuubi:";
    assert "apache/kyuubi" + ":" + "latest" == "apache/kyuubi:latest";
  }

  /** The service as `createOrUpdateService` returns it: empty when this very pass created it. */
  datatype ServiceView = ServiceView(name: string, ports: seq<ServicePort>)

  const EMPTY_SERVICE := ServiceView("", [])

  function ViewOf(id: ClusterId, b: Body): ServiceView {
    if b.ServiceBody? then ServiceView(ResourceName(id.name), b.ports) else EMPTY_SERVICE
  }

  function ExposedAt(name: string, svc: ServiceView, i: nat): ExposedInfo
    requires i < |svc.ports|
  {
    ExposedInfo(name + "-" + Itoa(i), svc.ports[i].name, svc.name, svc.ports[i])
  }

  function Exposed(name: string, svc: ServiceView): seq<ExposedInfo> {
    seq(|svc.ports|, i requires 0 <= i < |svc.ports| => ExposedAt(name, svc, i))
  }

  /** One entry a port, in order, each with that port's contents, and no two entries of one name. */
  lemma ExposedList(name: string, svc: ServiceView)
    ensures var e := Exposed(name, svc);
            && |e| == |svc.ports|
            && (forall i :: 0 <= i < |e| ==>
                  e[i].servicePort == svc.ports[i] && e[i].exposedType == svc.ports[i].name && e[i].serviceName == svc.name)
            && (forall i, j :: 0 <= i < j < |e| ==> e[i].name != e[j].name)
  {
    var e := Exposed(name, svc);
    forall i, j | 0 <= i < j < |e| ensures e[i].name != e[j].name {
      if e[i].name == e[j].name {
        var n := |name + "-"|;
        assert Itoa(i) == e[i].name[n..] && Itoa(j) == e[j].name[n..];
        ItoaInjective(i, j);
      }
    }
  }

  // ----- workers -----

  /** The last link reads the clock twice, for the creation and for the update time, before it writes. */
  datatype Phase =
    | Getting
    | Writing(seen: Option<Stored>)
    | Polling
    | Dated(created: nat)
    | Stamped(first: nat, updated: nat)

  /** A worker inside a pass holds the cluster object it read at the start, with the version it had. */
  datatype Worker =
    | Idle
    | Busy(id: ClusterId, base: nat, spec: Spec, status: Status, link: Link, phase: Phase, svc: ServiceView)

  datatype World = World(history: History, now: nat, workers: map<nat, Worker>)

  function Next(l: Link): Link {
    match l
    case Account => Permission
    case Permission => Binding
    case Binding => KyuubiConf
    case KyuubiConf => RefsConf
    case RefsConf => Work
    case Work => Front
    case Front => Report
    case Report => Report
  }

  function Advance(b: Worker): Worker
    requires b.Busy?
  {
    b.(link := Next(b.link), phase := if b.link.Front? then Writing(None) else Getting)
  }

  predicate IsConfig(l: Link) {
    l.KyuubiConf? || l.RefsConf?
  }

  // ----- the calls of one link -----

  function Begin(id: ClusterId, o: Stored): Worker {
    if o.body.ClusterBody? then
      Busy(id, o.version, o.body.spec, o.body.status, Account, Getting, EMPTY_SERVICE)
    else Idle
  }

  function AfterGet(env: Env, s: Store, b: Worker): Worker
    requires b.Busy?
  {
    var o := Fetch(s, LinkKey(b.link, b.id));
    match b.link
    case RefsConf => if DesiredFiles(env, b.id.ns, RefsOf(b.spec)).Err? then Idle else b.(phase := Writing(o))
    case KyuubiConf => b.(phase := Writing(o))
    case Work => b.(phase := Writing(o))
    case Front => if o.Some? then Advance(b.(svc := ViewOf(b.id, o.value.body))) else b.(phase := Writing(None))
    case _ => if o.Some? then Advance(b) else b.(phase := Writing(None))
  }

  /** The texts a worker may have computed for the config map of its link. */
  ghost predicate Renderable(env: Env, b: Worker, data: map<string, string>)
    requires b.Busy?
  {
    match b.link
    case KyuubiConf => RendersAll(env, KyuubiFiles(b.spec.conf), data)
    case RefsConf =>
      var files := DesiredFiles(env, b.id.ns, RefsOf(b.spec));
      files.Ok? && RendersAll(env, files.value, data)
    case _ => true
  }

  /** The object seen needs no update; the workload is compared with the spec before completion. */
  predicate UpToDate(b: Worker, o: Stored, data: map<string, string>)
    requires b.Busy?
  {
    match b.link
    case KyuubiConf => DataOf(o.body) == data
    case RefsConf => DataOf(o.body) == data
    case Work => o.body.WorkloadBody? && o.body.workload == WorkloadFor(b.id, b.spec)
    case _ => true
  }

  predicate Writable(b: Worker) {
    b.Busy? && b.phase.Writing? && !b.link.Report?
  }

  /** The server refuses a create of an existing key, an update of a missing one, and a stale version. */
  predicate Accepted(s: Store, b: Worker)
    requires Writable(b)
  {
    var key := LinkKey(b.link, b.id);
    if b.phase.seen.None? then key !in s
    else key in s && (b.link.Work? || s[key].version == b.phase.seen.value.version)
  }

  predicate Skips(b: Worker, data: map<string, string>)
    requires Writable(b)
  {
    b.phase.seen.Some? && UpToDate(b, b.phase.seen.value, data)
  }

  function PutChange(env: Env, s: Store, b: Worker, data: map<string, string>): Option<Change>
    requires Writable(b)
  {
    if Skips(b, data) || !Accepted(s, b) then None
    else Some(Change(LinkKey(b.link, b.id), BodyFor(env, b.id, b.spec, b.link, data)))
  }

  function AfterPut(s: Store, b: Worker, data: map<string, string>): Worker
    requires Writable(b)
  {
    if Skips(b, data) then Advance(b)
    else if !Accepted(s, b) then Idle
    else if b.phase.seen.None? && IsConfig(b.link) then b.(phase := Polling)
    else Advance(b)
  }

  function AfterPoll(s: Store, b: Worker): Worker
    requires b.Busy?
  {
    if LinkKey(b.link, b.id) in s then Advance(b) else b
  }

  predicate Reporting(b: Worker) {
    b.Busy? && b.link.Report?
  }

  /** A list that is persisted already ends the pass; a nil one takes its creation time from the clock. */
  function AfterDate(b: Worker, now: nat): Worker
    requires b.Busy?
  {
    if b.status.infos == Some(Exposed(b.id.name, b.svc)) then Idle
    else b.(phase := Dated(if b.status.infos.None? then now else b.status.created))
  }

  function AfterStamp(b: Worker, now: nat): Worker
    requires b.Busy? && b.phase.Dated?
  {
    b.(phase := Stamped(b.phase.created, now))
  }

  /** The status write carries the times read before; from a stale version of the cluster it is refused. */
  function PublishChange(s: Store, b: Worker): Option<Change>
    requires b.Busy? && b.phase.Stamped?
  {
    var key := LinkKey(Report, b.id);
    if key !in s || s[key].version != b.base || !s[key].body.ClusterBody? then None
    else
      var status := Status(Some(Exposed(b.id.name, b.svc)), b.phase.first, b.phase.updated);
      Some(Change(key, ClusterBody(s[key].body.spec, status)))
  }

  function EditChange(s: Store, id: ClusterId, spec: Spec): Change {
    var key := LinkKey(Report, id);
    Change(key, ClusterBody(spec, if key in s then StatusOf(s[key].body) else NO_STATUS))
  }

  // ----- actions -----

  datatype Action =
    | Start(k: nat, id: ClusterId, lag: nat)
    | Get(k: nat, lag: nat)
    | Put(k: nat, data: map<string, string>)
    | Poll(k: nat, lag: nat)
    | Date(k: nat)
    | Stamp(k: nat)
    | Publish(k: nat)
    | Fail(k: nat)
    | Tick(d: nat)
    | EditSpec(id: ClusterId, spec: Spec)
    | OutsideEdit(key: Key, body: Body)

  function WorkerOf(w: World, k: nat): Worker {
    if k in w.workers then w.workers[k] else Idle
  }

  /** The action is a step its worker can take here. */
  ghost predicate Enabled(env: Env, w: World, a: Action) {
    match a
    case Start(k, id, lag) =>
      && k in w.workers && w.workers[k].Idle?
      && LinkKey(Report, id) in Seen(w.history, lag)
    case Get(k, lag) => WorkerOf(w, k).Busy? && WorkerOf(w, k).phase.Getting?
    case Put(k, data) => Writable(WorkerOf(w, k)) && Renderable(env, WorkerOf(w, k), data)
    case Poll(k, lag) => WorkerOf(w, k).Busy? && WorkerOf(w, k).phase.Polling?
    case Date(k) => Reporting(WorkerOf(w, k)) && WorkerOf(w, k).phase.Writing?
    case Stamp(k) => Reporting(WorkerOf(w, k)) && WorkerOf(w, k).phase.Dated?
    case Publish(k) => Reporting(WorkerOf(w, k)) && WorkerOf(w, k).phase.Stamped?
    case Fail(k) => WorkerOf(w, k).Busy?
    case Tick(d) => true
    case EditSpec(id, spec) => true
    case OutsideEdit(key, body) => key in Top(w.history) && Editable(env, key, body)
  }

  ghost function ChangeOf(env: Env, w: World, a: Action): Option<Change>
    requires Enabled(env, w, a)
  {
    match a
    case Put(k, data) => PutChange(env, Top(w.history), WorkerOf(w, k), data)
    case Publish(k) => PublishChange(Top(w.history), WorkerOf(w, k))
    case EditSpec(id, spec) => Some(EditChange(Top(w.history), id, spec))
    case OutsideEdit(key, body) => Some(Change(key, body))
    case _ => None
  }

  ghost function WorkersAfter(env: Env, w: World, a: Action): map<nat, Worker>
    requires Enabled(env, w, a)
  {
    match a
    case Start(k, id, lag) => w.workers[k := Begin(id, Seen(w.history, lag)[LinkKey(Report, id)])]
    case Get(k, lag) => w.workers[k := AfterGet(env, Seen(w.history, lag), WorkerOf(w, k))]
    case Put(k, data) => w.workers[k := AfterPut(Top(w.history), WorkerOf(w, k), data)]
    case Poll(k, lag) => w.workers[k := AfterPoll(Seen(w.history, lag), WorkerOf(w, k))]
    case Date(k) => w.workers[k := AfterDate(WorkerOf(w, k), w.now)]
    case Stamp(k) => w.workers[k := AfterStamp(WorkerOf(w, k), w.now)]
    case Publish(k) => w.workers[k := Idle]
    case Fail(k) => w.workers[k := Idle]
    case _ => w.workers
  }

  function NowAfter(w: World, a: Action): nat {
    match a
    case Tick(d) => w.now + d
    case _ => w.now
  }

  ghost function Apply(env: Env, w: World, a: Action): World {
    if Enabled(env, w, a) then
      World(Commit(w.history, ChangeOf(env, w, a)), NowAfter(w, a), WorkersAfter(env, w, a))
    else w
  }

  ghost function Exec(env: Env, w: World, acts: seq<Action>): World {
    if acts == [] then w else Apply(env, Exec(env, w, acts[..|acts| - 1]), acts[|acts| - 1])
  }

  lemma {:induction false} ExecConcat(env: Env, w: World, a: seq<Action>, b: seq<Action>)
    ensures Exec(env, w, a + b) == Exec(env, Exec(env, w, a), b)
  {
    if b == [] {
      assert a + b == a;
    } else {
      var c := a + b;
      assert c[..|c| - 1] == a + b[..|b| - 1];
      ExecConcat(env, w, a, b[..|b| - 1]);
    }
  }

  // ----- what every step keeps, whatever the operator does -----

  /** A version names the state an object was written in, so it determines the object. */
  ghost predicate Versioned(h: History) {
    forall i, key :: 0 <= i < |h| && key in h[i] ==>
      var v := h[i][key].version;
      v <= i && key in h[v] && h[v][key] == h[i][key]
  }

  /** Nothing is deleted. */
  ghost predicate Growing(h: History) {
    forall i, j, key :: 0 <= i <= j < |h| && key in h[i] ==> key in h[j]
  }

  /** The cluster object a worker holds is the one its base version names. */
  ghost predicate Held(h: History, b: Worker) {
    b.Busy? ==>
      var key := LinkKey(Report, b.id);
      b.base < |h| && key in h[b.base] && h[b.base][key] == Stored(b.base, ClusterBody(b.spec, b.status))
  }

  ghost predicate Sound(w: World) {
    && Versioned(w.history)
    && Growing(w.history)
    && forall k :: k in w.workers ==> Held(w.history, w.workers[k])
  }

  lemma CommitSound(h: History, c: Option<Change>)
    requires Versioned(h) && Growing(h)
    ensures Versioned(Commit(h, c)) && Growing(Commit(h, c))
    ensures h <= Commit(h, c)
  {
    var h' := Commit(h, c);
    if h' != h {
      var n := |h|;
      assert forall i :: 0 <= i < n ==> h'[i] == h[i];
      forall key | key in h'[n]
        ensures var v := h'[n][key].version; v <= n && key in h'[v] && h'[v][key] == h'[n][key]
      {
        if key != c.value.key {
          assert key in h[n - 1];
        }
      }
      assert forall i, key :: 0 <= i < n && key in h[i] ==> key in h[n - 1];
    }
  }

  lemma HeldExtends(h: History, h': History, b: Worker)
    requires h <= h' && Held(h, b)
    ensures Held(h', b)
  {
  }

  lemma SoundStep(env: Env, w: World, a: Action)
    requires Sound(w)
    ensures Sound(Apply(env, w, a))
    ensures w.history <= Apply(env, w, a).history
  {
    if Enabled(env, w, a) {
      var w' := Apply(env, w, a);
      CommitSound(w.history, ChangeOf(env, w, a));
      forall k | k in w'.workers ensures Held(w'.history, w'.workers[k]) {
        if k in w.workers {
          HeldExtends(w.history, w'.history, w.workers[k]);
        }
      }
    }
  }

  /** What one action can do to one worker: within a pass only the place in the chain moves, one link at a time. */
  lemma WorkerShape(env: Env, w: World, a: Action, k: nat)
    requires Enabled(env, w, a) && k in WorkersAfter(env, w, a)
    ensures var b, b' := WorkerOf(w, k), WorkersAfter(env, w, a)[k];
            && (b.Busy? && b'.Busy? ==>
                  && b'.id == b.id && b'.base == b.base && b'.spec == b.spec && b'.status == b.status
                  && (b'.link == b.link || (b'.link == Next(b.link) && !b.link.Report?))
                  && (b'.svc == b.svc || (b.link.Front? && b'.link.Report?)))
            && (b.Idle? && b'.Busy? ==> a.Start? && b'.id == a.id && b'.link.Account? && b'.phase.Getting?)
  {
  }

  /** Two sightings of a key under one version are one object: this is what a conditional write relies on. */
  lemma SameVersion(h: History, i: nat, j: nat, key: Key)
    requires Versioned(h) && i < |h| && j < |h| && key in h[i] && key in h[j]
    requires h[i][key].version == h[j][key].version
    ensures h[i][key] == h[j][key]
  {
  }

  /** Workers all idle over one initial state; every theorem about runs starts here. */
  ghost predicate Initial(env: Env, w: World) {
    && |w.history| == 1
    && (forall key :: key in w.history[0] ==> w.history[0][key].version == 0)
    && (forall k :: k in w.workers ==> w.workers[k].Idle?)
    && WellTyped(env, w.history[0])
  }

  /** Each key holds an object of its kind, and workloads are completed. */
  ghost predicate WellTyped(env: Env, s: Store) {
    forall key :: key in s ==> TypedBody(env, key.kind, s[key].body)
  }

  ghost predicate TypedHistory(env: Env, h: History) {
    forall i :: 0 <= i < |h| ==> WellTyped(env, h[i])
  }

  predicate TypedBody(env: Env, kind: Kind, b: Body) {
    match kind
    case ServiceAccount => b.AccountBody?
    case Role => b.RoleBody?
    case RoleBinding => b.BindingBody?
    case ConfigMap => b.ConfigBody?
    case StatefulSet => b.WorkloadBody? && Completed(env, b.workload)
    case Service => b.ServiceBody?
    case KyuubiCluster => b.ClusterBody?
  }

  lemma TypedStep(env: Env, w: World, a: Action)
    requires WellTyped(env, Top(w.history))
    ensures WellTyped(env, Top(Apply(env, w, a).history))
  {
  }

  lemma {:induction false} SoundRun(env: Env, w: World, acts: seq<Action>)
    requires Initial(env, w)
    ensures Sound(Exec(env, w, acts))
    ensures WellTyped(env, Top(Exec(env, w, acts).history))
  {
    if acts != [] {
      var init := acts[..|acts| - 1];
      SoundRun(env, w, init);
      SoundStep(env, Exec(env, w, init), acts[|acts| - 1]);
      TypedStep(env, Exec(env, w, init), acts[|acts| - 1]);
    }
  }

  lemma {:induction false} TypedRun(env: Env, w: World, acts: seq<Action>)
    requires Initial(env, w)
    ensures TypedHistory(env, Exec(env, w, acts).history)
  {
    if acts != [] {
      var init := acts[..|acts| - 1];
      TypedRun(env, w, init);
      TypedStep(env, Exec(env, w, init), acts[|acts| - 1]);
    }
  }
}
