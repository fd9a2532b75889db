/**
 The controller as it is written: methods that call the API server one request at a time.

 Other workers, users and outside parties act before every call and every clock reading, in any way the step
 machine allows. What everybody does is kept in a log, and `Valid` says that the server and this worker are
 where the machine is after that log: every method keeps it, so a theorem about runs is a theorem about this
 code in company. With a reliable server and nobody else around, a whole `Reconcile` is exactly the fault-free
 pass the convergence results speak of.
 */
module Controller {
  import opened Base
  import opened Text
  import opened Render
  import opened Api
  import opened Naming
  import opened Config
  import opened Volumes
  import opened Machine
  import opened Order
  import opened StatusHistory
  import opened Pass
  import opened Company
  import opened Manifest
  import opened Convergence

  datatype Lookup = Found(found: Stored) | Missing | Failed

  // ----- the other parties -----

  /**
   What the others make of the world when it is their turn for the n-th time: whatever it is, they come there by
   actions of their own. Any behaviour of theirs is some such function.
   */
  ghost predicate Lawful(env: Env, k: nat, turn: (nat, World) -> World) {
    forall n: nat, w: World :: exists acts :: BySomeoneElse(k, acts) && turn(n, w) == Exec(env, w, acts)
  }

  /** A write that takes effect. */
  lemma PutLands(env: Env, w0: World, log: seq<Action>, w: World, k: nat, b: Worker, data: map<string, string>)
    requires Exec(env, w0, log) == With(w, k, b)
    requires Writable(b) && Renderable(env, b, data) && !Skips(b, data) && Accepted(Top(w.history), b)
    ensures var c := Change(LinkKey(b.link, b.id), BodyFor(env, b.id, b.spec, b.link, data));
            && Exec(env, w0, log + [Put(k, data)]) ==
               With(w.(history := Commit(w.history, Some(c))), k, AfterPut(Top(w.history), b, data))
            && c.key in Top(Commit(w.history, Some(c)))
            && Fetch(Top(Commit(w.history, Some(c))), LinkKey(Report, b.id)) == Fetch(Top(w.history), LinkKey(Report, b.id))
  {
    ExecSnoc(env, w0, log, Put(k, data));
    PutAct(env, w, k, b, data);
  }

  lemma PublishLands(env: Env, w0: World, log: seq<Action>, w: World, k: nat, b: Worker, o: Stored)
    requires Exec(env, w0, log) == With(w, k, b) && Reporting(b) && b.phase.Stamped?
    requires Fetch(Top(w.history), LinkKey(Report, b.id)) == Some(o) && o.body.ClusterBody? && o.version == b.base
    ensures var status := Status(Some(Exposed(b.id.name, b.svc)), b.phase.first, b.phase.updated);
            var h := Commit(w.history, Some(Change(LinkKey(Report, b.id), ClusterBody(o.body.spec, status))));
            && Exec(env, w0, log + [Publish(k)]) == With(w.(history := h), k, Idle)
            && Present(Top(h), Report, b.id)
  {
    ExecSnoc(env, w0, log, Publish(k));
    PublishAct(env, w, k, b);
  }

  /** A pass without its start. */
  ghost function ChainActs(k: nat, c: Choice): seq<Action> {
    (OnceActs(k) + OnceActs(k) + OnceActs(k))
    + (ConfigActs(k, c.kyuubi) + ConfigActs(k, c.refs))
    + (OnceActs(k) + OnceActs(k) + ReportActs(k, c.pause))
  }

  lemma PassOfChain(k: nat, id: ClusterId, c: Choice)
    ensures [Start(k, id, 0)] + ChainActs(k, c) == PassActs(k, id, c)
  {
  }

  lemma Associates(a: seq<Action>, b: seq<Action>, c: seq<Action>)
    ensures a + b + c == a + (b + c)
  {
  }

  /** A log that ends in a fault-free pass. */
  lemma PassDone(env: Env, w: World, log: seq<Action>, w0: World, w1: World, k: nat, id: ClusterId, c: Choice)
    requires Exec(env, w, log) == w0 && Exec(env, w, log + [Start(k, id, 0)] + ChainActs(k, c)) == w1
    requires Ready(env, w0, k, id) && HasCluster(Bodies(Top(w0.history)), id)
    requires Fits(env, id, SpecIn(Bodies(Top(w0.history)), id), c)
    ensures log + [Start(k, id, 0)] + ChainActs(k, c) == log + PassActs(k, id, c)
    ensures Bodies(Top(w1.history)) == PassBodies(env, Bodies(Top(w0.history)), id, c, w0.now)
    ensures Deployed(env, Bodies(Top(w1.history)), id)
  {
    OnePassConfigures(env, Bodies(Top(w0.history)), id, c, w0.now);
    ConfiguredSpelled(env, PassBodies(env, Bodies(Top(w0.history)), id, c, w0.now), id);
    PassOfChain(k, id, c);
    Associates(log, [Start(k, id, 0)], ChainActs(k, c));
    ExecConcat(env, w, log, PassActs(k, id, c));
    PassRun(env, w0, k, id, c);
  }

  lemma Concat3(log: seq<Action>, a: seq<Action>, b: seq<Action>, c: seq<Action>)
    ensures log + a + b + c == log + (a + b + c)
  {
  }

  /** All links before the last have done their work. */
  ghost predicate Provided(s: Store, id: ClusterId) {
    forall l :: Rank(l) < Rank(Report) ==> Present(s, l, id)
  }

  lemma ProvidedLater(h: History, h': History, id: ClusterId)
    requires h <= h' && Growing(h') && Provided(Top(h), id)
    ensures Provided(Top(h'), id)
  {
    assert Top(h) == h'[|h| - 1];
  }

  lemma SplitInTwo(a: string, b: string)
    ensures |Split(a + "/" + b, '/')| > 1
  {
    var s := a + "/" + b;
    assert s[|a|] == '/' && s[..|s|] == s;
    assert '/' in s[..|s|];
  }

  /** The name as it is cut out of the printed request. */
  method RequestedName(id: ClusterId) returns (name: string)
    ensures '/' !in id.ns ==> (name == id.name <==> '/' !in id.name)
  {
    var request := Split(id.ns + "/" + id.name, '/');
    SplitInTwo(id.ns, id.name);
    if '/' !in id.ns {
      RequestName(id.ns, id.name);
    }
    name := request[1];
  }

  class Reconciler {
    const env: Env
    const k: nat
    /** With a reliable server reads are fresh, calls fail only for a reason of their own, and nobody else acts. */
    const reliable: bool
    /** What the other parties do. */
    const turn: (nat, World) -> World
    ghost const start: World

    var history: History
    var now: nat
    var others: map<nat, Worker>
    var turns: nat
    /** The state of the server the reader's cache has caught up with. */
    var cache: nat

    /** This worker as the machine sees it, and everything anybody has done. */
    ghost var me: Worker
    ghost var log: seq<Action>

    ghost function Rest(): World
      reads this
    {
      World(history, now, others)
    }

    ghost predicate Valid()
      reads this
    {
      && cache < |history|
      && Lawful(env, k, turn)
      && (reliable ==> forall n: nat, w: World :: turn(n, w) == w)
      && Initial(env, start)
      && Exec(env, start, log) == With(Rest(), k, me)
    }

    /** Nothing is deleted, every object is of its kind, and this worker holds what it read. */
    lemma Facts()
      requires Valid()
      ensures Growing(history) && TypedHistory(env, history) && Held(history, me)
    {
      SoundRun(env, start, log);
      TypedRun(env, start, log);
      assert With(Rest(), k, me).workers[k] == me;
    }

    lemma ClusterTyped(i: nat, id: ClusterId)
      requires Valid() && i < |history| && LinkKey(Report, id) in history[i]
      ensures history[i][LinkKey(Report, id)].body.ClusterBody? && WellTyped(env, history[i])
    {
      Facts();
      assert TypedBody(env, KyuubiCluster, history[i][LinkKey(Report, id)].body);
    }

    /** The cluster object as it is stored now. */
    ghost function Cluster(id: ClusterId): Option<Stored>
      reads this
    {
      Fetch(Top(history), LinkKey(Report, id))
    }

    /** This worker is about to read the object of its link. */
    ghost predicate At(l: Link, id: ClusterId, spec: Spec)
      reads this
    {
      me.Busy? && me.phase.Getting? && me.link == l && me.id == id && me.spec == spec
    }

    constructor (env: Env, k: nat, reliable: bool, turn: (nat, World) -> World, store: Store, workers: set<nat>)
      requires WellTyped(env, store) && forall key :: key in store ==> store[key].version == 0
      requires Lawful(env, k, turn) && (reliable ==> forall n: nat, w: World :: turn(n, w) == w)
      ensures Valid() && me == Idle && log == []
      ensures this.env == env && this.k == k && this.reliable == reliable && this.turn == turn
      ensures start == World([store], 0, (map j | j in workers :: Idle)[k := Idle])
    {
      this.env, this.k, this.reliable, this.turn := env, k, reliable, turn;
      this.history, this.now, this.others, this.turns, this.cache := [store], 0, map j | j in workers :: Idle, 0, 0;
      this.me, this.log := Idle, [];
      this.start := World([store], 0, (map j | j in workers :: Idle)[k := Idle]);
    }

    // ----- everybody's steps -----

    /** The others take their turn. */
    method Interfere()
      requires Valid()
      modifies this`history, this`now, this`others, this`turns, this`log
      ensures Valid()
      ensures old(history) <= history && old(now) <= now
      ensures reliable ==> history == old(history) && now == old(now) && log == old(log)
    {
      var w := World(history, now, others);
      var v := turn(turns, w);
      ghost var acts :| BySomeoneElse(k, acts) && v == Exec(env, w, acts);
      if reliable {
        acts := [];
      }
      OthersRun(env, w, k, me, acts);
      ExecConcat(env, start, log, acts);
      RunGrows(env, w, acts);
      history, now, others, turns := v.history, v.now, v.workers, turns + 1;
      log := log + acts;
    }

    /** A step of this worker that touches nothing but itself. */
    ghost method Note(a: Action, b: Worker)
      requires Valid() && Apply(env, With(Rest(), k, me), a) == With(Rest(), k, b)
      modifies this`me, this`log
      ensures Valid() && me == b && log == old(log) + [a]
    {
      ExecSnoc(env, start, log, a);
      me, log := b, log + [a];
    }

    /** A step the machine does not take here. */
    ghost method Stutter(a: Action)
      requires Valid() && !Enabled(env, With(Rest(), k, me), a)
      modifies this`log
      ensures Valid() && log == old(log) + [a]
    {
      ExecSnoc(env, start, log, a);
      log := log + [a];
    }

    /** A write-once object was found. */
    ghost method NothingToPut()
      requires Valid() && !Writable(me)
      modifies this`log
      ensures Valid() && log == old(log) + [Put(k, map[])]
    {
      Stutter(Put(k, map[]));
    }

    /** What was found needs no write. */
    ghost method Skip(data: map<string, string>)
      requires Valid() && Writable(me) && Skips(me, data) && Renderable(env, me, data)
      modifies this`me, this`log
      ensures Valid() && me == Advance(old(me)) && log == old(log) + [Put(k, data)]
    {
      PutAct(env, Rest(), k, me, data);
      Note(Put(k, data), Advance(me));
    }

    /** The pass ends here with an error. */
    ghost method GiveUp()
      requires Valid() && me.Busy?
      modifies this`me, this`log
      ensures Valid() && me == Idle
    {
      FailAct(env, Rest(), k, me);
      Note(Fail(k), Idle);
    }

    // ----- API calls -----

    /** A read through the cache. */
    method Read(key: Key) returns (r: Lookup)
      requires Valid()
      modifies this`history, this`now, this`others, this`turns, this`log, this`cache
      ensures Valid()
      ensures old(history) <= history && old(cache) <= cache
      ensures r.Found? ==> Fetch(history[cache], key) == Some(r.found)
      ensures r.Missing? ==> key !in history[cache]
      ensures reliable ==> !r.Failed? && cache == |history| - 1
      ensures reliable ==> history == old(history) && now == old(now) && log == old(log)
    {
      Interfere();
      var fails: bool := *;
      if reliable {
        cache := |history| - 1;
      } else {
        var p: nat :| cache <= p < |history|;
        cache := p;
      }
      if fails && !reliable {
        r := Failed;
      } else {
        r := if key in history[cache] then Found(history[cache][key]) else Missing;
      }
    }

    /** How far the last read was behind. */
    ghost function Lag(): (lag: nat)
      requires cache < |history|
      reads this
      ensures Seen(history, lag) == history[cache]
      ensures cache == |history| - 1 ==> lag == 0
    {
      |history| - 1 - cache
    }

    /** The read every link begins with. */
    method ReadLink(key: Key) returns (r: Lookup)
      requires Valid() && me.Busy? && me.phase.Getting? && key == LinkKey(me.link, me.id)
      modifies this`history, this`now, this`others, this`turns, this`log, this`cache, this`me
      ensures Valid()
      ensures old(history) <= history && old(cache) <= cache
      ensures r.Failed? ==> me == Idle
      ensures !r.Failed? ==> me == AfterGet(env, history[cache], old(me))
      ensures r.Found? ==> Fetch(history[cache], key) == Some(r.found)
      ensures r.Missing? ==> key !in history[cache]
      ensures reliable ==> !r.Failed? && cache == |history| - 1 && log == old(log) + [Get(k, 0)]
      ensures reliable ==> history == old(history) && now == old(now)
    {
      r := Read(key);
      if r.Failed? {
        GiveUp();
      } else {
        GetAct(env, Rest(), k, me, Lag());
        Note(Get(k, Lag()), AfterGet(env, history[cache], me));
      }
    }

    /** Waiting lets the cache catch up with at least one more state, if there is one. */
    method Sleep()
      requires Valid()
      modifies this`cache
      ensures Valid()
      ensures cache > old(cache) || cache == |history| - 1
      ensures cache >= old(cache)
    {
      if cache < |history| - 1 {
        var p: nat :| cache < p < |history|;
        cache := p;
      }
    }

    /**
     A write that has reached the server, which may refuse it. It may take effect and still be reported as
     failed, when the answer is lost.
     */
    method Send(key: Key, body: Body, accepted: bool, ghost data: map<string, string>) returns (ok: bool)
      requires Valid() && Writable(me) && !Skips(me, data) && Renderable(env, me, data)
      requires key == LinkKey(me.link, me.id) && body == BodyFor(env, me.id, me.spec, me.link, data)
      requires accepted == Accepted(Top(history), me)
      modifies this`history, this`me, this`log
      ensures Valid() && old(history) <= history
      ensures me == if ok then AfterPut(Top(old(history)), old(me), data) else Idle
      ensures ok ==> accepted && key in Top(history)
      ensures reliable && accepted ==> ok && log == old(log) + [Put(k, data)]
      ensures Cluster(old(me).id) == old(Cluster(me.id))
    {
      var fails: bool := *;
      var lost: bool := *;
      if !accepted || (fails && !reliable) {
        GiveUp();
        return false;
      }
      Land(key, body, data);
      ok := reliable || !lost;
      if !ok {
        GiveUp();
      }
    }

    /** The server takes the write. */
    method Land(key: Key, body: Body, ghost data: map<string, string>)
      requires Valid() && Writable(me) && !Skips(me, data) && Renderable(env, me, data)
      requires key == LinkKey(me.link, me.id) && body == BodyFor(env, me.id, me.spec, me.link, data)
      requires Accepted(Top(history), me)
      modifies this`history, this`me, this`log
      ensures Valid() && old(history) <= history && key in Top(history)
      ensures me == AfterPut(Top(old(history)), old(me), data) && log == old(log) + [Put(k, data)]
      ensures Cluster(old(me).id) == old(Cluster(me.id))
    {
      PutLands(env, start, log, Rest(), k, me, data);
      me, log := AfterPut(Top(history), me, data), log + [Put(k, data)];
      history := Commit(history, Some(Change(key, body)));
    }

    /** Fails when the key is taken. */
    method Create(key: Key, body: Body, ghost data: map<string, string>) returns (ok: bool)
      requires Valid() && Writable(me) && me.phase.seen.None? && Renderable(env, me, data)
      requires key == LinkKey(me.link, me.id) && body == BodyFor(env, me.id, me.spec, me.link, data)
      modifies this`history, this`now, this`others, this`turns, this`log, this`me
      ensures Valid() && old(history) <= history
      ensures ok ==> key in Top(history)
      ensures !ok ==> me == Idle
      ensures ok ==> me == if IsConfig(old(me).link) then old(me).(phase := Polling) else Advance(old(me))
      ensures reliable && key !in Top(old(history)) ==> ok && log == old(log) + [Put(k, data)]
      ensures reliable ==> now == old(now) && Cluster(old(me).id) == old(Cluster(me.id))
    {
      Interfere();
      ok := Send(key, body, key !in Top(history), data);
    }

    /** Fails when the key is missing, or the version given is not the stored one. */
    method Update(key: Key, version: Option<nat>, body: Body, ghost data: map<string, string>) returns (ok: bool)
      requires Valid() && Writable(me) && me.phase.seen.Some? && Renderable(env, me, data) && !Skips(me, data)
      requires key == LinkKey(me.link, me.id) && body == BodyFor(env, me.id, me.spec, me.link, data)
      requires version == if me.link.Work? then None else Some(me.phase.seen.value.version)
      modifies this`history, this`now, this`others, this`turns, this`log, this`me
      ensures Valid() && old(history) <= history
      ensures me == if ok then Advance(old(me)) else Idle
      ensures reliable && Fetch(Top(old(history)), key) == old(me).phase.seen ==> ok && log == old(log) + [Put(k, data)]
      ensures reliable ==> now == old(now) && Cluster(old(me).id) == old(Cluster(me.id))
    {
      Interfere();
      var current := key in Top(history) && (version.Some? ==> Top(history)[key].version == version.value);
      ok := Send(key, body, current, data);
    }

    // ----- ServiceAccount, Role, RoleBinding -----

    /** The common shape of `createOrUpdateServiceAccount`, `createOrUpdateRole` and `createOrUpdateRoleBinding`. */
    method CreateOrUpdateOnce(l: Link, id: ClusterId, spec: Spec) returns (err: bool)
      requires Valid() && l in {Account, Permission, Binding} && At(l, id, spec)
      modifies this`history, this`now, this`others, this`turns, this`log, this`me, this`cache
      ensures Valid() && old(history) <= history
      ensures me == if err then Idle else Advance(old(me))
      ensures reliable ==> !err && log == old(log) + OnceActs(k) && now == old(now) && Cluster(id) == old(Cluster(id))
    {
      var r := FindOnce(l, id, spec);
      if !r.Missing? {
        return r.Failed?;
      }
      var ok := Create(LinkKey(l, id), BodyFor(env, id, spec, l, map[]), map[]);
      err := !ok;
    }

    /** The read of such a link; what is found is left as it is. */
    method FindOnce(l: Link, id: ClusterId, spec: Spec) returns (r: Lookup)
      requires Valid() && l in {Account, Permission, Binding} && At(l, id, spec)
      modifies this`history, this`now, this`others, this`turns, this`log, this`me, this`cache
      ensures Valid() && old(history) <= history
      ensures r.Missing? ==> LinkKey(l, id) !in history[cache]
      ensures me == match r
                    case Found(_) => Advance(old(me))
                    case Missing => old(me).(phase := Writing(None))
                    case Failed => Idle
      ensures reliable ==>
                && !r.Failed? && history == old(history) && now == old(now) && cache == |history| - 1
                && log == old(log) + if r.Found? then OnceActs(k) else [Get(k, 0)]
    {
      r := ReadLink(LinkKey(l, id));
      if r.Found? {
        NothingToPut();
      }
    }

    method CreateOrUpdateK8sResources(id: ClusterId, spec: Spec) returns (err: bool)
      requires Valid() && At(Account, id, spec)
      modifies this`history, this`now, this`others, this`turns, this`log, this`me, this`cache
      ensures Valid() && old(history) <= history
      ensures me == if err then Idle else old(me).(link := KyuubiConf)
      ensures reliable ==>
                && !err && log == old(log) + (OnceActs(k) + OnceActs(k) + OnceActs(k))
                && now == old(now) && Cluster(id) == old(Cluster(id))
    {
      err := CreateOrUpdateOnce(Account, id, spec);
      if err {
        return;
      }
      err := CreateOrUpdateOnce(Permission, id, spec);
      if err {
        return;
      }
      err := CreateOrUpdateOnce(Binding, id, spec);
    }

    // ----- the two config maps -----

    /**
     The wait after a create. It ends because every sleep brings the reader closer to the state the config map
     was created in, whatever the others add meanwhile, and it ends well only when the reader sees it.
     */
    method WaitVisible(key: Key) returns (err: bool)
      requires Valid() && key in Top(history)
      requires me.Busy? && me.phase.Polling? && LinkKey(me.link, me.id) == key
      modifies this`history, this`now, this`others, this`turns, this`log, this`me, this`cache
      ensures Valid() && old(history) <= history
      ensures me == if err then Idle else Advance(old(me))
      ensures !err ==> key in history[cache]
      ensures reliable ==> !err && log == old(log) + [Poll(k, 0)] && history == old(history) && now == old(now)
    {
      ghost var target := |history| - 1;
      while true
        invariant Valid() && me == old(me) && old(history) <= history
        invariant target < |history| && key in history[target]
        invariant reliable ==> log == old(log) && history == old(history) && now == old(now)
        decreases if cache < target then target - cache else 0
      {
        var r := Read(key);
        if r.Failed? {
          GiveUp();
          return true;
        }
        PollAct(env, Rest(), k, me, Lag());
        Note(Poll(k, Lag()), AfterPoll(history[cache], me));
        if r.Found? {
          return false;
        }
        Facts();
        assert cache < target;
        Sleep();
      }
    }

    /** What both config-map links do once the desired data is known. */
    method ApplyConfigMap(l: Link, id: ClusterId, spec: Spec, data: map<string, string>) returns (err: bool)
      requires Valid() && IsConfig(l) && At(l, id, spec) && Renderable(env, me, data)
      modifies this`history, this`now, this`others, this`turns, this`log, this`me, this`cache
      ensures Valid() && old(history) <= history
      ensures me == if err then Idle else Advance(old(me))
      ensures !err ==> LinkKey(l, id) in history[cache]
      ensures reliable ==>
                !err && log == old(log) + ConfigActs(k, data) && now == old(now) && Cluster(id) == old(Cluster(id))
    {
      var key := LinkKey(l, id);
      var r := ReadLink(key);
      if r.Failed? {
        return true;
      }
      if r.Missing? {
        err := CreateConfigMap(l, id, data);
      } else {
        err := UpdateConfigMap(l, id, data, r.found);
      }
    }

    /** The branch that found nothing: create, then wait until the reader sees it. */
    method CreateConfigMap(l: Link, id: ClusterId, data: map<string, string>) returns (err: bool)
      requires Valid() && IsConfig(l) && Writable(me) && me.link == l && me.id == id && me.phase.seen.None?
      requires Renderable(env, me, data)
      modifies this`history, this`now, this`others, this`turns, this`log, this`me, this`cache
      ensures Valid() && old(history) <= history
      ensures me == if err then Idle else Advance(old(me))
      ensures !err ==> LinkKey(l, id) in history[cache]
      ensures reliable && LinkKey(l, id) !in Top(old(history)) ==>
                && !err && log == old(log) + [Put(k, data), Poll(k, 0)]
                && now == old(now) && Cluster(id) == old(Cluster(id))
    {
      var ok := Create(LinkKey(l, id), ConfigBody(data), data);
      if !ok {
        return true;
      }
      err := WaitVisible(LinkKey(l, id));
    }

    /** The branch that found one: it is rewritten only when its data differs, under the version read. */
    method UpdateConfigMap(l: Link, id: ClusterId, data: map<string, string>, found: Stored) returns (err: bool)
      requires Valid() && IsConfig(l) && Writable(me) && me.link == l && me.id == id && me.phase.seen == Some(found)
      requires Renderable(env, me, data)
      modifies this`history, this`now, this`others, this`turns, this`log, this`me
      ensures Valid() && old(history) <= history
      ensures DataOf(found.body) == data ==> !err && history == old(history)
      ensures me == if err then Idle else Advance(old(me))
      ensures reliable && Fetch(Top(old(history)), LinkKey(l, id)) == Some(found) ==>
                && !err && log == old(log) + [Put(k, data), Poll(k, 0)]
                && now == old(now) && Cluster(id) == old(Cluster(id))
    {
      var same := CompareConf(Some(data), Some(DataOf(found.body)));
      err := false;
      if same {
        Skip(data);
      } else {
        var ok := Update(LinkKey(l, id), Some(found.version), ConfigBody(data), data);
        err := !ok;
      }
      if !err {
        Stutter(Poll(k, 0));
      }
    }

    method CreateOrUpdateKyuubiConfigmap(id: ClusterId, spec: Spec) returns (err: bool, ghost texts: map<string, string>)
      requires Valid() && At(KyuubiConf, id, spec)
      modifies this`history, this`now, this`others, this`turns, this`log, this`me, this`cache
      ensures Valid() && old(history) <= history
      ensures me == if err then Idle else Advance(old(me))
      ensures !err ==> LinkKey(KyuubiConf, id) in history[cache]
      ensures RendersAll(env, KyuubiFiles(spec.conf), texts) && MeansKyuubi(spec.conf, texts)
      ensures reliable ==>
                !err && log == old(log) + ConfigActs(k, texts) && now == old(now) && Cluster(id) == old(Cluster(id))
    {
      var data := ConstructKyuubiConfigMap(env, spec.conf);
      texts := data;
      err := ApplyConfigMap(KyuubiConf, id, spec, data);
    }

    /** A spec the compiler refuses stops the pass here, before the server is asked anything. */
    method CreateOrUpdateClusterRefsConfigmap(id: ClusterId, spec: Spec)
      returns (err: bool, ghost texts: map<string, string>)
      requires Valid() && At(RefsConf, id, spec)
      modifies this`history, this`now, this`others, this`turns, this`log, this`me, this`cache
      ensures Valid() && old(history) <= history
      ensures me == if err then Idle else Advance(old(me))
      ensures !err ==> LinkKey(RefsConf, id) in history[cache]
      ensures Refused(RefsOf(spec)) ==> err && history == old(history)
      ensures !Refused(RefsOf(spec)) ==>
                && (var files := DesiredFiles(env, id.ns, RefsOf(spec)); files.Ok? && RendersAll(env, files.value, texts))
                && MeansRefs(env, id.ns, RefsOf(spec), texts)
      ensures reliable && !Refused(RefsOf(spec)) ==>
                !err && log == old(log) + ConfigActs(k, texts) && now == old(now) && Cluster(id) == old(Cluster(id))
    {
      AcceptedExactly(env, id.ns, RefsOf(spec));
      var out := DesiredClusterRefsConfigMap(env, id.ns, spec);
      if out.Err? {
        GetAct(env, Rest(), k, me, 0);
        Note(Get(k, 0), Idle);
        return true, map[];
      }
      texts := out.value;
      RefsMeaning(env, id.ns, RefsOf(spec), texts);
      err := ApplyConfigMap(RefsConf, id, spec, out.value);
    }

    // ----- the workload and the service -----

    method ConstructDesiredKyuubiWorkload(id: ClusterId, spec: Spec) returns (wl: Workload)
      ensures wl == WorkloadFor(id, spec) && SpelledWorkload(id, spec, wl)
    {
      WorkloadSpelled(env, id, spec);
      var mounts := ConstructVolumeMounts(id.name, spec);
      var volumes := ConstructVolumes(id.name, spec);
      var name := ResourceName(id.name);
      wl := Workload(name, spec.replicas, Labels(id.name), id.name,
                     spec.image.repository + ":" + spec.image.tag, spec.image.pullPolicy, name, mounts, volumes, map[]);
    }

    method CreateOrUpdateKyuubi(id: ClusterId, spec: Spec) returns (err: bool)
      requires Valid() && At(Work, id, spec)
      modifies this`history, this`now, this`others, this`turns, this`log, this`me, this`cache
      ensures Valid() && old(history) <= history
      ensures me == if err then Idle else Advance(old(me))
      ensures reliable ==> !err && log == old(log) + OnceActs(k) && now == old(now) && Cluster(id) == old(Cluster(id))
    {
      var key := LinkKey(Work, id);
      var desired := ConstructDesiredKyuubiWorkload(id, spec);
      var r := ReadLink(key);
      if r.Failed? {
        return true;
      }
      var ok := WriteWorkload(id, desired, if r.Found? then Some(r.found) else None);
      err := !ok;
    }

    method WriteWorkload(id: ClusterId, desired: Workload, seen: Option<Stored>) returns (ok: bool)
      requires Valid() && Writable(me) && me.link.Work? && me.id == id && me.phase.seen == seen
      requires desired == WorkloadFor(id, me.spec)
      modifies this`history, this`now, this`others, this`turns, this`log, this`me
      ensures Valid() && old(history) <= history
      ensures me == if ok then Advance(old(me)) else Idle
      ensures reliable && Fetch(Top(old(history)), LinkKey(Work, id)) == seen ==>
                ok && log == old(log) + [Put(k, map[])] && now == old(now) && Cluster(id) == old(Cluster(id))
    {
      if seen.None? {
        ok := Create(LinkKey(Work, id), WorkloadBody(Complete(env, desired)), map[]);
      } else {
        ok := UpdateWorkload(id, desired, seen.value);
      }
    }

    /** The comparison is with the spec before completion; the update carries no version. */
    method UpdateWorkload(id: ClusterId, desired: Workload, found: Stored) returns (ok: bool)
      requires Valid() && Writable(me) && me.link.Work? && me.id == id && me.phase.seen == Some(found)
      requires desired == WorkloadFor(id, me.spec)
      modifies this`history, this`now, this`others, this`turns, this`log, this`me
      ensures Valid() && old(history) <= history
      ensures found.body == WorkloadBody(desired) ==> ok && history == old(history)
      ensures me == if ok then Advance(old(me)) else Idle
      ensures reliable && Fetch(Top(old(history)), LinkKey(Work, id)) == Some(found) ==>
                ok && log == old(log) + [Put(k, map[])] && now == old(now) && Cluster(id) == old(Cluster(id))
    {
      if found.body.WorkloadBody? && found.body.workload == desired {
        Skip(map[]);
        ok := true;
      } else {
        ok := Update(LinkKey(Work, id), None, WorkloadBody(Complete(env, desired)), map[]);
      }
    }

    /** Hands back the service it read, which is the empty object when this call created the service. */
    method CreateOrUpdateService(id: ClusterId, spec: Spec) returns (err: bool, view: ServiceView)
      requires Valid() && At(Front, id, spec) && me.svc == EMPTY_SERVICE
      modifies this`history, this`now, this`others, this`turns, this`log, this`me, this`cache
      ensures Valid() && old(history) <= history
      ensures me == if err then Idle else Advance(old(me).(svc := view))
      ensures reliable ==> !err && log == old(log) + OnceActs(k) && now == old(now) && Cluster(id) == old(Cluster(id))
    {
      var key := LinkKey(Front, id);
      view := EMPTY_SERVICE;
      assert me.(svc := EMPTY_SERVICE) == me;
      var r := ReadLink(key);
      if r.Failed? {
        return true, view;
      }
      if r.Found? {
        view := ViewOf(id, r.found.body);
        NothingToPut();
        return false, view;
      }
      var ok := Create(key, BodyFor(env, id, spec, Front, map[]), map[]);
      err := !ok;
    }

    // ----- the status -----

    method BuildExposedInfos(name: string, svc: ServiceView) returns (infos: seq<ExposedInfo>)
      ensures infos == Exposed(name, svc)
    {
      infos := [];
      for i := 0 to |svc.ports|
        invariant |infos| == i
        invariant forall j :: 0 <= j < i ==> infos[j] == ExposedAt(name, svc, j)
      {
        var port := svc.ports[i];
        infos := infos + [ExposedInfo(name + "-" + Itoa(i), port.name, svc.name, port)];
      }
    }

    /** The clock moves on. */
    method PassTime() returns (ghost d: nat)
      requires Valid()
      modifies this`now, this`log
      ensures Valid() && now == old(now) + d && log == old(log) + [Tick(d)]
    {
      var e: nat :| true;
      d := e;
      TickAct(env, Rest(), k, me, d);
      ExecSnoc(env, start, log, Tick(d));
      now, log := now + e, log + [Tick(d)];
    }

    /** The status subresource: the spec of the object sent along is ignored, a stale version is refused. */
    method UpdateStatus(id: ClusterId, version: nat, status: Status) returns (ok: bool)
      requires Valid() && Reporting(me) && me.phase.Stamped? && me.id == id && me.base == version
      requires status == Status(Some(Exposed(id.name, me.svc)), me.phase.first, me.phase.updated)
      modifies this`history, this`now, this`others, this`turns, this`log, this`me
      ensures Valid() && old(history) <= history && me == Idle
      ensures ok ==> Present(Top(history), Report, id)
      ensures reliable && old(Cluster(id)).Some? && old(Cluster(id)).value.version == version ==>
                ok && log == old(log) + [Publish(k)]
    {
      Interfere();
      var key := LinkKey(Report, id);
      var fails: bool := *;
      var lost: bool := *;
      if key !in Top(history) || Top(history)[key].version != version || (fails && !reliable) {
        GiveUp();
        return false;
      }
      LandStatus(id, Top(history)[key], status);
      ok := reliable || !lost;
    }

    /** The server takes the status; an answer that is lost ends the pass all the same. */
    method LandStatus(id: ClusterId, o: Stored, status: Status)
      requires Valid() && Reporting(me) && me.phase.Stamped? && me.id == id && me.base == o.version
      requires Cluster(id) == Some(o)
      requires status == Status(Some(Exposed(id.name, me.svc)), me.phase.first, me.phase.updated)
      modifies this`history, this`log, this`me
      ensures Valid() && old(history) <= history && me == Idle && log == old(log) + [Publish(k)]
      ensures Present(Top(history), Report, id)
    {
      ClusterTyped(|history| - 1, id);
      PublishLands(env, start, log, Rest(), k, me, o);
      me, log := Idle, log + [Publish(k)];
      history := Commit(history, Some(Change(LinkKey(Report, id), ClusterBody(o.body.spec, status))));
    }

    method UpdateKyuubiClusterStatus(id: ClusterId, base: nat, status: Status, view: ServiceView)
      returns (err: bool, ghost pause: nat)
      requires Valid() && Reporting(me) && me.phase.Writing? && me.id == id
      requires me.base == base && me.status == status && me.svc == view
      modifies this`history, this`now, this`others, this`turns, this`log, this`me
      ensures Valid() && old(history) <= history && me == Idle
      ensures !err ==> Present(Top(history), Report, id)
      ensures reliable && old(Cluster(id)).Some? && old(Cluster(id)).value.version == base ==>
                !err && log == old(log) + ReportActs(k, pause)
    {
      var infos := BuildExposedInfos(id.name, view);
      if status.infos.None? || infos != status.infos.value {
        err, pause := WriteStatus(id, base, status, infos);
      } else {
        StatusLasts();
        DateAct(env, Rest(), k, me);
        Note(Date(k), Idle);
        TickAct(env, Rest(), k, me, 0);
        Note(Tick(0), Idle);
        Stutter(Stamp(k));
        Stutter(Publish(k));
        err, pause := false, 0;
      }
    }

    /** A list this worker read is persisted still. */
    lemma StatusLasts()
      requires Valid() && me.Busy? && me.status.infos.Some?
      ensures Present(Top(history), Report, me.id)
    {
      Facts();
      LastingRun(env, start, log);
      assert Present(history[me.base], Report, me.id);
      assert Keeps(history[me.base], history[|history| - 1]);
    }

    /** The branch that has something to persist: the clock is read twice, then the status is sent. */
    method WriteStatus(id: ClusterId, base: nat, status: Status, infos: seq<ExposedInfo>)
      returns (err: bool, ghost pause: nat)
      requires Valid() && Reporting(me) && me.phase.Writing? && me.id == id
      requires me.base == base && me.status == status && infos == Exposed(id.name, me.svc) && status.infos != Some(infos)
      modifies this`history, this`now, this`others, this`turns, this`log, this`me
      ensures Valid() && old(history) <= history && me == Idle
      ensures !err ==> Present(Top(history), Report, id)
      ensures reliable && old(Cluster(id)).Some? && old(Cluster(id)).value.version == base ==>
                !err && log == old(log) + ReportActs(k, pause)
    {
      var created, updated;
      created := ReadCreated(status);
      updated, pause := ReadUpdated();
      var ok := UpdateStatus(id, base, Status(Some(infos), created, updated));
      err := !ok;
    }

    /** The first reading of the clock, used when the status has no list yet. */
    method ReadCreated(status: Status) returns (created: nat)
      requires Valid() && Reporting(me) && me.phase.Writing? && me.status == status
      requires status.infos != Some(Exposed(me.id.name, me.svc))
      modifies this`history, this`now, this`others, this`turns, this`log, this`me
      ensures Valid() && old(history) <= history
      ensures me == old(me).(phase := Dated(created)) && (status.infos.Some? ==> created == status.created)
      ensures reliable ==> history == old(history) && log == old(log) + [Date(k)]
    {
      Interfere();
      created := if status.infos.None? then now else status.created;
      DateAct(env, Rest(), k, me);
      Note(Date(k), me.(phase := Dated(created)));
    }

    /** The second reading. Whatever happens between it and the write, the time sent is this one. */
    method ReadUpdated() returns (updated: nat, ghost pause: nat)
      requires Valid() && Reporting(me) && me.phase.Dated?
      modifies this`history, this`now, this`others, this`turns, this`log, this`me
      ensures Valid() && old(history) <= history
      ensures me == old(me).(phase := Stamped(old(me).phase.created, updated))
      ensures reliable ==> history == old(history) && log == old(log) + [Tick(pause), Stamp(k)]
    {
      Interfere();
      pause := PassTime();
      updated := now;
      StampAct(env, Rest(), k, me);
      Note(Stamp(k), me.(phase := Stamped(me.phase.created, updated)));
    }

    // ----- the pass -----

    lemma ReachedReport()
      requires Valid() && Reporting(me) && Ordered(start.history[0])
      ensures Provided(Top(history), me.id)
    {
      OrderRun(env, start, log);
      assert With(Rest(), k, me).workers[k] == me;
    }

    method CreateOrUpdateClusters(id: ClusterId, base: nat, spec: Spec, status: Status) returns (err: bool, ghost c: Choice)
      requires Valid() && me == Busy(id, base, spec, status, Account, Getting, EMPTY_SERVICE)
      modifies this`history, this`now, this`others, this`turns, this`log, this`me, this`cache
      ensures Valid() && old(history) <= history && me == Idle
      ensures !err && Ordered(start.history[0]) ==> Provided(Top(history), id) && Present(Top(history), Report, id)
      ensures reliable && !Refused(RefsOf(spec)) && old(Cluster(id)) == Some(Stored(base, ClusterBody(spec, status))) ==>
                && !err && Fits(env, id, spec, c)
                && log == old(log) + ChainActs(k, c)
    {
      c := Choice(map[], map[], 0);
      err := CreateOrUpdateK8sResources(id, spec);
      if err {
        return;
      }
      err, c := ConfigureClusters(id, spec);
      if err {
        return;
      }
      err, c := FinishClusters(id, base, spec, status, c);
      Concat3(old(log), OnceActs(k) + OnceActs(k) + OnceActs(k), ConfigActs(k, c.kyuubi) + ConfigActs(k, c.refs),
        OnceActs(k) + OnceActs(k) + ReportActs(k, c.pause));
    }

    /** The two config maps. */
    method ConfigureClusters(id: ClusterId, spec: Spec) returns (err: bool, ghost c: Choice)
      requires Valid() && At(KyuubiConf, id, spec)
      modifies this`history, this`now, this`others, this`turns, this`log, this`me, this`cache
      ensures Valid() && old(history) <= history
      ensures me == if err then Idle else old(me).(link := Work)
      ensures reliable && !Refused(RefsOf(spec)) ==>
                && !err && Fits(env, id, spec, c)
                && log == old(log) + (ConfigActs(k, c.kyuubi) + ConfigActs(k, c.refs))
                && now == old(now) && Cluster(id) == old(Cluster(id))
    {
      ghost var kyuubi, refs;
      err, kyuubi := CreateOrUpdateKyuubiConfigmap(id, spec);
      c := Choice(kyuubi, map[], 0);
      if err {
        return;
      }
      err, refs := CreateOrUpdateClusterRefsConfigmap(id, spec);
      c := Choice(kyuubi, refs, 0);
      assert !Refused(RefsOf(spec)) ==> Fits(env, id, spec, c);
      Associates(old(log), ConfigActs(k, kyuubi), ConfigActs(k, refs));
    }

    /** The second half: workload, service, status. */
    method FinishClusters(id: ClusterId, base: nat, spec: Spec, status: Status, ghost c0: Choice)
      returns (err: bool, ghost c: Choice)
      requires Valid() && me == Busy(id, base, spec, status, Work, Getting, EMPTY_SERVICE)
      modifies this`history, this`now, this`others, this`turns, this`log, this`me, this`cache
      ensures Valid() && old(history) <= history && me == Idle
      ensures !err && Ordered(start.history[0]) ==> Provided(Top(history), id) && Present(Top(history), Report, id)
      ensures c.kyuubi == c0.kyuubi && c.refs == c0.refs
      ensures reliable && old(Cluster(id)) == Some(Stored(base, ClusterBody(spec, status))) ==>
                !err && log == old(log) + (OnceActs(k) + OnceActs(k) + ReportActs(k, c.pause))
    {
      c := c0;
      var view;
      err, view := DeployClusters(id, spec);
      if err {
        return;
      }
      ghost var h := history;
      if Ordered(start.history[0]) {
        ReachedReport();
      }
      ghost var pause;
      err, pause := UpdateKyuubiClusterStatus(id, base, status, view);
      c := c0.(pause := pause);
      if Ordered(start.history[0]) {
        Facts();
        ProvidedLater(h, history, id);
      }
    }

    /** The workload, then the service. */
    method DeployClusters(id: ClusterId, spec: Spec) returns (err: bool, view: ServiceView)
      requires Valid() && At(Work, id, spec) && me.svc == EMPTY_SERVICE
      modifies this`history, this`now, this`others, this`turns, this`log, this`me, this`cache
      ensures Valid() && old(history) <= history
      ensures me == if err then Idle else old(me).(link := Report, phase := Writing(None), svc := view)
      ensures reliable ==>
                && !err && log == old(log) + (OnceActs(k) + OnceActs(k))
                && now == old(now) && Cluster(id) == old(Cluster(id))
    {
      err := CreateOrUpdateKyuubi(id, spec);
      if err {
        return err, EMPTY_SERVICE;
      }
      err, view := CreateOrUpdateService(id, spec);
    }

    /**
     One pass, in company. Whatever fails on the way, the world stays one the machine reaches; and when the pass
     reports success all eight links of the cluster have done their work, however stale its reads were. With a
     reliable server, nobody else around, a stored cluster and an accepted spec it does succeed, and does to the
     store exactly what `PassBodies` says.
     */
    method Reconcile(id: ClusterId) returns (err: bool, ghost c: Choice)
      requires Valid() && me == Idle
      modifies this`history, this`now, this`others, this`turns, this`log, this`me, this`cache
      ensures Valid() && old(history) <= history && me == Idle
      ensures !err && '/' !in id.ns && '/' !in id.name && Ordered(start.history[0]) ==>
                forall l :: Present(Top(history), l, id)
      ensures reliable && old(Cluster(id)).None? ==> err && history == old(history)
      ensures var m := old(Bodies(Top(history)));
              reliable && '/' !in id.ns && '/' !in id.name && HasCluster(m, id) && !Refused(RefsOf(SpecIn(m, id))) ==>
                && !err
                && Fits(env, id, SpecIn(m, id), c)
                && log == old(log) + PassActs(k, id, c)
                && Bodies(Top(history)) == PassBodies(env, m, id, c, old(now))
                && Deployed(env, Bodies(Top(history)), id)
    {
      c := Choice(map[], map[], 0);
      ghost var w0, log0 := With(Rest(), k, me), log;
      var r := Read(LinkKey(Report, id));
      if !r.Found? {
        return true, c;
      }
      var name := RequestedName(id);
      if name != id.name {
        return false, c;
      }
      ClusterTyped(cache, id);
      err, c := RunPass(id, r.found);
      if reliable && !Refused(RefsOf(r.found.body.spec)) {
        PassDone(env, start, log0, w0, With(Rest(), k, me), k, id, c);
      }
    }

    ghost method Begins(id: ClusterId, o: Stored)
      requires Valid() && me == Idle && Fetch(history[cache], LinkKey(Report, id)) == Some(o)
      modifies this`log, this`me
      ensures Valid() && log == old(log) + [Start(k, id, Lag())]
      ensures o.body.ClusterBody? && WellTyped(env, history[cache])
      ensures me == Busy(id, o.version, o.body.spec, o.body.status, Account, Getting, EMPTY_SERVICE)
    {
      ClusterTyped(cache, id);
      StartAct(env, Rest(), k, id, Lag(), o);
      Note(Start(k, id, Lag()), Begin(id, o));
    }

    /** The pass on the cluster object just read. */
    method RunPass(id: ClusterId, o: Stored) returns (err: bool, ghost c: Choice)
      requires Valid() && me == Idle && Fetch(history[cache], LinkKey(Report, id)) == Some(o)
      requires reliable ==> cache == |history| - 1
      modifies this`history, this`now, this`others, this`turns, this`log, this`me, this`cache
      ensures Valid() && old(history) <= history && me == Idle
      ensures !err && Ordered(start.history[0]) ==> forall l :: Present(Top(history), l, id)
      ensures reliable && o.body.ClusterBody? && !Refused(RefsOf(o.body.spec)) ==>
                && !err && Fits(env, id, o.body.spec, c)
                && log == old(log) + [Start(k, id, 0)] + ChainActs(k, c)
    {
      Begins(id, o);
      err, c := CreateOrUpdateClusters(id, o.version, o.body.spec, o.body.status);
    }
  }

  // ----- theorems about runs, as theorems about this code in company -----

  /** However far the code has come, and whatever the others did: the dependency order holds in every state. */
  lemma CodeKeepsOrder(r: Reconciler, i: nat, id: ClusterId, l: Link, m: Link)
    requires r.Valid() && Ordered(r.start.history[0]) && i < |r.history|
    requires Rank(l) < Rank(m) && Present(r.history[i], m, id)
    ensures Present(r.history[i], l, id)
  {
    OrderRun(r.env, r.start, r.log);
    assert Ordered(r.history[i]);
  }

  /** And a persisted creation time stays, with times in order and phases advancing. */
  lemma CodeKeepsStatus(r: Reconciler, i: nat, j: nat, id: ClusterId)
    requires r.Valid() && StatusStart(r.env, r.start) && i <= j < |r.history|
    ensures Evolves(r.history[i], r.history[j], id)
    ensures Timely(StatusAt(r.history[j], id), r.now) && Reported(r.history[j], id)
  {
    StatusRun(r.env, r.start, r.log);
  }
}
