/** What happens to the persisted status of a cluster over a whole run with any number of workers. */
module StatusHistory {
  import opened Base
  import opened Text
  import opened Api
  import opened Naming
  import opened Machine
  import opened Order

  function StatusAt(s: Store, id: ClusterId): Status {
    if LinkKey(Report, id) in s then StatusOf(s[LinkKey(Report, id)].body) else NO_STATUS
  }

  /** nil, then empty, then the ports of the service. */
  function Progress(infos: Option<seq<ExposedInfo>>): nat {
    if infos.None? then 0 else if infos.value == [] then 1 else 2
  }

  ghost predicate Evolves(s: Store, t: Store, id: ClusterId) {
    var a, b := StatusAt(s, id), StatusAt(t, id);
    && Progress(a.infos) <= Progress(b.infos)
    && (a.infos.Some? ==> b.infos.Some? && b.created == a.created && a.updated <= b.updated)
  }

  predicate Timely(st: Status, now: nat) {
    st.infos.Some? ==> st.created <= st.updated <= now
  }

  /** The list to be persisted once the service is known. */
  function FullList(s: Store, id: ClusterId): Option<seq<ExposedInfo>> {
    if LinkKey(Front, id) in s then Some(Exposed(id.name, ViewOf(id, s[LinkKey(Front, id)].body))) else None
  }

  /** One entry a port of the stored service, in order, under the names the cluster and the service have. */
  ghost predicate ListsPorts(s: Store, id: ClusterId, infos: seq<ExposedInfo>) {
    && LinkKey(Front, id) in s && s[LinkKey(Front, id)].body.ServiceBody?
    && (var ports := s[LinkKey(Front, id)].body.ports;
        && |infos| == |ports|
        && forall n :: 0 <= n < |ports| ==>
             infos[n] == ExposedInfo(id.name + "-" + Itoa(n), ports[n].name, id.name + "-kyuubi", ports[n]))
  }

  lemma FullListSpelled(s: Store, id: ClusterId)
    requires FullList(s, id).Some? && FullList(s, id).value != []
    ensures ListsPorts(s, id, FullList(s, id).value)
  {
    NamesSpelled(id.name);
  }

  predicate Reported(s: Store, id: ClusterId) {
    var infos := StatusAt(s, id).infos;
    infos.None? || infos == Some([]) || infos == FullList(s, id)
  }

  /** Nobody edits a service once it is stored. */
  ghost predicate Frozen(h: History) {
    forall i, j, id :: 0 <= i <= j < |h| && LinkKey(Front, id) in h[i] ==>
      LinkKey(Front, id) in h[j] && h[j][LinkKey(Front, id)] == h[i][LinkKey(Front, id)]
  }

  /** What a worker about to report has in its hands: the stored service, or nothing on a nil status. */
  ghost predicate Informed(s: Store, b: Worker) {
    b.Busy? ==>
      if !b.link.Report? then
        && b.svc == EMPTY_SERVICE
        && (b.link.Front? ==> !b.phase.Polling? && (b.phase.Writing? ==> b.phase.seen.None?))
      else
        || (b.svc == EMPTY_SERVICE && b.status.infos.None?)
        || (LinkKey(Front, b.id) in s && b.svc == ViewOf(b.id, s[LinkKey(Front, b.id)].body))
  }

  /**
   The times a worker carries towards its write. They may be old by the time it lands, but never older
   than the status it read, and a creation time that status has is the one carried.
   */
  ghost predicate Clocked(b: Worker, now: nat) {
    && (b.Busy? && b.phase.Dated? ==>
          b.phase.created <= now && (b.status.infos.Some? ==> b.phase.created == b.status.created))
    && (b.Busy? && b.phase.Stamped? ==>
          && b.phase.first <= b.phase.updated <= now
          && (b.status.infos.Some? ==> b.phase.first == b.status.created && b.status.updated <= b.phase.updated))
  }

  ghost predicate StatesOk(h: History, now: nat) {
    forall i, id :: 0 <= i < |h| ==> Timely(StatusAt(h[i], id), now) && Reported(h[i], id)
  }

  ghost predicate Monotone(h: History) {
    forall i, j, id :: 0 <= i <= j < |h| ==> Evolves(h[i], h[j], id)
  }

  ghost predicate StatusInv(w: World) {
    && OrderInv(w)
    && Frozen(w.history)
    && StatesOk(w.history, w.now)
    && Monotone(w.history)
    && (forall k :: k in w.workers ==> Informed(Top(w.history), w.workers[k]))
    && (forall k :: k in w.workers ==> Clocked(w.workers[k], w.now))
  }

  // ----- one step -----

  lemma ServiceKept(env: Env, w: World, a: Action, id: ClusterId)
    requires StatusInv(w) && LinkKey(Front, id) in Top(w.history)
    ensures Fetch(Top(Apply(env, w, a).history), LinkKey(Front, id)) == Fetch(Top(w.history), LinkKey(Front, id))
  {
    if Enabled(env, w, a) && a.Put? {
      var b := WorkerOf(w, a.k);
      assert Informed(Top(w.history), b);
      if LinkKey(b.link, b.id) == LinkKey(Front, id) {
        assert b.link.Front?;
        assert ChangeOf(env, w, a).None?;
      }
    }
  }

  lemma FrozenStep(env: Env, w: World, a: Action)
    requires StatusInv(w)
    ensures Frozen(Apply(env, w, a).history)
    ensures forall id :: LinkKey(Front, id) in Top(w.history) ==>
              Fetch(Top(Apply(env, w, a).history), LinkKey(Front, id)) == Fetch(Top(w.history), LinkKey(Front, id))
  {
    forall id | LinkKey(Front, id) in Top(w.history)
      ensures Fetch(Top(Apply(env, w, a).history), LinkKey(Front, id)) == Fetch(Top(w.history), LinkKey(Front, id))
    {
      ServiceKept(env, w, a, id);
    }
    SoundStep(env, w, a);
    FrozenExtends(w.history, Apply(env, w, a).history);
  }

  lemma FrozenExtends(h: History, h': History)
    requires Frozen(h) && (h' == h || (|h'| == |h| + 1 && h <= h'))
    requires forall id :: LinkKey(Front, id) in Top(h) ==>
               Fetch(Top(h'), LinkKey(Front, id)) == Fetch(Top(h), LinkKey(Front, id))
    ensures Frozen(h')
  {
  }

  /** The status a conditional write replaces is the one the worker read when its pass began. */
  lemma WriteSeesCurrent(w: World, b: Worker)
    requires Sound(w) && b.Busy? && Held(w.history, b)
    requires LinkKey(Report, b.id) in Top(w.history)
    requires Top(w.history)[LinkKey(Report, b.id)].version == b.base
    ensures StatusAt(Top(w.history), b.id) == b.status
  {
    SameVersion(w.history, |w.history| - 1, b.base, LinkKey(Report, b.id));
  }

  /** Only a report changes a status. */
  lemma StatusChange(env: Env, w: World, a: Action, id: ClusterId)
    requires StatusInv(w)
    requires StatusAt(Top(Apply(env, w, a).history), id) != StatusAt(Top(w.history), id)
    ensures Enabled(env, w, a) && a.Publish? && WorkerOf(w, a.k).id == id
    ensures ChangeOf(env, w, a).Some?
  {
    var c := ChangeOf(env, w, a);
    assert c.Some? && c.value.key == LinkKey(Report, id);
    match a
    case Put(k, data) => KeysInjective(Report, id, WorkerOf(w, k).link, WorkerOf(w, k).id);
    case Publish(k) => KeysInjective(Report, id, Report, WorkerOf(w, k).id);
    case EditSpec(i, spec) => KeysInjective(Report, id, Report, i);
    case OutsideEdit(key, body) =>
  }

  lemma StatusStep(env: Env, w: World, a: Action, id: ClusterId)
    requires StatusInv(w)
    ensures var s, t := Top(w.history), Top(Apply(env, w, a).history);
            && Evolves(s, t, id)
            && Timely(StatusAt(t, id), Apply(env, w, a).now)
            && Reported(t, id)
  {
    var w' := Apply(env, w, a);
    var s, t := Top(w.history), Top(w'.history);
    FrozenStep(env, w, a);
    assert Timely(StatusAt(s, id), w.now) && Reported(s, id) && w.now <= w'.now;
    if StatusAt(t, id) != StatusAt(s, id) {
      StatusChange(env, w, a, id);
      var b := WorkerOf(w, a.k);
      WriteSeesCurrent(w, b);
      assert Informed(s, b) && Clocked(b, w.now);
      assert StatusAt(t, id).infos == Some(Exposed(id.name, b.svc));
      assert Exposed(id.name, EMPTY_SERVICE) == [];
    }
  }

  lemma CreatedMeansUnreported(w: World, b: Worker)
    requires StatusInv(w) && b.Busy? && Held(w.history, b) && LinkKey(Front, b.id) !in Top(w.history)
    ensures b.status.infos.None?
  {
    var s := w.history[b.base];
    assert Ordered(s);
    assert !Present(s, Front, b.id);
    assert !Present(s, Report, b.id);
  }

  lemma InformedKept(s: Store, t: Store, b: Worker)
    requires b.Busy? && Informed(s, b)
    requires LinkKey(Front, b.id) in s ==> Fetch(t, LinkKey(Front, b.id)) == Fetch(s, LinkKey(Front, b.id))
    ensures Informed(t, b)
  {
  }

  lemma InformedStep(env: Env, w: World, a: Action, k: nat)
    requires StatusInv(w) && Enabled(env, w, a) && k in WorkersAfter(env, w, a)
    ensures Informed(Top(Apply(env, w, a).history), WorkersAfter(env, w, a)[k])
  {
    var b, b' := WorkerOf(w, k), WorkersAfter(env, w, a)[k];
    WorkerShape(env, w, a, k);
    if b.Busy? && b'.Busy? {
      if b'.link.Report? && !b.link.Report? {
        FrontPassed(env, w, a, k);
      } else if b.link.Report? {
        if LinkKey(Front, b.id) in Top(w.history) {
          ServiceKept(env, w, a, b.id);
        }
        InformedKept(Top(w.history), Top(Apply(env, w, a).history), b);
      }
    }
  }

  /** A worker leaves the service link with the stored service, or it created the service on a nil status. */
  lemma FrontPassed(env: Env, w: World, a: Action, k: nat)
    requires StatusInv(w) && Enabled(env, w, a) && k in WorkersAfter(env, w, a)
    requires WorkerOf(w, k).Busy? && !WorkerOf(w, k).link.Report?
    requires WorkersAfter(env, w, a)[k].Busy? && WorkersAfter(env, w, a)[k].link.Report?
    ensures Informed(Top(Apply(env, w, a).history), WorkersAfter(env, w, a)[k])
  {
    var b := WorkerOf(w, k);
    match a
    case Get(_, lag) => FrontFound(env, w, k, lag);
    case Put(_, data) =>
      assert Informed(Top(w.history), b) && b.link.Front? && b.svc == EMPTY_SERVICE;
      CreatedMeansUnreported(w, b);
  }

  lemma FrontFound(env: Env, w: World, k: nat, lag: nat)
    requires StatusInv(w) && k in w.workers && w.workers[k].Busy? && w.workers[k].link.Front?
    requires LinkKey(Front, w.workers[k].id) in Seen(w.history, lag)
    ensures Informed(Top(w.history), AfterGet(env, Seen(w.history, lag), w.workers[k]))
  {
    var key, s, seen := LinkKey(Front, w.workers[k].id), Top(w.history), Seen(w.history, lag);
    assert key in s && Fetch(s, key) == Fetch(seen, key);
  }

  /** The second reading is no earlier than the first, nor than the times of the status read at the start. */
  lemma ClockedStep(env: Env, w: World, a: Action, k: nat)
    requires StatusInv(w) && Enabled(env, w, a) && k in WorkersAfter(env, w, a)
    ensures Clocked(WorkersAfter(env, w, a)[k], Apply(env, w, a).now)
  {
    var b, b' := WorkerOf(w, k), WorkersAfter(env, w, a)[k];
    if b'.Busy? && (b'.phase.Dated? || b'.phase.Stamped?) {
      ReadsClock(env, w, a, k);
      HeldTimely(w, k);
      assert Clocked(b, w.now);
    }
  }

  /** Only a reading of the clock changes the times a worker carries. */
  lemma ReadsClock(env: Env, w: World, a: Action, k: nat)
    requires Enabled(env, w, a) && k in WorkersAfter(env, w, a)
    requires var b' := WorkersAfter(env, w, a)[k]; b'.Busy? && (b'.phase.Dated? || b'.phase.Stamped?)
    ensures var b, b' := WorkerOf(w, k), WorkersAfter(env, w, a)[k];
            && b.Busy?
            && (b' == b || (a == Date(k) && b' == AfterDate(b, w.now))
                || (a == Stamp(k) && b.phase.Dated? && b' == AfterStamp(b, w.now)))
  {
  }

  lemma HeldTimely(w: World, k: nat)
    requires StatusInv(w) && k in w.workers && w.workers[k].Busy?
    ensures Timely(w.workers[k].status, w.now)
  {
    var b := w.workers[k];
    assert Held(w.history, b);
    assert Timely(StatusAt(w.history[b.base], b.id), w.now);
  }

  lemma {:induction false} StatusInvStep(env: Env, w: World, a: Action)
    requires StatusInv(w)
    ensures StatusInv(Apply(env, w, a))
  {
    var w' := Apply(env, w, a);
    OrderStep(env, w, a);
    FrozenStep(env, w, a);
    forall id
      ensures Evolves(Top(w.history), Top(w'.history), id)
      ensures Timely(StatusAt(Top(w'.history), id), w'.now) && Reported(Top(w'.history), id)
    {
      StatusStep(env, w, a, id);
    }
    StatesStep(w.history, w.now, w'.history, w'.now);
    if Enabled(env, w, a) {
      forall k | k in WorkersAfter(env, w, a)
        ensures Informed(Top(w'.history), WorkersAfter(env, w, a)[k])
      {
        InformedStep(env, w, a, k);
      }
      forall k | k in WorkersAfter(env, w, a) ensures Clocked(WorkersAfter(env, w, a)[k], w'.now) {
        ClockedStep(env, w, a, k);
      }
    }
  }

  /** What holds of the last state, and of the last pair of states, extends to the whole history. */
  lemma StatesStep(h: History, now: nat, h': History, now': nat)
    requires StatesOk(h, now) && Monotone(h) && now <= now'
    requires h' == h || (|h'| == |h| + 1 && h <= h')
    requires forall id :: Evolves(Top(h), Top(h'), id)
    requires forall id :: Timely(StatusAt(Top(h'), id), now') && Reported(Top(h'), id)
    ensures StatesOk(h', now') && Monotone(h')
  {
    var n := |h|;
    forall i, id | 0 <= i < |h'| ensures Timely(StatusAt(h'[i], id), now') && Reported(h'[i], id) {
      if i < n {
        assert Timely(StatusAt(h[i], id), now) && Reported(h[i], id);
      } else {
        assert Timely(StatusAt(Top(h'), id), now') && Reported(Top(h'), id);
      }
    }
    forall i, j, id | 0 <= i <= j < |h'| ensures Evolves(h'[i], h'[j], id) {
      if j < n {
        assert Evolves(h[i], h[j], id);
      } else if i < n {
        assert Evolves(h[i], h[n - 1], id);
        assert Evolves(Top(h), Top(h'), id);
      }
    }
  }

  /** Where the runs start: statuses that are nil, or what an earlier report left. */
  ghost predicate StatusStart(env: Env, w: World) {
    Initial(env, w) && Ordered(w.history[0]) && StatesOk(w.history, w.now)
  }

  lemma {:induction false} StatusRun(env: Env, w: World, acts: seq<Action>)
    requires StatusStart(env, w)
    ensures StatusInv(Exec(env, w, acts))
  {
    OrderRun(env, w, acts);
    if acts != [] {
      StatusRun(env, w, acts[..|acts| - 1]);
      StatusInvStep(env, Exec(env, w, acts[..|acts| - 1]), acts[|acts| - 1]);
    }
  }

  /**
   Over every run, with any number of workers, lagging reads and failures: a persisted creation time
   never changes, it is no later than the update time, and the update time never decreases.
   */
  lemma CreationTimeWrittenOnce(env: Env, w: World, acts: seq<Action>, i: nat, j: nat, id: ClusterId)
    requires StatusStart(env, w)
    requires i <= j < |Exec(env, w, acts).history|
    ensures var h := Exec(env, w, acts).history;
            var a, b := StatusAt(h[i], id), StatusAt(h[j], id);
            a.infos.Some? ==>
              && b.infos.Some?
              && b.created == a.created
              && a.created <= a.updated <= b.updated <= Exec(env, w, acts).now
  {
    StatusRun(env, w, acts);
    var h := Exec(env, w, acts).history;
    assert Evolves(h[i], h[j], id);
    assert Timely(StatusAt(h[i], id), Exec(env, w, acts).now) && Timely(StatusAt(h[j], id), Exec(env, w, acts).now);
  }

  /**
   The persisted list is nil, empty, or exactly the ports of the stored service, and it only moves
   forward through these three.
   */
  lemma StatusPhasesAdvance(env: Env, w: World, acts: seq<Action>, i: nat, j: nat, id: ClusterId)
    requires StatusStart(env, w)
    requires i <= j < |Exec(env, w, acts).history|
    ensures var h := Exec(env, w, acts).history;
            && Reported(h[j], id)
            && Progress(StatusAt(h[i], id).infos) <= Progress(StatusAt(h[j], id).infos)
            && (Progress(StatusAt(h[i], id).infos) == 2 ==> StatusAt(h[j], id).infos == StatusAt(h[i], id).infos)
            && (Progress(StatusAt(h[j], id).infos) == 2 ==> ListsPorts(h[j], id, StatusAt(h[j], id).infos.value))
  {
    StatusRun(env, w, acts);
    var h := Exec(env, w, acts).history;
    if Progress(StatusAt(h[j], id).infos) == 2 {
      assert Reported(h[j], id);
      FullListSpelled(h[j], id);
    }
    assert Evolves(h[i], h[j], id);
    assert Reported(h[i], id) && Reported(h[j], id);
  }
}
