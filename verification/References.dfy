/** Whole-run reference safety: no stored object ever refers to an object, or a key of one, that is missing. */
module References {
  import opened Api
  import opened Naming
  import opened Config
  import opened Volumes
  import opened Machine
  import opened Order

  /** Every key the stored workload projects is in the stored config map it names. */
  ghost predicate VolumesOk(s: Store, id: ClusterId) {
    LinkKey(Work, id) in s && s[LinkKey(Work, id)].body.WorkloadBody? ==>
      forall v :: v in s[LinkKey(Work, id)].body.workload.volumes ==>
        var key := Key(ConfigMap, id.ns, v.configMap);
        key in s && v.key in DataOf(s[key].body)
  }

  /** The account the workload runs under, and both ends of the role binding, are stored. */
  ghost predicate AccountsOk(s: Store, id: ClusterId) {
    && (LinkKey(Work, id) in s && s[LinkKey(Work, id)].body.WorkloadBody? ==>
          Key(ServiceAccount, id.ns, s[LinkKey(Work, id)].body.workload.account) in s)
    && (LinkKey(Binding, id) in s && s[LinkKey(Binding, id)].body.BindingBody? ==>
          && Key(ServiceAccount, id.ns, s[LinkKey(Binding, id)].body.account) in s
          && Key(Role, id.ns, s[LinkKey(Binding, id)].body.role) in s)
  }

  /** A stored service selects the pods of the stored workload, which in turn names that service. */
  ghost predicate ServiceOk(s: Store, id: ClusterId) {
    LinkKey(Front, id) in s && s[LinkKey(Front, id)].body.ServiceBody? ==>
      && LinkKey(Work, id) in s && s[LinkKey(Work, id)].body.WorkloadBody?
      && s[LinkKey(Front, id)].body.selector == s[LinkKey(Work, id)].body.workload.labels
      && s[LinkKey(Front, id)].body.selector == map["cluster" := id.name, "app" := "kyuubi"]
      && Key(Service, id.ns, s[LinkKey(Work, id)].body.workload.serviceName) == LinkKey(Front, id)
  }

  ghost predicate ReferencesOk(s: Store, id: ClusterId) {
    VolumesOk(s, id) && AccountsOk(s, id) && ServiceOk(s, id)
  }

  /** A spec that calls for these files, or one the compiler refuses and that so never gets that far. */
  predicate CallsFor(spec: Spec, files: set<string>) {
    Refused(RefsOf(spec)) || RefKeys(RefsOf(spec)) == files
  }

  /** The reference types of the cluster are fixed: every accepted spec calls for the same files. */
  ghost predicate SameFiles(id: ClusterId, files: set<string>, acts: seq<Action>) {
    forall i :: 0 <= i < |acts| ==>
      && (acts[i].EditSpec? && acts[i].id == id ==> CallsFor(acts[i].spec, files))
      && (acts[i].OutsideEdit? ==> forall l :: acts[i].key != LinkKey(l, id))
  }

  predicate ObjectOk(id: ClusterId, files: set<string>, l: Link, b: Body) {
    match l
    case Binding => b.BindingBody? && b.account == ResourceName(id.name) && b.role == ResourceName(id.name)
    case KyuubiConf => b.ConfigBody? && b.data.Keys == {KYUUBI_FILE}
    case RefsConf => b.ConfigBody? && b.data.Keys == files
    case Work =>
      && b.WorkloadBody?
      && (forall v :: v in b.workload.volumes ==> Backed(id.name, v, {KYUUBI_FILE}, files))
      && b.workload.account == ResourceName(id.name) && b.workload.serviceName == ResourceName(id.name)
      && b.workload.labels == Labels(id.name)
    case Front => b.ServiceBody? && b.selector == Labels(id.name)
    case Report => b.ClusterBody? && CallsFor(b.spec, files)
    case _ => true
  }

  ghost predicate ObjectsOk(s: Store, id: ClusterId, files: set<string>) {
    forall l :: LinkKey(l, id) in s ==> ObjectOk(id, files, l, s[LinkKey(l, id)].body)
  }

  /** A worker that holds anything for the references config map, or is past it, has an accepted spec. */
  ghost predicate Compiled(b: Worker) {
    b.Busy? && (Rank(b.link) > Rank(RefsConf) || (b.link.RefsConf? && !b.phase.Getting?)) ==> !Refused(RefsOf(b.spec))
  }

  lemma CompiledStep(env: Env, w: World, a: Action, k: nat)
    requires forall j :: j in w.workers ==> Compiled(w.workers[j])
    requires Enabled(env, w, a) && k in WorkersAfter(env, w, a)
    ensures Compiled(WorkersAfter(env, w, a)[k])
  {
    var b := WorkerOf(w, k);
    WorkerShape(env, w, a, k);
    if b.Busy? && b.link.RefsConf? {
      AcceptedExactly(env, b.id.ns, RefsOf(b.spec));
    }
  }

  ghost predicate FilesInv(w: World, id: ClusterId, files: set<string>) {
    && OrderInv(w)
    && (forall i :: 0 <= i < |w.history| ==> ObjectsOk(w.history[i], id, files))
    && (forall k :: k in w.workers ==> Compiled(w.workers[k]))
  }

  lemma WorkloadBacked(env: Env, id: ClusterId, spec: Spec, v: Volume)
    requires v in Complete(env, WorkloadFor(id, spec)).volumes
    ensures Backed(id.name, v, {KYUUBI_FILE}, RefKeys(RefsOf(spec)))
  {
    var vs := VolumesOf(id.name, SlotsOf(RefsOf(spec)));
    var i :| 0 <= i < |vs| && vs[i] == v;
    VolumeBacked(id.name, RefsOf(spec), i);
  }

  /** What a pass writes for a spec of the fixed types is sound, wherever in the chain it stands. */
  lemma PutOk(env: Env, w: World, k: nat, data: map<string, string>, id: ClusterId, files: set<string>)
    requires FilesInv(w, id, files)
    requires Writable(WorkerOf(w, k)) && WorkerOf(w, k).id == id && Renderable(env, WorkerOf(w, k), data)
    ensures var b := WorkerOf(w, k); ObjectOk(id, files, b.link, BodyFor(env, id, b.spec, b.link, data))
  {
    var b := WorkerOf(w, k);
    assert Held(w.history, b) && Compiled(b);
    assert ObjectOk(id, files, Report, w.history[b.base][LinkKey(Report, id)].body);
    match b.link
    case RefsConf => CompiledKeys(env, id.ns, FirstPass(RefsOf(b.spec)), RefsOf(b.spec));
    case Work =>
      forall v | v in Complete(env, WorkloadFor(id, b.spec)).volumes
        ensures Backed(id.name, v, {KYUUBI_FILE}, files)
      {
        WorkloadBacked(env, id, b.spec, v);
      }
    case _ =>
  }

  /** What an action changes under a key of the cluster is sound. */
  lemma ChangeOk(env: Env, w: World, a: Action, id: ClusterId, files: set<string>, l: Link)
    requires FilesInv(w, id, files) && SameFiles(id, files, [a]) && Enabled(env, w, a)
    requires ChangeOf(env, w, a).Some? && ChangeOf(env, w, a).value.key == LinkKey(l, id)
    ensures ObjectOk(id, files, l, ChangeOf(env, w, a).value.body)
  {
    assert ObjectsOk(Top(w.history), id, files) && [a][0] == a;
    match a
    case Put(k, data) =>
      KeysInjective(l, id, WorkerOf(w, k).link, WorkerOf(w, k).id);
      PutOk(env, w, k, data, id, files);
    case Publish(k) => KeysInjective(l, id, Report, WorkerOf(w, k).id);
    case EditSpec(i, spec) => KeysInjective(l, id, Report, i);
    case OutsideEdit(key, body) =>
  }

  lemma FilesStep(env: Env, w: World, a: Action, id: ClusterId, files: set<string>)
    requires FilesInv(w, id, files) && SameFiles(id, files, [a])
    ensures FilesInv(Apply(env, w, a), id, files)
  {
    OrderStep(env, w, a);
    var s, t := Top(w.history), Top(Apply(env, w, a).history);
    assert ObjectsOk(s, id, files);
    forall l | LinkKey(l, id) in t ensures ObjectOk(id, files, l, t[LinkKey(l, id)].body) {
      if Fetch(t, LinkKey(l, id)) != Fetch(s, LinkKey(l, id)) {
        ChangeOk(env, w, a, id, files, l);
      }
    }
    if Enabled(env, w, a) {
      forall k | k in WorkersAfter(env, w, a) ensures Compiled(WorkersAfter(env, w, a)[k]) {
        CompiledStep(env, w, a, k);
      }
    }
  }

  lemma {:induction false} FilesRun(env: Env, w: World, acts: seq<Action>, id: ClusterId, files: set<string>)
    requires Initial(env, w) && Ordered(w.history[0]) && ObjectsOk(w.history[0], id, files)
    requires SameFiles(id, files, acts)
    ensures FilesInv(Exec(env, w, acts), id, files)
  {
    OrderRun(env, w, acts);
    if acts != [] {
      var init, a := acts[..|acts| - 1], acts[|acts| - 1];
      assert SameFiles(id, files, init) && SameFiles(id, files, [a]);
      FilesRun(env, w, init, id, files);
      FilesStep(env, Exec(env, w, init), a, id, files);
    }
  }

  lemma SoundObjectsReference(s: Store, id: ClusterId, files: set<string>)
    requires Ordered(s) && ObjectsOk(s, id, files)
    ensures ReferencesOk(s, id)
  {
    if LinkKey(Binding, id) in s {
      assert Present(s, Binding, id);
      assert Present(s, Account, id) && Present(s, Permission, id);
      assert ObjectOk(id, files, Binding, s[LinkKey(Binding, id)].body);
    }
    if LinkKey(Front, id) in s {
      assert Present(s, Front, id);
      assert Present(s, Work, id);
      assert ObjectOk(id, files, Front, s[LinkKey(Front, id)].body);
    }
    if LinkKey(Work, id) in s {
      assert Present(s, Work, id);
      assert Present(s, Account, id) && Present(s, KyuubiConf, id) && Present(s, RefsConf, id);
      assert ObjectOk(id, files, Work, s[LinkKey(Work, id)].body);
      assert ObjectOk(id, files, KyuubiConf, s[LinkKey(KyuubiConf, id)].body);
      assert ObjectOk(id, files, RefsConf, s[LinkKey(RefsConf, id)].body);
    }
  }

  /** Where the runs start: nothing of the cluster is stored, except perhaps the cluster object itself. */
  ghost predicate FreshFor(env: Env, w: World, id: ClusterId) {
    && Initial(env, w) && Ordered(w.history[0])
    && forall l: Link :: !l.Report? ==> LinkKey(l, id) !in w.history[0]
  }

  /**
   From an empty namespace, while the reference types stay the same (everything else in the spec may
   change), every state of every run has all its references satisfied.
   */
  lemma ReferenceSafety(env: Env, w: World, acts: seq<Action>, id: ClusterId, files: set<string>, i: nat)
    requires FreshFor(env, w, id)
    requires LinkKey(Report, id) in w.history[0] ==> CallsFor(w.history[0][LinkKey(Report, id)].body.spec, files)
    requires SameFiles(id, files, acts)
    requires i < |Exec(env, w, acts).history|
    ensures ReferencesOk(Exec(env, w, acts).history[i], id)
  {
    FilesRun(env, w, acts, id, files);
    SoundObjectsReference(Exec(env, w, acts).history[i], id, files);
  }

  // ----- when the types change -----

  /** The volume that projects a given file of the references config map. */
  lemma VolumeFor(id: ClusterId, refs: seq<ClusterRef>, f: string) returns (x: Volume)
    requires f in RefKeys(refs)
    ensures x in VolumesOf(id.name, SlotsOf(refs)) && x.configMap == RefsName(id.name) && x.key == f
  {
    SlotFiles(refs, f);
    var slot :| slot in SlotsOf(refs) && slot != KyuubiSlot && FileOf(slot) == f;
    var i :| 0 <= i < |SlotsOf(refs)| && SlotsOf(refs)[i] == slot;
    x := VolumesOf(id.name, SlotsOf(refs))[i];
  }

  /** A store that holds the workload of this spec and a references config map with these files. */
  ghost predicate Holds(env: Env, s: Store, id: ClusterId, spec: Spec, files: set<string>) {
    && LinkKey(Work, id) in s && s[LinkKey(Work, id)].body == WorkloadBody(Complete(env, WorkloadFor(id, spec)))
    && LinkKey(RefsConf, id) in s && DataOf(s[LinkKey(RefsConf, id)].body).Keys == files
  }

  /** A file the workload needs and the config map lacks breaks the promise... */
  lemma MissingFile(env: Env, s: Store, id: ClusterId, spec: Spec, files: set<string>, f: string)
    requires Holds(env, s, id, spec, files) && f in RefKeys(RefsOf(spec)) && f !in files
    ensures !VolumesOk(s, id)
  {
    var x := VolumeFor(id, RefsOf(spec), f);
    assert x in s[LinkKey(Work, id)].body.workload.volumes;
  }

  /** ... and nothing else does. */
  lemma VolumesOkExactly(env: Env, s: Store, id: ClusterId, spec: Spec, files: set<string>)
    requires Holds(env, s, id, spec, files)
    requires LinkKey(KyuubiConf, id) in s && KYUUBI_FILE in DataOf(s[LinkKey(KyuubiConf, id)].body)
    ensures VolumesOk(s, id) <==> RefKeys(RefsOf(spec)) <= files
  {
    if f :| f in RefKeys(RefsOf(spec)) && f !in files {
      MissingFile(env, s, id, spec, files, f);
    } else {
      forall x | x in s[LinkKey(Work, id)].body.workload.volumes
        ensures Backed(id.name, x, {KYUUBI_FILE}, RefKeys(RefsOf(spec)))
      {
        WorkloadBacked(env, id, spec, x);
      }
    }
  }

  /**
   One write under changed types, whoever makes it. Rewriting the references config map is safe exactly if
   the new spec drops no file of the stored workload; the unconditional workload write is safe exactly if
   the stored config map has all files of the writer's spec, which may be an old one.
   */
  lemma PutSafeExactly(env: Env, w: World, k: nat, data: map<string, string>, id: ClusterId, stored: Spec, files: set<string>)
    requires Enabled(env, w, Put(k, data)) && ChangeOf(env, w, Put(k, data)).Some?
    requires WorkerOf(w, k).id == id && (WorkerOf(w, k).link.RefsConf? || WorkerOf(w, k).link.Work?)
    requires Holds(env, Top(w.history), id, stored, files)
    requires LinkKey(KyuubiConf, id) in Top(w.history)
    requires KYUUBI_FILE in DataOf(Top(w.history)[LinkKey(KyuubiConf, id)].body)
    ensures var b := WorkerOf(w, k);
            VolumesOk(Top(Apply(env, w, Put(k, data)).history), id) <==>
            if b.link.RefsConf? then RefKeys(RefsOf(stored)) <= RefKeys(RefsOf(b.spec))
            else RefKeys(RefsOf(b.spec)) <= files
  {
    var b, t := WorkerOf(w, k), Top(Apply(env, w, Put(k, data)).history);
    ConfigNamesDisjoint(id.name, id.name);
    if b.link.RefsConf? {
      CompiledKeys(env, id.ns, FirstPass(RefsOf(b.spec)), RefsOf(b.spec));
      VolumesOkExactly(env, t, id, stored, RefKeys(RefsOf(b.spec)));
    } else {
      VolumesOkExactly(env, t, id, b.spec, files);
    }
  }
}
