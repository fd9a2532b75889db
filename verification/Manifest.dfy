/**
 What the stored objects of a cluster say, spelled out: names, keys, labels, ports and files as the API server
 and the pods see them, without the functions the model builds them by.
 */
module Manifest {
  import opened Base
  import opened Render
  import opened Api
  import opened Naming
  import opened Config
  import opened Volumes
  import opened Machine

  // ----- one object -----

  /** The text of an XML file: a formatted document that means this map. */
  ghost predicate SiteText(env: Env, m: Conf, text: string) {
    exists raw :: XmlMeans(m, raw) && text == env.formatXml(raw)
  }

  /** The files a reference of this type calls for. */
  predicate CallsForFile(t: ClusterType, f: string) {
    match t
    case Spark => f == "spark-defaults.conf"
    case Hdfs => f == "hdfs-site.xml" || f == "core-site.xml"
    case Metastore => f == "hive-site.xml"
    case _ => false
  }

  /** The data of the references config map: which files, and what each of them means. */
  ghost predicate MeansRefs(env: Env, ns: string, refs: seq<ClusterRef>, data: map<string, string>) {
    && HasFiles(refs, data)
    && SparkMeans(env, ns, refs, data)
    && HdfsMeans(env, refs, data)
    && HiveMeans(env, refs, data)
  }

  ghost predicate HasFiles(refs: seq<ClusterRef>, data: map<string, string>) {
    forall f :: f in data <==> exists i :: 0 <= i < |refs| && CallsForFile(refs[i].kind, f)
  }

  ghost predicate SparkMeans(env: Env, ns: string, refs: seq<ClusterRef>, data: map<string, string>) {
    forall i :: IsLast(refs, Spark, i) ==>
      && "spark-defaults.conf" in data
      && KvMeans(SparkConf(env, ns, refs[i].spark), data["spark-defaults.conf"])
  }

  ghost predicate HdfsMeans(env: Env, refs: seq<ClusterRef>, data: map<string, string>) {
    forall i :: IsLast(refs, Hdfs, i) ==>
      && "hdfs-site.xml" in data && SiteText(env, Entries(refs[i].hdfs.hdfsSite), data["hdfs-site.xml"])
      && "core-site.xml" in data && SiteText(env, Entries(refs[i].hdfs.coreSite), data["core-site.xml"])
  }

  ghost predicate HiveMeans(env: Env, refs: seq<ClusterRef>, data: map<string, string>) {
    forall i, core, hdfs :: IsLast(refs, Metastore, i) && SitesOf(refs, core, hdfs) ==>
      && "hive-site.xml" in data
      && SiteText(env, HiveSite(core, hdfs, refs[i].metastore.hiveSite), data["hive-site.xml"])
  }

  predicate SpelledWorkload(id: ClusterId, spec: Spec, wl: Workload) {
    && wl.replicas == spec.replicas
    && wl.image == spec.image.repository + ":" + spec.image.tag
    && wl.pullPolicy == spec.image.pullPolicy
    && wl.container == id.name
    && wl.serviceName == id.name + "-kyuubi"
    && wl.account == id.name + "-kyuubi"
    && wl.labels == map["cluster" := id.name, "app" := "kyuubi"]
    && wl.mounts == SpelledMounts(id.name, RefsOf(spec))
    && wl.volumes == SpelledVolumes(id.name, RefsOf(spec))
  }

  /** What the object under this key says, if it was written for this cluster and this spec. */
  ghost predicate Spelled(env: Env, id: ClusterId, spec: Spec, key: Key, body: Body) {
    match key.kind
    case ServiceAccount =>
      key == Key(ServiceAccount, id.ns, id.name + "-kyuubi")
      && body == AccountBody(map["cluster" := id.name, "app" := "kyuubi"])
    case Role =>
      key == Key(Role, id.ns, id.name + "-kyuubi") && body == RoleBody(map["cluster" := id.name, "app" := "kyuubi"])
    case RoleBinding =>
      key == Key(RoleBinding, id.ns, id.name + "-kyuubi")
      && body == BindingBody(id.name + "-kyuubi", id.name + "-kyuubi")
    case ConfigMap =>
      body.ConfigBody? &&
      if key.name == id.name + "-kyuubi"
      then key.ns == id.ns && MeansKyuubi(spec.conf, body.data)
      else key == Key(ConfigMap, id.ns, id.name + "-clusterrefs") && MeansRefs(env, id.ns, RefsOf(spec), body.data)
    case StatefulSet =>
      key == Key(StatefulSet, id.ns, id.name + "-kyuubi") && body.WorkloadBody? && SpelledWorkload(id, spec, body.workload)
    case Service =>
      key == Key(Service, id.ns, id.name + "-kyuubi")
      && body == ServiceBody(
                   env.fillPorts([ServicePort("rest", "", None, 10099, 10099, 0),
                                  ServicePort("thrift-binary", "", None, 10009, 10009, 0)]),
                   map["cluster" := id.name, "app" := "kyuubi"])
    case KyuubiCluster => false
  }

  // ----- what the operator writes -----

  lemma KindCallsFor(t: ClusterType, f: string)
    ensures f in KindFiles(t) <==> CallsForFile(t, f)
  {
  }

  lemma {:induction false} FilesByType(refs: seq<ClusterRef>, f: string)
    ensures f in RefKeys(refs) <==> exists i :: 0 <= i < |refs| && CallsForFile(refs[i].kind, f)
  {
    if refs != [] {
      var n := |refs| - 1;
      var init := refs[..n];
      FilesByType(init, f);
      KindCallsFor(refs[n].kind, f);
      assert forall i :: 0 <= i < n ==> init[i] == refs[i];
    }
  }

  lemma SiteMeans(env: Env, m: Conf, text: string)
    requires RendersFile(env, Site(m), text)
    ensures SiteText(env, m, text)
  {
    var raw :| RendersXml(m, raw) && text == env.formatXml(raw);
    XmlMeaning(m, raw);
  }

  lemma FileMeans(env: Env, files: Files, data: map<string, string>, name: string, f: File)
    requires RendersAll(env, files, data) && FileNamed(files, name) == Some(f)
    ensures name in data
    ensures match f
            case Properties(m) => KvMeans(m, data[name])
            case Site(m) => SiteText(env, m, data[name])
  {
    assert RendersFile(env, files[name], data[name]);
    match f
    case Properties(m) => KvMeaning(m, data[name]);
    case Site(m) => SiteMeans(env, m, data[name]);
  }

  lemma FilesMeaning(env: Env, ns: string, refs: seq<ClusterRef>, data: map<string, string>)
    requires DesiredFiles(env, ns, refs).Ok? && RendersAll(env, DesiredFiles(env, ns, refs).value, data)
    ensures HasFiles(refs, data)
  {
    CompiledKeys(env, ns, FirstPass(refs), refs);
    forall f ensures f in data <==> exists i :: 0 <= i < |refs| && CallsForFile(refs[i].kind, f) {
      FilesByType(refs, f);
    }
  }

  lemma SparkMeaning(env: Env, ns: string, refs: seq<ClusterRef>, data: map<string, string>)
    requires DesiredFiles(env, ns, refs).Ok? && RendersAll(env, DesiredFiles(env, ns, refs).value, data)
    ensures SparkMeans(env, ns, refs, data)
  {
    CompiledFiles(env, ns, refs);
    forall i | IsLast(refs, Spark, i)
      ensures "spark-defaults.conf" in data && KvMeans(SparkConf(env, ns, refs[i].spark), data["spark-defaults.conf"])
    {
      FileMeans(env, DesiredFiles(env, ns, refs).value, data, "spark-defaults.conf",
        Properties(SparkConf(env, ns, refs[i].spark)));
    }
  }

  lemma HdfsMeaning(env: Env, ns: string, refs: seq<ClusterRef>, data: map<string, string>)
    requires DesiredFiles(env, ns, refs).Ok? && RendersAll(env, DesiredFiles(env, ns, refs).value, data)
    ensures HdfsMeans(env, refs, data)
  {
    var files := DesiredFiles(env, ns, refs).value;
    CompiledFiles(env, ns, refs);
    forall i | IsLast(refs, Hdfs, i)
      ensures "hdfs-site.xml" in data && SiteText(env, Entries(refs[i].hdfs.hdfsSite), data["hdfs-site.xml"])
      ensures "core-site.xml" in data && SiteText(env, Entries(refs[i].hdfs.coreSite), data["core-site.xml"])
    {
      FileMeans(env, files, data, "hdfs-site.xml", Site(Entries(refs[i].hdfs.hdfsSite)));
      FileMeans(env, files, data, "core-site.xml", Site(Entries(refs[i].hdfs.coreSite)));
    }
  }

  lemma HiveMeaning(env: Env, ns: string, refs: seq<ClusterRef>, data: map<string, string>)
    requires DesiredFiles(env, ns, refs).Ok? && RendersAll(env, DesiredFiles(env, ns, refs).value, data)
    ensures HiveMeans(env, refs, data)
  {
    CompiledFiles(env, ns, refs);
    forall i, core, hdfs | IsLast(refs, Metastore, i) && SitesOf(refs, core, hdfs)
      ensures "hive-site.xml" in data
      ensures SiteText(env, HiveSite(core, hdfs, refs[i].metastore.hiveSite), data["hive-site.xml"])
    {
      FileMeans(env, DesiredFiles(env, ns, refs).value, data, "hive-site.xml",
        Site(HiveSite(core, hdfs, refs[i].metastore.hiveSite)));
    }
  }

  /** Any rendering of the compiled files means what the references say. */
  lemma RefsMeaning(env: Env, ns: string, refs: seq<ClusterRef>, data: map<string, string>)
    requires DesiredFiles(env, ns, refs).Ok? && RendersAll(env, DesiredFiles(env, ns, refs).value, data)
    ensures MeansRefs(env, ns, refs, data)
  {
    FilesMeaning(env, ns, refs, data);
    SparkMeaning(env, ns, refs, data);
    HdfsMeaning(env, ns, refs, data);
    HiveMeaning(env, ns, refs, data);
  }

  lemma WorkloadSpelled(env: Env, id: ClusterId, spec: Spec)
    ensures SpelledWorkload(id, spec, WorkloadFor(id, spec))
    ensures SpelledWorkload(id, spec, Complete(env, WorkloadFor(id, spec)))
  {
    NamesSpelled(id.name);
    MountsSpelled(id.name, RefsOf(spec));
    VolumesSpelled(id.name, RefsOf(spec));
  }

  /** What a link writes, spelled out. */
  lemma BodySpelled(env: Env, b: Worker, data: map<string, string>)
    requires b.Busy? && !b.link.Report? && Renderable(env, b, data)
    ensures Spelled(env, b.id, b.spec, LinkKey(b.link, b.id), BodyFor(env, b.id, b.spec, b.link, data))
  {
    NamesSpelled(b.id.name);
    match b.link
    case KyuubiConf => KyuubiMeaning(env, b.spec.conf, data);
    case RefsConf =>
      ConfigNamesDisjoint(b.id.name, b.id.name);
      RefsMeaning(env, b.id.ns, RefsOf(b.spec), data);
    case Work => WorkloadSpelled(env, b.id, b.spec);
    case _ =>
  }

  /** Every accepted write of every worker, wherever it stands, is spelled for the spec of its pass. */
  lemma PutSpelled(env: Env, w: World, k: nat, data: map<string, string>)
    requires Enabled(env, w, Put(k, data)) && ChangeOf(env, w, Put(k, data)).Some?
    ensures var b, c := WorkerOf(w, k), ChangeOf(env, w, Put(k, data)).value;
            Spelled(env, b.id, b.spec, c.key, c.body)
  {
    BodySpelled(env, WorkerOf(w, k), data);
  }

  // ----- over runs -----

  /** A spec the cluster has had, up to some state. */
  ghost predicate WasInForce(h: History, id: ClusterId, spec: Spec) {
    exists v :: 0 <= v < |h| && LinkKey(Report, id) in h[v] && h[v][LinkKey(Report, id)].body.ClusterBody?
                && h[v][LinkKey(Report, id)].body.spec == spec
  }

  ghost predicate Traced(env: Env, h: History, id: ClusterId, l: Link, body: Body) {
    exists spec :: WasInForce(h, id, spec) && Spelled(env, id, spec, LinkKey(l, id), body)
  }

  ghost predicate AllTraced(env: Env, h: History, id: ClusterId) {
    forall i, l: Link :: 0 <= i < |h| && !l.Report? && LinkKey(l, id) in h[i] ==>
      Traced(env, h, id, l, h[i][LinkKey(l, id)].body)
  }

  /** Nobody but the operator touches the objects of the cluster. */
  ghost predicate Untouched(id: ClusterId, acts: seq<Action>) {
    forall i :: 0 <= i < |acts| ==> UntouchedStep(id, acts[i])
  }

  ghost predicate UntouchedStep(id: ClusterId, a: Action) {
    a.OutsideEdit? ==> forall l :: a.key != LinkKey(l, id)
  }

  lemma TracedLater(env: Env, h: History, h': History, id: ClusterId, l: Link, body: Body)
    requires h <= h' && Traced(env, h, id, l, body)
    ensures Traced(env, h', id, l, body)
  {
    var spec :| WasInForce(h, id, spec) && Spelled(env, id, spec, LinkKey(l, id), body);
    var v :| 0 <= v < |h| && LinkKey(Report, id) in h[v] && h[v][LinkKey(Report, id)].body.ClusterBody?
             && h[v][LinkKey(Report, id)].body.spec == spec;
    assert h'[v] == h[v];
    assert WasInForce(h', id, spec);
  }

  lemma TracedWrite(env: Env, w: World, a: Action, id: ClusterId, l: Link)
    requires Sound(w) && UntouchedStep(id, a) && !l.Report? && Enabled(env, w, a)
    requires ChangeOf(env, w, a).Some? && ChangeOf(env, w, a).value.key == LinkKey(l, id)
    ensures Traced(env, w.history, id, l, ChangeOf(env, w, a).value.body)
  {
    match a
    case Put(k, data) =>
      var b := WorkerOf(w, k);
      KeysInjective(l, id, b.link, b.id);
      PutSpelled(env, w, k, data);
      assert Held(w.history, b);
      assert WasInForce(w.history, id, b.spec);
    case _ =>
  }

  /** What the last state holds is traced: it was written just now, or was there before. */
  lemma TracedTop(env: Env, w: World, a: Action, id: ClusterId, l: Link)
    requires Sound(w) && AllTraced(env, w.history, id) && UntouchedStep(id, a) && !l.Report?
    requires LinkKey(l, id) in Top(Apply(env, w, a).history)
    ensures Traced(env, w.history, id, l, Top(Apply(env, w, a).history)[LinkKey(l, id)].body)
  {
    var key, s, t := LinkKey(l, id), Top(w.history), Top(Apply(env, w, a).history);
    if Fetch(t, key) == Fetch(s, key) {
      assert key in w.history[|w.history| - 1];
    } else {
      assert t[key].body == ChangeOf(env, w, a).value.body;
      TracedWrite(env, w, a, id, l);
    }
  }

  lemma TracedStep(env: Env, w: World, a: Action, id: ClusterId)
    requires Sound(w) && AllTraced(env, w.history, id) && UntouchedStep(id, a)
    ensures AllTraced(env, Apply(env, w, a).history, id)
  {
    var h, h' := w.history, Apply(env, w, a).history;
    SoundStep(env, w, a);
    assert |h'| <= |h| + 1;
    forall i, l: Link | 0 <= i < |h'| && !l.Report? && LinkKey(l, id) in h'[i]
      ensures Traced(env, h', id, l, h'[i][LinkKey(l, id)].body)
    {
      if i < |h| {
        assert h'[i] == h[i];
      } else {
        TracedTop(env, w, a, id, l);
      }
      TracedLater(env, h, h', id, l, h'[i][LinkKey(l, id)].body);
    }
  }

  /**
   Over every run from an empty namespace, with any edits, failures, lag and workers: whatever is stored for the
   cluster says, word for word, what the source prescribes for some spec the cluster has had.
   */
  lemma {:induction false} StoredAsSpelled(env: Env, w: World, acts: seq<Action>, id: ClusterId)
    requires Initial(env, w) && Untouched(id, acts)
    requires forall l: Link :: !l.Report? ==> LinkKey(l, id) !in w.history[0]
    ensures AllTraced(env, Exec(env, w, acts).history, id)
  {
    if acts != [] {
      var init, a := acts[..|acts| - 1], acts[|acts| - 1];
      assert Untouched(id, init) && UntouchedStep(id, a);
      StoredAsSpelled(env, w, init, id);
      SoundRun(env, w, init);
      TracedStep(env, Exec(env, w, init), a, id);
    }
  }

  // ----- services and pods -----

  /** A service with this selector picks pods with these labels. */
  ghost predicate Selects(selector: Conf, labels: Conf) {
    forall k :: k in selector ==> k in labels && labels[k] == selector[k]
  }

  ghost predicate SelectsPods(s: Store, service: ClusterId, pods: ClusterId) {
    && LinkKey(Front, service) in s && s[LinkKey(Front, service)].body.ServiceBody?
    && LinkKey(Work, pods) in s && s[LinkKey(Work, pods)].body.WorkloadBody?
    && Selects(s[LinkKey(Front, service)].body.selector, s[LinkKey(Work, pods)].body.workload.labels)
  }

  lemma StoredService(env: Env, h: History, id: ClusterId, i: nat)
    requires AllTraced(env, h, id) && i < |h| && LinkKey(Front, id) in h[i]
    ensures var b := h[i][LinkKey(Front, id)].body;
            b.ServiceBody? && b.selector == map["cluster" := id.name, "app" := "kyuubi"]
  {
    assert Traced(env, h, id, Front, h[i][LinkKey(Front, id)].body);
  }

  lemma StoredWorkload(env: Env, h: History, id: ClusterId, i: nat)
    requires AllTraced(env, h, id) && i < |h| && LinkKey(Work, id) in h[i]
    ensures var b := h[i][LinkKey(Work, id)].body;
            b.WorkloadBody? && b.workload.labels == map["cluster" := id.name, "app" := "kyuubi"]
  {
    assert Traced(env, h, id, Work, h[i][LinkKey(Work, id)].body);
  }

  /** In every such run the service of a cluster picks the pods of that cluster and of no other in its namespace. */
  lemma ServicePicksOwnPods(env: Env, w: World, acts: seq<Action>, a: ClusterId, b: ClusterId, i: nat)
    requires Initial(env, w) && Untouched(a, acts) && Untouched(b, acts) && a.ns == b.ns
    requires forall l: Link :: !l.Report? ==> LinkKey(l, a) !in w.history[0] && LinkKey(l, b) !in w.history[0]
    requires i < |Exec(env, w, acts).history|
    requires var s := Exec(env, w, acts).history[i]; LinkKey(Front, a) in s && LinkKey(Work, b) in s
    ensures SelectsPods(Exec(env, w, acts).history[i], a, b) <==> a == b
  {
    var h := Exec(env, w, acts).history;
    StoredAsSpelled(env, w, acts, a);
    StoredAsSpelled(env, w, acts, b);
    StoredService(env, h, a, i);
    StoredWorkload(env, h, b, i);
    if SelectsPods(h[i], a, b) {
      assert "cluster" in h[i][LinkKey(Front, a)].body.selector;
    }
  }
}
