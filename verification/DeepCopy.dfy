/**
 The generated deep-copy functions, on a heap of Go maps and slices.

 A Go struct is a value that may hold references: assigning it copies the references, so what a copy
 shares with its source is exactly the storage these functions do not allocate anew.
 */
module DeepCopy {
  import opened Base
  import opened Api

  class GoMap {
    var entries: Conf

    constructor ()
      ensures entries == map[]
    {
      entries := map[];
    }
  }

  /** What a pointer to a string points at. */
  class GoString {
    var text: string

    constructor (text: string)
      ensures this.text == text
    {
      this.text := text;
    }
  }

  datatype HdfsStruct = HdfsStruct(core: GoMap?, hdfs: GoMap?)
  datatype MetastoreStruct = MetastoreStruct(hive: GoMap?)
  datatype SparkStruct = SparkStruct(master: string, image: ImageConfig, ns: string, defaults: GoMap?)
  datatype RefStruct = RefStruct(
    name: string, kind: ClusterType, spark: SparkStruct, metastore: MetastoreStruct, hdfs: HdfsStruct)
  datatype SpecStruct = SpecStruct(
    version: string, image: ImageConfig, replicas: int, conf: GoMap?, refs: array?<RefStruct>)
  datatype PortStruct = PortStruct(
    name: string, protocol: string, appProtocol: GoString?, port: int, targetPort: int, nodePort: int)
  datatype InfoStruct = InfoStruct(name: string, exposedType: string, serviceName: string, port: PortStruct)
  datatype StatusStruct = StatusStruct(infos: array?<InfoStruct>, created: nat, updated: nat)

  // ----- what a struct means, and the storage it reaches -----

  ghost function ViewMap(m: GoMap?): Option<Conf>
    reads m
  {
    if m == null then None else Some(m.entries)
  }

  ghost function One(m: GoMap?): set<GoMap> {
    if m == null then {} else {m}
  }

  ghost function RefStorage(r: RefStruct): set<GoMap> {
    One(r.spark.defaults) + One(r.metastore.hive) + One(r.hdfs.core) + One(r.hdfs.hdfs)
  }

  ghost function ViewRef(r: RefStruct): ClusterRef
    reads RefStorage(r)
  {
    ClusterRef(
      r.name,
      r.kind,
      SparkCluster(r.spark.master, r.spark.image, r.spark.ns, ViewMap(r.spark.defaults)),
      MetastoreCluster(ViewMap(r.metastore.hive)),
      HdfsCluster(ViewMap(r.hdfs.core), ViewMap(r.hdfs.hdfs)))
  }

  ghost function SliceStorage(a: array?<RefStruct>): set<object>
    reads a
  {
    if a == null then {} else {a} + set i, o: GoMap | 0 <= i < a.Length && o in RefStorage(a[i]) :: o
  }

  /** The slice stands for this list, nil for no list at all. */
  ghost predicate SliceMeans(a: array?<RefStruct>, v: Option<seq<ClusterRef>>)
    reads a, SliceStorage(a)
  {
    if a == null then v.None?
    else v.Some? && |v.value| == a.Length && forall i :: 0 <= i < a.Length ==> ViewRef(a[i]) == v.value[i]
  }

  ghost function SpecStorage(s: SpecStruct): set<object>
    reads s.refs
  {
    (set o: object | o in One(s.conf)) + SliceStorage(s.refs)
  }

  ghost predicate SpecMeans(s: SpecStruct, v: Spec)
    reads s.refs, SpecStorage(s)
  {
    && s.version == v.version && s.image == v.image && s.replicas == v.replicas
    && ViewMap(s.conf) == v.conf
    && SliceMeans(s.refs, v.refs)
  }

  ghost function ViewPrefix(a: array<RefStruct>, n: nat): (v: seq<ClusterRef>)
    requires n <= a.Length
    reads a, SliceStorage(a)
    ensures |v| == n && forall i :: 0 <= i < n ==> v[i] == ViewRef(a[i])
  {
    if n == 0 then [] else
      assert forall o :: o in RefStorage(a[n - 1]) ==> o in SliceStorage(a);
      ViewPrefix(a, n - 1) + [ViewRef(a[n - 1])]
  }

  /** Every spec struct means one spec value. */
  ghost function SpecOf(s: SpecStruct): (v: Spec)
    reads s.refs, SpecStorage(s)
    ensures SpecMeans(s, v)
  {
    Spec(s.version, s.image, s.replicas, ViewMap(s.conf),
      if s.refs == null then None else Some(ViewPrefix(s.refs, s.refs.Length)))
  }

  ghost function ViewString(p: GoString?): Option<string>
    reads p
  {
    if p == null then None else Some(p.text)
  }

  ghost function ViewInfo(x: InfoStruct): ExposedInfo
    reads x.port.appProtocol
  {
    var p := x.port;
    ExposedInfo(x.name, x.exposedType, x.serviceName,
      ServicePort(p.name, p.protocol, ViewString(p.appProtocol), p.port, p.targetPort, p.nodePort))
  }

  ghost function InfosStorage(a: array?<InfoStruct>): set<object>
    reads a
  {
    if a == null then {}
    else {a} + set i | 0 <= i < a.Length && a[i].port.appProtocol != null :: a[i].port.appProtocol
  }

  ghost predicate InfosMean(a: array?<InfoStruct>, v: Option<seq<ExposedInfo>>)
    reads a, InfosStorage(a)
  {
    if a == null then v.None?
    else v.Some? && |v.value| == a.Length && forall i :: 0 <= i < a.Length ==> ViewInfo(a[i]) == v.value[i]
  }

  ghost predicate StatusMeans(s: StatusStruct, v: Status)
    reads s.infos, InfosStorage(s.infos)
  {
    s.created == v.created && s.updated == v.updated && InfosMean(s.infos, v.infos)
  }

  ghost function InfosPrefix(a: array<InfoStruct>, n: nat): (v: seq<ExposedInfo>)
    requires n <= a.Length
    reads a, InfosStorage(a)
    ensures |v| == n && forall i :: 0 <= i < n ==> v[i] == ViewInfo(a[i])
  {
    if n == 0 then [] else
      assert a[n - 1].port.appProtocol != null ==> a[n - 1].port.appProtocol in InfosStorage(a);
      InfosPrefix(a, n - 1) + [ViewInfo(a[n - 1])]
  }

  /** Every status struct means one status value. */
  ghost function StatusOf(s: StatusStruct): (v: Status)
    reads s.infos, InfosStorage(s.infos)
    ensures StatusMeans(s, v)
  {
    Status(if s.infos == null then None else Some(InfosPrefix(s.infos, s.infos.Length)), s.created, s.updated)
  }

  // ----- the copies -----

  method CopyMap(m: GoMap?) returns (c: GoMap?)
    ensures c == null <==> m == null
    ensures c != null ==> fresh(c)
    ensures ViewMap(c) == ViewMap(m)
  {
    if m == null {
      return null;
    }
    c := new GoMap();
    var rest := m.entries.Keys;
    while rest != {}
      invariant rest <= m.entries.Keys
      invariant c != null && fresh(c)
      invariant c.entries == map k | k in m.entries && k !in rest :: m.entries[k]
    {
      var k :| k in rest;
      c.entries := c.entries[k := m.entries[k]];
      rest := rest - {k};
    }
    assert c.entries == m.entries;
  }

  method CopyHdfs(h: HdfsStruct) returns (out: HdfsStruct)
    ensures fresh(One(out.core) + One(out.hdfs))
    ensures ViewMap(out.core) == ViewMap(h.core) && ViewMap(out.hdfs) == ViewMap(h.hdfs)
  {
    out := h;
    if h.core != null {
      var c := CopyMap(h.core);
      out := out.(core := c);
    }
    if h.hdfs != null {
      var c := CopyMap(h.hdfs);
      out := out.(hdfs := c);
    }
  }

  method CopyMetastore(s: MetastoreStruct) returns (out: MetastoreStruct)
    ensures fresh(One(out.hive))
    ensures ViewMap(out.hive) == ViewMap(s.hive)
  {
    out := s;
    if s.hive != null {
      var c := CopyMap(s.hive);
      out := out.(hive := c);
    }
  }

  method CopySpark(s: SparkStruct) returns (out: SparkStruct)
    ensures fresh(One(out.defaults))
    ensures out == s.(defaults := out.defaults) && ViewMap(out.defaults) == ViewMap(s.defaults)
  {
    out := s;
    if s.defaults != null {
      var c := CopyMap(s.defaults);
      out := out.(defaults := c);
    }
  }

  method CopyRef(r: RefStruct) returns (out: RefStruct)
    ensures fresh(RefStorage(out))
    ensures ViewRef(out) == ViewRef(r)
  {
    out := r;
    var spark := CopySpark(r.spark);
    var metastore := CopyMetastore(r.metastore);
    var hdfs := CopyHdfs(r.hdfs);
    out := out.(spark := spark, metastore := metastore, hdfs := hdfs);
  }

  method CopySlice(a: array?<RefStruct>, ghost v: Option<seq<ClusterRef>>) returns (out: array?<RefStruct>)
    requires SliceMeans(a, v)
    ensures out == null <==> a == null
    ensures fresh(SliceStorage(out))
    ensures SliceMeans(out, v)
  {
    if a == null {
      return null;
    }
    out := new RefStruct[a.Length];
    for i := 0 to a.Length
      invariant out != null && fresh(out) && out.Length == a.Length
      invariant forall j :: 0 <= j < i ==> fresh(RefStorage(out[j]))
      invariant forall j :: 0 <= j < i ==> ViewRef(out[j]) == v.value[j]
    {
      CopyElement(a, out, i);
    }
  }

  method CopyElement(a: array<RefStruct>, out: array<RefStruct>, i: nat)
    requires i < a.Length == out.Length && a != out
    modifies out
    ensures forall j :: 0 <= j < out.Length && j != i ==> out[j] == old(out[j])
    ensures fresh(RefStorage(out[i])) && ViewRef(out[i]) == old(ViewRef(a[i]))
  {
    var c := CopyRef(a[i]);
    out[i] := c;
  }

  /**
   The copy means whatever the source means, nil kept apart from empty, and every map and list it reaches
   is newly allocated.
   */
  method CopySpec(s: SpecStruct) returns (out: SpecStruct)
    ensures fresh(SpecStorage(out))
    ensures SpecMeans(out, old(SpecOf(s)))
    ensures (out.conf == null <==> s.conf == null) && (out.refs == null <==> s.refs == null)
    ensures out.refs != null ==> fresh(out.refs) && out.refs.Length == s.refs.Length
  {
    ghost var v := SpecOf(s);
    out := s;
    if s.conf != null {
      var c := CopyMap(s.conf);
      out := out.(conf := c);
    }
    if s.refs != null {
      var a := CopySlice(s.refs, v.refs);
      out := out.(refs := a);
    }
  }

  /** The foreign copy of a service port: the one pointer it holds is allocated anew. */
  method CopyPort(p: PortStruct) returns (out: PortStruct)
    ensures out.appProtocol != null ==> fresh(out.appProtocol)
    ensures out == p.(appProtocol := out.appProtocol) && ViewString(out.appProtocol) == ViewString(p.appProtocol)
  {
    out := p;
    if p.appProtocol != null {
      var c := new GoString(p.appProtocol.text);
      out := out.(appProtocol := c);
    }
  }

  method CopyInfo(x: InfoStruct) returns (out: InfoStruct)
    ensures out.port.appProtocol != null ==> fresh(out.port.appProtocol)
    ensures ViewInfo(out) == ViewInfo(x)
  {
    out := x;
    var port := CopyPort(x.port);
    out := out.(port := port);
  }

  method CopyInfos(a: array?<InfoStruct>, ghost v: Option<seq<ExposedInfo>>) returns (out: array?<InfoStruct>)
    requires InfosMean(a, v)
    ensures out == null <==> a == null
    ensures fresh(InfosStorage(out))
    ensures InfosMean(out, v)
  {
    if a == null {
      return null;
    }
    out := new InfoStruct[a.Length];
    for i := 0 to a.Length
      invariant out != null && fresh(out) && out.Length == a.Length
      invariant forall j :: 0 <= j < i ==> out[j].port.appProtocol != null ==> fresh(out[j].port.appProtocol)
      invariant forall j :: 0 <= j < i ==> ViewInfo(out[j]) == v.value[j]
    {
      var c := CopyInfo(a[i]);
      out[i] := c;
    }
  }

  /** Whatever the source means the copy means, and every list and pointer it reaches is newly allocated. */
  method CopyStatus(s: StatusStruct) returns (out: StatusStruct)
    ensures fresh(InfosStorage(out.infos))
    ensures StatusMeans(out, old(StatusOf(s)))
    ensures out.infos == null <==> s.infos == null
  {
    ghost var v := StatusOf(s);
    out := s;
    if s.infos != null {
      var a := CopyInfos(s.infos, v.infos);
      out := out.(infos := a);
    }
  }

  // ----- independence -----

  /** A map of the source may be changed after the copy: the copy still means what the source meant. */
  method EditSource(s: SpecStruct, m: GoMap, k: string, x: string) returns (out: SpecStruct)
    requires m in SpecStorage(s)
    modifies m
    ensures m.entries == old(m.entries)[k := x]
    ensures SpecMeans(out, old(SpecOf(s)))
  {
    out := CopySpec(s);
    m.entries := m.entries[k := x];
  }

  /** Replaces an element of a list the other struct does not reach. */
  method SetRef(a: array<RefStruct>, i: nat, r: RefStruct, ghost other: SpecStruct, ghost v: Spec)
    requires i < a.Length && SpecMeans(other, v) && a !in SpecStorage(other)
    modifies a
    ensures a[i] == r && SpecMeans(other, v)
  {
    a[i] := r;
  }

  /** And the other way round: replacing a reference in the copy leaves the source alone. */
  method EditCopy(s: SpecStruct, i: nat, r: RefStruct) returns (out: SpecStruct)
    requires s.refs != null && i < s.refs.Length
    ensures out.refs != null && i < out.refs.Length && out.refs[i] == r
    ensures SpecMeans(s, old(SpecOf(s)))
  {
    ghost var v := SpecOf(s);
    out := CopySpec(s);
    SetRef(out.refs, i, r, s, v);
  }
}
