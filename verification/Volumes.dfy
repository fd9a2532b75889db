/** `constructVolumes`, `constructVolumeMounts` and their agreement with the compiled config maps. */
module Volumes {
  import opened Base
  import opened Api
  import opened Naming
  import opened Config

  const KYUUBI_DIR := "/opt/kyuubi/conf"
  const SPARK_DIR := "/opt/spark/conf"

  method ConstructVolumeMounts(name: string, spec: Spec) returns (mounts: seq<Mount>)
    ensures mounts == MountsOf(name, SlotsOf(RefsOf(spec)))
    ensures mounts == SpelledMounts(name, RefsOf(spec))
  {
    var refs := RefsOf(spec);
    mounts := [Mount(ResourceName(name), KYUUBI_DIR + "/" + KYUUBI_FILE, KYUUBI_FILE)];
    for i := 0 to |refs|
      invariant mounts == MountsOf(name, SlotsOf(refs[..i]))
    {
      SlotsSnoc(refs, i);
      MountsConcat(name, SlotsOf(refs[..i]), RefSlots(refs[i].kind));
      RefMounts(name, refs[i].kind);
      match refs[i].kind
      case Spark =>
        mounts := mounts + [Mount(name + "-spark", SPARK_DIR + "/" + SPARK_FILE, SPARK_FILE)];
      case Hdfs =>
        mounts := mounts + [Mount(name + "-hdfssite", SPARK_DIR + "/" + HDFS_FILE, HDFS_FILE),
                            Mount(name + "-coresite", SPARK_DIR + "/" + CORE_FILE, CORE_FILE)];
      case Metastore =>
        mounts := mounts + [Mount(name + "-hivesite", SPARK_DIR + "/" + HIVE_FILE, HIVE_FILE)];
      case _ =>
    }
    assert refs[..|refs|] == refs;
    MountsSpelled(name, refs);
  }

  method ConstructVolumes(name: string, spec: Spec) returns (volumes: seq<Volume>)
    ensures volumes == VolumesOf(name, SlotsOf(RefsOf(spec)))
    ensures volumes == SpelledVolumes(name, RefsOf(spec))
  {
    var refs := RefsOf(spec);
    volumes := [Volume(ResourceName(name), ResourceName(name), KYUUBI_FILE, KYUUBI_FILE)];
    for i := 0 to |refs|
      invariant volumes == VolumesOf(name, SlotsOf(refs[..i]))
    {
      SlotsSnoc(refs, i);
      VolumesConcat(name, SlotsOf(refs[..i]), RefSlots(refs[i].kind));
      RefVolumes(name, refs[i].kind);
      match refs[i].kind
      case Spark =>
        volumes := volumes + [Volume(name + "-spark", RefsName(name), SPARK_FILE, SPARK_FILE)];
      case Hdfs =>
        volumes := volumes + [Volume(name + "-hdfssite", RefsName(name), HDFS_FILE, HDFS_FILE),
                              Volume(name + "-coresite", RefsName(name), CORE_FILE, CORE_FILE)];
      case Metastore =>
        volumes := volumes + [Volume(name + "-hivesite", RefsName(name), HIVE_FILE, HIVE_FILE)];
      case _ =>
    }
    assert refs[..|refs|] == refs;
    VolumesSpelled(name, refs);
  }

  // ----- the specification: one slot a file, in list order -----

  datatype Slot = KyuubiSlot | SparkSlot | HdfsSlot | CoreSlot | HiveSlot

  function RefSlots(t: ClusterType): seq<Slot> {
    match t
    case Spark => [SparkSlot]
    case Hdfs => [HdfsSlot, CoreSlot]
    case Metastore => [HiveSlot]
    case _ => []
  }

  function SlotsOf(refs: seq<ClusterRef>): (s: seq<Slot>)
    ensures s != [] && s[0] == KyuubiSlot
  {
    if refs == [] then [KyuubiSlot]
    else SlotsOf(refs[..|refs| - 1]) + RefSlots(refs[|refs| - 1].kind)
  }

  lemma SlotsSnoc(refs: seq<ClusterRef>, i: nat)
    requires i < |refs|
    ensures SlotsOf(refs[..i + 1]) == SlotsOf(refs[..i]) + RefSlots(refs[i].kind)
  {
    assert refs[..i + 1][..i] == refs[..i];
  }

  function FileOf(s: Slot): string {
    match s
    case KyuubiSlot => KYUUBI_FILE
    case SparkSlot => SPARK_FILE
    case HdfsSlot => HDFS_FILE
    case CoreSlot => CORE_FILE
    case HiveSlot => HIVE_FILE
  }

  function Suffix(s: Slot): string {
    match s
    case KyuubiSlot => NAME_SUFFIX
    case SparkSlot => "-spark"
    case HdfsSlot => "-hdfssite"
    case CoreSlot => "-coresite"
    case HiveSlot => "-hivesite"
  }

  function VolumeName(name: string, s: Slot): string {
    if s.KyuubiSlot? then ResourceName(name) else name + Suffix(s)
  }

  function MountPath(s: Slot): string {
    (if s.KyuubiSlot? then KYUUBI_DIR else SPARK_DIR) + "/" + FileOf(s)
  }

  function VolumeOf(name: string, s: Slot): Volume {
    Volume(VolumeName(name, s), if s.KyuubiSlot? then ResourceName(name) else RefsName(name), FileOf(s), FileOf(s))
  }

  function MountOf(name: string, s: Slot): Mount {
    Mount(VolumeName(name, s), MountPath(s), FileOf(s))
  }

  function VolumesOf(name: string, slots: seq<Slot>): seq<Volume> {
    seq(|slots|, i requires 0 <= i < |slots| => VolumeOf(name, slots[i]))
  }

  function MountsOf(name: string, slots: seq<Slot>): seq<Mount> {
    seq(|slots|, i requires 0 <= i < |slots| => MountOf(name, slots[i]))
  }

  lemma VolumesConcat(name: string, a: seq<Slot>, b: seq<Slot>)
    ensures VolumesOf(name, a + b) == VolumesOf(name, a) + VolumesOf(name, b)
  {
    var left, right := VolumesOf(name, a + b), VolumesOf(name, a) + VolumesOf(name, b);
    forall i | 0 <= i < |a + b| ensures left[i] == right[i] {
      assert (a + b)[i] == if i < |a| then a[i] else b[i - |a|];
    }
  }

  lemma MountsConcat(name: string, a: seq<Slot>, b: seq<Slot>)
    ensures MountsOf(name, a + b) == MountsOf(name, a) + MountsOf(name, b)
  {
    var left, right := MountsOf(name, a + b), MountsOf(name, a) + MountsOf(name, b);
    forall i | 0 <= i < |a + b| ensures left[i] == right[i] {
      assert (a + b)[i] == if i < |a| then a[i] else b[i - |a|];
    }
  }

  // ----- the same, spelled out -----

  function SpelledMounts(name: string, refs: seq<ClusterRef>): seq<Mount> {
    if refs == [] then [Mount(name + "-kyuubi", "/opt/kyuubi/conf" + "/" + "kyuubi-defaults.conf", "kyuubi-defaults.conf")]
    else
      SpelledMounts(name, refs[..|refs| - 1]) +
      match refs[|refs| - 1].kind
      case Spark => [Mount(name + "-spark", "/opt/spark/conf" + "/" + "spark-defaults.conf", "spark-defaults.conf")]
      case Hdfs => [Mount(name + "-hdfssite", "/opt/spark/conf" + "/" + "hdfs-site.xml", "hdfs-site.xml"),
                    Mount(name + "-coresite", "/opt/spark/conf" + "/" + "core-site.xml", "core-site.xml")]
      case Metastore => [Mount(name + "-hivesite", "/opt/spark/conf" + "/" + "hive-site.xml", "hive-site.xml")]
      case _ => []
  }

  function SpelledVolumes(name: string, refs: seq<ClusterRef>): seq<Volume> {
    if refs == [] then [Volume(name + "-kyuubi", name + "-kyuubi", "kyuubi-defaults.conf", "kyuubi-defaults.conf")]
    else
      SpelledVolumes(name, refs[..|refs| - 1]) +
      match refs[|refs| - 1].kind
      case Spark => [Volume(name + "-spark", name + "-clusterrefs", "spark-defaults.conf", "spark-defaults.conf")]
      case Hdfs => [Volume(name + "-hdfssite", name + "-clusterrefs", "hdfs-site.xml", "hdfs-site.xml"),
                    Volume(name + "-coresite", name + "-clusterrefs", "core-site.xml", "core-site.xml")]
      case Metastore => [Volume(name + "-hivesite", name + "-clusterrefs", "hive-site.xml", "hive-site.xml")]
      case _ => []
  }

  lemma {:induction false} MountsSpelled(name: string, refs: seq<ClusterRef>)
    ensures MountsOf(name, SlotsOf(refs)) == SpelledMounts(name, refs)
  {
    NamesSpelled(name);
    if refs != [] {
      var n := |refs| - 1;
      MountsSpelled(name, refs[..n]);
      MountsConcat(name, SlotsOf(refs[..n]), RefSlots(refs[n].kind));
      RefMounts(name, refs[n].kind);
    }
  }

  lemma {:induction false} VolumesSpelled(name: string, refs: seq<ClusterRef>)
    ensures VolumesOf(name, SlotsOf(refs)) == SpelledVolumes(name, refs)
  {
    NamesSpelled(name);
    if refs != [] {
      var n := |refs| - 1;
      VolumesSpelled(name, refs[..n]);
      VolumesConcat(name, SlotsOf(refs[..n]), RefSlots(refs[n].kind));
      RefVolumes(name, refs[n].kind);
    }
  }

  lemma RefMounts(name: string, t: ClusterType)
    ensures MountsOf(name, RefSlots(t)) ==
            match t
            case Spark => [Mount(name + "-spark", SPARK_DIR + "/" + SPARK_FILE, SPARK_FILE)]
            case Hdfs => [Mount(name + "-hdfssite", SPARK_DIR + "/" + HDFS_FILE, HDFS_FILE),
                          Mount(name + "-coresite", SPARK_DIR + "/" + CORE_FILE, CORE_FILE)]
            case Metastore => [Mount(name + "-hivesite", SPARK_DIR + "/" + HIVE_FILE, HIVE_FILE)]
            case _ => []
  {
  }

  lemma RefVolumes(name: string, t: ClusterType)
    ensures VolumesOf(name, RefSlots(t)) ==
            match t
            case Spark => [Volume(name + "-spark", RefsName(name), SPARK_FILE, SPARK_FILE)]
            case Hdfs => [Volume(name + "-hdfssite", RefsName(name), HDFS_FILE, HDFS_FILE),
                          Volume(name + "-coresite", RefsName(name), CORE_FILE, CORE_FILE)]
            case Metastore => [Volume(name + "-hivesite", RefsName(name), HIVE_FILE, HIVE_FILE)]
            case _ => []
  {
  }

  // ----- agreement -----

  function KindFiles(t: ClusterType): set<string> {
    match t
    case Spark => {SPARK_FILE}
    case Hdfs => {HDFS_FILE, CORE_FILE}
    case Metastore => {HIVE_FILE}
    case _ => {}
  }

  /** The keys of the desired cluster-refs config map, read off the reference types. */
  function RefKeys(refs: seq<ClusterRef>): set<string> {
    if refs == [] then {} else RefKeys(refs[..|refs| - 1]) + KindFiles(refs[|refs| - 1].kind)
  }

  /** The compiled config map holds exactly the files its reference types call for. */
  lemma {:induction false} CompiledKeys(env: Env, ns: string, sites: Sites, refs: seq<ClusterRef>)
    requires SecondPass(env, ns, sites, refs).Ok?
    ensures SecondPass(env, ns, sites, refs).value.Keys == RefKeys(refs)
  {
    if refs != [] {
      CompiledKeys(env, ns, sites, refs[..|refs| - 1]);
    }
  }

  lemma {:induction false} SlotPresent(refs: seq<ClusterRef>, s: Slot)
    ensures s in SlotsOf(refs) <==> s == KyuubiSlot || exists r :: r in refs && s in RefSlots(r.kind)
  {
    if refs != [] {
      var init, r := refs[..|refs| - 1], refs[|refs| - 1];
      SlotPresent(init, s);
      assert refs == init + [r];
    }
  }

  lemma KindSlotFiles(t: ClusterType, f: string)
    ensures f in KindFiles(t) <==> exists s :: s in RefSlots(t) && FileOf(s) == f
  {
    match t
    case Spark => assert SparkSlot in RefSlots(t);
    case Hdfs => assert HdfsSlot in RefSlots(t) && CoreSlot in RefSlots(t);
    case Metastore => assert HiveSlot in RefSlots(t) && FileOf(HiveSlot) == HIVE_FILE;
    case _ =>
  }

  /** The slots beyond the first name exactly those files. */
  lemma {:induction false} SlotFiles(refs: seq<ClusterRef>, f: string)
    ensures f in RefKeys(refs) <==> exists s :: s in SlotsOf(refs) && s != KyuubiSlot && FileOf(s) == f
  {
    if refs != [] {
      var t := refs[|refs| - 1].kind;
      SlotFiles(refs[..|refs| - 1], f);
      KindSlotFiles(t, f);
      assert forall s :: s in SlotsOf(refs) <==> s in SlotsOf(refs[..|refs| - 1]) || s in RefSlots(t);
    }
  }

  /** The i-th mount names the i-th volume, and mounts the very file that volume projects. */
  lemma MountsMatchVolumes(name: string, refs: seq<ClusterRef>)
    ensures var v, m := VolumesOf(name, SlotsOf(refs)), MountsOf(name, SlotsOf(refs));
            && |v| == |m|
            && forall i :: 0 <= i < |v| ==> m[i].name == v[i].name && m[i].subPath == v[i].path
  {
  }

  /** The config map a volume names holds the key it projects. */
  predicate Backed(name: string, v: Volume, kyuubi: set<string>, refs: set<string>) {
    || (v.configMap == ResourceName(name) && v.key in kyuubi)
    || (v.configMap == RefsName(name) && v.key in refs)
  }

  lemma VolumeBacked(name: string, refs: seq<ClusterRef>, i: nat)
    requires i < |SlotsOf(refs)|
    ensures Backed(name, VolumesOf(name, SlotsOf(refs))[i], {KYUUBI_FILE}, RefKeys(refs))
  {
    var s := SlotsOf(refs)[i];
    assert s in SlotsOf(refs);
    if s != KyuubiSlot {
      SlotFiles(refs, FileOf(s));
    }
  }

  /** For every accepted list, every projected key is in the matching desired config map, and none is left over. */
  lemma VolumesMatchData(env: Env, ns: string, name: string, refs: seq<ClusterRef>, conf: Option<Conf>)
    requires DesiredFiles(env, ns, refs).Ok?
    ensures var v := VolumesOf(name, SlotsOf(refs));
            var files := DesiredFiles(env, ns, refs).value;
            && (forall i :: 0 <= i < |v| ==> Backed(name, v[i], KyuubiFiles(conf).Keys, files.Keys))
            && (forall f :: f in files ==> exists i :: 0 <= i < |v| && v[i].configMap == RefsName(name) && v[i].key == f)
  {
    CompiledKeys(env, ns, FirstPass(refs), refs);
    var v := VolumesOf(name, SlotsOf(refs));
    forall i | 0 <= i < |v| ensures Backed(name, v[i], KyuubiFiles(conf).Keys, RefKeys(refs)) {
      VolumeBacked(name, refs, i);
    }
    forall f | f in DesiredFiles(env, ns, refs).value
      ensures exists i :: 0 <= i < |v| && v[i].configMap == RefsName(name) && v[i].key == f
    {
      SlotFiles(refs, f);
      var s :| s in SlotsOf(refs) && s != KyuubiSlot && FileOf(s) == f;
      var i :| 0 <= i < |SlotsOf(refs)| && SlotsOf(refs)[i] == s;
      assert v[i].configMap == RefsName(name) && v[i].key == f;
    }
  }

  // ----- distinctness -----

  predicate Mounted(t: ClusterType) {
    t.Spark? || t.Hdfs? || t.Metastore?
  }

  ghost predicate NoneRepeated(refs: seq<ClusterRef>) {
    forall i, j :: 0 <= i < j < |refs| && refs[i].kind == refs[j].kind ==> !Mounted(refs[i].kind)
  }

  ghost predicate Distinct<T>(s: seq<T>) {
    forall i, j :: 0 <= i < j < |s| ==> s[i] != s[j]
  }

  lemma DistinctConcat<T>(a: seq<T>, b: seq<T>)
    ensures Distinct(a + b) <==> Distinct(a) && Distinct(b) && forall x :: x in b ==> x !in a
  {
    var c := a + b;
    if Distinct(c) {
      assert Distinct(a) by {
        forall i, j | 0 <= i < j < |a| ensures a[i] != a[j] { assert c[i] != c[j]; }
      }
      assert Distinct(b) by {
        forall i, j | 0 <= i < j < |b| ensures b[i] != b[j] { assert c[|a| + i] != c[|a| + j]; }
      }
      forall x | x in b ensures x !in a {
        var j :| 0 <= j < |b| && b[j] == x;
        forall i | 0 <= i < |a| ensures a[i] != x { assert c[i] != c[|a| + j]; }
      }
    } else if Distinct(a) && Distinct(b) {
      var i, j :| 0 <= i < j < |c| && c[i] == c[j];
      assert i < |a| <= j;
      assert b[j - |a|] in b && a[i] in a;
    }
  }

  lemma NoneRepeatedSnoc(refs: seq<ClusterRef>)
    requires refs != []
    ensures var init, t := refs[..|refs| - 1], refs[|refs| - 1].kind;
            NoneRepeated(refs) <==>
            NoneRepeated(init) && (Mounted(t) ==> forall r :: r in init ==> r.kind != t)
  {
    var n := |refs| - 1;
    var init, t := refs[..n], refs[n].kind;
    if NoneRepeated(refs) {
      forall i, j | 0 <= i < j < n && init[i].kind == init[j].kind ensures !Mounted(init[i].kind) {
        assert refs[i].kind == refs[j].kind;
      }
      forall r | Mounted(t) && r in init ensures r.kind != t {
        var i :| 0 <= i < n && init[i] == r;
        assert refs[i] == r;
      }
    } else if Mounted(t) ==> forall r :: r in init ==> r.kind != t {
      var i, j :| 0 <= i < j < |refs| && refs[i].kind == refs[j].kind && Mounted(refs[i].kind);
      assert refs[i] in init;
      assert init[i] == refs[i] && j < n && init[j] == refs[j];
    }
  }

  lemma KindRepeated(init: seq<ClusterRef>, t: ClusterType)
    ensures (forall s :: s in RefSlots(t) ==> s !in SlotsOf(init)) <==>
            (Mounted(t) ==> forall r :: r in init ==> r.kind != t)
  {
    forall s | s in RefSlots(t) ensures s in SlotsOf(init) <==> exists r :: r in init && r.kind == t {
      SlotPresent(init, s);
    }
    if Mounted(t) {
      assert RefSlots(t)[0] in RefSlots(t);
    }
  }

  lemma {:induction false} SlotsDistinct(refs: seq<ClusterRef>)
    ensures Distinct(SlotsOf(refs)) <==> NoneRepeated(refs)
  {
    if refs != [] {
      var init, t := refs[..|refs| - 1], refs[|refs| - 1].kind;
      SlotsDistinct(init);
      NoneRepeatedSnoc(refs);
      DistinctConcat(SlotsOf(init), RefSlots(t));
      KindRepeated(init, t);
    }
  }

  lemma VolumeNamesInjective(name: string, s: Slot, t: Slot)
    requires VolumeName(name, s) == VolumeName(name, t)
    ensures s == t
  {
    var a, b := name + Suffix(s), name + Suffix(t);
    assert VolumeName(name, s) == a && VolumeName(name, t) == b;
    assert Suffix(s) == a[|name|..] && Suffix(t) == b[|name|..];
    SuffixesInjective(s, t);
  }

  lemma SuffixesInjective(s: Slot, t: Slot)
    requires Suffix(s) == Suffix(t)
    ensures s == t
  {
    var u, v := Suffix(s), Suffix(t);
    assert |u| == |v| && u[1] == v[1] && u[2] == v[2];
  }

  lemma MountPathsInjective(s: Slot, t: Slot)
    requires MountPath(s) == MountPath(t)
    ensures s == t
  {
    var a, b := MountPath(s), MountPath(t);
    assert a[5] == b[5];
    var n := |SPARK_DIR + "/"|;
    if !s.KyuubiSlot? && !t.KyuubiSlot? {
      assert FileOf(s) == a[n..] && FileOf(t) == b[n..];
      assert FileOf(s)[0] == FileOf(t)[0] && FileOf(s)[1] == FileOf(t)[1];
    }
  }

  function VolumeNames(name: string, refs: seq<ClusterRef>): seq<string> {
    var v := VolumesOf(name, SlotsOf(refs));
    seq(|v|, i requires 0 <= i < |v| => v[i].name)
  }

  function MountPaths(name: string, refs: seq<ClusterRef>): seq<string> {
    var m := MountsOf(name, SlotsOf(refs));
    seq(|m|, i requires 0 <= i < |m| => m[i].path)
  }

  /** Volume names, and mount paths, are pairwise distinct exactly when no mounted type is repeated. */
  lemma DistinctExactly(name: string, refs: seq<ClusterRef>)
    ensures Distinct(VolumeNames(name, refs)) <==> NoneRepeated(refs)
    ensures Distinct(MountPaths(name, refs)) <==> NoneRepeated(refs)
  {
    SlotsDistinct(refs);
    var s, v, m := SlotsOf(refs), VolumeNames(name, refs), MountPaths(name, refs);
    forall i, j | 0 <= i < j < |s| ensures v[i] == v[j] <==> s[i] == s[j] {
      if v[i] == v[j] {
        VolumeNamesInjective(name, s[i], s[j]);
      }
    }
    forall i, j | 0 <= i < j < |s| ensures m[i] == m[j] <==> s[i] == s[j] {
      if m[i] == m[j] {
        MountPathsInjective(s[i], s[j]);
      }
    }
  }
}
