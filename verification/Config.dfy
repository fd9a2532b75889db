/** The configuration compiler: `desiredClusterRefsConfigMap` and `constructKyuubiConfigMap`. */
module Config {
  import opened Base
  import opened Text
  import opened Render
  import opened Api

  const KYUUBI_FILE := "kyuubi-defaults.conf"
  const SPARK_FILE := "spark-defaults.conf"
  const HIVE_FILE := "hive-site.xml"
  const HDFS_FILE := "hdfs-site.xml"
  const CORE_FILE := "core-site.xml"
  const DEFAULT_FS := "fs.defaultFS"
  const NAMESERVICES := "dfs.nameservices"
  const PROVIDER := "org.apache.hadoop.hdfs.server.namenode.ha.ConfiguredFailoverProxyProvider"
  const NIL_DEFAULTS := "spark default conf should not be nil"

  function HaKey(ns: string): string { "dfs.ha.namenodes." + ns }
  function ProxyKey(ns: string): string { "dfs.client.failover.proxy.provider." + ns }
  function RpcKey(ns: string): string { "dfs.namenode.rpc-address." + ns }
  function NodeKey(ns: string, node: string): string { "dfs.namenode.rpc-address." + ns + "." + node }

  /** A file of a config map before it is turned into text. */
  datatype File = Properties(conf: Conf) | Site(conf: Conf)

  type Files = map<string, File>

  ghost predicate RendersFile(env: Env, f: File, text: string) {
    match f
    case Properties(m) => RendersKv(m, text)
    case Site(m) => exists raw :: RendersXml(m, raw) && text == env.formatXml(raw)
  }

  /** `data` is one of the texts the operator may write for these files. */
  ghost predicate RendersAll(env: Env, files: Files, data: map<string, string>) {
    && data.Keys == files.Keys
    && forall k :: k in files ==> RendersFile(env, files[k], data[k])
  }

  // ----- the hive-site derivation -----

  function Filesystem(core: Option<Conf>): Conf {
    if core.Some? && DEFAULT_FS in core.value then map[DEFAULT_FS := core.value[DEFAULT_FS]] else map[]
  }

  function NodeKeys(ns: string, nodes: seq<string>): set<string> {
    set i | 0 <= i < |nodes| :: NodeKey(ns, nodes[i])
  }

  function Addresses(hdfs: Conf, keys: set<string>): Conf {
    map k | k in keys :: At(hdfs, k)
  }

  function HaSettings(hdfs: Conf, ns: string): Conf
    requires HaKey(ns) in hdfs
  {
    map[HaKey(ns) := hdfs[HaKey(ns)], ProxyKey(ns) := PROVIDER]
    + Addresses(hdfs, NodeKeys(ns, Split(hdfs[HaKey(ns)], ',')))
  }

  function Nameservice(hdfs: Option<Conf>): Conf {
    if hdfs.None? || NAMESERVICES !in hdfs.value then map[]
    else
      var h := hdfs.value;
      var ns := h[NAMESERVICES];
      map[NAMESERVICES := ns] +
      if HaKey(ns) in h then HaSettings(h, ns) else Addresses(h, {RpcKey(ns)})
  }

  /** The whole derived hive-site: client settings taken from HDFS, overridden by the user's entries. */
  function HiveSite(core: Option<Conf>, hdfs: Option<Conf>, hive: Option<Conf>): Conf {
    Filesystem(core) + Nameservice(hdfs) + Entries(hive)
  }

  /** No two kinds of derived key can be equal, so no derived entry hides another. */
  lemma DerivedKeysDistinct(ns: string, node: string)
    ensures NAMESERVICES !in {DEFAULT_FS, HaKey(ns), ProxyKey(ns), RpcKey(ns), NodeKey(ns, node)}
    ensures DEFAULT_FS !in {HaKey(ns), ProxyKey(ns), RpcKey(ns), NodeKey(ns, node)}
    ensures HaKey(ns) !in {ProxyKey(ns), RpcKey(ns), NodeKey(ns, node)}
    ensures ProxyKey(ns) !in {RpcKey(ns), NodeKey(ns, node)}
    ensures RpcKey(ns) != NodeKey(ns, node)
  {
    assert NAMESERVICES[8] == 's' && NAMESERVICES[0] == 'd' && DEFAULT_FS[0] == 'f';
    assert HaKey(ns)[0] == 'd' && HaKey(ns)[4] == 'h' && HaKey(ns)[8] == 'a';
    assert ProxyKey(ns)[0] == 'd' && ProxyKey(ns)[4] == 'c' && ProxyKey(ns)[8] == 'n';
    assert RpcKey(ns)[0] == 'd' && RpcKey(ns)[4] == 'n' && RpcKey(ns)[8] == 'n';
    assert NodeKey(ns, node)[0] == 'd' && NodeKey(ns, node)[4] == 'n' && NodeKey(ns, node)[8] == 'n';
  }

  function Lookup(m: Conf, k: string): Option<string> {
    if k in m then Some(m[k]) else None
  }

  /** What the HDFS reference contributes under one key, read off the text of the key. */
  ghost function Contribution(core: Conf, hdfs: Conf, k: string): Option<string> {
    if k == "fs.defaultFS" then Lookup(core, k)
    else if "dfs.nameservices" !in hdfs then None
    else
      var ns := hdfs["dfs.nameservices"];
      if k == "dfs.nameservices" then Some(ns)
      else if "dfs.ha.namenodes." + ns !in hdfs then
        (if k == "dfs.namenode.rpc-address." + ns then Some(At(hdfs, k)) else None)
      else if k == "dfs.ha.namenodes." + ns then Some(hdfs[k])
      else if k == "dfs.client.failover.proxy.provider." + ns then
        Some("org.apache.hadoop.hdfs.server.namenode.ha.ConfiguredFailoverProxyProvider")
      else
        var nodes := Split(hdfs["dfs.ha.namenodes." + ns], ',');
        if exists i :: 0 <= i < |nodes| && k == "dfs.namenode.rpc-address." + ns + "." + nodes[i] then Some(At(hdfs, k))
        else None
  }

  lemma FilesystemEntry(core: Option<Conf>, k: string)
    ensures Lookup(Filesystem(core), k) == if k == DEFAULT_FS then Lookup(Entries(core), k) else None
  {
  }

  lemma NameserviceEntry(hdfs: Option<Conf>, k: string)
    ensures Lookup(Nameservice(hdfs), k) ==
            if k == DEFAULT_FS then None else Contribution(map[], Entries(hdfs), k)
  {
    var h := Entries(hdfs);
    if NAMESERVICES in h {
      var ns := h[NAMESERVICES];
      DerivedKeysDistinct(ns, "");
      if HaKey(ns) in h {
        HaSettingsEntry(h, ns, k);
      }
    }
  }

  lemma HaSettingsEntry(h: Conf, ns: string, k: string)
    requires HaKey(ns) in h
    ensures k in HaSettings(h, ns) <==> k in {HaKey(ns), ProxyKey(ns)} + NodeKeys(ns, Split(h[HaKey(ns)], ','))
    ensures {NAMESERVICES, DEFAULT_FS} !! HaSettings(h, ns).Keys
    ensures HaSettings(h, ns)[HaKey(ns)] == h[HaKey(ns)]
    ensures HaSettings(h, ns)[ProxyKey(ns)] == PROVIDER
    ensures k in NodeKeys(ns, Split(h[HaKey(ns)], ',')) ==> HaSettings(h, ns)[k] == At(h, k)
  {
    var nodes := Split(h[HaKey(ns)], ',');
    NodeKeysApart(ns, nodes);
    DerivedKeysDistinct(ns, "");
  }

  lemma NodeKeysApart(ns: string, nodes: seq<string>)
    ensures {NAMESERVICES, DEFAULT_FS, HaKey(ns), ProxyKey(ns)} !! NodeKeys(ns, nodes)
  {
    forall k | k in NodeKeys(ns, nodes) ensures k !in {NAMESERVICES, DEFAULT_FS, HaKey(ns), ProxyKey(ns)} {
      var i :| 0 <= i < |nodes| && k == NodeKey(ns, nodes[i]);
      DerivedKeysDistinct(ns, nodes[i]);
    }
  }

  /** The closed form, key by key: user entries win, everything else is the HDFS contribution, nothing more. */
  lemma HiveSiteEntry(core: Option<Conf>, hdfs: Option<Conf>, hive: Option<Conf>, k: string)
    ensures Lookup(HiveSite(core, hdfs, hive), k) ==
            if k in Entries(hive) then Some(Entries(hive)[k])
            else Contribution(Entries(core), Entries(hdfs), k)
  {
    FilesystemEntry(core, k);
    NameserviceEntry(hdfs, k);
  }

  /**
   The settings a Hadoop client looks up, by their texts: with high availability one address for each listed
   namenode, nameservice first; without it the single address.
   */
  lemma HiveSiteTexts(core: Conf, hdfs: Conf, hive: Conf, node: string)
    requires "dfs.nameservices" in hdfs
    ensures var site, ns := HiveSite(Some(core), Some(hdfs), Some(hive)), hdfs["dfs.nameservices"];
            var nodes, address := "dfs.ha.namenodes." + ns, "dfs.namenode.rpc-address." + ns;
            var failover := "dfs.client.failover.proxy.provider." + ns;
            && ("fs.defaultFS" !in hive ==> Lookup(site, "fs.defaultFS") == Lookup(core, "fs.defaultFS"))
            && ("dfs.nameservices" !in hive ==> Lookup(site, "dfs.nameservices") == Some(ns))
            && (nodes in hdfs && nodes !in hive ==> Lookup(site, nodes) == Some(hdfs[nodes]))
            && (nodes in hdfs && failover !in hive ==>
                  Lookup(site, failover) ==
                  Some("org.apache.hadoop.hdfs.server.namenode.ha.ConfiguredFailoverProxyProvider"))
            && (nodes in hdfs && node in Split(hdfs[nodes], ',') && address + "." + node !in hive ==>
                  Lookup(site, address + "." + node) == Some(At(hdfs, address + "." + node)))
            && (nodes !in hdfs && address !in hive ==> Lookup(site, address) == Some(At(hdfs, address)))
  {
    var ns := hdfs["dfs.nameservices"];
    var address := "dfs.namenode.rpc-address." + ns;
    DerivedKeysDistinct(ns, node);
    HiveSiteEntry(Some(core), Some(hdfs), Some(hive), "fs.defaultFS");
    HiveSiteEntry(Some(core), Some(hdfs), Some(hive), "dfs.nameservices");
    HiveSiteEntry(Some(core), Some(hdfs), Some(hive), "dfs.ha.namenodes." + ns);
    HiveSiteEntry(Some(core), Some(hdfs), Some(hive), "dfs.client.failover.proxy.provider." + ns);
    HiveSiteEntry(Some(core), Some(hdfs), Some(hive), address);
    HiveSiteEntry(Some(core), Some(hdfs), Some(hive), address + "." + node);
    assert NodeKey(ns, node) == address + "." + node;
  }

  /** The metastore branch of the compiler; it re-reads the nameservice from the map it is filling. */
  method DeriveHiveSite(core: Option<Conf>, hdfs: Option<Conf>, hive: Option<Conf>) returns (conf: Conf)
    ensures conf == HiveSite(core, hdfs, hive)
    ensures forall k :: Lookup(conf, k) ==
              if k in Entries(hive) then Some(Entries(hive)[k]) else Contribution(Entries(core), Entries(hdfs), k)
  {
    conf := map[];
    if core.Some? {
      if DEFAULT_FS in core.value {
        conf := conf[DEFAULT_FS := core.value[DEFAULT_FS]];
      }
    }
    assert conf == Filesystem(core);
    ghost var fs := conf;
    if hdfs.Some? {
      if NAMESERVICES in hdfs.value {
        conf := conf[NAMESERVICES := hdfs.value[NAMESERVICES]];
        conf := DeriveAddresses(hdfs.value, conf);
        InsertThenOverride(fs, NAMESERVICES, hdfs.value[NAMESERVICES],
          if HaKey(hdfs.value[NAMESERVICES]) in hdfs.value then HaSettings(hdfs.value, hdfs.value[NAMESERVICES])
          else Addresses(hdfs.value, {RpcKey(hdfs.value[NAMESERVICES])}));
      }
    }
    assert conf == fs + Nameservice(hdfs);
    conf := OverrideWith(conf, hive);
    forall k
      ensures Lookup(HiveSite(core, hdfs, hive), k) ==
              if k in Entries(hive) then Some(Entries(hive)[k]) else Contribution(Entries(core), Entries(hdfs), k)
    {
      HiveSiteEntry(core, hdfs, hive, k);
    }
  }

  method DeriveAddresses(h: Conf, start: Conf) returns (conf: Conf)
    requires NAMESERVICES in h && NAMESERVICES in start && start[NAMESERVICES] == h[NAMESERVICES]
    ensures var ns := h[NAMESERVICES];
            conf == start + if HaKey(ns) in h then HaSettings(h, ns) else Addresses(h, {RpcKey(ns)})
  {
    conf := start;
    ghost var ns := h[NAMESERVICES];
    DerivedKeysDistinct(ns, "");
    if HaKey(conf[NAMESERVICES]) in h {
      conf := conf[HaKey(conf[NAMESERVICES]) := h[HaKey(conf[NAMESERVICES])]];
      conf := conf[ProxyKey(conf[NAMESERVICES]) := PROVIDER];
      var nodes := Split(h[HaKey(conf[NAMESERVICES])], ',');
      conf := DeriveNodes(h, conf, nodes);
      InsertTwoThenOverride(start, HaKey(ns), h[HaKey(ns)], ProxyKey(ns), PROVIDER, Addresses(h, NodeKeys(ns, nodes)));
    } else {
      conf := conf[RpcKey(conf[NAMESERVICES]) := At(h, RpcKey(conf[NAMESERVICES]))];
    }
  }

  method DeriveNodes(h: Conf, start: Conf, nodes: seq<string>) returns (conf: Conf)
    requires NAMESERVICES in start
    ensures conf == start + Addresses(h, NodeKeys(start[NAMESERVICES], nodes))
    ensures forall i :: 0 <= i < |nodes| ==>
              var k := "dfs.namenode.rpc-address." + start["dfs.nameservices"] + "." + nodes[i];
              Lookup(conf, k) == Some(At(h, k))
  {
    conf := start;
    ghost var ns := start[NAMESERVICES];
    for i := 0 to |nodes|
      invariant NAMESERVICES in conf && conf[NAMESERVICES] == ns
      invariant conf == start + Addresses(h, NodeKeys(ns, nodes[..i]))
    {
      DerivedKeysDistinct(ns, nodes[i]);
      var k := NodeKey(conf[NAMESERVICES], nodes[i]);
      NodeKeysSnoc(ns, nodes, i);
      AddressesSnoc(h, start, NodeKeys(ns, nodes[..i]), k);
      conf := conf[k := At(h, k)];
    }
    assert nodes[..|nodes|] == nodes;
    forall i | 0 <= i < |nodes| ensures NodeKey(ns, nodes[i]) in NodeKeys(ns, nodes) {
    }
  }

  lemma InsertThenOverride(a: Conf, k: string, v: string, b: Conf)
    ensures a[k := v] + b == a + (map[k := v] + b)
  {
  }

  lemma InsertTwoThenOverride(a: Conf, k: string, v: string, l: string, u: string, b: Conf)
    ensures a[k := v][l := u] + b == a + (map[k := v, l := u] + b)
  {
  }

  lemma NodeKeysSnoc(ns: string, nodes: seq<string>, i: nat)
    requires i < |nodes|
    ensures NodeKeys(ns, nodes[..i + 1]) == NodeKeys(ns, nodes[..i]) + {NodeKey(ns, nodes[i])}
  {
    assert nodes[..i + 1] == nodes[..i] + [nodes[i]];
  }

  lemma AddressesSnoc(h: Conf, start: Conf, keys: set<string>, k: string)
    ensures start + Addresses(h, keys + {k}) == (start + Addresses(h, keys))[k := At(h, k)]
  {
  }

  /** `for k, v := range m { conf[k] = v }` */
  method OverrideWith(conf: Conf, m: Option<Conf>) returns (r: Conf)
    ensures r == conf + Entries(m)
  {
    var e := Entries(m);
    var rest := e.Keys;
    r := conf;
    while rest != {}
      invariant rest <= e.Keys
      invariant r == conf + (map k | k in e && k !in rest :: e[k])
    {
      var k :| k in rest;
      r := r[k := e[k]];
      rest := rest - {k};
    }
    assert e == map k | k in e && k !in rest :: e[k];
  }

  // ----- the two passes over the references -----

  datatype Sites = Sites(core: Option<Conf>, hdfs: Option<Conf>)

  /** First pass: the sites of the last HDFS reference seen. */
  function FirstPass(refs: seq<ClusterRef>): Sites {
    if refs == [] then Sites(None, None)
    else
      var r := refs[|refs| - 1];
      if r.kind.Hdfs? then Sites(r.hdfs.coreSite, r.hdfs.hdfsSite) else FirstPass(refs[..|refs| - 1])
  }

  function ImageOf(image: ImageConfig): string {
    image.repository + ":" + if image.tag == "" then "latest" else image.tag
  }

  function SparkConf(env: Env, ns: string, spark: SparkCluster): Conf {
    map["spark.master" := "k8s://https://" + env.host + ":" + env.port,
        "spark.kubernetes.container.image" := ImageOf(spark.image),
        "spark.kubernetes.namespace" := ns]
    + Entries(spark.defaults)
  }

  /** The user's defaults win over the three derived entries, which are all the compiler adds. */
  lemma SparkConfEntry(env: Env, ns: string, spark: SparkCluster, k: string)
    ensures Lookup(SparkConf(env, ns, spark), k) ==
            if k in Entries(spark.defaults) then Some(Entries(spark.defaults)[k])
            else if k == "spark.master" then Some("k8s://https://" + env.host + ":" + env.port)
            else if k == "spark.kubernetes.namespace" then Some(ns)
            else if k == "spark.kubernetes.container.image" then
              Some(if spark.image.tag == "" then spark.image.repository + ":latest"
                   else spark.image.repository + ":" + spark.image.tag)
            else None
  {
    assert ":" + "latest" == ":latest";
    assert spark.image.repository + ":" + "latest" == spark.image.repository + ":latest";
  }

  function AddRef(env: Env, ns: string, sites: Sites, files: Files, r: ClusterRef): Result<Files> {
    match r.kind
    case Spark =>
      if r.spark.defaults.None? then Err(NIL_DEFAULTS)
      else Ok(files[SPARK_FILE := Properties(SparkConf(env, ns, r.spark))])
    case Hdfs =>
      Ok(files[HDFS_FILE := Site(Entries(r.hdfs.hdfsSite))][CORE_FILE := Site(Entries(r.hdfs.coreSite))])
    case Metastore =>
      Ok(files[HIVE_FILE := Site(HiveSite(sites.core, sites.hdfs, r.metastore.hiveSite))])
    case _ => Ok(files)
  }

  /** Second pass: files are added reference by reference, stopping at the first refusal. */
  function SecondPass(env: Env, ns: string, sites: Sites, refs: seq<ClusterRef>): Result<Files> {
    if refs == [] then Ok(map[])
    else
      var before := SecondPass(env, ns, sites, refs[..|refs| - 1]);
      if before.Err? then before else AddRef(env, ns, sites, before.value, refs[|refs| - 1])
  }

  function DesiredFiles(env: Env, ns: string, refs: seq<ClusterRef>): Result<Files> {
    SecondPass(env, ns, FirstPass(refs), refs)
  }

  function KyuubiFiles(conf: Option<Conf>): Files {
    map[KYUUBI_FILE := Properties(Entries(conf))]
  }

  method RenderSite(env: Env, m: Option<Conf>) returns (text: string)
    ensures RendersFile(env, Site(Entries(m)), text)
  {
    var raw := Map2Xml(m);
    text := env.formatXml(raw);
  }

  /** One file, whose text means the user's configuration, if that can be written in this format at all. */
  method ConstructKyuubiConfigMap(env: Env, conf: Option<Conf>) returns (data: map<string, string>)
    ensures RendersAll(env, KyuubiFiles(conf), data)
    ensures MeansKyuubi(conf, data)
  {
    var text := Map2String(conf);
    data := map[KYUUBI_FILE := text];
    KvMeaning(Entries(conf), text);
  }

  /** The data holds one file, which parses back to the configuration exactly when that is clean. */
  ghost predicate MeansKyuubi(conf: Option<Conf>, data: map<string, string>) {
    data.Keys == {"kyuubi-defaults.conf"} && KvMeans(Entries(conf), data["kyuubi-defaults.conf"])
  }

  /** So does any rendering of the desired file. */
  lemma KyuubiMeaning(env: Env, conf: Option<Conf>, data: map<string, string>)
    requires RendersAll(env, KyuubiFiles(conf), data)
    ensures MeansKyuubi(conf, data)
  {
    assert RendersFile(env, KyuubiFiles(conf)[KYUUBI_FILE], data[KYUUBI_FILE]);
    KvMeaning(Entries(conf), data[KYUUBI_FILE]);
  }

  lemma RendersUpdate(env: Env, files: Files, data: map<string, string>, name: string, f: File, text: string)
    requires RendersAll(env, files, data) && RendersFile(env, f, text)
    ensures RendersAll(env, files[name := f], data[name := text])
  {
  }

  /** The Spark branch: an empty tag means the latest image, and the defaults override the derived entries. */
  method RenderSpark(env: Env, ns: string, spark: SparkCluster) returns (text: string)
    requires spark.defaults.Some?
    ensures RendersKv(SparkConf(env, ns, spark), text)
  {
    var tag := spark.image.tag;
    if tag == "" {
      tag := "latest";
    }
    var conf: Conf := map[];
    conf := conf["spark.master" := "k8s://https://" + env.host + ":" + env.port];
    conf := conf["spark.kubernetes.container.image" := spark.image.repository + ":" + tag];
    conf := conf["spark.kubernetes.namespace" := ns];
    conf := OverrideWith(conf, spark.defaults);
    text := Map2String(Some(conf));
  }

  /** One iteration of the second loop, on the texts. */
  method RenderRef(env: Env, ns: string, sites: Sites, ghost files: Files, data: map<string, string>, r: ClusterRef)
    returns (out: Result<map<string, string>>)
    requires RendersAll(env, files, data)
    ensures out.Ok? == AddRef(env, ns, sites, files, r).Ok?
    ensures out.Err? ==> out.message == AddRef(env, ns, sites, files, r).message
    ensures out.Ok? ==> RendersAll(env, AddRef(env, ns, sites, files, r).value, out.value)
  {
    match r.kind
    case Spark =>
      if r.spark.defaults.None? {
        return Err(NIL_DEFAULTS);
      }
      var text := RenderSpark(env, ns, r.spark);
      RendersUpdate(env, files, data, SPARK_FILE, Properties(SparkConf(env, ns, r.spark)), text);
      out := Ok(data[SPARK_FILE := text]);
    case Hdfs =>
      var hdfsText := RenderSite(env, r.hdfs.hdfsSite);
      var coreText := RenderSite(env, r.hdfs.coreSite);
      ghost var f, g := Site(Entries(r.hdfs.hdfsSite)), Site(Entries(r.hdfs.coreSite));
      RendersUpdate(env, files, data, HDFS_FILE, f, hdfsText);
      RendersUpdate(env, files[HDFS_FILE := f], data[HDFS_FILE := hdfsText], CORE_FILE, g, coreText);
      out := Ok(data[HDFS_FILE := hdfsText][CORE_FILE := coreText]);
    case Metastore =>
      var conf := DeriveHiveSite(sites.core, sites.hdfs, r.metastore.hiveSite);
      var text := RenderSite(env, Some(conf));
      RendersUpdate(env, files, data, HIVE_FILE, Site(conf), text);
      out := Ok(data[HIVE_FILE := text]);
    case _ =>
      out := Ok(data);
  }

  method DesiredClusterRefsConfigMap(env: Env, ns: string, spec: Spec) returns (out: Result<map<string, string>>)
    ensures out.Ok? == DesiredFiles(env, ns, RefsOf(spec)).Ok?
    ensures out.Err? ==> out.message == DesiredFiles(env, ns, RefsOf(spec)).message
    ensures out.Ok? ==> RendersAll(env, DesiredFiles(env, ns, RefsOf(spec)).value, out.value)
  {
    var refs := RefsOf(spec);
    var sites := FindSites(refs);
    out := RenderRefs(env, ns, sites, refs);
  }

  /** The first loop. */
  method FindSites(refs: seq<ClusterRef>) returns (sites: Sites)
    ensures sites == FirstPass(refs)
  {
    sites := Sites(None, None);
    for i := 0 to |refs|
      invariant sites == FirstPass(refs[..i])
    {
      assert refs[..i + 1][..i] == refs[..i];
      if refs[i].kind.Hdfs? {
        sites := Sites(refs[i].hdfs.coreSite, refs[i].hdfs.hdfsSite);
      }
    }
    assert refs[..|refs|] == refs;
  }

  /** The second loop. */
  method RenderRefs(env: Env, ns: string, sites: Sites, refs: seq<ClusterRef>) returns (out: Result<map<string, string>>)
    ensures out.Ok? == SecondPass(env, ns, sites, refs).Ok?
    ensures out.Err? ==> out.message == SecondPass(env, ns, sites, refs).message
    ensures out.Ok? ==> RendersAll(env, SecondPass(env, ns, sites, refs).value, out.value)
  {
    var data: map<string, string> := map[];
    for i := 0 to |refs|
      invariant SecondPass(env, ns, sites, refs[..i]).Ok?
      invariant RendersAll(env, SecondPass(env, ns, sites, refs[..i]).value, data)
    {
      assert refs[..i + 1][..i] == refs[..i];
      var step := RenderRef(env, ns, sites, SecondPass(env, ns, sites, refs[..i]).value, data, refs[i]);
      if step.Err? {
        FirstErrorWins(env, ns, sites, refs, i + 1);
        return step;
      }
      data := step.value;
    }
    assert refs[..|refs|] == refs;
    out := Ok(data);
  }

  lemma {:induction false} FirstErrorWins(env: Env, ns: string, sites: Sites, refs: seq<ClusterRef>, n: nat)
    requires n <= |refs| && SecondPass(env, ns, sites, refs[..n]).Err?
    ensures SecondPass(env, ns, sites, refs) == SecondPass(env, ns, sites, refs[..n])
    decreases |refs|
  {
    if n == |refs| {
      assert refs[..n] == refs;
    } else {
      var init := refs[..|refs| - 1];
      assert init[..n] == refs[..n];
      FirstErrorWins(env, ns, sites, init, n);
    }
  }

  // ----- last one wins -----

  function OfKind(refs: seq<ClusterRef>, t: ClusterType): seq<ClusterRef> {
    if refs == [] then []
    else
      var r := refs[|refs| - 1];
      OfKind(refs[..|refs| - 1], t) + if r.kind == t then [r] else []
  }

  function Last(refs: seq<ClusterRef>, t: ClusterType): Option<ClusterRef> {
    var s := OfKind(refs, t);
    if s == [] then None else Some(s[|s| - 1])
  }

  /** A Spark reference without defaults, anywhere in the list, makes the compiler refuse. */
  predicate Refused(refs: seq<ClusterRef>) {
    exists i :: 0 <= i < |refs| && refs[i].kind.Spark? && refs[i].spark.defaults.None?
  }

  function Layout(spark: Option<File>, hdfs: Option<(File, File)>, meta: Option<File>): Files {
    (if spark.Some? then map[SPARK_FILE := spark.value] else map[])
    + (if hdfs.Some? then map[HDFS_FILE := hdfs.value.0, CORE_FILE := hdfs.value.1] else map[])
    + (if meta.Some? then map[HIVE_FILE := meta.value] else map[])
  }

  function SparkFile(env: Env, ns: string, r: Option<ClusterRef>): Option<File> {
    if r.None? then None else Some(Properties(SparkConf(env, ns, r.value.spark)))
  }

  function HdfsFiles(r: Option<ClusterRef>): Option<(File, File)> {
    if r.None? then None
    else Some((Site(Entries(r.value.hdfs.hdfsSite)), Site(Entries(r.value.hdfs.coreSite))))
  }

  function HiveFile(sites: Sites, r: Option<ClusterRef>): Option<File> {
    if r.None? then None else Some(Site(HiveSite(sites.core, sites.hdfs, r.value.metastore.hiveSite)))
  }

  /** The files as determined by the last reference of each type. */
  function Assemble(env: Env, ns: string, sites: Sites, refs: seq<ClusterRef>): Files {
    Layout(SparkFile(env, ns, Last(refs, Spark)), HdfsFiles(Last(refs, Hdfs)), HiveFile(sites, Last(refs, Metastore)))
  }

  lemma {:induction false} FirstPassClosed(refs: seq<ClusterRef>)
    ensures FirstPass(refs) == if Last(refs, Hdfs).None? then Sites(None, None)
                               else Sites(Last(refs, Hdfs).value.hdfs.coreSite, Last(refs, Hdfs).value.hdfs.hdfsSite)
  {
    if refs != [] {
      FirstPassClosed(refs[..|refs| - 1]);
    }
  }

  lemma RefusedStep(refs: seq<ClusterRef>)
    requires refs != []
    ensures var r := refs[|refs| - 1];
            Refused(refs) <==> Refused(refs[..|refs| - 1]) || (r.kind.Spark? && r.spark.defaults.None?)
  {
    var init := refs[..|refs| - 1];
    forall i | 0 <= i < |init| ensures init[i] == refs[i] {}
    if Refused(init) {
      var i :| 0 <= i < |init| && init[i].kind.Spark? && init[i].spark.defaults.None?;
      assert refs[i].kind.Spark? && refs[i].spark.defaults.None?;
    }
  }

  /** The second pass in closed form: refused, or determined by the last reference of each type. */
  lemma {:induction false} SecondPassClosed(env: Env, ns: string, sites: Sites, refs: seq<ClusterRef>)
    ensures SecondPass(env, ns, sites, refs) ==
            if Refused(refs) then Err(NIL_DEFAULTS) else Ok(Assemble(env, ns, sites, refs))
  {
    if refs != [] {
      var init := refs[..|refs| - 1];
      SecondPassClosed(env, ns, sites, init);
      RefusedStep(refs);
      if !Refused(refs) {
        AssembleStep(env, ns, sites, refs);
      }
    }
  }

  lemma LayoutSpark(spark: Option<File>, hdfs: Option<(File, File)>, meta: Option<File>, f: File)
    ensures Layout(spark, hdfs, meta)[SPARK_FILE := f] == Layout(Some(f), hdfs, meta)
  {
  }

  lemma LayoutHdfs(spark: Option<File>, hdfs: Option<(File, File)>, meta: Option<File>, f: File, g: File)
    ensures Layout(spark, hdfs, meta)[HDFS_FILE := f][CORE_FILE := g] == Layout(spark, Some((f, g)), meta)
  {
  }

  lemma LayoutHive(spark: Option<File>, hdfs: Option<(File, File)>, meta: Option<File>, f: File)
    ensures Layout(spark, hdfs, meta)[HIVE_FILE := f] == Layout(spark, hdfs, Some(f))
  {
  }

  lemma LastStep(refs: seq<ClusterRef>, t: ClusterType)
    requires refs != []
    ensures var r := refs[|refs| - 1];
            Last(refs, t) == if r.kind == t then Some(r) else Last(refs[..|refs| - 1], t)
  {
  }

  lemma AssembleStep(env: Env, ns: string, sites: Sites, refs: seq<ClusterRef>)
    requires refs != []
    requires refs[|refs| - 1].kind.Spark? ==> refs[|refs| - 1].spark.defaults.Some?
    ensures AddRef(env, ns, sites, Assemble(env, ns, sites, refs[..|refs| - 1]), refs[|refs| - 1])
            == Ok(Assemble(env, ns, sites, refs))
  {
    var init, r := refs[..|refs| - 1], refs[|refs| - 1];
    LastStep(refs, Spark);
    LastStep(refs, Hdfs);
    LastStep(refs, Metastore);
    var spark, hdfs, meta :=
      SparkFile(env, ns, Last(init, Spark)), HdfsFiles(Last(init, Hdfs)), HiveFile(sites, Last(init, Metastore));
    match r.kind
    case Spark =>
      var f := SparkFile(env, ns, Some(r)).value;
      LayoutSpark(spark, hdfs, meta, f);
    case Hdfs =>
      var f := HdfsFiles(Some(r)).value;
      LayoutHdfs(spark, hdfs, meta, f.0, f.1);
    case Metastore =>
      var f := HiveFile(sites, Some(r)).value;
      LayoutHive(spark, hdfs, meta, f);
    case _ =>
  }

  /** The compiler accepts exactly the lists in which every Spark reference has defaults. */
  lemma AcceptedExactly(env: Env, ns: string, refs: seq<ClusterRef>)
    ensures DesiredFiles(env, ns, refs).Ok? <==> !Refused(refs)
    ensures Refused(refs) ==> DesiredFiles(env, ns, refs).message == "spark default conf should not be nil"
  {
    SecondPassClosed(env, ns, FirstPass(refs), refs);
  }

  /** On accepted lists only the last reference of each of the three types matters. */
  lemma LastOneWins(env: Env, ns: string, refs: seq<ClusterRef>, other: seq<ClusterRef>)
    requires !Refused(refs) && !Refused(other)
    requires forall t :: t in {Spark, Hdfs, Metastore} ==> Last(refs, t) == Last(other, t)
    ensures DesiredFiles(env, ns, refs) == DesiredFiles(env, ns, other)
  {
    SecondPassClosed(env, ns, FirstPass(refs), refs);
    SecondPassClosed(env, ns, FirstPass(other), other);
    FirstPassClosed(refs);
    FirstPassClosed(other);
  }

  lemma {:induction false} OfKindMembers(refs: seq<ClusterRef>, t: ClusterType, r: ClusterRef)
    ensures r in OfKind(refs, t) <==> r in refs && r.kind == t
  {
    if refs != [] {
      OfKindMembers(refs[..|refs| - 1], t, r);
      assert refs == refs[..|refs| - 1] + [refs[|refs| - 1]];
    }
  }

  lemma RefusedByKind(refs: seq<ClusterRef>)
    ensures Refused(refs) <==> exists r :: r in OfKind(refs, Spark) && r.spark.defaults.None?
  {
    forall r ensures r in OfKind(refs, Spark) <==> r in refs && r.kind == Spark {
      OfKindMembers(refs, Spark, r);
    }
  }

  /**
   The order between types is irrelevant: lists with the same Spark, HDFS and metastore subsequences
   compile to the same result, refusal included; flink and unknown references may come and go.
   */
  lemma OrderBetweenTypes(env: Env, ns: string, refs: seq<ClusterRef>, other: seq<ClusterRef>)
    requires forall t :: t in {Spark, Hdfs, Metastore} ==> OfKind(refs, t) == OfKind(other, t)
    ensures DesiredFiles(env, ns, refs) == DesiredFiles(env, ns, other)
  {
    RefusedByKind(refs);
    RefusedByKind(other);
    if Refused(refs) {
      SecondPassClosed(env, ns, FirstPass(refs), refs);
      SecondPassClosed(env, ns, FirstPass(other), other);
    } else {
      LastOneWins(env, ns, refs, other);
    }
  }

  // ----- the compiled files by name and position -----

  /** The last reference of a type, by its place in the list. */
  ghost predicate IsLast(refs: seq<ClusterRef>, t: ClusterType, i: int) {
    0 <= i < |refs| && refs[i].kind == t && forall j :: i < j < |refs| ==> refs[j].kind != t
  }

  lemma {:induction false} LastMissing(refs: seq<ClusterRef>, t: ClusterType)
    ensures Last(refs, t).None? <==> forall i :: 0 <= i < |refs| ==> refs[i].kind != t
  {
    if refs != [] {
      var n := |refs| - 1;
      var init := refs[..n];
      LastMissing(init, t);
      LastStep(refs, t);
      assert forall i :: 0 <= i < n ==> init[i] == refs[i];
    }
  }

  lemma {:induction false} LastAt(refs: seq<ClusterRef>, t: ClusterType, i: int)
    requires IsLast(refs, t, i)
    ensures Last(refs, t) == Some(refs[i])
    decreases |refs|
  {
    var n := |refs| - 1;
    LastStep(refs, t);
    if i < n {
      LastAt(refs[..n], t, i);
    }
  }

  lemma LastPlace(refs: seq<ClusterRef>, t: ClusterType)
    ensures Last(refs, t).None? <==> forall i :: 0 <= i < |refs| ==> refs[i].kind != t
    ensures forall i :: IsLast(refs, t, i) ==> Last(refs, t) == Some(refs[i])
  {
    LastMissing(refs, t);
    forall i | IsLast(refs, t, i) ensures Last(refs, t) == Some(refs[i]) {
      LastAt(refs, t, i);
    }
  }

  /** The sites the metastore branch works with: those of the last HDFS reference, nil without one. */
  ghost predicate SitesOf(refs: seq<ClusterRef>, core: Option<Conf>, hdfs: Option<Conf>) {
    || (exists i :: IsLast(refs, Hdfs, i) && core == refs[i].hdfs.coreSite && hdfs == refs[i].hdfs.hdfsSite)
    || ((forall i :: 0 <= i < |refs| ==> !refs[i].kind.Hdfs?) && core.None? && hdfs.None?)
  }

  lemma {:induction false} LastExists(refs: seq<ClusterRef>, t: ClusterType) returns (i: int)
    ensures if exists j :: 0 <= j < |refs| && refs[j].kind == t then IsLast(refs, t, i) else i == -1
  {
    if refs == [] {
      i := -1;
    } else if refs[|refs| - 1].kind == t {
      i := |refs| - 1;
    } else {
      var init := refs[..|refs| - 1];
      i := LastExists(init, t);
      assert forall j :: 0 <= j < |init| ==> init[j] == refs[j];
      if j :| 0 <= j < |refs| && refs[j].kind == t {
        assert init[j].kind == t;
      }
    }
  }

  /** There is always one such pair of sites. */
  lemma SitesExist(refs: seq<ClusterRef>) returns (core: Option<Conf>, hdfs: Option<Conf>)
    ensures SitesOf(refs, core, hdfs)
  {
    var i := LastExists(refs, Hdfs);
    core, hdfs := None, None;
    if j :| 0 <= j < |refs| && refs[j].kind.Hdfs? {
      core, hdfs := refs[i].hdfs.coreSite, refs[i].hdfs.hdfsSite;
    }
  }

  /** The first pass finds exactly these. */
  lemma FirstPassSites(refs: seq<ClusterRef>, core: Option<Conf>, hdfs: Option<Conf>)
    requires SitesOf(refs, core, hdfs)
    ensures FirstPass(refs) == Sites(core, hdfs)
  {
    FirstPassClosed(refs);
    LastPlace(refs, Hdfs);
  }

  lemma LayoutEntries(spark: Option<File>, hdfs: Option<(File, File)>, meta: Option<File>)
    ensures var files := Layout(spark, hdfs, meta);
            && FileNamed(files, "spark-defaults.conf") == spark
            && FileNamed(files, "hdfs-site.xml") == (if hdfs.Some? then Some(hdfs.value.0) else None)
            && FileNamed(files, "core-site.xml") == (if hdfs.Some? then Some(hdfs.value.1) else None)
            && FileNamed(files, "hive-site.xml") == meta
  {
  }

  /** What is compiled for the last reference of each type, under which file name. */
  lemma CompiledFiles(env: Env, ns: string, refs: seq<ClusterRef>)
    requires DesiredFiles(env, ns, refs).Ok?
    ensures var files := DesiredFiles(env, ns, refs).value;
            && (forall i :: IsLast(refs, Spark, i) ==>
                  FileNamed(files, "spark-defaults.conf") == Some(Properties(SparkConf(env, ns, refs[i].spark))))
            && (forall i :: IsLast(refs, Hdfs, i) ==>
                  && FileNamed(files, "hdfs-site.xml") == Some(Site(Entries(refs[i].hdfs.hdfsSite)))
                  && FileNamed(files, "core-site.xml") == Some(Site(Entries(refs[i].hdfs.coreSite))))
            && (forall i, core, hdfs :: IsLast(refs, Metastore, i) && SitesOf(refs, core, hdfs) ==>
                  FileNamed(files, "hive-site.xml") == Some(Site(HiveSite(core, hdfs, refs[i].metastore.hiveSite))))
  {
    SecondPassClosed(env, ns, FirstPass(refs), refs);
    LastPlace(refs, Spark);
    LastPlace(refs, Hdfs);
    LastPlace(refs, Metastore);
    LayoutEntries(SparkFile(env, ns, Last(refs, Spark)), HdfsFiles(Last(refs, Hdfs)),
      HiveFile(FirstPass(refs), Last(refs, Metastore)));
    forall core, hdfs | SitesOf(refs, core, hdfs) ensures FirstPass(refs) == Sites(core, hdfs) {
      FirstPassSites(refs, core, hdfs);
    }
  }

  function FileNamed(files: Files, name: string): Option<File> {
    if name in files then Some(files[name]) else None
  }
}
