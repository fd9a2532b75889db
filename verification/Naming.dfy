/** Names, labels and store keys: internal/controller/common.go and constants.go. */
module Naming {
  import opened Base
  import opened Text

  const NAME_SUFFIX := "-kyuubi"
  const REFS_SUFFIX := "-clusterrefs"

  datatype ClusterId = ClusterId(ns: string, name: string)

  function NineResourceName(name: string, suffixes: seq<string>): string {
    name + Join(suffixes, "-")
  }

  function ClusterResourceName(name: string, suffixes: seq<string>): string {
    name + NAME_SUFFIX + Join(suffixes, "-")
  }

  function ResourceName(name: string): string {
    ClusterResourceName(name, [])
  }

  function RefsName(name: string): string {
    NineResourceName(name, [REFS_SUFFIX])
  }

  /** The two names, spelled out. */
  lemma NamesSpelled(name: string)
    ensures ResourceName(name) == name + "-kyuubi"
    ensures RefsName(name) == name + "-clusterrefs"
  {
    assert name + "-kyuubi" + "" == name + "-kyuubi";
  }

  function Labels(name: string): Conf {
    map["cluster" := name, "app" := "kyuubi"]
  }

  datatype Kind = ServiceAccount | Role | RoleBinding | ConfigMap | StatefulSet | Service | KyuubiCluster

  datatype Key = Key(kind: Kind, ns: string, name: string)

  /** The links of the chain a pass runs through, in order; each owns one object of the cluster. */
  datatype Link = Account | Permission | Binding | KyuubiConf | RefsConf | Work | Front | Report

  function Rank(l: Link): nat {
    match l
    case Account => 0
    case Permission => 1
    case Binding => 2
    case KyuubiConf => 3
    case RefsConf => 4
    case Work => 5
    case Front => 6
    case Report => 7
  }

  function KindOf(l: Link): Kind {
    match l
    case Account => ServiceAccount
    case Permission => Role
    case Binding => RoleBinding
    case KyuubiConf => ConfigMap
    case RefsConf => ConfigMap
    case Work => StatefulSet
    case Front => Service
    case Report => KyuubiCluster
  }

  function NameOf(l: Link, name: string): string {
    match l
    case RefsConf => RefsName(name)
    case Report => name
    case _ => ResourceName(name)
  }

  function LinkKey(l: Link, id: ClusterId): Key {
    Key(KindOf(l), id.ns, NameOf(l, id.name))
  }

  lemma SuffixInjective(a: string, b: string, suffix: string)
    requires a + suffix == b + suffix
    ensures a == b
  {
    assert |a| == |b|;
    assert a == (a + suffix)[..|a|] && b == (b + suffix)[..|b|];
  }

  lemma NamesInjective(l: Link, a: string, b: string)
    requires NameOf(l, a) == NameOf(l, b)
    ensures a == b
  {
    match l
    case RefsConf =>
      assert NameOf(l, a) == a + REFS_SUFFIX && NameOf(l, b) == b + REFS_SUFFIX;
      SuffixInjective(a, b, REFS_SUFFIX);
    case Report =>
    case _ =>
      assert NameOf(l, a) == a + NAME_SUFFIX && NameOf(l, b) == b + NAME_SUFFIX;
      SuffixInjective(a, b, NAME_SUFFIX);
  }

  /** The two config maps never collide, whatever the two cluster names are. */
  lemma ConfigNamesDisjoint(a: string, b: string)
    ensures ResourceName(a) != RefsName(b)
  {
    var x, y := ResourceName(a), RefsName(b);
    assert x == a + NAME_SUFFIX && y == b + REFS_SUFFIX;
    assert x[|x| - 1] == 'i' && y[|y| - 1] == 's';
  }

  /** Distinct clusters, and distinct links of one cluster, never share a store key. */
  lemma KeysInjective(l: Link, a: ClusterId, m: Link, b: ClusterId)
    requires LinkKey(l, a) == LinkKey(m, b)
    ensures l == m && a == b
  {
    if l != m {
      ConfigNamesDisjoint(a.name, b.name);
      ConfigNamesDisjoint(b.name, a.name);
    } else {
      NamesInjective(l, a.name, b.name);
    }
  }
}
