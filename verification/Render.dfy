/**
 The renderers and the comparison of internal/controller/utils.go.

 Go iterates a map in an arbitrary order, so a renderer is a method that may return any of the
 texts of one map; a specification parser gives each text its meaning.
 */
module Render {
  import opened Base
  import opened Text

  type Pairs = seq<(string, string)>

  /** An order in which Go may range over a map with these keys. */
  ghost predicate IsOrder(order: seq<string>, keys: set<string>) {
    && (forall i, j :: 0 <= i < j < |order| ==> order[i] != order[j])
    && (forall k :: k in order <==> k in keys)
  }

  ghost function PairsOf(order: seq<string>, m: Conf): (ps: Pairs)
    requires forall k :: k in order ==> k in m
    ensures |ps| == |order|
  {
    seq(|order|, i requires 0 <= i < |order| => (order[i], m[order[i]]))
  }

  /** The map a list of pairs stands for; the last pair of a key wins. */
  function MapOf(ps: Pairs): Conf {
    if ps == [] then map[] else MapOf(ps[..|ps| - 1])[ps[|ps| - 1].0 := ps[|ps| - 1].1]
  }

  lemma {:induction false} MapOfEntry(ps: Pairs, k: string)
    requires k in MapOf(ps)
    ensures (k, MapOf(ps)[k]) in ps
  {
    var n := |ps| - 1;
    if ps[n].0 == k {
      assert ps[n] == (k, MapOf(ps)[k]);
    } else {
      MapOfEntry(ps[..n], k);
    }
  }

  lemma {:induction false} MapOfPairs(order: seq<string>, m: Conf)
    requires forall k :: k in order ==> k in m
    ensures MapOf(PairsOf(order, m)) == map k | k in order :: m[k]
  {
    var n := |order|;
    if n > 0 {
      var init, k := order[..n - 1], order[n - 1];
      MapOfPairs(init, m);
      assert PairsOf(order, m)[..n - 1] == PairsOf(init, m);
      assert order == init + [k];
    }
  }

  lemma MapOfOrder(order: seq<string>, m: Conf)
    requires IsOrder(order, m.Keys)
    ensures MapOf(PairsOf(order, m)) == m
  {
    MapOfPairs(order, m);
  }

  // ----- compareConf -----

  /** Walks one map only; equality follows because the sizes agree. */
  method CompareConf(src: Option<Conf>, dst: Option<Conf>) returns (same: bool)
    ensures same <==> Entries(src) == Entries(dst)
  {
    var a, b := Entries(src), Entries(dst);
    if |a| != |b| {
      return false;
    }
    var rest := a.Keys;
    while rest != {}
      invariant rest <= a.Keys
      invariant forall k :: k in a.Keys - rest ==> k in b && a[k] == b[k]
    {
      var k :| k in rest;
      if k !in b || a[k] != b[k] {
        return false;
      }
      rest := rest - {k};
    }
    SameSize(a.Keys, b.Keys);
    return true;
  }

  lemma SameSize<T>(a: set<T>, b: set<T>)
    requires a <= b && |a| == |b|
    ensures a == b
  {
    assert |b - a| == |b| - |a|;
  }

  // ----- map2String -----

  function KvLine(p: (string, string)): string {
    p.0 + "=" + p.1 + "\n"
  }

  function KvText(ps: Pairs): string {
    if ps == [] then "" else KvText(ps[..|ps| - 1]) + KvLine(ps[|ps| - 1])
  }

  ghost predicate RendersKv(m: Conf, s: string) {
    exists order :: IsOrder(order, m.Keys) && s == KvText(PairsOf(order, m))
  }

  method Map2String(kv: Option<Conf>) returns (s: string)
    ensures RendersKv(Entries(kv), s)
  {
    var m := Entries(kv);
    var rest := m.Keys;
    ghost var order: seq<string> := [];
    s := "";
    while rest != {}
      invariant rest <= m.Keys
      invariant IsOrder(order, m.Keys - rest)
      invariant s == KvText(PairsOf(order, m))
    {
      var k :| k in rest;
      assert PairsOf(order + [k], m)[..|order|] == PairsOf(order, m);
      s := s + KvLine((k, m[k]));
      order := order + [k];
      rest := rest - {k};
    }
  }

  /** The specification parser: one entry a line, split at the first `=`. */
  function ParseKv(s: string): Option<Pairs>
    decreases |s|
  {
    if s == "" then Some([])
    else
      var i := Find(s, '\n');
      if i == |s| then None
      else
        var line := s[..i];
        var j := Find(line, '=');
        if j == |line| then None
        else
          var tail :- ParseKv(s[i + 1..]);
          Some([(line[..j], line[j + 1..])] + tail)
  }

  predicate KvClean(p: (string, string)) {
    '=' !in p.0 && '\n' !in p.0 && '\n' !in p.1
  }

  predicate KvCleanMap(m: Conf) {
    forall k :: k in m ==> KvClean((k, m[k]))
  }

  lemma {:induction false} KvTextCons(p: (string, string), ps: Pairs)
    ensures KvText([p] + ps) == KvLine(p) + KvText(ps)
  {
    var n := |ps|;
    if n == 0 {
      assert [p] + ps == [p] && [p][..0] == [];
      assert KvText([p]) == KvText([]) + KvLine(p);
    } else {
      KvTextCons(p, ps[..n - 1]);
      assert ([p] + ps)[..n] == [p] + ps[..n - 1];
      assert ([p] + ps)[n] == ps[n - 1];
    }
  }

  lemma {:induction false} KvRoundTrip(ps: Pairs)
    requires forall p :: p in ps ==> KvClean(p)
    ensures ParseKv(KvText(ps)) == Some(ps)
    decreases |ps|
  {
    if ps != [] {
      var p, rest := ps[0], ps[1..];
      assert ps == [p] + rest;
      assert p in ps && forall q :: q in rest ==> q in ps;
      KvTextCons(p, rest);
      var tail := KvText(rest);
      var line := p.0 + "=" + p.1;
      var s := KvText(ps);
      assert s == line + ("\n" + tail);
      FindAfter(line, "\n" + tail, '\n');
      assert s[..|line|] == line && s[|line| + 1..] == tail;
      assert line == p.0 + ("=" + p.1);
      FindAfter(p.0, "=" + p.1, '=');
      assert line[..|p.0|] == p.0 && line[|p.0| + 1..] == p.1;
      KvRoundTrip(rest);
    }
  }

  lemma {:induction false} ParsedKvIsClean(s: string)
    requires ParseKv(s).Some?
    ensures forall p :: p in ParseKv(s).value ==> KvClean(p)
    decreases |s|
  {
    if s != "" {
      ParsedKvIsClean(s[Find(s, '\n') + 1..]);
    }
  }

  /** A text of the map, which parses back to it exactly when the map is clean. */
  ghost predicate KvMeans(m: Conf, s: string) {
    RendersKv(m, s) && (ParseKv(s).Some? && MapOf(ParseKv(s).value) == m <==> KvCleanMap(m))
  }

  /** The text of a map, whatever the iteration order, means that map exactly when the map is clean. */
  lemma KvMeaning(m: Conf, s: string)
    requires RendersKv(m, s)
    ensures ParseKv(s).Some? && MapOf(ParseKv(s).value) == m <==> KvCleanMap(m)
  {
    var order :| IsOrder(order, m.Keys) && s == KvText(PairsOf(order, m));
    if KvCleanMap(m) {
      KvRoundTrip(PairsOf(order, m));
      MapOfOrder(order, m);
    }
    if ParseKv(s).Some? && MapOf(ParseKv(s).value) == m {
      ParsedKvIsClean(s);
      forall k | k in m ensures KvClean((k, m[k])) {
        MapOfEntry(ParseKv(s).value, k);
      }
    }
  }

  /** Different clean maps never share a text. */
  lemma KvTextDeterminesMap(m: Conf, n: Conf, s: string)
    requires RendersKv(m, s) && RendersKv(n, s)
    requires KvCleanMap(m) && KvCleanMap(n)
    ensures m == n
  {
    KvMeaning(m, s);
    KvMeaning(n, s);
  }

  // ----- map2Xml, up to the call of the formatter -----

  function XmlProperty(p: (string, string)): string {
    "<property>\n\t<name>" + p.0 + "</name>\n\t<value>" + p.1 + "</value>\n</property>"
  }

  function XmlProperties(ps: Pairs): string {
    if ps == [] then "" else XmlProperties(ps[..|ps| - 1]) + XmlProperty(ps[|ps| - 1])
  }

  function XmlText(ps: Pairs): string {
    "<configuration>" + XmlProperties(ps) + "</configuration>"
  }

  ghost predicate RendersXml(m: Conf, s: string) {
    exists order :: IsOrder(order, m.Keys) && s == XmlText(PairsOf(order, m))
  }

  method Map2Xml(properties: Option<Conf>) returns (res: string)
    ensures RendersXml(Entries(properties), res)
  {
    var m := Entries(properties);
    var rest := m.Keys;
    ghost var order: seq<string> := [];
    res := "<configuration>";
    while rest != {}
      invariant rest <= m.Keys
      invariant IsOrder(order, m.Keys - rest)
      invariant res == "<configuration>" + XmlProperties(PairsOf(order, m))
    {
      var k :| k in rest;
      XmlPropertiesSnoc(PairsOf(order, m), (k, m[k]));
      assert PairsOf(order + [k], m) == PairsOf(order, m) + [(k, m[k])];
      res := res + XmlProperty((k, m[k]));
      order := order + [k];
      rest := rest - {k};
    }
    res := res + "</configuration>";
  }

  lemma XmlPropertiesSnoc(ps: Pairs, p: (string, string))
    ensures "<configuration>" + XmlProperties(ps + [p]) == "<configuration>" + XmlProperties(ps) + XmlProperty(p)
  {
    assert (ps + [p])[..|ps|] == ps;
    Associative("<configuration>", XmlProperties(ps), XmlProperty(p));
  }

  lemma Associative(a: string, b: string, c: string)
    ensures a + (b + c) == a + b + c
  {
  }

  /** Literal character data as section 2.4 of XML 1.0 allows it. */
  predicate CharData(s: string) {
    '<' !in s && '&' !in s && NoSectionEnd(s)
  }

  predicate NoSectionEnd(s: string) {
    forall i :: 0 <= i < |s| ==> !SectionEnd(s, i)
  }

  predicate SectionEnd(s: string, i: nat) {
    i + 3 <= |s| && s[i..i + 3] == "]]>"
  }

  predicate XmlClean(p: (string, string)) {
    CharData(p.0) && CharData(p.1)
  }

  predicate XmlCleanMap(m: Conf) {
    forall k :: k in m ==> XmlClean((k, m[k]))
  }

  // ----- the specification parser: references are decoded as section 4.1 of XML 1.0 says -----

  /** The characters section 2.2 of XML 1.0 admits. */
  function Character(n: nat): Option<char> {
    if n == 9 || n == 10 || n == 13 || 0x20 <= n < 0xD800 || 0xE000 <= n < 0xFFFE || 0x1_0000 <= n < 0x11_0000
    then Some(n as char) else None
  }

  function Reference(name: string): Option<char> {
    if name == "lt" then Some('<')
    else if name == "gt" then Some('>')
    else if name == "amp" then Some('&')
    else if name == "apos" then Some('\'')
    else if name == "quot" then Some('\"')
    else if "#x" <= name then
      var n :- Number(name[2..], 16);
      Character(n)
    else if "#" <= name then
      var n :- Number(name[1..], 10);
      Character(n)
    else None
  }

  /** Character data with its references replaced; an ampersand that starts none is an error. */
  function Decode(s: string): (r: Option<string>)
    ensures r.Some? ==> |r.value| <= |s|
    ensures r.Some? && |r.value| == |s| ==> '&' !in s && r.value == s
    decreases |s|
  {
    if s == "" then Some("")
    else if s[0] != '&' then
      var rest :- Decode(s[1..]);
      Some([s[0]] + rest)
    else
      var i := Find(s, ';');
      if i == |s| then None
      else
        var c :- Reference(s[1..i]);
        var rest :- Decode(s[i + 1..]);
        Some([c] + rest)
  }

  lemma {:induction false} DecodePlain(s: string)
    requires '&' !in s
    ensures Decode(s) == Some(s)
    decreases |s|
  {
    if s != "" {
      DecodePlain(s[1..]);
      assert s == [s[0]] + s[1..];
    }
  }

  // ----- elements: a start tag is read by its name and wants an end tag of the same name -----

  predicate IsSpace(c: char) {
    c == ' ' || c == '\t' || c == '\n' || c == '\r'
  }

  function SkipSpace(s: string): (rest: string)
    ensures |rest| <= |s|
  {
    if s != "" && IsSpace(s[0]) then SkipSpace(s[1..]) else s
  }

  /** The names in use are of lower-case letters. */
  predicate IsTag(name: string) {
    name != "" && forall i :: 0 <= i < |name| ==> 'a' <= name[i] <= 'z'
  }

  /** Something read, and the text after it. */
  datatype Read<T> = Read(what: T, rest: string)

  function StartTag(s: string): (r: Option<Read<string>>)
    ensures r.Some? ==> |r.value.rest| < |s|
  {
    if s == "" || s[0] != '<' then None
    else
      var i := Find(s, '>');
      if i == |s| || !IsTag(s[1..i]) then None else Some(Read(s[1..i], s[i + 1..]))
  }

  function EndTag(s: string, name: string): (r: Option<string>)
    ensures r.Some? ==> |r.value| < |s|
  {
    if |s| < 2 || s[0] != '<' || s[1] != '/' then None
    else
      var i := Find(s, '>');
      if i == |s| || i < 2 || s[2..i] != name then None else Some(s[i + 1..])
  }

  /** An element that holds character data only: its name and that data. */
  function Leaf(s: string): (r: Option<Read<(string, string)>>)
    ensures r.Some? ==> |r.value.rest| < |s|
  {
    var tag :- StartTag(s);
    var i := Find(tag.rest, '<');
    if !NoSectionEnd(tag.rest[..i]) then None
    else
      var text :- Decode(tag.rest[..i]);
      var rest :- EndTag(tag.rest[i..], tag.what);
      Some(Read((tag.what, text), rest))
  }

  /** A `property` with one `name` and one `value`, in either order. */
  function Property(s: string): (r: Option<Read<(string, string)>>)
    ensures r.Some? ==> |r.value.rest| < |s|
  {
    var tag :- StartTag(s);
    if tag.what != "property" then None
    else
      var a :- Leaf(SkipSpace(tag.rest));
      var b :- Leaf(SkipSpace(a.rest));
      var rest :- EndTag(SkipSpace(b.rest), "property");
      if a.what.0 == "name" && b.what.0 == "value" then Some(Read((a.what.1, b.what.1), rest))
      else if a.what.0 == "value" && b.what.0 == "name" then Some(Read((b.what.1, a.what.1), rest))
      else None
  }

  /** Properties up to the end of the `configuration`, after which there is nothing but white space. */
  function ParseProperties(s: string): Option<Pairs>
    decreases |s|
  {
    var t := SkipSpace(s);
    if EndTag(t, "configuration").Some? then
      if SkipSpace(EndTag(t, "configuration").value) == "" then Some([]) else None
    else
      var p :- Property(t);
      var tail :- ParseProperties(p.rest);
      Some([p.what] + tail)
  }

  function ParseXml(s: string): Option<Pairs> {
    var root :- StartTag(SkipSpace(s));
    if root.what == "configuration" then ParseProperties(root.rest) else None
  }

  // ----- clean pairs come back -----

  lemma Spaces(space: string, rest: string)
    requires forall i :: 0 <= i < |space| ==> IsSpace(space[i])
    requires rest != "" && !IsSpace(rest[0])
    ensures SkipSpace(space + rest) == rest
  {
    if space == "" {
      assert space + rest == rest;
    } else {
      assert (space + rest)[1..] == space[1..] + rest;
      Spaces(space[1..], rest);
    }
  }

  lemma StartTagReads(name: string, rest: string)
    requires IsTag(name)
    ensures StartTag("<" + name + ">" + rest) == Some(Read(name, rest))
  {
    var head := "<" + name;
    var s := head + (">" + rest);
    assert "<" + name + ">" + rest == s;
    FindAfter(head, ">" + rest, '>');
    assert s[1..|head|] == name && s[|head| + 1..] == rest;
  }

  lemma EndTagReads(name: string, rest: string)
    requires IsTag(name)
    ensures EndTag("</" + name + ">" + rest, name) == Some(rest)
  {
    var head := "</" + name;
    var s := head + (">" + rest);
    assert "</" + name + ">" + rest == s;
    FindAfter(head, ">" + rest, '>');
    assert s[2..|head|] == name && s[|head| + 1..] == rest;
  }

  lemma LeafReads(name: string, text: string, rest: string)
    requires IsTag(name) && CharData(text)
    ensures Leaf("<" + name + ">" + text + ("</" + name + ">" + rest)) == Some(Read((name, text), rest))
  {
    var end := "</" + name + ">" + rest;
    assert "<" + name + ">" + text + end == "<" + name + ">" + (text + end);
    StartTagReads(name, text + end);
    FindAfter(text, end, '<');
    assert (text + end)[..|text|] == text && (text + end)[|text|..] == end;
    DecodePlain(text);
    EndTagReads(name, rest);
  }

  /** A property is read once its four parts are. */
  lemma PropertyOf(s: string, a: string, b: string, c: string, k: string, v: string, rest: string)
    requires StartTag(s) == Some(Read("property", a))
    requires Leaf(SkipSpace(a)) == Some(Read(("name", k), b))
    requires Leaf(SkipSpace(b)) == Some(Read(("value", v), c))
    requires EndTag(SkipSpace(c), "property") == Some(rest)
    ensures Property(s) == Some(Read((k, v), rest))
  {
  }

  /** An element after white space. */
  lemma SpacedLeaf(space: string, name: string, text: string, rest: string)
    requires forall i :: 0 <= i < |space| ==> IsSpace(space[i])
    requires IsTag(name) && CharData(text)
    ensures Leaf(SkipSpace(space + ("<" + name + ">" + text + ("</" + name + ">" + rest)))) == Some(Read((name, text), rest))
  {
    var s := "<" + name + ">" + text + ("</" + name + ">" + rest);
    assert s[0] == '<';
    Spaces(space, s);
    LeafReads(name, text, rest);
  }

  lemma SpacedEnd(space: string, name: string, rest: string)
    requires forall i :: 0 <= i < |space| ==> IsSpace(space[i])
    requires IsTag(name)
    ensures EndTag(SkipSpace(space + ("</" + name + ">" + rest)), name) == Some(rest)
  {
    var s := "</" + name + ">" + rest;
    assert s[0] == '<';
    Spaces(space, s);
    EndTagReads(name, rest);
  }

  function AfterValue(rest: string): string { "\n" + ("</" + "property" + ">" + rest) }

  function AfterName(v: string, rest: string): string {
    "\n\t" + ("<" + "value" + ">" + v + ("</" + "value" + ">" + AfterValue(rest)))
  }

  function AfterStart(p: (string, string), rest: string): string {
    "\n\t" + ("<" + "name" + ">" + p.0 + ("</" + "name" + ">" + AfterName(p.1, rest)))
  }

  lemma PropertyReads(p: (string, string), rest: string)
    requires XmlClean(p)
    ensures Property(XmlProperty(p) + rest) == Some(Read(p, rest))
  {
    StartReads(p, rest);
    NameReads(p, rest);
    ValueReads(p.1, rest);
    SpacedEnd("\n", "property", rest);
    PropertyOf(XmlProperty(p) + rest, AfterStart(p, rest), AfterName(p.1, rest), AfterValue(rest), p.0, p.1, rest);
  }

  lemma StartReads(p: (string, string), rest: string)
    ensures StartTag(XmlProperty(p) + rest) == Some(Read("property", AfterStart(p, rest)))
  {
    PropertyText(p, rest);
    StartTagReads("property", AfterStart(p, rest));
  }

  lemma NameReads(p: (string, string), rest: string)
    requires CharData(p.0)
    ensures Leaf(SkipSpace(AfterStart(p, rest))) == Some(Read(("name", p.0), AfterName(p.1, rest)))
  {
    SpacedLeaf("\n\t", "name", p.0, AfterName(p.1, rest));
  }

  lemma ValueReads(v: string, rest: string)
    requires CharData(v)
    ensures Leaf(SkipSpace(AfterName(v, rest))) == Some(Read(("value", v), AfterValue(rest)))
  {
    SpacedLeaf("\n\t", "value", v, AfterValue(rest));
  }

  /** The text of a property, cut into its tags. */
  lemma PropertyText(p: (string, string), rest: string)
    ensures XmlProperty(p) + rest == "<" + "property" + ">" + AfterStart(p, rest)
  {
    var a, b, c := "<property>\n\t<name>", "</name>\n\t<value>", "</value>\n</property>";
    ValueEnds(rest);
    NameEnds(p.1, rest);
    var tail := "</" + "name" + ">" + AfterName(p.1, rest);
    assert "<" + "property" + ">" + "\n\t" + "<" + "name" + ">" == a;
    assert "<" + "property" + ">" + AfterStart(p, rest) == a + (p.0 + tail);
    Regroup(a, p.0, b, p.1, c, rest);
  }

  lemma ValueEnds(rest: string)
    ensures "</" + "value" + ">" + AfterValue(rest) == "</value>\n</property>" + rest
  {
    assert "</" + "value" + ">" + "\n" + "</" + "property" + ">" == "</value>\n</property>";
  }

  lemma NameEnds(v: string, rest: string)
    ensures "</" + "name" + ">" + AfterName(v, rest) == "</name>\n\t<value>" + (v + ("</value>\n</property>" + rest))
  {
    ValueEnds(rest);
    assert "</" + "name" + ">" + "\n\t" + "<" + "value" + ">" == "</name>\n\t<value>";
  }

  lemma Regroup(a: string, k: string, b: string, v: string, c: string, rest: string)
    ensures a + k + b + v + c + rest == a + (k + (b + (v + (c + rest))))
  {
  }

  lemma {:induction false} XmlPropertiesCons(p: (string, string), ps: Pairs)
    ensures XmlProperties([p] + ps) == XmlProperty(p) + XmlProperties(ps)
  {
    var n := |ps|;
    if n == 0 {
      assert [p] + ps == [p] && [p][..0] == [];
      assert XmlProperties([p]) == XmlProperties([]) + XmlProperty(p);
    } else {
      XmlPropertiesCons(p, ps[..n - 1]);
      assert ([p] + ps)[..n] == [p] + ps[..n - 1];
      assert ([p] + ps)[n] == ps[n - 1];
      Associative(XmlProperty(p), XmlProperties(ps[..n - 1]), XmlProperty(ps[n - 1]));
    }
  }

  /** A property does not look like an end tag, nor start with white space. */
  lemma PropertyStarts(p: (string, string), rest: string)
    ensures var s := XmlProperty(p) + rest; SkipSpace(s) == s && EndTag(s, "configuration").None?
  {
    var s := XmlProperty(p) + rest;
    assert s[0] == '<' && s[1] == 'p';
  }

  lemma EndOf(s: string)
    requires EndTag(SkipSpace(s), "configuration") == Some("")
    ensures ParseProperties(s) == Some([])
  {
  }

  lemma Ends()
    ensures ParseProperties("</configuration>") == Some([])
  {
    var s := "</" + "configuration" + ">" + "";
    EndTagReads("configuration", "");
    assert s[0] == '<' && SkipSpace(s) == s;
    EndOf(s);
    assert |s| == |"</configuration>"|;
    assert s == "</configuration>";
  }

  lemma {:induction false} XmlPropertiesRoundTrip(ps: Pairs)
    requires forall p :: p in ps ==> XmlClean(p)
    ensures ParseProperties(XmlProperties(ps) + "</configuration>") == Some(ps)
    decreases |ps|
  {
    var end := "</configuration>";
    if ps == [] {
      assert XmlProperties(ps) + end == end;
      Ends();
    } else {
      var p, rest := ps[0], ps[1..];
      assert ps == [p] + rest;
      assert forall q :: q in rest ==> q in ps;
      XmlPropertiesCons(p, rest);
      var tail := XmlProperties(rest) + end;
      Associative(XmlProperty(p), XmlProperties(rest), end);
      XmlPropertiesRoundTrip(rest);
      PropertyStarts(p, tail);
      PropertyReads(p, tail);
    }
  }

  lemma ParseBody(ps: Pairs)
    ensures ParseXml(XmlText(ps)) == ParseProperties(XmlProperties(ps) + "</configuration>")
  {
    var body := XmlProperties(ps) + "</configuration>";
    Associative("<configuration>", XmlProperties(ps), "</configuration>");
    RootReads(body);
  }

  lemma RootReads(body: string)
    ensures ParseXml("<configuration>" + body) == ParseProperties(body)
  {
    var s := "<configuration>" + body;
    assert "<" + "configuration" + ">" == "<configuration>";
    assert s[0] == '<' && SkipSpace(s) == s;
    StartTagReads("configuration", body);
  }

  // ----- only clean pairs come back: what is decoded gets shorter, not counting white space -----

  function Ink(s: string): nat {
    if s == "" then 0 else Ink(s[..|s| - 1]) + if IsSpace(s[|s| - 1]) then 0 else 1
  }

  lemma {:induction false} InkConcat(a: string, b: string)
    ensures Ink(a + b) == Ink(a) + Ink(b)
  {
    if b == "" {
      assert a + b == a;
    } else {
      var init := b[..|b| - 1];
      assert (a + b)[..|a + b| - 1] == a + init;
      InkConcat(a, init);
    }
  }

  lemma InkAtMost(s: string)
    ensures Ink(s) <= |s|
  {
  }

  lemma {:induction false} InkAll(s: string)
    requires forall i :: 0 <= i < |s| ==> !IsSpace(s[i])
    ensures Ink(s) == |s|
  {
    if s != "" {
      InkAll(s[..|s| - 1]);
    }
  }

  lemma {:induction false} InkSkip(s: string)
    ensures Ink(SkipSpace(s)) == Ink(s)
    decreases |s|
  {
    if s != "" && IsSpace(s[0]) {
      assert s == [s[0]] + s[1..];
      InkConcat([s[0]], s[1..]);
      assert Ink([s[0]]) == 0;
      InkSkip(s[1..]);
    }
  }

  lemma InkCut(s: string, i: nat)
    requires i <= |s|
    ensures Ink(s) == Ink(s[..i]) + Ink(s[i..])
  {
    assert s == s[..i] + s[i..];
    InkConcat(s[..i], s[i..]);
  }

  lemma StartTagInk(s: string)
    requires StartTag(s).Some?
    ensures Ink(s) == |StartTag(s).value.what| + 2 + Ink(StartTag(s).value.rest)
  {
    var i := Find(s, '>');
    InkCut(s, i + 1);
    var tag := s[..i + 1];
    forall j | 0 <= j < |tag| ensures !IsSpace(tag[j]) {
      if 0 < j < i {
        assert tag[j] == s[1..i][j - 1];
      }
    }
    InkAll(tag);
  }

  lemma EndTagInk(s: string, name: string)
    requires IsTag(name) && EndTag(s, name).Some?
    ensures Ink(s) == |name| + 3 + Ink(EndTag(s, name).value)
  {
    var i := Find(s, '>');
    InkCut(s, i + 1);
    var tag := s[..i + 1];
    forall j | 0 <= j < |tag| ensures !IsSpace(tag[j]) {
      if 1 < j < i {
        assert tag[j] == s[2..i][j - 2];
      }
    }
    InkAll(tag);
  }

  /** Decoding replaces a reference, of at least two marks, by one character. */
  lemma {:induction false} DecodeInk(s: string)
    requires Decode(s).Some?
    ensures Ink(Decode(s).value) <= Ink(s)
    ensures Ink(Decode(s).value) == Ink(s) ==> '&' !in s && Decode(s).value == s
    decreases |s|
  {
    if s != "" {
      var i := if s[0] == '&' then Find(s, ';') else 0;
      var rest := s[i + 1..];
      var head := s[..i + 1];
      DecodeInk(rest);
      InkCut(s, i + 1);
      var c := Decode(s).value[0];
      assert Decode(s).value == [c] + Decode(rest).value;
      InkConcat([c], Decode(rest).value);
      InkAtMost([c]);
      if s[0] == '&' {
        ReferenceInk(head);
      } else {
        assert head == [c] && s == [c] + rest;
      }
    }
  }

  lemma ReferenceInk(s: string)
    requires |s| >= 2 && s[0] == '&' && s[|s| - 1] == ';'
    ensures Ink(s) >= 2
  {
    InkCut(s, 1);
    assert s[..1] == "&" && Ink("&") == Ink("") + 1;
  }

  lemma LeafInk(s: string)
    requires Leaf(s).Some?
    ensures var r := Leaf(s).value;
            && IsTag(r.what.0)
            && Ink(s) >= 2 * |r.what.0| + 5 + Ink(r.what.1) + Ink(r.rest)
            && (Ink(s) == 2 * |r.what.0| + 5 + Ink(r.what.1) + Ink(r.rest) ==> CharData(r.what.1))
  {
    var tag := StartTag(s).value;
    var i := Find(tag.rest, '<');
    StartTagInk(s);
    InkCut(tag.rest, i);
    DecodeInk(tag.rest[..i]);
    EndTagInk(tag.rest[i..], tag.what);
  }

  /** The tags of a property and its two leaves are 49 marks. */
  lemma PropertyInk(s: string)
    requires Property(s).Some?
    ensures var r := Property(s).value;
            && Ink(s) >= 49 + Ink(r.what.0) + Ink(r.what.1) + Ink(r.rest)
            && (Ink(s) == 49 + Ink(r.what.0) + Ink(r.what.1) + Ink(r.rest) ==> XmlClean(r.what))
  {
    var tag := StartTag(s).value;
    var a := Leaf(SkipSpace(tag.rest)).value;
    var b := Leaf(SkipSpace(a.rest)).value;
    StartTagInk(s);
    InkSkip(tag.rest);
    LeafInk(SkipSpace(tag.rest));
    InkSkip(a.rest);
    LeafInk(SkipSpace(a.rest));
    InkSkip(b.rest);
    EndTagInk(SkipSpace(b.rest), "property");
    assert |"property"| == 8 && |"name"| == 4 && |"value"| == 5;
  }

  /** The marks of a property list with the end tag of its root. */
  function Weight(ps: Pairs): nat {
    if ps == [] then 16 else 49 + Ink(ps[0].0) + Ink(ps[0].1) + Weight(ps[1..])
  }

  /** What was parsed has no more marks than its text, and if it has as many then nothing was decoded. */
  lemma {:induction false} ParsedWeight(s: string)
    requires ParseProperties(s).Some?
    ensures Weight(ParseProperties(s).value) <= Ink(s)
    ensures Weight(ParseProperties(s).value) == Ink(s) ==> forall p :: p in ParseProperties(s).value ==> XmlClean(p)
    decreases |s|
  {
    var t := SkipSpace(s);
    InkSkip(s);
    if EndTag(t, "configuration").Some? {
      EndTagInk(t, "configuration");
      assert |"configuration"| == 13;
    } else {
      var p := Property(t).value;
      PropertyInk(t);
      ParsedWeight(p.rest);
      var tail := ParseProperties(p.rest).value;
      assert ParseProperties(s).value == [p.what] + tail;
      assert ([p.what] + tail)[1..] == tail;
    }
  }

  lemma PropertyTextInk(p: (string, string))
    ensures Ink(XmlProperty(p)) <= 49 + Ink(p.0) + Ink(p.1)
  {
    var a, b, c := "<property>\n\t<name>", "</name>\n\t<value>", "</value>\n</property>";
    InkConcat(a + p.0 + b + p.1, c);
    InkConcat(a + p.0 + b, p.1);
    InkConcat(a + p.0, b);
    InkConcat(a, p.0);
    InkAround("<property>", "\n\t", "<name>");
    InkAround("</name>", "\n\t", "<value>");
    InkAround("</value>", "\n", "</property>");
    assert "<property>" + "\n\t" + "<name>" == a;
    assert "</name>" + "\n\t" + "<value>" == b;
    assert "</value>" + "\n" + "</property>" == c;
  }

  lemma InkAround(a: string, space: string, b: string)
    requires |space| <= 2 && forall i :: 0 <= i < |space| ==> IsSpace(space[i])
    ensures Ink(a + space + b) <= |a| + |b|
  {
    InkConcat(a + space, b);
    InkConcat(a, space);
    InkAtMost(a);
    InkAtMost(b);
    assert Ink(space) == 0 by {
      assert space == "" || Ink(space[..|space| - 1]) == 0;
    }
  }

  lemma {:induction false} TextWeight(ps: Pairs)
    ensures Ink(XmlProperties(ps) + "</configuration>") <= Weight(ps)
    decreases |ps|
  {
    var end := "</configuration>";
    if ps == [] {
      assert XmlProperties(ps) + end == end;
      InkAtMost(end);
    } else {
      assert ps == [ps[0]] + ps[1..];
      XmlPropertiesCons(ps[0], ps[1..]);
      Associative(XmlProperty(ps[0]), XmlProperties(ps[1..]), end);
      InkConcat(XmlProperty(ps[0]), XmlProperties(ps[1..]) + end);
      PropertyTextInk(ps[0]);
      TextWeight(ps[1..]);
    }
  }

  lemma {:induction false} WeightRemove(qs: Pairs, i: nat)
    requires i < |qs|
    ensures Weight(qs) == 49 + Ink(qs[i].0) + Ink(qs[i].1) + Weight(qs[..i] + qs[i + 1..])
    decreases |qs|
  {
    if i == 0 {
      assert qs[..i] + qs[i + 1..] == qs[1..];
    } else {
      WeightRemove(qs[1..], i - 1);
      assert (qs[..i] + qs[i + 1..])[1..] == qs[1..][..i - 1] + qs[1..][i..];
    }
  }

  /** A list that holds all of some distinct pairs weighs at least as much as they do. */
  lemma {:induction false} WeightCovers(ps: Pairs, qs: Pairs)
    requires forall i, j :: 0 <= i < j < |ps| ==> ps[i] != ps[j]
    requires forall p :: p in ps ==> p in qs
    ensures Weight(ps) <= Weight(qs)
    decreases |ps|
  {
    if ps == [] {
      WeightLeast(qs);
    } else {
      assert ps[0] in ps;
      var i :| 0 <= i < |qs| && qs[i] == ps[0];
      var rest := qs[..i] + qs[i + 1..];
      forall p | p in ps[1..] ensures p in rest {
        assert p in ps && p != ps[0];
      }
      WeightCovers(ps[1..], rest);
      WeightRemove(qs, i);
    }
  }

  lemma WeightLeast(qs: Pairs)
    ensures Weight(qs) >= 16
  {
  }

  /**
   The document built before formatting, read as XML, gives back exactly the given pairs, in their order, if
   and only if they are character data.
   */
  lemma XmlRoundTrip(ps: Pairs)
    ensures ParseXml(XmlText(ps)) == Some(ps) <==> forall p :: p in ps ==> XmlClean(p)
  {
    var body := XmlProperties(ps) + "</configuration>";
    ParseBody(ps);
    if forall p :: p in ps ==> XmlClean(p) {
      XmlPropertiesRoundTrip(ps);
    }
    if ParseXml(XmlText(ps)) == Some(ps) {
      ParsedWeight(body);
      TextWeight(ps);
    }
  }

  /** A document of the map, which parses back to it exactly when the map is character data. */
  ghost predicate XmlMeans(m: Conf, s: string) {
    RendersXml(m, s) && (ParseXml(s).Some? && MapOf(ParseXml(s).value) == m <==> XmlCleanMap(m))
  }

  /** At the level of maps: any rendering means its map exactly when names and values are character data. */
  lemma XmlMeaning(m: Conf, s: string)
    requires RendersXml(m, s)
    ensures ParseXml(s).Some? && MapOf(ParseXml(s).value) == m <==> XmlCleanMap(m)
  {
    var order :| IsOrder(order, m.Keys) && s == XmlText(PairsOf(order, m));
    var ps := PairsOf(order, m);
    if XmlCleanMap(m) {
      XmlRoundTrip(ps);
      MapOfOrder(order, m);
    }
    if ParseXml(s).Some? && MapOf(ParseXml(s).value) == m {
      XmlMeaningIsClean(order, m);
    }
  }

  /** Pairs that mean the map hold each of its entries, so they weigh no less than the text they came from. */
  lemma XmlMeaningIsClean(order: seq<string>, m: Conf)
    requires IsOrder(order, m.Keys)
    requires var qs := ParseXml(XmlText(PairsOf(order, m))); qs.Some? && MapOf(qs.value) == m
    ensures XmlCleanMap(m)
  {
    var ps := PairsOf(order, m);
    var body := XmlProperties(ps) + "</configuration>";
    ParseBody(ps);
    var qs := ParseProperties(body).value;
    EntriesCovered(order, m, qs);
    WeightCovers(ps, qs);
    TextWeight(ps);
    ParsedWeight(body);
  }

  lemma EntriesCovered(order: seq<string>, m: Conf, qs: Pairs)
    requires IsOrder(order, m.Keys) && MapOf(qs) == m
    ensures forall p :: p in PairsOf(order, m) ==> p in qs
    ensures forall k :: k in m ==> (k, m[k]) in qs
  {
    forall k | k in m ensures (k, m[k]) in qs {
      MapOfEntry(qs, k);
    }
    assert forall p :: p in PairsOf(order, m) ==> p.0 in m && p == (p.0, m[p.0]);
  }

  /** Different clean maps never share a document. */
  lemma XmlTextDeterminesMap(m: Conf, n: Conf, s: string)
    requires RendersXml(m, s) && RendersXml(n, s)
    requires XmlCleanMap(m) && XmlCleanMap(n)
    ensures m == n
  {
    XmlMeaning(m, s);
    XmlMeaning(n, s);
  }
}
