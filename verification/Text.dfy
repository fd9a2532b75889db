/** The string functions of Go's standard library the operator relies on. */
module Text {
  import opened Base

  /** The position of the first `c`, or the length of `s` when there is none. */
  function Find(s: string, c: char): (i: nat)
    ensures i <= |s|
    ensures c !in s[..i]
    ensures i < |s| ==> s[i] == c
  {
    if s == "" || s[0] == c then 0
    else
      var i := Find(s[1..], c);
      assert s[..i + 1] == [s[0]] + s[1..][..i];
      i + 1
  }

  lemma {:induction false} FindAfter(a: string, b: string, c: char)
    requires c !in a
    requires b != "" && b[0] == c
    ensures Find(a + b, c) == |a|
  {
    if a == "" {
      assert a + b == b;
    } else {
      assert (a + b)[1..] == a[1..] + b;
      FindAfter(a[1..], b, c);
    }
  }

  /** `strings.Split` with a separator of one character. */
  function Split(s: string, c: char): (parts: seq<string>)
    ensures |parts| > 0
  {
    var i := Find(s, c);
    if i == |s| then [s] else [s[..i]] + Split(s[i + 1..], c)
  }

  /** `strings.Join`. */
  function Join(parts: seq<string>, sep: string): string {
    if parts == [] then ""
    else if |parts| == 1 then parts[0]
    else parts[0] + sep + Join(parts[1..], sep)
  }

  /** No part of a split text holds the separator... */
  lemma {:induction false} SplitParts(s: string, c: char)
    ensures forall i :: 0 <= i < |Split(s, c)| ==> c !in Split(s, c)[i]
    decreases |s|
  {
    var i := Find(s, c);
    if i == |s| {
      assert s[..i] == s;
    } else {
      SplitParts(s[i + 1..], c);
    }
  }

  lemma JoinCons(head: string, tail: seq<string>, sep: string)
    requires tail != []
    ensures Join([head] + tail, sep) == head + sep + Join(tail, sep)
  {
    assert ([head] + tail)[1..] == tail;
  }

  lemma CutAt(s: string, i: nat)
    requires i < |s|
    ensures s[..i] + [s[i]] + s[i + 1..] == s
  {
  }

  /** ... and joining the parts gives the text back, so nothing is lost. */
  lemma {:induction false} JoinOfSplit(s: string, c: char)
    ensures Join(Split(s, c), [c]) == s
    decreases |s|
  {
    var i := Find(s, c);
    if i < |s| {
      JoinOfSplit(s[i + 1..], c);
      JoinCons(s[..i], Split(s[i + 1..], c), [c]);
      CutAt(s, i);
    }
  }

  lemma {:induction false} SplitOfJoin(parts: seq<string>, c: char)
    requires parts != []
    requires forall i :: 0 <= i < |parts| ==> c !in parts[i]
    ensures Split(Join(parts, [c]), c) == parts
    decreases |parts|
  {
    var head := parts[0];
    if |parts| == 1 {
      assert Find(head, c) == |head|;
      assert parts == [head];
    } else {
      var tail := Join(parts[1..], [c]);
      var s := Join(parts, [c]);
      assert s == head + ([c] + tail);
      FindAfter(head, [c] + tail, c);
      assert s[..|head|] == head && s[|head| + 1..] == tail;
      SplitOfJoin(parts[1..], c);
    }
  }

  /** `Reconcile` recovers the object name from the printed request; this says when that is the name. */
  lemma RequestName(ns: string, name: string)
    requires '/' !in ns
    ensures |Split(ns + "/" + name, '/')| > 1
    ensures Split(ns + "/" + name, '/')[1] == name <==> '/' !in name
  {
    var s := ns + "/" + name;
    assert s == ns + ("/" + name);
    FindAfter(ns, "/" + name, '/');
    assert s[|ns| + 1..] == name;
    var rest := Split(name, '/');
    assert Split(s, '/') == [s[..|ns|]] + rest;
    SplitParts(name, '/');
    if '/' !in name {
      SplitOfJoin([name], '/');
    }
  }

  function Digit(d: nat): (c: char)
    requires d < 10
    ensures '0' <= c <= '9'
  {
    '0' + d as char
  }

  /** `strconv.Itoa` on a slice index. */
  function Itoa(n: nat): (s: string)
    ensures s != ""
  {
    if n < 10 then [Digit(n)] else Itoa(n / 10) + [Digit(n % 10)]
  }

  lemma {:induction false} ItoaInjective(m: nat, n: nat)
    requires Itoa(m) == Itoa(n)
    ensures m == n
    decreases m + n
  {
    var s, t := Itoa(m), Itoa(n);
    assert s[|s| - 1] == Digit(m % 10) && t[|t| - 1] == Digit(n % 10);
    assert m % 10 == n % 10;
    if m >= 10 || n >= 10 {
      if m < 10 || n < 10 {
        assert false;
      } else {
        assert s[..|s| - 1] == Itoa(m / 10) && t[..|t| - 1] == Itoa(n / 10);
        ItoaInjective(m / 10, n / 10);
      }
    }
  }

  // ----- reading numbers -----

  function DigitValue(c: char): nat {
    if '0' <= c <= '9' then (c - '0') as nat
    else if 'a' <= c <= 'f' then (c - 'a') as nat + 10
    else if 'A' <= c <= 'F' then (c - 'A') as nat + 10
    else 16
  }

  function Number(digits: string, radix: nat): Option<nat> {
    if digits == "" then None
    else
      var n := |digits| - 1;
      var d := DigitValue(digits[n]);
      if d >= radix then None
      else if n == 0 then Some(d)
      else
        var high :- Number(digits[..n], radix);
        Some(high * radix + d)
  }

  lemma DigitReads(d: nat)
    requires d < 10
    ensures DigitValue(Digit(d)) == d
  {
  }

  /** Read as a decimal number, the text of an index is that index, without leading zeros. */
  lemma {:induction false} ItoaReads(n: nat)
    ensures Number(Itoa(n), 10) == Some(n)
    ensures n > 0 ==> Itoa(n)[0] != '0'
    decreases n
  {
    DigitReads(n % 10);
    if n >= 10 {
      ItoaReads(n / 10);
      var s := Itoa(n);
      assert s[..|s| - 1] == Itoa(n / 10);
    }
  }
}
