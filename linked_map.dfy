/**
 * A Java `Map<String, String>` as the code iterates it: a sequence of
 * (key, value) entries with distinct keys, in iteration order. `Put` keeps
 * the position of an existing key and appends a new one, which is exactly
 * `LinkedHashMap`; for `HashMap` Java leaves the order unspecified and the
 * model uses the same insertion order.
 */
module LinkedMap {
  import opened Optional

  ghost predicate DistinctKeys(m: seq<(string, string)>) {
    forall i, j :: 0 <= i < j < |m| ==> m[i].0 != m[j].0
  }

  type LinkedMap = m: seq<(string, string)> | DistinctKeys(m) witness []

  /** Position of key k in m, or |m| when k is absent. */
  function KeyIndex(m: seq<(string, string)>, k: string): (i: nat)
    ensures i <= |m|
    ensures i < |m| ==> m[i].0 == k
    ensures forall j :: 0 <= j < i ==> m[j].0 != k
  {
    if m == [] then 0 else if m[0].0 == k then 0 else 1 + KeyIndex(m[1..], k)
  }

  predicate HasKey(m: LinkedMap, k: string) {
    KeyIndex(m, k) < |m|
  }

  /** `get`: the value stored under k, if any. */
  function Get(m: LinkedMap, k: string): Option<string> {
    var i := KeyIndex(m, k);
    if i < |m| then Some(m[i].1) else None
  }

  function Keys(m: seq<(string, string)>): (ks: seq<string>)
    ensures |ks| == |m| && forall i :: 0 <= i < |m| ==> ks[i] == m[i].0
  {
    if m == [] then [] else [m[0].0] + Keys(m[1..])
  }

  /** `put`: k now maps to v; every other key keeps its value and position. */
  function Put(m: LinkedMap, k: string, v: string): (r: LinkedMap)
    ensures Get(r, k) == Some(v)
    ensures forall k' :: k' != k ==> Get(r, k') == Get(m, k')
    ensures HasKey(m, k) ==> |r| == |m| && Keys(r) == Keys(m)
    ensures !HasKey(m, k) ==> r == m + [(k, v)]
  {
    var i := KeyIndex(m, k);
    if i < |m| then
      ReplaceKeepsKeys(m, i, k, v);
      m[i := (k, v)]
    else
      AppendNewKey(m, k, v);
      m + [(k, v)]
  }

  lemma ReplaceKeepsKeys(m: LinkedMap, i: nat, k: string, v: string)
    requires i == KeyIndex(m, k) < |m|
    ensures var r := m[i := (k, v)];
      && DistinctKeys(r)
      && Keys(r) == Keys(m)
      && KeyIndex(r, k) == i
      && forall k' :: KeyIndex(r, k') == KeyIndex(m, k')
  {
    var r := m[i := (k, v)];
    assert forall j :: 0 <= j < |r| ==> r[j].0 == m[j].0;
    forall k' ensures KeyIndex(r, k') == KeyIndex(m, k') {
      KeyIndexSameKeys(r, m, k');
    }
  }

  lemma AppendNewKey(m: LinkedMap, k: string, v: string)
    requires KeyIndex(m, k) == |m|
    ensures var r := m + [(k, v)];
      && DistinctKeys(r)
      && KeyIndex(r, k) == |m|
      && forall k' :: k' != k ==> KeyIndex(r, k') == (if KeyIndex(m, k') < |m| then KeyIndex(m, k') else |r|)
  {
    KeyIndexAppend(m, (k, v), k);
    forall k' | k' != k ensures KeyIndex(m + [(k, v)], k') == (if KeyIndex(m, k') < |m| then KeyIndex(m, k') else |m| + 1) {
      KeyIndexAppend(m, (k, v), k');
    }
  }

  lemma {:induction false} KeyIndexSameKeys(a: seq<(string, string)>, b: seq<(string, string)>, k: string)
    requires |a| == |b| && forall j :: 0 <= j < |a| ==> a[j].0 == b[j].0
    ensures KeyIndex(a, k) == KeyIndex(b, k)
  {
    if a != [] && a[0].0 != k {
      KeyIndexSameKeys(a[1..], b[1..], k);
    }
  }

  lemma {:induction false} KeyIndexAppend(m: seq<(string, string)>, e: (string, string), k: string)
    ensures KeyIndex(m + [e], k) == if KeyIndex(m, k) < |m| || e.0 == k then KeyIndex(m, k) else |m| + 1
  {
    if m != [] && m[0].0 != k {
      assert (m + [e])[1..] == m[1..] + [e];
      KeyIndexAppend(m[1..], e, k);
    }
  }

  /** The entries laid out as key, value, key, value, ... */
  function Flatten(m: seq<(string, string)>): (r: seq<string>)
    ensures |r| == 2 * |m|
    ensures forall i :: 0 <= i < |m| ==> r[2 * i] == m[i].0 && r[2 * i + 1] == m[i].1
  {
    if m == [] then [] else [m[0].0, m[0].1] + Flatten(m[1..])
  }
}
