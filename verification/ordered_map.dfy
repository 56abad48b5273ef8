/** Insertion-ordered association lists with the semantics of a JavaScript
    `Map` keyed by strings: `Set` on a new key appends the entry, `Set` on a
    key already present replaces its value and keeps the key's original
    position, and iteration follows first-insertion order. */
module OrderedMap {
  import opened Wrappers

  /** Entries keyed by name, in iteration order. */
  type Assoc<V> = seq<(string, V)>

  /** The keys, in iteration order (`Map.prototype.keys`). */
  function Keys<V>(m: Assoc<V>): (r: seq<string>)
    ensures |r| == |m|
    ensures forall i :: 0 <= i < |m| ==> r[i] == m[i].0
  {
    seq(|m|, i requires 0 <= i < |m| => m[i].0)
  }

  /** No key occurs twice, which every map built with `Set` satisfies. */
  predicate UniqueKeys<V>(m: Assoc<V>) {
    forall i, j :: 0 <= i < j < |m| ==> m[i].0 != m[j].0
  }

  /** The position of `k`: the first entry with that key. */
  function IndexOf<V>(m: Assoc<V>, k: string): (i: nat)
    requires k in Keys(m)
    ensures i < |m| && m[i].0 == k
    ensures forall j :: 0 <= j < i ==> m[j].0 != k
  {
    if m[0].0 == k then 0
    else
      assert k in Keys(m[1..]) by {
        var p :| 0 <= p < |m| && Keys(m)[p] == k;
        assert Keys(m[1..])[p - 1] == k;
      }
      1 + IndexOf(m[1..], k)
  }

  /** An entry with no earlier entry of the same key is the one `IndexOf` finds. */
  lemma IndexOfIs<V>(m: Assoc<V>, k: string, i: nat)
    requires i < |m| && m[i].0 == k
    requires forall j :: 0 <= j < i ==> m[j].0 != k
    ensures k in Keys(m)
    ensures IndexOf(m, k) == i
  {
    assert Keys(m)[i] == k;
  }

  /** `m.get(k)`: the value stored under `k`, if any. */
  function Get<V>(m: Assoc<V>, k: string): (r: Option<V>)
    ensures r.None? <==> k !in Keys(m)
  {
    if k in Keys(m) then Some(m[IndexOf(m, k)].1) else None
  }

  /** `m.set(k, v)`. */
  function Set<V>(m: Assoc<V>, k: string, v: V): (r: Assoc<V>)
    ensures Keys(r) == if k in Keys(m) then Keys(m) else Keys(m) + [k]
    ensures Get(r, k) == Some(v)
  {
    if k in Keys(m) then
      var i := IndexOf(m, k);
      var r := m[i := (k, v)];
      IndexOfIs(r, k, i);
      assert Keys(r) == Keys(m);
      r
    else
      var r := m + [(k, v)];
      assert forall j :: 0 <= j < |m| ==> m[j].0 == Keys(m)[j];
      IndexOfIs(r, k, |m|);
      assert Keys(r) == Keys(m) + [k];
      r
  }

  /** `Set` leaves every other key's value alone. */
  lemma SetOther<V>(m: Assoc<V>, k: string, v: V, other: string)
    requires other != k
    ensures Get(Set(m, k, v), other) == Get(m, other)
  {
    var r := Set(m, k, v);
    if other in Keys(m) {
      var p := IndexOf(m, other);
      assert r[p] == m[p];
      IndexOfIs(r, other, p);
    }
  }

  /** `Set` on a key that is present changes only that key's entry, in place. */
  lemma SetExisting<V>(m: Assoc<V>, k: string, v: V)
    requires k in Keys(m)
    ensures |Set(m, k, v)| == |m|
    ensures Set(m, k, v)[IndexOf(m, k)] == (k, v)
    ensures forall j :: 0 <= j < |m| && j != IndexOf(m, k) ==> Set(m, k, v)[j] == m[j]
  {
  }

  /** `Set` on a new key appends the entry. */
  lemma SetNew<V>(m: Assoc<V>, k: string, v: V)
    requires k !in Keys(m)
    ensures Set(m, k, v) == m + [(k, v)]
  {
  }

  /** With unique keys, the entry at position `i` is the one found for its key. */
  lemma IndexOfUnique<V>(m: Assoc<V>, i: nat)
    requires UniqueKeys(m)
    requires i < |m|
    ensures m[i].0 in Keys(m)
    ensures IndexOf(m, m[i].0) == i
    ensures Get(m, m[i].0) == Some(m[i].1)
  {
    IndexOfIs(m, m[i].0, i);
  }

  /** `Set` keeps keys unique. */
  lemma SetUnique<V>(m: Assoc<V>, k: string, v: V)
    requires UniqueKeys(m)
    ensures UniqueKeys(Set(m, k, v))
  {
    var r := Set(m, k, v);
    var ks := Keys(r);
    assert forall i :: 0 <= i < |r| ==> r[i].0 == ks[i];
    assert forall i :: 0 <= i < |m| ==> ks[i] == Keys(m)[i];
  }
}
