/** Python's insertion-ordered `dict`, as a sequence of entries with distinct
    keys. Used where the source depends on dictionary order (bound
    arguments, registries, generated code). */
module ODict {
  import opened Wrappers

  datatype Entry<K, V> = Entry(key: K, val: V)

  function Keys<K, V>(d: seq<Entry<K, V>>): (ks: seq<K>)
    ensures |ks| == |d|
    ensures forall i :: 0 <= i < |d| ==> ks[i] == d[i].key
  {
    seq(|d|, i requires 0 <= i < |d| => d[i].key)
  }

  lemma KeysCons<K, V>(d: seq<Entry<K, V>>)
    requires |d| > 0
    ensures Keys(d) == [d[0].key] + Keys(d[1..])
  {
  }

  /** A well-formed dictionary holds each key at most once. */
  predicate Wf<K(==), V>(d: seq<Entry<K, V>>)
    decreases |d|
  {
    |d| == 0 || (d[0].key !in Keys(d[1..]) && Wf(d[1..]))
  }

  /** Python `d.get(k)`. */
  function Get<K(==), V>(d: seq<Entry<K, V>>, k: K): (r: Option<V>)
    ensures r.Some? <==> k in Keys(d)
    ensures r.Some? ==> Entry(k, r.value) in d
    decreases |d|
  {
    if |d| == 0 then None
    else if d[0].key == k then Some(d[0].val)
    else
      KeysCons(d);
      Get(d[1..], k)
  }

  /** In a well-formed dictionary an entry is what `get` finds. */
  lemma {:induction false} GetUnique<K, V>(d: seq<Entry<K, V>>, k: K, v: V)
    requires Wf(d) && Entry(k, v) in d
    ensures Get(d, k) == Some(v)
    decreases |d|
  {
    if d[0] != Entry(k, v) {
      assert Entry(k, v) in d[1..];
      GetUnique(d[1..], k, v);
      var i :| 0 <= i < |d[1..]| && d[1..][i] == Entry(k, v);
      assert Keys(d[1..])[i] == k;
    }
  }

  /** Python `d.pop(k, None)`: the dictionary without `k`, order kept. */
  function Remove<K(==,!new), V(!new)>(d: seq<Entry<K, V>>, k: K): (r: seq<Entry<K, V>>)
    ensures forall e :: e in r <==> e in d && e.key != k
    ensures forall x :: x in Keys(r) <==> x in Keys(d) && x != k
    decreases |d|
  {
    if |d| == 0 then d
    else
      var rest := Remove(d[1..], k);
      KeysCons(d);
      if d[0].key == k then rest
      else
        var r := [d[0]] + rest;
        KeysCons(r);
        assert r[1..] == rest;
        r
  }

  lemma RemoveAbsent<K(!new), V(!new)>(d: seq<Entry<K, V>>, k: K)
    requires k !in Keys(d)
    ensures Remove(d, k) == d
    decreases |d|
  {
    if |d| > 0 {
      KeysCons(d);
      RemoveAbsent(d[1..], k);
    }
  }

  /** Removing a key keeps the keys distinct. */
  lemma {:induction false} RemoveWf<K(!new), V(!new)>(d: seq<Entry<K, V>>, k: K)
    requires Wf(d)
    ensures Wf(Remove(d, k))
    decreases |d|
  {
    if |d| > 0 {
      KeysCons(d);
      RemoveWf(d[1..], k);
      var rest := Remove(d[1..], k);
      if d[0].key != k {
        var r := [d[0]] + rest;
        assert Remove(d, k) == r;
        assert r[1..] == rest;
        KeysCons(r);
      }
    }
  }

  /** Python `for k in ks: d.pop(k, None)`. */
  function RemoveAll<K(==,!new), V(!new)>(d: seq<Entry<K, V>>, ks: seq<K>): (r: seq<Entry<K, V>>)
    ensures forall e :: e in r <==> e in d && e.key !in ks
    ensures forall x :: x in Keys(r) <==> x in Keys(d) && x !in ks
    decreases |ks|
  {
    if |ks| == 0 then d
    else
      var r := RemoveAll(Remove(d, ks[0]), ks[1..]);
      assert forall x :: x in ks <==> x == ks[0] || x in ks[1..];
      r
  }

  /** Python `d[k] = v`: replaces the value in place when `k` is present,
      otherwise appends a new last entry. */
  function Put<K(==), V>(d: seq<Entry<K, V>>, k: K, v: V): (r: seq<Entry<K, V>>)
    ensures k in Keys(d) ==> Keys(r) == Keys(d)
    ensures k !in Keys(d) ==> Keys(r) == Keys(d) + [k]
    decreases |d|
  {
    if |d| == 0 then [Entry(k, v)]
    else if d[0].key == k then [Entry(k, v)] + d[1..]
    else
      KeysCons(d);
      var r := [d[0]] + Put(d[1..], k, v);
      KeysCons(r);
      r
  }

  /** After `d[k] = v`, `k` maps to `v` and every other key is unchanged. */
  lemma {:induction false} PutGet<K, V>(d: seq<Entry<K, V>>, k: K, v: V, x: K)
    ensures Get(Put(d, k, v), k) == Some(v)
    ensures x != k ==> Get(Put(d, k, v), x) == Get(d, x)
    decreases |d|
  {
    if |d| > 0 && d[0].key != k {
      PutGet(d[1..], k, v, x);
      assert Put(d, k, v)[1..] == Put(d[1..], k, v);
    } else if |d| > 0 {
      assert Put(d, k, v)[1..] == d[1..];
    }
  }

  /** `d[k] = v` leaves every other key's value as it was. */
  lemma PutFrames<K, V>(d: seq<Entry<K, V>>, k: K, v: V)
    ensures forall x :: x != k ==> Get(Put(d, k, v), x) == Get(d, x)
  {
    forall x | x != k
      ensures Get(Put(d, k, v), x) == Get(d, x)
    {
      PutGet(d, k, v, x);
    }
  }

  /** `d[k] = v` keeps the keys distinct. */
  lemma {:induction false} PutWf<K, V>(d: seq<Entry<K, V>>, k: K, v: V)
    requires Wf(d)
    ensures Wf(Put(d, k, v))
    decreases |d|
  {
    var r := Put(d, k, v);
    if |d| > 0 {
      KeysCons(d);
      KeysCons(r);
      if d[0].key == k {
        assert r[1..] == d[1..];
      } else {
        PutWf(d[1..], k, v);
        assert r[1..] == Put(d[1..], k, v);
      }
    }
  }

  /** The entries as an unordered map. */
  function ToMap<K(==,!new), V>(d: seq<Entry<K, V>>): (m: map<K, V>)
    ensures forall x :: x in m <==> x in Keys(d)
    ensures forall x :: x in m ==> Get(d, x) == Some(m[x])
    decreases |d|
  {
    if |d| == 0 then map[]
    else
      KeysCons(d);
      ToMap(d[1..])[d[0].key := d[0].val]
  }
}
