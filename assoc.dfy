/**
 * Ordered association lists: the own properties of a JavaScript object, and the
 * key/value table that reflect-metadata keeps per target. Keys come in insertion
 * order; assigning an existing key keeps its position, and `delete` removes it.
 */
module Assoc {
  import opened Errors

  datatype Entry<K, +V> = Entry(key: K, val: V)

  /** The keys in order (what `for...in` and `Reflect.getMetadataKeys` enumerate). */
  function Keys<K(==), V>(s: seq<Entry<K, V>>): (ks: seq<K>)
    ensures |ks| == |s|
    ensures forall i :: 0 <= i < |s| ==> ks[i] == s[i].key
  {
    if s == [] then [] else [s[0].key] + Keys(s[1..])
  }

  predicate Distinct<K(==)>(ks: seq<K>) {
    forall i, j :: 0 <= i < j < |ks| ==> ks[i] != ks[j]
  }

  /** Property read `o[k]`: the first entry with that key. */
  function Get<K(==), V>(s: seq<Entry<K, V>>, k: K): (r: Option<V>)
    ensures r.None? <==> k !in Keys(s)
  {
    if s == [] then None
    else if s[0].key == k then Some(s[0].val)
    else Get(s[1..], k)
  }

  /** Property write `o[k] = v`: replaces the value in place, or appends a new key. */
  function Put<K(==,!new), V>(s: seq<Entry<K, V>>, k: K, v: V): (r: seq<Entry<K, V>>)
    ensures Get(r, k) == Some(v)
    ensures forall k' :: k' != k ==> Get(r, k') == Get(s, k')
    ensures Keys(r) == if k in Keys(s) then Keys(s) else Keys(s) + [k]
  {
    if s == [] then [Entry(k, v)]
    else if s[0].key == k then
      PutAtHead(s, k, v);
      [Entry(k, v)] + s[1..]
    else
      var tail := Put(s[1..], k, v);
      PutUnderHead(s[0], s[1..], tail, k, v);
      assert [s[0]] + s[1..] == s;
      [s[0]] + tail
  }

  /** A write past the first entry leaves that entry in front; the step `Put` takes when the first key differs. */
  lemma PutUnderHead<K(!new), V>(e: Entry<K, V>, s: seq<Entry<K, V>>, tail: seq<Entry<K, V>>, k: K, v: V)
    requires e.key != k
    requires Get(tail, k) == Some(v)
    requires forall k' :: k' != k ==> Get(tail, k') == Get(s, k')
    requires Keys(tail) == if k in Keys(s) then Keys(s) else Keys(s) + [k]
    ensures Get([e] + tail, k) == Some(v)
    ensures forall k' :: k' != k ==> Get([e] + tail, k') == Get([e] + s, k')
    ensures Keys([e] + tail) == if k in Keys([e] + s) then Keys([e] + s) else Keys([e] + s) + [k]
  {
    var r, s' := [e] + tail, [e] + s;
    assert r[1..] == tail && s'[1..] == s;
    forall k' | k' != k ensures Get(r, k') == Get(s', k') {
      if k' != e.key {
        assert Get(r, k') == Get(tail, k');
        assert Get(s', k') == Get(s, k');
      }
    }
    ConsKeys(e, s, tail, k);
  }

  /** The key half of `PutUnderHead`. */
  lemma ConsKeys<K, V>(e: Entry<K, V>, s: seq<Entry<K, V>>, tail: seq<Entry<K, V>>, k: K)
    requires e.key != k
    requires Keys(tail) == if k in Keys(s) then Keys(s) else Keys(s) + [k]
    ensures Keys([e] + tail) == if k in Keys([e] + s) then Keys([e] + s) else Keys([e] + s) + [k]
  {
    var r, s' := [e] + tail, [e] + s;
    assert r[1..] == tail && s'[1..] == s;
    assert Keys(r) == [e.key] + Keys(tail);
    assert Keys(s') == [e.key] + Keys(s);
    assert (k in Keys(s')) == (k in Keys(s));
  }

  /** Writing the first key replaces its value where it stands; the other step of `Put`. */
  lemma PutAtHead<K(!new), V>(s: seq<Entry<K, V>>, k: K, v: V)
    requires s != [] && s[0].key == k
    ensures Get([Entry(k, v)] + s[1..], k) == Some(v)
    ensures forall k' :: k' != k ==> Get([Entry(k, v)] + s[1..], k') == Get(s, k')
    ensures k in Keys(s) && Keys([Entry(k, v)] + s[1..]) == Keys(s)
  {
    var r := [Entry(k, v)] + s[1..];
    assert r[0] == Entry(k, v) && r[1..] == s[1..];
    assert Keys(r) == [k] + Keys(s[1..]);
    assert Keys(s) == [k] + Keys(s[1..]);
  }

  /** `delete o[k]`: removes the key. */
  function Remove<K(==,!new), V>(s: seq<Entry<K, V>>, k: K): (r: seq<Entry<K, V>>)
    ensures Get(r, k) == None
    ensures forall k' :: k' != k ==> Get(r, k') == Get(s, k')
    ensures forall i :: 0 <= i < |r| ==> r[i] in s && r[i].key != k
    ensures forall i :: 0 <= i < |s| && s[i].key != k ==> s[i] in r
  {
    if s == [] then []
    else if s[0].key == k then Remove(s[1..], k)
    else [s[0]] + Remove(s[1..], k)
  }

  /** Dropping the first key keeps the rest distinct, and the first key does not come back. */
  lemma DistinctTail<K>(ks: seq<K>)
    requires Distinct(ks) && ks != []
    ensures Distinct(ks[1..]) && ks[0] !in ks[1..]
  {
    forall i, j | 0 <= i < j < |ks[1..]| ensures ks[1..][i] != ks[1..][j] {
      assert ks[1..][i] == ks[i + 1] && ks[1..][j] == ks[j + 1];
    }
    forall i | 0 <= i < |ks[1..]| ensures ks[1..][i] != ks[0] {
      assert ks[1..][i] == ks[i + 1];
    }
  }

  /** The same for the keys of an entry list. */
  lemma DistinctKeysTail<K, V>(s: seq<Entry<K, V>>)
    requires Distinct(Keys(s)) && s != []
    ensures Distinct(Keys(s[1..])) && s[0].key !in Keys(s[1..])
  {
    assert Keys(s[1..]) == Keys(s)[1..];
    DistinctTail(Keys(s));
  }

  lemma {:induction false} PutKeepsDistinct<K(!new), V>(s: seq<Entry<K, V>>, k: K, v: V)
    requires Distinct(Keys(s))
    ensures Distinct(Keys(Put(s, k, v)))
  {
    var ks := Keys(s);
    if k !in ks {
      var ks' := ks + [k];
      forall i, j | 0 <= i < j < |ks'| ensures ks'[i] != ks'[j] {
        if j == |ks| { assert ks'[i] == ks[i]; assert ks[i] in ks; } else { assert ks'[i] == ks[i] && ks'[j] == ks[j]; }
      }
    }
  }

  /** With distinct keys, the entry with key `k` at position `i` is the one `Get` finds. */
  lemma {:induction false} GetAt<K, V>(s: seq<Entry<K, V>>, i: nat)
    requires Distinct(Keys(s)) && i < |s|
    ensures Get(s, s[i].key) == Some(s[i].val)
  {
    if i > 0 {
      assert Keys(s)[0] != Keys(s)[i];
      assert Keys(s[1..]) == Keys(s)[1..];
      GetAt(s[1..], i - 1);
    }
  }

  /** A second write to the same key replaces the first. */
  lemma {:induction false} PutPut<K(!new), V>(s: seq<Entry<K, V>>, k: K, v1: V, v2: V)
    ensures Put(Put(s, k, v1), k, v2) == Put(s, k, v2)
  {
    if s != [] && s[0].key != k {
      PutPut(s[1..], k, v1, v2);
      var once := Put(s, k, v1);
      assert once[0] == s[0] && once[1..] == Put(s[1..], k, v1);
    }
  }

  /** Element `i` of a sequence is element `i - 1` of its tail. */
  lemma TailAt<T>(s: seq<T>, i: nat)
    requires 0 < i < |s|
    ensures s[1..][i - 1] == s[i]
  {
  }
}
