// Insertion-ordered maps, as the language runtime provides them: iteration follows the
// order of first insertion, setting a present key keeps its place, and deleting a key
// forgets it.

module OrderedMaps {

  datatype Entry<+K, +V> = Entry(key: K, value: V)

  predicate Distinct<K(==), V>(m: seq<Entry<K, V>>) {
    forall i, j :: 0 <= i < j < |m| ==> m[i].key != m[j].key
  }

  /** The place of key k, or the length of m when k is absent. */
  function Find<K(==), V>(m: seq<Entry<K, V>>, k: K): (i: nat)
    ensures i <= |m|
    ensures i < |m| ==> m[i].key == k
    ensures forall j :: 0 <= j < i ==> m[j].key != k
  {
    if m == [] then 0
    else if m[0].key == k then 0
    else
      var i := Find(m[1..], k);
      assert forall j :: 1 <= j < i + 1 ==> m[j] == m[1..][j - 1];
      i + 1
  }

  predicate Has<K(==), V>(m: seq<Entry<K, V>>, k: K) {
    Find(m, k) < |m|
  }

  function Get<K(==), V>(m: seq<Entry<K, V>>, k: K): V
    requires Has(m, k)
  {
    m[Find(m, k)].value
  }

  function Put<K(==), V>(m: seq<Entry<K, V>>, k: K, v: V): seq<Entry<K, V>> {
    var i := Find(m, k);
    if i < |m| then m[i := Entry(k, v)] else m + [Entry(k, v)]
  }

  function Delete<K(==), V>(m: seq<Entry<K, V>>, k: K): seq<Entry<K, V>> {
    var i := Find(m, k);
    if i < |m| then m[..i] + m[i + 1..] else m
  }

  function Values<K, V>(m: seq<Entry<K, V>>): (vs: seq<V>)
    ensures |vs| == |m|
    ensures forall i :: 0 <= i < |m| ==> vs[i] == m[i].value
  {
    seq(|m|, i requires 0 <= i < |m| => m[i].value)
  }

  /** In a map with distinct keys an entry is found where it stands. */
  lemma FindAt<K, V>(m: seq<Entry<K, V>>, i: nat)
    requires Distinct(m) && i < |m|
    ensures Find(m, m[i].key) == i
    ensures Has(m, m[i].key) && Get(m, m[i].key) == m[i].value
  {
    var j := Find(m, m[i].key);
    assert j <= i;
  }

  /** Setting a key keeps keys distinct, is read back, and changes no other key. */
  lemma PutEffect<K, V>(m: seq<Entry<K, V>>, k: K, v: V)
    requires Distinct(m)
    ensures Distinct(Put(m, k, v))
    ensures Has(Put(m, k, v), k) && Get(Put(m, k, v), k) == v
    ensures forall x :: x != k ==> (Has(Put(m, k, v), x) <==> Has(m, x))
    ensures forall x :: x != k && Has(m, x) ==> Get(Put(m, k, v), x) == Get(m, x)
    ensures |Put(m, k, v)| == |m| + (if Has(m, k) then 0 else 1)
  {
    var p := Put(m, k, v);
    FindAt(p, Find(m, k));
    forall x | x != k
      ensures Has(p, x) <==> Has(m, x)
      ensures Has(m, x) ==> Get(p, x) == Get(m, x)
    {
      if Has(m, x) { assert p[Find(m, x)] == m[Find(m, x)]; FindAt(p, Find(m, x)); }
      if Has(p, x) { assert p[Find(p, x)] == m[Find(p, x)]; }
    }
  }

  /** Deleting a key removes exactly that key. */
  lemma DeleteEffect<K, V>(m: seq<Entry<K, V>>, k: K)
    requires Distinct(m)
    ensures Distinct(Delete(m, k))
    ensures !Has(Delete(m, k), k)
    ensures forall x :: x != k ==> (Has(Delete(m, k), x) <==> Has(m, x))
    ensures forall x :: x != k && Has(m, x) ==> Get(Delete(m, k), x) == Get(m, x)
    ensures |Delete(m, k)| == |m| - (if Has(m, k) then 1 else 0)
  {
    var d := Delete(m, k);
    var i := Find(m, k);
    if i < |m| {
      assert forall j :: 0 <= j < |d| ==> d[j] == m[if j < i then j else j + 1];
      forall x | x != k
        ensures Has(d, x) <==> Has(m, x)
        ensures Has(m, x) ==> Get(d, x) == Get(m, x)
      {
        if Has(m, x) {
          var j := Find(m, x);
          var j' := if j < i then j else j - 1;
          assert d[j'] == m[j];
          FindAt(d, j');
        }
        if Has(d, x) { assert d[Find(d, x)] in m; }
      }
    }
  }
}
