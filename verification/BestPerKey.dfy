// One item per key: a map that keeps, for each key, the first item unless a later one of
// the same key scores strictly higher.

module BestPerKey {
  import opened OrderedMaps

  function Add<K(==), V>(key: V -> K, score: V -> int, m: seq<Entry<K, V>>, v: V): seq<Entry<K, V>> {
    if !Has(m, key(v)) || score(v) > score(Get(m, key(v))) then Put(m, key(v), v) else m
  }

  function Gather<K(==), V>(key: V -> K, score: V -> int, items: seq<V>): seq<Entry<K, V>> {
    if items == [] then []
    else
      var n := |items| - 1;
      Add(key, score, Gather(key, score, items[..n]), items[n])
  }

  /** Item i is the one to keep of its key: no other scores higher, and no earlier one as
      high. */
  ghost predicate Keeps<K, V>(key: V -> K, score: V -> int, items: seq<V>, i: nat) {
    && i < |items|
    && (forall j :: 0 <= j < |items| && key(items[j]) == key(items[i]) ==> score(items[j]) <= score(items[i]))
    && (forall j :: 0 <= j < i && key(items[j]) == key(items[i]) ==> score(items[j]) < score(items[i]))
  }

  ghost predicate IsBest<K, V>(key: V -> K, score: V -> int, items: seq<V>, v: V) {
    exists j: nat :: Keeps(key, score, items, j) && items[j] == v
  }

  /** r holds exactly one item per key of the items, and it is the one to keep. */
  ghost predicate BestOfEach<K, V>(key: V -> K, score: V -> int, items: seq<V>, r: seq<V>) {
    && (forall i, j :: 0 <= i < j < |r| ==> key(r[i]) != key(r[j]))
    && (forall i :: 0 <= i < |r| ==> IsBest(key, score, items, r[i]))
    && (forall i :: 0 <= i < |items| ==> Represented(key, score, items[i], r))
  }

  /** Some item of the list has v's key and scores at least as high. */
  ghost predicate Represented<K, V>(key: V -> K, score: V -> int, v: V, items: seq<V>) {
    exists i :: 0 <= i < |items| && key(items[i]) == key(v) && score(items[i]) >= score(v)
  }

  lemma RepresentedTrans<K, V>(key: V -> K, score: V -> int, v: V, a: seq<V>, b: seq<V>)
    requires Represented(key, score, v, a)
    requires forall i :: 0 <= i < |a| ==> Represented(key, score, a[i], b)
    ensures Represented(key, score, v, b)
  {
    var i :| 0 <= i < |a| && key(a[i]) == key(v) && score(a[i]) >= score(v);
    assert Represented(key, score, a[i], b);
  }

  /** What either of two lists represents, the best of both represents. */
  lemma BestRepresents<K, V>(key: V -> K, score: V -> int, a: seq<V>, b: seq<V>, r: seq<V>, v: V)
    requires BestOfEach(key, score, a + b, r)
    requires Represented(key, score, v, a) || v in b
    ensures Represented(key, score, v, r)
  {
    if v in b {
      var i :| 0 <= i < |b| && b[i] == v;
      assert (a + b)[|a| + i] == v;
    } else {
      forall i | 0 <= i < |a| ensures Represented(key, score, a[i], r) {
        assert (a + b)[i] == a[i];
      }
      RepresentedTrans(key, score, v, a, r);
    }
  }

  lemma Representative<K, V>(key: V -> K, score: V -> int, v: V, items: seq<V>) returns (w: V)
    requires Represented(key, score, v, items)
    ensures w in items && key(w) == key(v) && score(w) >= score(v)
  {
    var i :| 0 <= i < |items| && key(items[i]) == key(v) && score(items[i]) >= score(v);
    w := items[i];
  }

  lemma MemberIsRepresented<K, V>(key: V -> K, score: V -> int, v: V, items: seq<V>)
    requires v in items
    ensures Represented(key, score, v, items)
  {
  }

  ghost predicate Gathered<K, V>(key: V -> K, score: V -> int, items: seq<V>, m: seq<Entry<K, V>>) {
    && Distinct(m)
    && (forall i :: 0 <= i < |m| ==> m[i].key == key(m[i].value))
    && (forall i :: 0 <= i < |items| ==> Has(m, key(items[i])))
    && (forall i :: 0 <= i < |m| ==> IsBest(key, score, items, m[i].value))
  }

  lemma KeepsEarlier<K, V>(key: V -> K, score: V -> int, items: seq<V>, v: V, j: nat)
    requires Keeps(key, score, items, j)
    requires key(v) == key(items[j]) ==> score(v) <= score(items[j])
    ensures Keeps(key, score, items + [v], j)
  {
  }

  lemma KeepsLatest<K, V>(key: V -> K, score: V -> int, items: seq<V>, v: V)
    requires forall i :: 0 <= i < |items| && key(items[i]) == key(v) ==> score(items[i]) < score(v)
    ensures Keeps(key, score, items + [v], |items|)
  {
  }

  lemma KeptOf<K, V>(key: V -> K, score: V -> int, items: seq<V>, m: seq<Entry<K, V>>, k: K) returns (j: nat)
    requires Gathered(key, score, items, m) && Has(m, k)
    ensures Keeps(key, score, items, j) && items[j] == Get(m, k) && key(items[j]) == k
  {
    var i := Find(m, k);
    assert m[i].key == key(m[i].value);
    assert IsBest(key, score, items, m[i].value);
    j :| Keeps(key, score, items, j) && items[j] == m[i].value;
  }

  lemma AddGathers<K, V>(key: V -> K, score: V -> int, items: seq<V>, m: seq<Entry<K, V>>, v: V)
    requires Gathered(key, score, items, m)
    ensures Gathered(key, score, items + [v], Add(key, score, m, v))
  {
    var k := key(v);
    var m' := Add(key, score, m, v);
    var more := items + [v];
    PutEffect(m, k, v);
    forall i | 0 <= i < |m'| ensures IsBest(key, score, more, m'[i].value) {
      if m' != m && i == Find(m, k) {
        LatestWins(key, score, items, m, v);
        assert more[|items|] == m'[i].value;
      } else {
        assert m'[i] == m[i];
        FindAt(m, i);
        var j := KeptOf(key, score, items, m, m[i].key);
        KeepsEarlier(key, score, items, v, j);
        assert more[j] == m'[i].value;
      }
    }
    forall i | 0 <= i < |more| ensures Has(m', key(more[i])) {
      if i < |items| {
        assert Has(m, key(items[i]));
      }
    }
  }

  lemma LatestWins<K, V>(key: V -> K, score: V -> int, items: seq<V>, m: seq<Entry<K, V>>, v: V)
    requires Gathered(key, score, items, m)
    requires !Has(m, key(v)) || score(v) > score(Get(m, key(v)))
    ensures Keeps(key, score, items + [v], |items|)
  {
    if Has(m, key(v)) {
      var j := KeptOf(key, score, items, m, key(v));
    }
    KeepsLatest(key, score, items, v);
  }

  lemma {:induction false} GatherGathers<K, V>(key: V -> K, score: V -> int, items: seq<V>)
    ensures Gathered(key, score, items, Gather(key, score, items))
    decreases |items|
  {
    if items != [] {
      var n := |items| - 1;
      GatherGathers(key, score, items[..n]);
      AddGathers(key, score, items[..n], Gather(key, score, items[..n]), items[n]);
      assert items == items[..n] + [items[n]];
    }
  }

  lemma GatherKeepsTheBest<K, V>(key: V -> K, score: V -> int, items: seq<V>)
    ensures BestOfEach(key, score, items, Values(Gather(key, score, items)))
  {
    GatherGathers(key, score, items);
    var m := Gather(key, score, items);
    var r := Values(m);
    forall i | 0 <= i < |items| ensures Represented(key, score, items[i], r) {
      var k := key(items[i]);
      var j := KeptOf(key, score, items, m, k);
      assert r[Find(m, k)] == items[j];
    }
    forall i | 0 <= i < |r| ensures IsBest(key, score, items, r[i]) {
      assert r[i] == m[i].value;
    }
  }

  method CollectBest<K(==), V>(key: V -> K, score: V -> int, items: seq<V>) returns (r: seq<V>)
    ensures r == Values(Gather(key, score, items))
  {
    var kept: seq<Entry<K, V>> := [];
    for i := 0 to |items|
      invariant kept == Gather(key, score, items[..i])
    {
      assert items[..i + 1][..i] == items[..i];
      var k := key(items[i]);
      if !Has(kept, k) {
        kept := Put(kept, k, items[i]);
      } else if score(items[i]) > score(Get(kept, k)) {
        kept := Put(kept, k, items[i]);
      }
    }
    assert items[..|items|] == items;
    return Values(kept);
  }
}
