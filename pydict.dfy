/** Python dictionaries as insertion-ordered lists of (key, value) entries with
    distinct keys: assigning to a present key keeps its position, a new key goes
    last, and iteration follows that order. */
module PyDict {
  import opened Wrappers
  import opened Seqs

  type Dict<K, V> = seq<(K, V)>

  function Keys<K, V>(d: Dict<K, V>): (ks: seq<K>)
    ensures |ks| == |d|
    ensures forall i :: 0 <= i < |d| ==> ks[i] == d[i].0
  {
    if d == [] then [] else [d[0].0] + Keys(d[1..])
  }

  function Values<K, V>(d: Dict<K, V>): (vs: seq<V>)
    ensures |vs| == |d|
    ensures forall i :: 0 <= i < |d| ==> vs[i] == d[i].1
  {
    if d == [] then [] else [d[0].1] + Values(d[1..])
  }

  /** Every dictionary built by assignments has distinct keys. */
  predicate DistinctKeys<K(==), V>(d: Dict<K, V>) {
    NoDup(Keys(d))
  }

  /** d.get(k), as None when k is absent. */
  function Get<K(==), V>(d: Dict<K, V>, k: K): (r: Option<V>)
    ensures r.Some? <==> k in Keys(d)
  {
    if d == [] then None else if d[0].0 == k then Some(d[0].1) else Get(d[1..], k)
  }

  /** d[k] = v */
  function Put<K(==), V>(d: Dict<K, V>, k: K, v: V): (r: Dict<K, V>)
    ensures |r| == |d| || |r| == |d| + 1
  {
    if d == [] then [(k, v)]
    else if d[0].0 == k then [(k, v)] + d[1..]
    else [d[0]] + Put(d[1..], k, v)
  }

  /** A present key keeps its place, a new key goes last, and the key then
      maps to the assigned value. */
  lemma {:induction false} PutKeys<K, V>(d: Dict<K, V>, k: K, v: V)
    ensures k in Keys(d) ==> Keys(Put(d, k, v)) == Keys(d)
    ensures k !in Keys(d) ==> Keys(Put(d, k, v)) == Keys(d) + [k]
    ensures Get(Put(d, k, v), k) == Some(v)
  {
    if d != [] && d[0].0 != k {
      var t := Put(d[1..], k, v);
      PutKeys(d[1..], k, v);
      var r := [d[0]] + t;
      assert r[1..] == t;
      assert Keys(r) == [d[0].0] + Keys(t);
      assert Keys(d) == [d[0].0] + Keys(d[1..]);
      AppendAssoc([d[0].0], Keys(d[1..]), [k]);
    }
  }

  /** Assignment keeps the keys distinct. */
  lemma PutDistinct<K, V>(d: Dict<K, V>, k: K, v: V)
    requires DistinctKeys(d)
    ensures DistinctKeys(Put(d, k, v))
  {
    PutKeys(d, k, v);
  }

  /** Assigning a new key appends the entry at the end. */
  lemma {:induction false} PutNew<K, V>(d: Dict<K, V>, k: K, v: V)
    requires k !in Keys(d)
    ensures Put(d, k, v) == d + [(k, v)]
  {
    if d != [] {
      assert Keys(d) == [d[0].0] + Keys(d[1..]);
      PutNew(d[1..], k, v);
      assert Put(d, k, v) == [d[0]] + Put(d[1..], k, v);
      AppendAssoc([d[0]], d[1..], [(k, v)]);
      assert [d[0]] + d[1..] == d;
    }
  }

  /** Assigning d[k] leaves every other key's value as it was. */
  lemma {:induction false} PutOther<K, V>(d: Dict<K, V>, k: K, v: V, k': K)
    requires k' != k
    ensures Get(Put(d, k, v), k') == Get(d, k')
  {
    if d != [] && d[0].0 != k {
      PutOther(d[1..], k, v, k');
    }
  }

  /** d.update(e): the entries of e assigned into d one by one, in e's order. */
  function Update<K(==), V>(d: Dict<K, V>, e: Dict<K, V>): Dict<K, V>
    decreases |e|
  {
    if e == [] then d else Update(Put(d, e[0].0, e[0].1), e[1..])
  }

  /** After d.update(e), a key of e has e's value and every other key keeps d's. */
  lemma {:induction false} UpdateGet<K, V>(d: Dict<K, V>, e: Dict<K, V>, k: K)
    requires DistinctKeys(e)
    ensures Get(Update(d, e), k) == if k in Keys(e) then Get(e, k) else Get(d, k)
    decreases |e|
  {
    if e != [] {
      var t := e[1..];
      assert Keys(e) == [e[0].0] + Keys(t);
      assert DistinctKeys(t) by {
        assert Keys(t) == Keys(e)[1..];
      }
      UpdateGet(Put(d, e[0].0, e[0].1), t, k);
      if e[0].0 != k {
        PutOther(d, e[0].0, e[0].1, k);
      } else {
        PutKeys(d, k, e[0].1);
        assert k !in Keys(t) by {
          assert Keys(e)[0] == k;
          assert forall i :: 0 <= i < |Keys(t)| ==> Keys(t)[i] == Keys(e)[i + 1];
        }
      }
    }
  }
}
