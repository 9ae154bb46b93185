/** An insertion-ordered dictionary with the semantics that Python's `dict` and
    JavaScript's `Map` share: assigning an existing key replaces its value in place,
    assigning a new key appends it at the end. */
module Dict {
  import opened Wrappers

  type Dict<K(==), V> = seq<(K, V)>

  function Keys<K(==), V>(d: Dict<K, V>): (ks: seq<K>)
    ensures |ks| == |d|
    ensures forall i :: 0 <= i < |d| ==> ks[i] == d[i].0
  {
    seq(|d|, i requires 0 <= i < |d| => d[i].0)
  }

  function Values<K(==), V>(d: Dict<K, V>): (vs: seq<V>)
    ensures |vs| == |d|
    ensures forall i :: 0 <= i < |d| ==> vs[i] == d[i].1
  {
    seq(|d|, i requires 0 <= i < |d| => d[i].1)
  }

  /** No key occurs twice. */
  ghost predicate UniqueKeys<K, V>(d: Dict<K, V>) {
    forall i, j :: 0 <= i < j < |d| ==> d[i].0 != d[j].0
  }

  /** `d.get(k)` / `m.get(k)`. */
  function Get<K(==), V>(d: Dict<K, V>, k: K): (r: Option<V>)
    ensures r.Some? <==> k in Keys(d)
  {
    if d == [] then None
    else if d[0].0 == k then Some(d[0].1)
    else
      assert Keys(d) == [d[0].0] + Keys(d[1..]);
      Get(d[1..], k)
  }

  /** `d[k] = v` / `m.set(k, v)`. */
  function Put<K(==), V>(d: Dict<K, V>, k: K, v: V): (r: Dict<K, V>)
  {
    if d == [] then [(k, v)]
    else if d[0].0 == k then [(k, v)] + d[1..]
    else [d[0]] + Put(d[1..], k, v)
  }

  /** After `d[k] = v`, `k` maps to `v` and every other key keeps its value. */
  lemma {:induction false} PutGet<K, V>(d: Dict<K, V>, k: K, v: V, k': K)
    ensures Get(Put(d, k, v), k') == if k' == k then Some(v) else Get(d, k')
  {
    if d != [] && d[0].0 != k {
      PutGet(d[1..], k, v, k');
    }
  }

  /** Assignment keeps the key order: an existing key stays where it is, a new key goes last. */
  lemma {:induction false} PutKeys<K, V>(d: Dict<K, V>, k: K, v: V)
    ensures Keys(Put(d, k, v)) == if k in Keys(d) then Keys(d) else Keys(d) + [k]
  {
    if d == [] {
    } else if d[0].0 == k {
      assert Keys(Put(d, k, v)) == Keys(d);
    } else {
      PutKeys(d[1..], k, v);
      assert Keys(d) == [d[0].0] + Keys(d[1..]);
      assert Keys(Put(d, k, v)) == [d[0].0] + Keys(Put(d[1..], k, v));
    }
  }

  /** Assignment never creates a duplicate key. */
  lemma PutUnique<K, V>(d: Dict<K, V>, k: K, v: V)
    requires UniqueKeys(d)
    ensures UniqueKeys(Put(d, k, v))
  {
    var r := Put(d, k, v);
    PutKeys(d, k, v);
    forall i, j | 0 <= i < j < |r| ensures r[i].0 != r[j].0 {
      assert Keys(r)[i] == r[i].0 && Keys(r)[j] == r[j].0;
    }
  }

  /** Every pair after `d[k] = v` is the new pair or was already there. */
  lemma {:induction false} PutPairs<K, V>(d: Dict<K, V>, k: K, v: V)
    ensures forall kv :: kv in Put(d, k, v) ==> kv == (k, v) || kv in d
  {
    if d != [] && d[0].0 != k {
      PutPairs(d[1..], k, v);
    }
  }

  /** The value of the last pair with key `k` in `kvs`. */
  function LastValue<K(==), V>(kvs: seq<(K, V)>, k: K): Option<V> {
    if kvs == [] then None
    else
      var later := LastValue(kvs[1..], k);
      if later.Some? then later else if kvs[0].0 == k then Some(kvs[0].1) else None
  }

  /** Assigns every pair of `kvs` in order: `for k, v in kvs: d[k] = v`. */
  function PutAll<K(==), V>(d: Dict<K, V>, kvs: seq<(K, V)>): Dict<K, V>
    decreases kvs
  {
    if kvs == [] then d else PutAll(Put(d, kvs[0].0, kvs[0].1), kvs[1..])
  }

  /** After the assignments, a key holds the value of its last assignment, if any. */
  lemma {:induction false} PutAllGet<K, V>(d: Dict<K, V>, kvs: seq<(K, V)>, k: K)
    ensures Get(PutAll(d, kvs), k) == if LastValue(kvs, k).Some? then LastValue(kvs, k) else Get(d, k)
    decreases kvs
  {
    if kvs != [] {
      PutAllGet(Put(d, kvs[0].0, kvs[0].1), kvs[1..], k);
      PutGet(d, kvs[0].0, kvs[0].1, k);
    }
  }

  /** Every pair after the assignments was there before or was assigned. */
  lemma {:induction false} PutAllPairs<K, V>(d: Dict<K, V>, kvs: seq<(K, V)>)
    ensures forall kv :: kv in PutAll(d, kvs) ==> kv in d || kv in kvs
    decreases kvs
  {
    if kvs != [] {
      PutPairs(d, kvs[0].0, kvs[0].1);
      PutAllPairs(Put(d, kvs[0].0, kvs[0].1), kvs[1..]);
    }
  }

  /** The assignments never create a duplicate key. */
  lemma {:induction false} PutAllUnique<K, V>(d: Dict<K, V>, kvs: seq<(K, V)>)
    requires UniqueKeys(d)
    ensures UniqueKeys(PutAll(d, kvs))
    decreases kvs
  {
    if kvs != [] {
      PutUnique(d, kvs[0].0, kvs[0].1);
      PutAllUnique(Put(d, kvs[0].0, kvs[0].1), kvs[1..]);
    }
  }

  /** In a dictionary without duplicate keys, every pair is what `Get` finds for its key. */
  lemma {:induction false} GetAt<K, V>(d: Dict<K, V>, i: nat)
    requires UniqueKeys(d) && i < |d|
    ensures Get(d, d[i].0) == Some(d[i].1)
  {
    if i > 0 {
      GetAt(d[1..], i - 1);
    }
  }

  /** Assigning one more pair at the end is one more `Put`. */
  lemma {:induction false} PutAllSnoc<K, V>(d: Dict<K, V>, kvs: seq<(K, V)>, kv: (K, V))
    ensures PutAll(d, kvs + [kv]) == Put(PutAll(d, kvs), kv.0, kv.1)
    decreases kvs
  {
    if kvs == [] {
      assert [kv][1..] == [];
    } else {
      assert (kvs + [kv])[1..] == kvs[1..] + [kv];
      PutAllSnoc(Put(d, kvs[0].0, kvs[0].1), kvs[1..], kv);
    }
  }

  /** Without duplicate keys, the last pair with a key is the only one. */
  lemma {:induction false} LastValueIsGet<K, V>(d: Dict<K, V>, k: K)
    requires UniqueKeys(d)
    ensures LastValue(d, k) == Get(d, k)
  {
    if d != [] {
      LastValueIsGet(d[1..], k);
      if d[0].0 == k {
        assert k !in Keys(d[1..]) by {
          forall i | 0 <= i < |d[1..]| ensures Keys(d[1..])[i] != k {
            assert d[i + 1].0 != d[0].0;
          }
        }
      }
    }
  }

  /** `Get` finds the first pair with the key. */
  lemma {:induction false} GetFirst<K, V>(d: Dict<K, V>, i: nat, k: K)
    requires i < |d| && d[i].0 == k
    requires forall j :: 0 <= j < i ==> d[j].0 != k
    ensures Get(d, k) == Some(d[i].1)
  {
    if i > 0 {
      GetFirst(d[1..], i - 1, k);
    }
  }
}
