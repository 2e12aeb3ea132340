/** PHP arrays with string keys: an insertion-ordered dictionary. Writing
    `$a[$k] = $v` overwrites an existing key where it stands and appends a new
    key at the end; `unset` drops a key; `array_merge` writes the second
    array's entries into a copy of the first, in order. */
module OrderedMaps {
  import opened Wrappers

  function Keys<K, V>(m: seq<(K, V)>): seq<K>
  {
    if m == [] then [] else [m[0].0] + Keys(m[1..])
  }

  function Values<K, V>(m: seq<(K, V)>): seq<V>
  {
    if m == [] then [] else [m[0].1] + Values(m[1..])
  }

  /** No key occurs twice. */
  ghost predicate UniqueKeys<K, V>(m: seq<(K, V)>)
  {
    forall i, j | 0 <= i < j < |m| :: m[i].0 != m[j].0
  }

  /** `$a[$k] ?? null` */
  function Get<K(==), V>(m: seq<(K, V)>, k: K): Option<V>
  {
    if m == [] then None
    else if m[0].0 == k then Some(m[0].1)
    else Get(m[1..], k)
  }

  /** `$a[$k] = $v` */
  function Put<K(==), V>(m: seq<(K, V)>, k: K, v: V): seq<(K, V)>
  {
    if m == [] then [(k, v)]
    else if m[0].0 == k then [(k, v)] + m[1..]
    else [m[0]] + Put(m[1..], k, v)
  }

  /** `unset($a[$k])` */
  function Remove<K(==), V>(m: seq<(K, V)>, k: K): seq<(K, V)>
  {
    if m == [] then []
    else if m[0].0 == k then Remove(m[1..], k)
    else [m[0]] + Remove(m[1..], k)
  }

  /** `array_merge($a, $b)` for string keys */
  function Merge<K(==), V>(a: seq<(K, V)>, b: seq<(K, V)>): seq<(K, V)>
    decreases |b|
  {
    if b == [] then a else Merge(Put(a, b[0].0, b[0].1), b[1..])
  }

  lemma {:induction false} KeysLength<K, V>(m: seq<(K, V)>)
    ensures |Keys(m)| == |m|
    ensures forall i | 0 <= i < |m| :: Keys(m)[i] == m[i].0
  {
    if m != [] {
      KeysLength(m[1..]);
    }
  }

  lemma {:induction false} GetSomeIffKey<K, V>(m: seq<(K, V)>, k: K)
    ensures Get(m, k).Some? <==> k in Keys(m)
  {
    if m != [] {
      GetSomeIffKey(m[1..], k);
    }
  }

  /** Writing a key makes it read back as the written value and leaves every
      other key's value as it was. */
  /** A key that reads back a value reads back one of the map's entries. */
  lemma {:induction false} GetEntry<K, V>(m: seq<(K, V)>, k: K)
    requires Get(m, k).Some?
    ensures exists i | 0 <= i < |m| :: m[i] == (k, Get(m, k).value)
  {
    if m[0].0 != k {
      GetEntry(m[1..], k);
      var i :| 0 <= i < |m[1..]| && m[1..][i] == (k, Get(m[1..], k).value);
      assert m[i + 1] == m[1..][i];
    }
  }

  lemma {:induction false} GetPut<K, V>(m: seq<(K, V)>, k: K, v: V, k': K)
    ensures Get(Put(m, k, v), k') == if k' == k then Some(v) else Get(m, k')
  {
    if m != [] && m[0].0 != k {
      GetPut(m[1..], k, v, k');
    }
  }

  /** Writing an existing key keeps the key order; a new key goes last. */
  lemma {:induction false} KeysPut<K, V>(m: seq<(K, V)>, k: K, v: V)
    ensures Keys(Put(m, k, v)) == if k in Keys(m) then Keys(m) else Keys(m) + [k]
  {
    if m != [] && m[0].0 != k {
      KeysPut(m[1..], k, v);
    }
  }

  lemma {:induction false} GetRemove<K, V>(m: seq<(K, V)>, k: K, k': K)
    ensures Get(Remove(m, k), k') == if k' == k then None else Get(m, k')
  {
    if m != [] {
      GetRemove(m[1..], k, k');
    }
  }

  lemma {:induction false} KeysRemove<K, V>(m: seq<(K, V)>, k: K, k': K)
    ensures k' in Keys(Remove(m, k)) <==> k' in Keys(m) && k' != k
  {
    if m != [] {
      KeysRemove(m[1..], k, k');
    }
  }

  lemma {:induction false} UniquePut<K, V>(m: seq<(K, V)>, k: K, v: V)
    requires UniqueKeys(m)
    ensures UniqueKeys(Put(m, k, v))
  {
    KeysPut(m, k, v);
    KeysLength(m);
    KeysLength(Put(m, k, v));
  }

  lemma {:induction false} UniqueRemove<K, V>(m: seq<(K, V)>, k: K)
    requires UniqueKeys(m)
    ensures UniqueKeys(Remove(m, k))
  {
    if m != [] {
      UniqueRemove(m[1..], k);
      var r := Remove(m[1..], k);
      if m[0].0 != k {
        KeysLength(r);
        forall j | 0 <= j < |r| ensures r[j].0 != m[0].0 {
          KeysRemove(m[1..], k, r[j].0);
          KeysLength(m[1..]);
          assert r[j].0 in Keys(m[1..]);
        }
      }
    }
  }

  /** After `array_merge($a, $b)`, a key of `$b` reads as `$b`'s value and
      every other key reads as in `$a`. */
  lemma {:induction false} GetMerge<K, V>(a: seq<(K, V)>, b: seq<(K, V)>, k: K)
    requires UniqueKeys(b)
    ensures Get(Merge(a, b), k) == if k in Keys(b) then Get(b, k) else Get(a, k)
    decreases |b|
  {
    if b != [] {
      GetMerge(Put(a, b[0].0, b[0].1), b[1..], k);
      GetPut(a, b[0].0, b[0].1, k);
      if k == b[0].0 {
        KeysLength(b);
        KeysLength(b[1..]);
        assert k !in Keys(b[1..]);
      }
    }
  }

  /** Writing the entries of `b` and then those of `c` is writing `b + c`. */
  lemma {:induction false} MergeAppend<K, V>(a: seq<(K, V)>, b: seq<(K, V)>, c: seq<(K, V)>)
    ensures Merge(a, b + c) == Merge(Merge(a, b), c)
    decreases |b|
  {
    if b == [] {
      assert b + c == c;
    } else {
      assert (b + c)[1..] == b[1..] + c;
      MergeAppend(Put(a, b[0].0, b[0].1), b[1..], c);
    }
  }

  /** The value of the last entry of `m` with key `k`, if any. */
  function LastFor<K(==), V>(m: seq<(K, V)>, k: K): Option<V>
  {
    if m == [] then None
    else if m[|m| - 1].0 == k then Some(m[|m| - 1].1)
    else LastFor(m[..|m| - 1], k)
  }

  /** Writing a list of entries one after the other: each key reads back
      the value of its last entry, whatever the earlier ones held. */
  lemma {:induction false} GetMergeLast<K, V>(a: seq<(K, V)>, b: seq<(K, V)>, k: K)
    ensures Get(Merge(a, b), k) == if LastFor(b, k).Some? then LastFor(b, k) else Get(a, k)
    decreases |b|
  {
    if b != [] {
      var init := b[..|b| - 1];
      var last := b[|b| - 1];
      assert b == init + [last];
      MergeAppend(a, init, [last]);
      GetMergeLast(a, init, k);
      assert [last][1..] == [];
      GetPut(Merge(a, init), last.0, last.1, k);
    }
  }

  /** `array_merge` keeps the first array's keys in order and appends the
      second array's new keys. */
  lemma {:induction false} KeysMergeKeepsPrefix<K, V>(a: seq<(K, V)>, b: seq<(K, V)>)
    ensures Keys(a) <= Keys(Merge(a, b))
    ensures forall k :: k in Keys(Merge(a, b)) <==> k in Keys(a) || k in Keys(b)
    decreases |b|
  {
    if b != [] {
      KeysPut(a, b[0].0, b[0].1);
      KeysMergeKeepsPrefix(Put(a, b[0].0, b[0].1), b[1..]);
    }
  }

  lemma {:induction false} UniqueMerge<K, V>(a: seq<(K, V)>, b: seq<(K, V)>)
    requires UniqueKeys(a)
    ensures UniqueKeys(Merge(a, b))
    decreases |b|
  {
    if b != [] {
      UniquePut(a, b[0].0, b[0].1);
      UniqueMerge(Put(a, b[0].0, b[0].1), b[1..]);
    }
  }

  /** In a map with unique keys, each entry reads back by its key. */
  lemma {:induction false} GetAt<K, V>(m: seq<(K, V)>, i: nat)
    requires UniqueKeys(m) && i < |m|
    ensures Get(m, m[i].0) == Some(m[i].1)
  {
    if i > 0 {
      GetAt(m[1..], i - 1);
    }
  }

  /** Entries before the first with key `k` do not matter to reading it. */
  lemma {:induction false} GetSkip<K, V>(m: seq<(K, V)>, k: K, n: nat)
    requires n <= |m|
    requires forall i | 0 <= i < n :: m[i].0 != k
    ensures Get(m, k) == Get(m[n..], k)
  {
    if n > 0 {
      GetSkip(m[1..], k, n - 1);
      assert m[1..][n - 1..] == m[n..];
    }
  }

  /** Facts about a literal map with unique keys: its key list and the value
      each key reads back. */
  lemma LiteralMap<K, V>(m: seq<(K, V)>)
    requires UniqueKeys(m)
    ensures |Keys(m)| == |m|
    ensures forall i | 0 <= i < |m| :: Keys(m)[i] == m[i].0 && Get(m, m[i].0) == Some(m[i].1)
  {
    KeysLength(m);
    forall i | 0 <= i < |m| {
      GetAt(m, i);
    }
  }

  /** Removing an absent key changes nothing. */
  lemma {:induction false} RemoveAbsent<K, V>(m: seq<(K, V)>, k: K)
    requires k !in Keys(m)
    ensures Remove(m, k) == m
  {
    if m != [] {
      RemoveAbsent(m[1..], k);
    }
  }

  /** Removing a present key of a map with unique keys drops exactly that
      entry. */
  lemma {:induction false} RemoveAt<K, V>(m: seq<(K, V)>, i: nat)
    requires UniqueKeys(m) && i < |m|
    ensures Remove(m, m[i].0) == m[..i] + m[i + 1..]
  {
    if i == 0 {
      KeysLength(m[1..]);
      RemoveAbsent(m[1..], m[0].0);
    } else {
      RemoveAt(m[1..], i - 1);
      assert m[..i] == [m[0]] + m[1..][..i - 1];
      assert m[i + 1..] == m[1..][i..];
    }
  }

  /** Writing a new key appends it. */
  lemma {:induction false} PutNew<K, V>(m: seq<(K, V)>, k: K, v: V)
    requires k !in Keys(m)
    ensures Put(m, k, v) == m + [(k, v)]
  {
    if m != [] {
      PutNew(m[1..], k, v);
      assert m == [m[0]] + m[1..];
    }
  }

  /** Removing a key that occurs at exactly one index drops that entry. */
  lemma {:induction false} RemoveOnly<K, V>(m: seq<(K, V)>, i: nat)
    requires i < |m|
    requires forall j | 0 <= j < |m| && j != i :: m[j].0 != m[i].0
    ensures Remove(m, m[i].0) == m[..i] + m[i + 1..]
  {
    if i == 0 {
      KeysLength(m[1..]);
      RemoveAbsent(m[1..], m[0].0);
    } else {
      RemoveOnly(m[1..], i - 1);
      assert m[..i] == [m[0]] + m[1..][..i - 1];
      assert m[i + 1..] == m[1..][i..];
    }
  }

  /** `array_merge` of arrays without a shared or repeated key is their
      concatenation. */
  lemma {:induction false} MergeFresh<K, V>(a: seq<(K, V)>, b: seq<(K, V)>)
    requires UniqueKeys(a + b)
    ensures Merge(a, b) == a + b
    decreases |b|
  {
    if b != [] {
      KeysLength(a);
      assert (a + b)[|a|] == b[0];
      forall i | 0 <= i < |a| ensures Keys(a)[i] != b[0].0 {
        assert (a + b)[i] == a[i];
      }
      PutNew(a, b[0].0, b[0].1);
      assert a + [b[0]] + b[1..] == a + b;
      MergeFresh(a + [b[0]], b[1..]);
    }
  }

  /** Writing a pair invents nothing but that pair. */
  lemma {:induction false} PutFrom<K, V>(m: seq<(K, V)>, k: K, v: V)
    ensures forall e | e in Put(m, k, v) :: e in m || e == (k, v)
  {
    if m != [] && m[0].0 != k {
      PutFrom(m[1..], k, v);
    }
  }

  /** Removing a key invents no pair. */
  lemma {:induction false} RemoveFrom<K, V>(m: seq<(K, V)>, k: K)
    ensures forall e | e in Remove(m, k) :: e in m
  {
    if m != [] {
      RemoveFrom(m[1..], k);
    }
  }
}
