/**
  A Python `dict` as the model sees it: an insertion-ordered sequence of
  key/value entries. Iteration order (`items()`, `values()`, comprehensions)
  is the order of the sequence.
 */
module Dict {
  import opened Wrappers

  /** The keys of `d`, in insertion order. */
  function Keys<K, V>(d: seq<(K, V)>): (ks: seq<K>)
    ensures |ks| == |d|
    ensures forall i :: 0 <= i < |d| ==> ks[i] == d[i].0
  {
    if d == [] then [] else [d[0].0] + Keys(d[1..])
  }

  /** A well-formed dict holds every key at most once. */
  ghost predicate UniqueKeys<K, V>(d: seq<(K, V)>)
  {
    forall i, j :: 0 <= i < j < |d| ==> d[i].0 != d[j].0
  }

  /** `d[k]`: the value stored under `k`, or None where Python raises KeyError. */
  function Lookup<K(==), V>(d: seq<(K, V)>, k: K): (r: Option<V>)
    ensures r.None? <==> k !in Keys(d)
  {
    if d == [] then None
    else if d[0].0 == k then Some(d[0].1)
    else Lookup(d[1..], k)
  }

  /** `d[k] = v`: overwrites in place when `k` is present, appends otherwise. */
  function Put<K(==), V>(d: seq<(K, V)>, k: K, v: V): (r: seq<(K, V)>)
    ensures k in Keys(d) ==> Keys(r) == Keys(d)
    ensures k !in Keys(d) ==> Keys(r) == Keys(d) + [k]
  {
    if d == [] then [(k, v)]
    else if d[0].0 == k then [(k, v)] + d[1..]
    else [d[0]] + Put(d[1..], k, v)
  }

  /** `{k: v for k, v in d.items() if k in ks}`. */
  function Restrict<K(==,!new), V>(d: seq<(K, V)>, ks: seq<K>): (r: seq<(K, V)>)
    ensures forall k :: k in Keys(r) <==> k in Keys(d) && k in ks
  {
    if d == [] then []
    else if d[0].0 in ks then [d[0]] + Restrict(d[1..], ks)
    else Restrict(d[1..], ks)
  }

  /** `sub` keeps some of the entries of `d`, in `d`'s order. */
  ghost predicate Subsequence<T>(sub: seq<T>, d: seq<T>)
    decreases |d|
  {
    sub == [] ||
    (d != [] && ((sub[0] == d[0] && Subsequence(sub[1..], d[1..])) || Subsequence(sub, d[1..])))
  }

  lemma {:induction false} LookupAt<K, V>(d: seq<(K, V)>, i: nat)
    requires UniqueKeys(d) && i < |d|
    ensures Lookup(d, d[i].0) == Some(d[i].1)
  {
    if i > 0 {
      LookupAt(d[1..], i - 1);
    }
  }

  lemma {:induction false} PutPreservesUniqueKeys<K, V>(d: seq<(K, V)>, k: K, v: V)
    requires UniqueKeys(d)
    ensures UniqueKeys(Put(d, k, v))
  {
    if d != [] && d[0].0 != k {
      PutPreservesUniqueKeys(d[1..], k, v);
      var r := Put(d, k, v);
      forall j | 0 < j < |r| ensures r[0].0 != r[j].0 {
        assert r[j].0 == Keys(r)[j];
        if k in Keys(d) {
          assert Keys(r) == Keys(d);
        } else {
          assert Keys(r) == Keys(d) + [k];
          if j == |d| {
            assert d[0].0 == Keys(d)[0];
          }
        }
      }
    }
  }

  lemma {:induction false} LookupAfterPut<K, V>(d: seq<(K, V)>, k: K, v: V, k': K)
    ensures Lookup(Put(d, k, v), k') == if k' == k then Some(v) else Lookup(d, k')
  {
    if d != [] && d[0].0 != k {
      LookupAfterPut(d[1..], k, v, k');
    }
  }

  lemma {:induction false} LookupRestrict<K(!new), V>(d: seq<(K, V)>, ks: seq<K>, k: K)
    ensures Lookup(Restrict(d, ks), k) == if k in ks then Lookup(d, k) else None
  {
    if d != [] {
      LookupRestrict(d[1..], ks, k);
    }
  }

  lemma {:induction false} RestrictIsSubsequence<K(!new), V>(d: seq<(K, V)>, ks: seq<K>)
    ensures Subsequence(Restrict(d, ks), d)
  {
    if d != [] {
      RestrictIsSubsequence(d[1..], ks);
    }
  }

  /** Assigning a key that is not present appends the entry at the end. */
  lemma {:induction false} PutFresh<K, V>(d: seq<(K, V)>, k: K, v: V)
    requires k !in Keys(d)
    ensures Put(d, k, v) == d + [(k, v)]
  {
    if d != [] {
      assert d[0].0 == Keys(d)[0];
      assert forall i :: 0 <= i < |d[1..]| ==> Keys(d[1..])[i] == Keys(d)[i + 1];
      PutFresh(d[1..], k, v);
      assert d == [d[0]] + d[1..];
    }
  }

  /** A comprehension over a well-formed dict yields a well-formed dict. */
  lemma {:induction false} RestrictPreservesUniqueKeys<K(!new), V>(d: seq<(K, V)>, ks: seq<K>)
    requires UniqueKeys(d)
    ensures UniqueKeys(Restrict(d, ks))
  {
    if d != [] {
      RestrictPreservesUniqueKeys(d[1..], ks);
      var r := Restrict(d, ks);
      var tail := Restrict(d[1..], ks);
      if d[0].0 in ks {
        forall j | 0 < j < |r| ensures r[0].0 != r[j].0 {
          assert r[j] == tail[j - 1];
          assert tail[j - 1].0 == Keys(tail)[j - 1];
          assert tail[j - 1].0 in Keys(d[1..]);
          var m :| 0 <= m < |d[1..]| && Keys(d[1..])[m] == tail[j - 1].0;
          assert d[1..][m] == d[m + 1];
        }
      }
    }
  }

  /** Every entry a comprehension keeps is an entry of the dict it ranges over. */
  lemma {:induction false} RestrictEntries<K(!new), V>(d: seq<(K, V)>, ks: seq<K>)
    ensures forall i :: 0 <= i < |Restrict(d, ks)| ==> Restrict(d, ks)[i] in d
  {
    if d != [] {
      RestrictEntries(d[1..], ks);
      var tail := Restrict(d[1..], ks);
      assert forall e :: e in tail ==> e in d[1..] ==> e in d;
    }
  }
}
