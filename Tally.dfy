/**
 * Counting occurrences, as the source's `counts[key] = (counts[key] || 0) + 1`
 * dictionaries do, and the insertion order in which a JavaScript object or
 * `Set` remembers its keys. Sequences are taken apart at their end because
 * the scans of the source append one element at a time.
 */
module Tally {

  import opened Sorting

  /** The number of times x occurs in s. */
  function Occ<K(==)>(s: seq<K>, x: K): nat
  {
    if s == [] then 0 else Occ(s[..|s| - 1], x) + (if s[|s| - 1] == x then 1 else 0)
  }

  /** The distinct elements of s, in order of first occurrence. */
  function Dedup<K(==)>(s: seq<K>): seq<K>
  {
    if s == [] then []
    else
      var d := Dedup(s[..|s| - 1]);
      if s[|s| - 1] in d then d else d + [s[|s| - 1]]
  }

  predicate NoDup<K(==)>(s: seq<K>)
  {
    forall i, j :: 0 <= i < j < |s| ==> s[i] != s[j]
  }

  lemma OccAppend<K>(s: seq<K>, x: K, y: K)
    ensures Occ(s + [x], y) == Occ(s, y) + (if x == y then 1 else 0)
  {
    assert (s + [x])[..|s|] == s;
  }

  lemma {:induction false} OccConcat<K>(a: seq<K>, b: seq<K>, x: K)
    ensures Occ(a + b, x) == Occ(a, x) + Occ(b, x)
  {
    if b != [] {
      var b' := b[..|b| - 1];
      assert a + b == (a + b') + [b[|b| - 1]];
      assert b == b' + [b[|b| - 1]];
      OccAppend(a + b', b[|b| - 1], x);
      OccAppend(b', b[|b| - 1], x);
      OccConcat(a, b', x);
    } else {
      assert a + b == a;
    }
  }

  /** An element is counted at least once exactly when it occurs. */
  lemma {:induction false} OccPositive<K>(s: seq<K>, x: K)
    ensures Occ(s, x) > 0 <==> x in s
  {
    if s != [] {
      var s' := s[..|s| - 1];
      OccPositive(s', x);
      assert s == s' + [s[|s| - 1]];
    }
  }

  lemma {:induction false} OccNoDup<K>(s: seq<K>, x: K)
    requires NoDup(s) && x in s
    ensures Occ(s, x) == 1
  {
    var s' := s[..|s| - 1];
    assert s == s' + [s[|s| - 1]];
    if s[|s| - 1] == x {
      OccPositive(s', x);
    } else {
      OccNoDup(s', x);
    }
  }

  /** Dedup keeps each element once and loses none. */
  lemma {:induction false} DedupSpec<K>(s: seq<K>)
    ensures NoDup(Dedup(s))
    ensures forall x :: x in Dedup(s) <==> x in s
  {
    if s != [] {
      var s' := s[..|s| - 1];
      DedupSpec(s');
      assert s == s' + [s[|s| - 1]];
    }
  }

  lemma DedupMember<K>(s: seq<K>, x: K)
    ensures x in Dedup(s) <==> x in s
  {
    DedupSpec(s);
  }

  /** The sum over the keys ks of the number of times each occurs in s. */
  function SumOcc<K(==)>(ks: seq<K>, s: seq<K>): nat
  {
    if ks == [] then 0 else Occ(s, ks[0]) + SumOcc(ks[1..], s)
  }

  lemma {:induction false} SumOccAppend<K>(ks: seq<K>, s: seq<K>, x: K)
    ensures SumOcc(ks, s + [x]) == SumOcc(ks, s) + Occ(ks, x)
  {
    if ks != [] {
      SumOccAppend(ks[1..], s, x);
      OccAppend(s, x, ks[0]);
      assert ks == [ks[0]] + ks[1..];
      OccConcat([ks[0]], ks[1..], x);
      assert Occ([ks[0]], x) == (if ks[0] == x then 1 else 0) by {
        assert [ks[0]][..0] == [];
      }
    }
  }

  /** Over a duplicate-free list of keys that covers s, the counts add up to |s|. */
  lemma {:induction false} SumOccCovering<K>(ks: seq<K>, s: seq<K>)
    requires NoDup(ks)
    requires forall x :: x in s ==> x in ks
    ensures SumOcc(ks, s) == |s|
  {
    if s == [] {
      SumOccEmpty(ks);
    } else {
      var s' := s[..|s| - 1];
      var x := s[|s| - 1];
      assert s == s' + [x];
      SumOccCovering(ks, s');
      SumOccAppend(ks, s', x);
      OccNoDup(ks, x);
    }
  }

  lemma {:induction false} SumOccEmpty<K>(ks: seq<K>)
    ensures SumOcc(ks, []) == 0
  {
    if ks != [] {
      SumOccEmpty(ks[1..]);
    }
  }

  /** The counts of the distinct elements of s add up to the length of s. */
  lemma SumOccDedup<K>(s: seq<K>)
    ensures SumOcc(Dedup(s), s) == |s|
  {
    DedupSpec(s);
    SumOccCovering(Dedup(s), s);
  }

  /**
   * A counting dictionary `counts` with its key insertion order `order` after
   * counting the elements of s.
   */
  ghost predicate Tallied<K(!new)>(counts: map<K, nat>, order: seq<K>, s: seq<K>)
  {
    && order == Dedup(s)
    && (forall x :: x in counts <==> x in s)
    && (forall x :: x in counts ==> counts[x] == Occ(s, x))
  }

  /** One `counts[x] = (counts[x] || 0) + 1` step. */
  lemma TalliedStep<K(!new)>(counts: map<K, nat>, order: seq<K>, s: seq<K>, x: K)
    requires Tallied(counts, order, s)
    ensures Tallied(counts[x := (if x in counts then counts[x] else 0) + 1],
                    if x in counts then order else order + [x], s + [x])
  {
    assert (s + [x])[..|s|] == s;
    DedupSpec(s);
    OccPositive(s, x);
    forall y ensures Occ(s + [x], y) == Occ(s, y) + (if x == y then 1 else 0) {
      OccAppend(s, x, y);
    }
  }

  /** TalliedStep for a scan that has counted names[..k] after seen and now counts names[k]. */
  lemma TalliedPush<K(!new)>(counts: map<K, nat>, order: seq<K>, seen: seq<K>, names: seq<K>, k: nat)
    requires k < |names| && Tallied(counts, order, seen + names[..k])
    ensures Tallied(counts[names[k] := (if names[k] in counts then counts[names[k]] else 0) + 1],
                    if names[k] in counts then order else order + [names[k]], seen + names[..k + 1])
  {
    assert names[..k + 1] == names[..k] + [names[k]];
    assert seen + names[..k + 1] == (seen + names[..k]) + [names[k]];
    TalliedStep(counts, order, seen + names[..k], names[k]);
  }

  /** A sum over entries, each carrying the count of its key in s. */
  lemma {:induction false} SumByKeys<T, K>(es: seq<T>, key: T -> K, val: T -> int, s: seq<K>)
    requires forall i :: 0 <= i < |es| ==> val(es[i]) == Occ(s, key(es[i]))
    ensures SumBy(es, val) == SumOcc(KeysBy(es, key), s)
  {
    if es != [] {
      SumByKeys(es[1..], key, val, s);
      assert KeysBy(es, key)[1..] == KeysBy(es[1..], key);
    }
  }

  lemma TallyKeysDistinct<T, K>(es: seq<T>, key: T -> K, s: seq<K>)
    requires KeysBy(es, key) == Dedup(s)
    ensures DistinctBy(es, key)
  {
    DedupSpec(s);
    forall i, j | 0 <= i < j < |es| ensures key(es[i]) != key(es[j]) {
      assert KeysBy(es, key)[i] == key(es[i]) && KeysBy(es, key)[j] == key(es[j]);
    }
  }

  lemma TallyKeyOccurs<T, K>(es: seq<T>, key: T -> K, s: seq<K>, e: T)
    requires KeysBy(es, key) == Dedup(s) && e in es
    ensures Occ(s, key(e)) >= 1
  {
    var i :| 0 <= i < |es| && es[i] == e;
    assert KeysBy(es, key)[i] == key(e);
    DedupMember(s, key(e));
    OccPositive(s, key(e));
  }

  lemma TallyCounts<T, K>(es: seq<T>, r: seq<T>, key: T -> K, val: T -> int, s: seq<K>)
    requires KeysBy(es, key) == Dedup(s)
    requires forall i :: 0 <= i < |es| ==> val(es[i]) == Occ(s, key(es[i]))
    requires multiset(r) == multiset(es)
    ensures forall e :: e in r ==> val(e) == Occ(s, key(e)) >= 1
  {
    forall e | e in r ensures val(e) == Occ(s, key(e)) >= 1 {
      assert e in multiset(es);
      TallyKeyOccurs(es, key, s, e);
    }
  }

  /**
   * `Object.entries(counts)` of a tally of s, sorted: one entry per distinct
   * element of s, carrying its count, and the counts add up to |s|.
   */
  lemma SortedTally<T, K>(es: seq<T>, le: (T, T) -> bool, key: T -> K, val: T -> int, s: seq<K>)
    requires KeysBy(es, key) == Dedup(s)
    requires forall i :: 0 <= i < |es| ==> val(es[i]) == Occ(s, key(es[i]))
    ensures DistinctBy(SortBy(es, le), key)
    ensures forall k :: k in KeysBy(SortBy(es, le), key) <==> k in s
    ensures forall e :: e in SortBy(es, le) ==> val(e) == Occ(s, key(e)) >= 1
    ensures SumBy(SortBy(es, le), val) == |s|
  {
    var r := SortBy(es, le);
    TallyKeysDistinct(es, key, s);
    SortByDistinct(es, le, key);
    SameKeys(r, es, key);
    DedupSpec(s);
    TallyCounts(es, r, key, val, s);
    SortBySum(es, le, val);
    SumByKeys(es, key, val, s);
    SumOccDedup(s);
  }
}
