/** Operations on a collection of records that carry a numeric id, shared by
    the three stores: `Array.prototype.filter`, the max+1 id rule, lookup of
    the first record with an id, and removal of every record with an id.
    `key` extracts a record's id as `Number` would read it. */
module Records {
  import opened Basics

  // ---------------------------------------------------------------------
  // filter
  // ---------------------------------------------------------------------

  /** `xs.filter(p)`. */
  function Keep<T(!new)>(xs: seq<T>, p: T -> bool): (r: seq<T>)
    ensures |r| <= |xs|
    ensures forall i :: 0 <= i < |r| ==> p(r[i])
    decreases |xs|
  {
    if |xs| == 0 then []
    else (if p(xs[0]) then [xs[0]] else []) + Keep(xs[1..], p)
  }

  /** An element is kept exactly when it occurs and passes. */
  lemma {:induction false} KeepMembers<T(!new)>(xs: seq<T>, p: T -> bool)
    ensures forall x :: x in Keep(xs, p) <==> x in xs && p(x)
    decreases |xs|
  {
    if |xs| > 0 {
      KeepMembers(xs[1..], p);
      assert xs == [xs[0]] + xs[1..];
    }
  }

  /** `a` is obtained from `b` by deleting elements, keeping the order. */
  ghost predicate IsSubsequence<T>(a: seq<T>, b: seq<T>)
    decreases |b|
  {
    a == [] || (b != [] && ((a[0] == b[0] && IsSubsequence(a[1..], b[1..])) || IsSubsequence(a, b[1..])))
  }

  /** Filtering keeps the order of what it keeps. */
  lemma {:induction false} KeepIsSubsequence<T(!new)>(xs: seq<T>, p: T -> bool)
    ensures IsSubsequence(Keep(xs, p), xs)
    decreases |xs|
  {
    if |xs| > 0 {
      KeepIsSubsequence(xs[1..], p);
      var r := Keep(xs, p);
      if p(xs[0]) {
        assert r == [xs[0]] + Keep(xs[1..], p);
        assert r != [] && r[0] == xs[0] && r[1..] == Keep(xs[1..], p);
      } else {
        assert r == Keep(xs[1..], p);
      }
    }
  }

  /** Filtering keeps every element that passes, as often as it occurs, and
      no other element. */
  lemma {:induction false} KeepCounts<T(!new)>(xs: seq<T>, p: T -> bool, x: T)
    ensures multiset(Keep(xs, p))[x] == if p(x) then multiset(xs)[x] else 0
    decreases |xs|
  {
    if |xs| > 0 {
      KeepCounts(xs[1..], p, x);
      assert xs == [xs[0]] + xs[1..];
    }
  }

  /** Filtering loses nothing exactly when every element passes, and then
      the result is the input. */
  lemma {:induction false} KeepAll<T(!new)>(xs: seq<T>, p: T -> bool)
    ensures |Keep(xs, p)| == |xs| <==> forall i :: 0 <= i < |xs| ==> p(xs[i])
    ensures (forall i :: 0 <= i < |xs| ==> p(xs[i])) ==> Keep(xs, p) == xs
    decreases |xs|
  {
    if |xs| > 0 {
      KeepAll(xs[1..], p);
      assert forall i :: 1 <= i < |xs| ==> xs[1..][i - 1] == xs[i];
      assert xs == [xs[0]] + xs[1..];
    }
  }

  /** Two tests that agree on every element filter alike. */
  lemma {:induction false} KeepSame<T(!new)>(xs: seq<T>, p: T -> bool, q: T -> bool)
    requires forall x :: p(x) == q(x)
    ensures Keep(xs, p) == Keep(xs, q)
    decreases |xs|
  {
    if |xs| > 0 {
      KeepSame(xs[1..], p, q);
    }
  }

  /** Filtering twice is filtering once by both tests. */
  lemma {:induction false} KeepKeep<T(!new)>(xs: seq<T>, p: T -> bool, q: T -> bool, both: T -> bool)
    requires forall x :: both(x) == (p(x) && q(x))
    ensures Keep(Keep(xs, p), q) == Keep(xs, both)
    decreases |xs|
  {
    if |xs| > 0 {
      KeepKeep(xs[1..], p, q, both);
      if p(xs[0]) {
        var kp := Keep(xs[1..], p);
        assert Keep(xs, p) == [xs[0]] + kp;
        KeepAppend([xs[0]], kp, q);
        assert Keep([xs[0]], q) == (if q(xs[0]) then [xs[0]] else []) + Keep([xs[0]][1..], q);
      } else {
        assert Keep(xs, p) == Keep(xs[1..], p);
      }
    }
  }

  /** Filtering distributes over concatenation. */
  lemma {:induction false} KeepAppend<T(!new)>(a: seq<T>, b: seq<T>, p: T -> bool)
    ensures Keep(a + b, p) == Keep(a, p) + Keep(b, p)
    decreases |a|
  {
    if |a| == 0 {
      assert a + b == b;
    } else {
      var ab := a + b;
      assert ab[0] == a[0] && ab[1..] == a[1..] + b;
      KeepAppend(a[1..], b, p);
      var h := if p(a[0]) then [a[0]] else [];
      assert Keep(ab, p) == h + Keep(a[1..] + b, p);
      assert Keep(a, p) == h + Keep(a[1..], p);
    }
  }

  // ---------------------------------------------------------------------
  // ids
  // ---------------------------------------------------------------------

  /** The largest numeric id in `xs`, or 0 when there is none that is
      positive (non-numeric ids are passed over). */
  function MaxKey<T>(xs: seq<T>, key: T -> Option<int>): (m: int)
    ensures m >= 0
    ensures forall i :: 0 <= i < |xs| && key(xs[i]).Some? ==> key(xs[i]).value <= m
    ensures m == 0 || exists i :: 0 <= i < |xs| && key(xs[i]) == Some(m)
    decreases |xs|
  {
    if |xs| == 0 then 0
    else
      var m := MaxKey(xs[..|xs| - 1], key);
      var last := key(xs[|xs| - 1]);
      if last.Some? && last.value > m then last.value else m
  }

  /** The id `_nextId` hands out: one more than the largest numeric id, or
      1 when no numeric id is positive; so it is positive and no record holds
      it yet. */
  function NextKey<T>(xs: seq<T>, key: T -> Option<int>): (r: int)
    ensures r >= 1
    ensures forall i :: 0 <= i < |xs| && key(xs[i]).Some? ==> key(xs[i]).value < r
    ensures forall i :: 0 <= i < |xs| ==> key(xs[i]) != Some(r)
    ensures r == 1 || exists i :: 0 <= i < |xs| && key(xs[i]) == Some(r - 1)
    ensures r == 1 <==> forall i :: 0 <= i < |xs| && key(xs[i]).Some? ==> key(xs[i]).value <= 0
  {
    MaxKey(xs, key) + 1
  }

  /** The position of the first record whose id is `k`, if any. */
  function FirstIndex<T>(xs: seq<T>, key: T -> Option<int>, k: int): (r: Option<nat>)
    ensures r.Some? ==> r.value < |xs| && key(xs[r.value]) == Some(k)
    ensures r.Some? ==> forall j :: 0 <= j < r.value ==> key(xs[j]) != Some(k)
    ensures r.None? <==> forall j :: 0 <= j < |xs| ==> key(xs[j]) != Some(k)
    decreases |xs|
  {
    if |xs| == 0 then None
    else if key(xs[0]) == Some(k) then Some(0)
    else
      match FirstIndex(xs[1..], key, k)
      case None => None
      case Some(i) => Some(i + 1)
  }

  /** The first record whose id is `k`, if any. */
  function FindKey<T>(xs: seq<T>, key: T -> Option<int>, k: int): (r: Option<T>)
    ensures r.Some? ==>
      exists i :: 0 <= i < |xs| && xs[i] == r.value && key(xs[i]) == Some(k) && forall j :: 0 <= j < i ==> key(xs[j]) != Some(k)
    ensures r.None? <==> forall j :: 0 <= j < |xs| ==> key(xs[j]) != Some(k)
  {
    match FirstIndex(xs, key, k)
    case None => None
    case Some(i) => Some(xs[i])
  }

  /** `xs.filter(x => Number(x.id) !== k)`. */
  function RemoveKey<T(!new)>(xs: seq<T>, key: T -> Option<int>, k: int): seq<T>
  {
    Keep(xs, x => key(x) != Some(k))
  }

  /** Removal keeps, in order, exactly the records whose id is not `k`. */
  lemma RemoveKeyKeeps<T(!new)>(xs: seq<T>, key: T -> Option<int>, k: int)
    ensures IsSubsequence(RemoveKey(xs, key, k), xs)
    ensures forall x :: x in RemoveKey(xs, key, k) <==> x in xs && key(x) != Some(k)
    ensures forall x :: key(x) != Some(k) ==> multiset(RemoveKey(xs, key, k))[x] == multiset(xs)[x]
  {
    KeepIsSubsequence(xs, x => key(x) != Some(k));
    KeepMembers(xs, x => key(x) != Some(k));
    forall x | key(x) != Some(k)
      ensures multiset(RemoveKey(xs, key, k))[x] == multiset(xs)[x]
    {
      KeepCounts(xs, x => key(x) != Some(k), x);
    }
  }

  /** Removal changes the length exactly when some record has id `k`; when
      none has, the result is the input. */
  lemma RemoveKeyMissing<T(!new)>(xs: seq<T>, key: T -> Option<int>, k: int)
    ensures |RemoveKey(xs, key, k)| == |xs| <==> FirstIndex(xs, key, k).None?
    ensures FirstIndex(xs, key, k).None? ==> RemoveKey(xs, key, k) == xs
  {
    KeepAll(xs, x => key(x) != Some(k));
  }

  // ---------------------------------------------------------------------
  // uniqueness
  // ---------------------------------------------------------------------

  /** No numeric id occurs twice. */
  predicate UniqueKeys<T>(xs: seq<T>, key: T -> Option<int>)
  {
    forall i, j :: 0 <= i < j < |xs| && key(xs[i]).Some? ==> key(xs[i]) != key(xs[j])
  }

  /** No two records agree on `f`. */
  predicate UniqueBy<T, K(==)>(xs: seq<T>, f: T -> K)
  {
    forall i, j :: 0 <= i < j < |xs| ==> f(xs[i]) != f(xs[j])
  }

  /** Appending a record that holds the next id keeps the ids unique. */
  lemma UniqueKeysAppendNext<T>(xs: seq<T>, key: T -> Option<int>, x: T)
    requires UniqueKeys(xs, key)
    requires key(x) == Some(NextKey(xs, key))
    ensures UniqueKeys(xs + [x], key)
  {
    var ys := xs + [x];
    forall i, j | 0 <= i < j < |ys| && key(ys[i]).Some?
      ensures key(ys[i]) != key(ys[j])
    {
      if j == |xs| {
        assert ys[i] == xs[i];
      } else {
        assert ys[i] == xs[i] && ys[j] == xs[j];
      }
    }
  }

  /** Replacing a record by one with the same id keeps the ids unique. */
  lemma UniqueKeysReplace<T>(xs: seq<T>, key: T -> Option<int>, i: nat, x: T)
    requires UniqueKeys(xs, key) && i < |xs| && key(x) == key(xs[i])
    ensures UniqueKeys(xs[i := x], key)
  {
    var ys := xs[i := x];
    assert forall k :: 0 <= k < |ys| ==> key(ys[k]) == key(xs[k]);
  }

  /** Filtering keeps the ids unique. */
  lemma {:induction false} UniqueKeysKeep<T(!new)>(xs: seq<T>, key: T -> Option<int>, p: T -> bool)
    requires UniqueKeys(xs, key)
    ensures UniqueKeys(Keep(xs, p), key)
    decreases |xs|
  {
    if |xs| > 0 {
      var rest := xs[1..];
      assert forall i, j :: 0 <= i < j < |rest| ==> rest[i] == xs[i + 1] && rest[j] == xs[j + 1];
      UniqueKeysKeep(rest, key, p);
      if p(xs[0]) {
        var r := Keep(xs, p);
        var kr := Keep(rest, p);
        KeepMembers(rest, p);
        assert r == [xs[0]] + kr;
        forall j | 0 < j < |r| && key(xs[0]).Some?
          ensures key(xs[0]) != key(r[j])
        {
          assert r[j] == kr[j - 1];
          assert r[j] in rest;
          var m :| 0 <= m < |rest| && rest[m] == r[j];
          assert xs[m + 1] == r[j];
        }
      }
    }
  }

  /** Appending a record whose `f` differs from every record's keeps `f`
      unique. */
  lemma UniqueByAppend<T, K>(xs: seq<T>, f: T -> K, x: T)
    requires UniqueBy(xs, f)
    requires forall i :: 0 <= i < |xs| ==> f(xs[i]) != f(x)
    ensures UniqueBy(xs + [x], f)
  {
    var ys := xs + [x];
    assert forall i :: 0 <= i < |xs| ==> ys[i] == xs[i];
  }

  /** Filtering keeps `f` unique. */
  lemma {:induction false} UniqueByKeep<T(!new), K>(xs: seq<T>, f: T -> K, p: T -> bool)
    requires UniqueBy(xs, f)
    ensures UniqueBy(Keep(xs, p), f)
    decreases |xs|
  {
    if |xs| > 0 {
      var rest := xs[1..];
      assert forall i, j :: 0 <= i < j < |rest| ==> rest[i] == xs[i + 1] && rest[j] == xs[j + 1];
      UniqueByKeep(rest, f, p);
      if p(xs[0]) {
        var r := Keep(xs, p);
        var kr := Keep(rest, p);
        KeepMembers(rest, p);
        assert r == [xs[0]] + kr;
        forall j | 0 < j < |r|
          ensures f(xs[0]) != f(r[j])
        {
          assert r[j] == kr[j - 1];
          assert r[j] in rest;
          var m :| 0 <= m < |rest| && rest[m] == r[j];
          assert xs[m + 1] == r[j];
        }
      }
    }
  }

  /** Removing the records with one id keeps the ids unique. */
  lemma UniqueKeysRemove<T(!new)>(xs: seq<T>, key: T -> Option<int>, k: int)
    requires UniqueKeys(xs, key)
    ensures UniqueKeys(RemoveKey(xs, key, k), key)
  {
    UniqueKeysKeep(xs, key, x => key(x) != Some(k));
  }

  /** Removing the records with one id keeps `f` unique. */
  lemma UniqueByRemove<T(!new), K>(xs: seq<T>, key: T -> Option<int>, k: int, f: T -> K)
    requires UniqueBy(xs, f)
    ensures UniqueBy(RemoveKey(xs, key, k), f)
  {
    UniqueByKeep(xs, f, x => key(x) != Some(k));
  }
}
