/**
 The bill-of-materials tally: a counter map from a cut size (width, height)
 to the number of pieces of that size, updated one piece at a time.
 */
module Tally {

  /** A cut size: (width, height) in centimetres. */
  type Key = (real, real)

  /** The counter map kept for one bookcase. */
  type Materials = map<Key, nat>

  /** How many pieces of size `k` the tally holds (0 for a key not present). */
  function Count(m: Materials, k: Key): nat
  {
    if k in m then m[k] else 0
  }

  /** Record one piece of size `k`. */
  function Add(m: Materials, k: Key): Materials
  {
    if k in m then m[k := m[k] + 1] else m[k := 1]
  }

  /** Recording a piece raises its size's count by one (a new size is inserted
      with count 1) and leaves every other size's count as it was. */
  lemma AddCounts(m: Materials, k: Key)
    ensures k in Add(m, k) && Count(Add(m, k), k) == Count(m, k) + 1
    ensures k !in m ==> Add(m, k)[k] == 1
    ensures forall j :: j != k ==> Count(Add(m, k), j) == Count(m, j)
    ensures Add(m, k).Keys == m.Keys + {k}
  {
  }

  /** Record the pieces `ks` one after another, in order. */
  function AddAll(m: Materials, ks: seq<Key>): Materials
  {
    AddFirst(m, ks, |ks|)
  }

  /** Record the first `n` of the pieces `ks`, in order. */
  function AddFirst(m: Materials, ks: seq<Key>, n: nat): Materials
    requires n <= |ks|
  {
    if n == 0 then m else Add(AddFirst(m, ks, n - 1), ks[n - 1])
  }

  /** The tally built from nothing by recording `ks`. */
  function TallyOf(ks: seq<Key>): Materials
  {
    AddAll(map[], ks)
  }

  /** Recording the first `n` pieces depends only on those pieces. */
  lemma {:induction false} AddFirstSame(m: Materials, a: seq<Key>, b: seq<Key>, n: nat)
    requires n <= |a| && n <= |b|
    requires forall i :: 0 <= i < n ==> a[i] == b[i]
    ensures AddFirst(m, a, n) == AddFirst(m, b, n)
  {
    if n > 0 {
      AddFirstSame(m, a, b, n - 1);
    }
  }

  /** Recording `a` and then the first `j` pieces of `b` is recording the first
      `|a| + j` pieces of `a + b`. */
  lemma {:induction false} AddFirstAppend(m: Materials, a: seq<Key>, b: seq<Key>, j: nat)
    requires j <= |b|
    ensures AddFirst(m, a + b, |a| + j) == AddFirst(AddAll(m, a), b, j)
  {
    if j == 0 {
      AddFirstSame(m, a + b, a, |a|);
    } else {
      AddFirstAppend(m, a, b, j - 1);
    }
  }

  /** Recording `a` and then `b` is recording `a + b`. */
  lemma AddAllAppend(m: Materials, a: seq<Key>, b: seq<Key>)
    ensures AddAll(m, a + b) == AddAll(AddAll(m, a), b)
  {
    AddFirstAppend(m, a, b, |b|);
  }

  /** Recording the first `n` pieces raises each key's count by the number of
      times it occurs among them. */
  lemma {:induction false} AddFirstCount(m: Materials, ks: seq<Key>, n: nat, k: Key)
    requires n <= |ks|
    ensures Count(AddFirst(m, ks, n), k) == Count(m, k) + multiset(ks[..n])[k]
  {
    if n > 0 {
      assert ks[..n] == ks[..n - 1] + [ks[n - 1]];
      AddFirstCount(m, ks, n - 1, k);
      AddCounts(AddFirst(m, ks, n - 1), ks[n - 1]);
    }
  }

  /** Each key's count goes up by exactly the number of times it occurs in `ks`. */
  lemma AddAllCount(m: Materials, ks: seq<Key>, k: Key)
    ensures Count(AddAll(m, ks), k) == Count(m, k) + multiset(ks)[k]
  {
    AddFirstCount(m, ks, |ks|, k);
    assert ks[..|ks|] == ks;
  }

  /** The tally built from `ks` holds, for each size, exactly its multiplicity in `ks`,
      and holds no size that does not occur in `ks`. */
  lemma TallyOfIsMultiset(ks: seq<Key>, k: Key)
    ensures Count(TallyOf(ks), k) == multiset(ks)[k]
    ensures k in TallyOf(ks) <==> k in ks
  {
    AddAllCount(map[], ks, k);
    AddAllKeys(map[], ks);
  }

  /** The keys after recording the first `n` pieces are the old keys plus those pieces. */
  lemma {:induction false} AddFirstKeys(m: Materials, ks: seq<Key>, n: nat)
    requires n <= |ks|
    ensures AddFirst(m, ks, n).Keys == m.Keys + set i | 0 <= i < n :: ks[i]
  {
    if n > 0 {
      AddFirstKeys(m, ks, n - 1);
      AddCounts(AddFirst(m, ks, n - 1), ks[n - 1]);
      assert (set i | 0 <= i < n :: ks[i]) == (set i | 0 <= i < n - 1 :: ks[i]) + {ks[n - 1]};
    }
  }

  /** The keys after recording `ks` are the old keys plus those of `ks`. */
  lemma AddAllKeys(m: Materials, ks: seq<Key>)
    ensures AddAll(m, ks).Keys == m.Keys + set k | k in ks
  {
    AddFirstKeys(m, ks, |ks|);
    assert (set i | 0 <= i < |ks| :: ks[i]) == set k | k in ks;
  }

  /** The sum of all counts in the tally. */
  ghost function Total(m: Materials): nat
    decreases |m|
  {
    if m == map[] then 0
    else
      var k :| k in m;
      assert |m - {k}| < |m| by { assert (m - {k}).Keys == m.Keys - {k}; }
      m[k] + Total(m - {k})
  }

  /** Total does not depend on which key is taken out first. */
  lemma {:induction false} TotalRemove(m: Materials, k: Key)
    requires k in m
    ensures Total(m) == m[k] + Total(m - {k})
    decreases |m|
  {
    var j :| j in m && Total(m) == m[j] + Total(m - {j});
    if j != k {
      assert (m - {j}).Keys == m.Keys - {j};
      assert (m - {k}).Keys == m.Keys - {k};
      TotalRemove(m - {j}, k);
      TotalRemove(m - {k}, j);
      assert m - {j} - {k} == m - {k} - {j};
    }
  }

  /** Recording one piece raises the total by exactly one. */
  lemma TotalAdd(m: Materials, k: Key)
    ensures Total(Add(m, k)) == Total(m) + 1
  {
    var r := Add(m, k);
    AddCounts(m, k);
    TotalRemove(r, k);
    if k in m {
      TotalRemove(m, k);
      assert r - {k} == m - {k};
    } else {
      assert r - {k} == m;
    }
  }

  /** Recording the first `n` pieces raises the total by exactly `n`. */
  lemma {:induction false} TotalAddFirst(m: Materials, ks: seq<Key>, n: nat)
    requires n <= |ks|
    ensures Total(AddFirst(m, ks, n)) == Total(m) + n
  {
    if n > 0 {
      TotalAddFirst(m, ks, n - 1);
      TotalAdd(AddFirst(m, ks, n - 1), ks[n - 1]);
    }
  }

  /** Recording `ks` raises the total by exactly `|ks|`. */
  lemma TotalAddAll(m: Materials, ks: seq<Key>)
    ensures Total(AddAll(m, ks)) == Total(m) + |ks|
  {
    TotalAddFirst(m, ks, |ks|);
  }

  /** The counts of a tally built from `ks` sum to the number of pieces recorded. */
  lemma TallyOfTotal(ks: seq<Key>)
    ensures Total(TallyOf(ks)) == |ks|
  {
    TotalAddAll(map[], ks);
  }
}
