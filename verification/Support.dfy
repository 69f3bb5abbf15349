/** Small shared vocabulary: results, bytes, library sorting and sums over maps. */
module Support {

  datatype Option<+T> = None | Some(value: T)

  datatype Result<+T, +E> = Ok(value: T) | Err(error: E)

  /** A Go string or []byte holds bytes; a byte is a character below 256. */
  type byte = c: char | c as int < 256 witness ' '

  const TWO_63: int := 0x8000_0000_0000_0000

  predicate IsInt64(x: int) {
    -TWO_63 <= x < TWO_63
  }

  ghost predicate SortedBy<T(!new)>(le: (T, T) -> bool, xs: seq<T>) {
    forall i, j :: 0 <= i < j < |xs| ==> le(xs[i], xs[j])
  }

  ghost predicate TotalPreorder<T(!new)>(le: (T, T) -> bool) {
    && (forall a, b :: le(a, b) || le(b, a))
    && (forall a, b, c :: le(a, b) && le(b, c) ==> le(a, c))
  }

  /** Stands for sort.Slice: a sorted permutation, ties in any order. */
  method SortSlice<T(!new)>(xs: seq<T>, le: (T, T) -> bool) returns (ys: seq<T>)
    requires TotalPreorder(le)
    ensures multiset(ys) == multiset(xs)
    ensures SortedBy(le, ys)
  {
    ys := [];
    for i := 0 to |xs|
      invariant multiset(ys) == multiset(xs[..i])
      invariant SortedBy(le, ys)
    {
      var k := 0;
      while k < |ys| && le(ys[k], xs[i])
        invariant 0 <= k <= |ys|
        invariant forall j :: 0 <= j < k ==> le(ys[j], xs[i])
      {
        k := k + 1;
      }
      assert xs[..i + 1] == xs[..i] + [xs[i]];
      InsertKeepsOrder(ys, k, xs[i], le);
      InsertAdds(ys, k, xs[i]);
      ys := ys[..k] + [xs[i]] + ys[k..];
    }
    assert xs[..|xs|] == xs;
  }

  lemma InsertAdds<T>(ys: seq<T>, k: nat, x: T)
    requires k <= |ys|
    ensures multiset(ys[..k] + [x] + ys[k..]) == multiset(ys) + multiset{x}
  {
    assert ys == ys[..k] + ys[k..];
  }

  lemma InsertKeepsOrder<T(!new)>(ys: seq<T>, k: nat, x: T, le: (T, T) -> bool)
    requires TotalPreorder(le) && SortedBy(le, ys) && k <= |ys|
    requires forall j :: 0 <= j < k ==> le(ys[j], x)
    requires k < |ys| ==> !le(ys[k], x)
    ensures SortedBy(le, ys[..k] + [x] + ys[k..])
  {
  }

  lemma SameElements<T>(xs: seq<T>, ys: seq<T>)
    requires multiset(xs) == multiset(ys)
    ensures |xs| == |ys|
    ensures forall x :: x in xs <==> x in ys
  {
    assert |multiset(xs)| == |multiset(ys)|;
    forall x
      ensures x in xs <==> x in ys
    {
      assert x in multiset(xs) <==> x in multiset(ys);
    }
  }

  ghost predicate Distinct<T(!new)>(xs: seq<T>) {
    forall i, j :: 0 <= i < j < |xs| ==> xs[i] != xs[j]
  }

  lemma DistinctPermutation<T(!new)>(xs: seq<T>, ys: seq<T>)
    requires multiset(xs) == multiset(ys) && Distinct(ys)
    ensures Distinct(xs)
  {
    forall i, j | 0 <= i < j < |xs|
      ensures xs[i] != xs[j]
    {
      assert xs == xs[..i] + [xs[i]] + xs[i + 1..j] + [xs[j]] + xs[j + 1..];
      OnceEach(ys, xs[i]);
    }
  }

  lemma OnceEach<T(!new)>(ys: seq<T>, y: T)
    requires Distinct(ys)
    ensures multiset(ys)[y] <= 1
  {
    if ys != [] {
      var n := |ys| - 1;
      assert ys == ys[..n] + [ys[n]];
      OnceEach(ys[..n], y);
    }
  }

  lemma {:induction false} DistinctCount<T(!new)>(xs: seq<T>, s: set<T>)
    requires Distinct(xs) && forall x :: x in xs <==> x in s
    ensures |xs| == |s|
  {
    if xs == [] {
      assert s == {};
    } else {
      var n := |xs| - 1;
      assert xs == xs[..n] + [xs[n]];
      DistinctCount(xs[..n], s - {xs[n]});
    }
  }

  lemma Associative<T>(a: seq<T>, b: seq<T>, c: seq<T>)
    ensures (a + b) + c == a + (b + c)
  {
  }

  lemma HasElement<T>(xs: seq<T>)
    requires xs != []
    ensures exists x :: x in xs
  {
    assert xs[0] in xs;
  }

  function Flatten<T>(parts: seq<seq<T>>): seq<T> {
    if parts == [] then [] else parts[0] + Flatten(parts[1..])
  }

  lemma {:induction false} FlattenCons<T>(p: seq<T>, parts: seq<seq<T>>)
    ensures Flatten([p] + parts) == p + Flatten(parts)
  {
  }

  ghost function MapSum<K>(m: map<K, int>): int
    decreases |m|
  {
    if m == map[] then 0 else
      var k :| k in m;
      m[k] + MapSum(m - {k})
  }

  lemma {:induction false} MapSumRemove<K>(m: map<K, int>, k: K)
    requires k in m
    ensures MapSum(m) == m[k] + MapSum(m - {k})
    decreases |m|
  {
    var j :| j in m && MapSum(m) == m[j] + MapSum(m - {j});
    if j != k {
      MapSumRemove(m - {j}, k);
      MapSumRemove(m - {k}, j);
      assert m - {j} - {k} == m - {k} - {j};
    }
  }

  /** Storing a value changes the sum by what the key held before. */
  lemma MapSumUpdate<K>(m: map<K, int>, k: K, v: int)
    ensures MapSum(m[k := v]) == MapSum(m) + v - (if k in m then m[k] else 0)
  {
    MapSumRemove(m[k := v], k);
    if k in m {
      MapSumRemove(m, k);
      assert m[k := v] - {k} == m - {k};
    } else {
      assert m[k := v] - {k} == m;
    }
  }
}
