/** Sums, sorting and medians of sequences of reals: the arithmetic that the
    aggregation and the evaluation share. */
module RealSeqs {

  function Sum(xs: seq<real>): real {
    if xs == [] then 0.0 else xs[0] + Sum(xs[1..])
  }

  lemma {:induction false} SumAppend(xs: seq<real>, ys: seq<real>)
    ensures Sum(xs + ys) == Sum(xs) + Sum(ys)
  {
    if xs == [] {
      assert xs + ys == ys;
    } else {
      assert (xs + ys)[1..] == xs[1..] + ys;
      SumAppend(xs[1..], ys);
    }
  }

  lemma {:induction false} SumOfRest(xs: seq<real>, k: nat)
    requires k < |xs|
    ensures Sum(xs) == xs[k] + Sum(xs[..k] + xs[k + 1..])
  {
    SumAppend(xs[..k], xs[k..]);
    assert xs == xs[..k] + xs[k..];
    assert xs[k..][1..] == xs[k + 1..];
    SumAppend(xs[..k], xs[k + 1..]);
  }

  function Without<T>(xs: seq<T>, k: nat): (r: seq<T>)
    requires k < |xs|
    ensures |r| == |xs| - 1
  {
    xs[..k] + xs[k + 1..]
  }

  lemma WithoutOne<T>(xs: seq<T>, k: nat)
    requires k < |xs|
    ensures multiset(xs) == multiset(Without(xs, k)) + multiset{xs[k]}
  {
    assert xs == xs[..k] + [xs[k]] + xs[k + 1..];
  }

  lemma SameLength<T>(xs: seq<T>, ys: seq<T>)
    requires multiset(xs) == multiset(ys)
    ensures |xs| == |ys|
  {
    assert |multiset(xs)| == |multiset(ys)|;
  }

  /** Finds in ys the first value of xs; what remains of the two is again a permutation. */
  lemma MatchHead<T>(xs: seq<T>, ys: seq<T>) returns (k: nat)
    requires xs != [] && multiset(xs) == multiset(ys)
    ensures k < |ys| && ys[k] == xs[0]
    ensures multiset(xs[1..]) == multiset(Without(ys, k))
  {
    assert xs[0] in multiset(ys);
    k :| 0 <= k < |ys| && ys[k] == xs[0];
    assert Without(xs, 0) == xs[1..];
    WithoutOne(xs, 0);
    WithoutOne(ys, k);
    var rest, head := Without(ys, k), multiset{xs[0]};
    assert multiset(rest) == multiset(rest) + head - head == multiset(xs[1..]) + head - head;
  }

  /** A sum does not depend on the order of its terms. */
  lemma {:induction false} SumPermutes(xs: seq<real>, ys: seq<real>)
    requires multiset(xs) == multiset(ys)
    ensures Sum(xs) == Sum(ys)
  {
    SameLength(xs, ys);
    if xs != [] {
      var k := MatchHead(xs, ys);
      SumPermutes(xs[1..], Without(ys, k));
      SumOfRest(ys, k);
    }
  }

  function Map<T, U>(f: T -> U, xs: seq<T>): (r: seq<U>)
    ensures |r| == |xs|
    ensures forall i :: 0 <= i < |xs| ==> r[i] == f(xs[i])
  {
    seq(|xs|, i requires 0 <= i < |xs| => f(xs[i]))
  }

  function Scale(c: real, xs: seq<real>): (r: seq<real>)
    ensures |r| == |xs|
    ensures forall i :: 0 <= i < |xs| ==> r[i] == c * xs[i]
  {
    Map(x => c * x, xs)
  }

  lemma {:induction false} SumScale(c: real, xs: seq<real>)
    ensures Sum(Scale(c, xs)) == c * Sum(xs)
  {
    if xs != [] {
      assert Scale(c, xs)[1..] == Scale(c, xs[1..]);
      SumScale(c, xs[1..]);
    }
  }

  lemma {:induction false} SumPositive(xs: seq<real>)
    requires forall i :: 0 <= i < |xs| ==> xs[i] > 0.0
    ensures Sum(xs) >= 0.0
    ensures xs != [] ==> Sum(xs) > 0.0
  {
    if xs != [] {
      SumPositive(xs[1..]);
    }
  }

  ghost predicate Ascending(xs: seq<real>) {
    forall i, j :: 0 <= i < j < |xs| ==> xs[i] <= xs[j]
  }

  function Insert(x: real, xs: seq<real>): (r: seq<real>)
    ensures |r| == |xs| + 1
  {
    if xs == [] then [x]
    else if x <= xs[0] then [x] + xs
    else [xs[0]] + Insert(x, xs[1..])
  }

  lemma {:induction false} InsertKeepsOrder(x: real, xs: seq<real>)
    requires Ascending(xs)
    ensures Ascending(Insert(x, xs))
    ensures Insert(x, xs)[0] == x || (xs != [] && Insert(x, xs)[0] == xs[0])
  {
    if xs != [] && x > xs[0] {
      InsertKeepsOrder(x, xs[1..]);
    }
  }

  lemma {:induction false} InsertAdds(x: real, xs: seq<real>)
    ensures multiset(Insert(x, xs)) == multiset(xs) + multiset{x}
  {
    if xs != [] && x > xs[0] {
      InsertAdds(x, xs[1..]);
      assert xs == [xs[0]] + xs[1..];
    }
  }

  function Sorted(xs: seq<real>): (r: seq<real>)
    ensures |r| == |xs|
  {
    if xs == [] then [] else Insert(xs[0], Sorted(xs[1..]))
  }

  lemma {:induction false} SortedSorts(xs: seq<real>)
    ensures Ascending(Sorted(xs))
    ensures multiset(Sorted(xs)) == multiset(xs)
  {
    if xs != [] {
      SortedSorts(xs[1..]);
      InsertKeepsOrder(xs[0], Sorted(xs[1..]));
      InsertAdds(xs[0], Sorted(xs[1..]));
      assert xs == [xs[0]] + xs[1..];
    }
  }

  /** The upper median for an odd count, the mean of the two middle values for an even one. */
  function Median(xs: seq<real>): real
    requires xs != []
  {
    Middle(Sorted(xs))
  }

  function Middle(s: seq<real>): real
    requires s != []
  {
    var mid := |s| / 2;
    if |s| % 2 == 1 then s[mid] else (s[mid - 1] + s[mid]) / 2.0
  }

  lemma {:induction false} AscendingIsUnique(xs: seq<real>, ys: seq<real>)
    requires Ascending(xs) && Ascending(ys) && multiset(xs) == multiset(ys)
    ensures xs == ys
  {
    SameLength(xs, ys);
    if xs != [] {
      assert xs[0] in multiset(ys) && ys[0] in multiset(xs);
      assert xs[0] == ys[0];
      assert xs == [xs[0]] + xs[1..] && ys == [ys[0]] + ys[1..];
      assert multiset(xs[1..]) == multiset(xs) - multiset{xs[0]};
      assert multiset(ys[1..]) == multiset(ys) - multiset{ys[0]};
      AscendingIsUnique(xs[1..], ys[1..]);
    }
  }

  lemma SortedOfAscending(xs: seq<real>)
    requires Ascending(xs)
    ensures Sorted(xs) == xs
  {
    SortedSorts(xs);
    AscendingIsUnique(Sorted(xs), xs);
  }

  /** The median depends on which values are present, not on their order. */
  lemma MedianPermutes(xs: seq<real>, ys: seq<real>)
    requires xs != [] && multiset(xs) == multiset(ys)
    ensures |ys| == |xs| && Median(xs) == Median(ys)
  {
    SameLength(xs, ys);
    SortedSorts(xs);
    SortedSorts(ys);
    AscendingIsUnique(Sorted(xs), Sorted(ys));
  }

  ghost predicate Monotone(f: real -> real) {
    forall x, y :: x <= y ==> f(x) <= f(y)
  }

  lemma {:induction false} SortedMapped(f: real -> real, xs: seq<real>)
    requires Monotone(f)
    ensures Sorted(Map(f, xs)) == Map(f, Sorted(xs))
  {
    var image := Map(f, Sorted(xs));
    SortedSorts(xs);
    SortedSorts(Map(f, xs));
    assert multiset(image) == multiset(Map(f, xs)) by {
      MapPermutes(f, Sorted(xs), xs);
    }
    assert Ascending(image);
    AscendingIsUnique(Sorted(Map(f, xs)), image);
  }

  lemma {:induction false} MapPermutes<T, U>(f: T -> U, xs: seq<T>, ys: seq<T>)
    requires multiset(xs) == multiset(ys)
    ensures multiset(Map(f, xs)) == multiset(Map(f, ys))
  {
    SameLength(xs, ys);
    if xs != [] {
      var k := MatchHead(xs, ys);
      MapPermutes(f, xs[1..], Without(ys, k));
      assert Map(f, Without(ys, k)) == Without(Map(f, ys), k);
      assert Map(f, xs[1..]) == Without(Map(f, xs), 0);
      WithoutOne(Map(f, xs), 0);
      WithoutOne(Map(f, ys), k);
    }
  }

  lemma ScalingIsMonotone(c: real, x: real, y: real)
    requires c >= 0.0 && x <= y
    ensures c * x <= c * y
  {
    assert c * (y - x) >= 0.0;
  }

  lemma SortedScales(c: real, xs: seq<real>)
    requires c >= 0.0
    ensures Sorted(Scale(c, xs)) == Scale(c, Sorted(xs))
  {
    var f := (x: real) => c * x;
    forall x, y | x <= y ensures f(x) <= f(y) {
      ScalingIsMonotone(c, x, y);
    }
    SortedMapped(f, xs);
    assert Scale(c, xs) == Map(f, xs);
  }

  lemma MiddleScales(c: real, s: seq<real>)
    requires s != []
    ensures Middle(Scale(c, s)) == c * Middle(s)
  {
    var mid := |s| / 2;
    if |s| % 2 == 0 {
      var a, b := s[mid - 1], s[mid];
      assert (c * a + c * b) / 2.0 == c * ((a + b) / 2.0);
    }
  }

  lemma MedianScales(c: real, xs: seq<real>)
    requires c >= 0.0 && xs != []
    ensures Median(Scale(c, xs)) == c * Median(xs)
  {
    hide Sorted, Middle, Scale;
    SortedScales(c, xs);
    MiddleScales(c, Sorted(xs));
  }

  /** How many members of xs are strictly above x. */
  function CountAbove(xs: seq<real>, x: real): nat {
    if xs == [] then 0 else (if xs[0] > x then 1 else 0) + CountAbove(xs[1..], x)
  }

  lemma {:induction false} CountAboveAppend(xs: seq<real>, ys: seq<real>, x: real)
    ensures CountAbove(xs + ys, x) == CountAbove(xs, x) + CountAbove(ys, x)
  {
    if xs == [] {
      assert xs + ys == ys;
    } else {
      assert (xs + ys)[1..] == xs[1..] + ys;
      CountAboveAppend(xs[1..], ys, x);
    }
  }

  lemma {:induction false} CountAbovePermutes(xs: seq<real>, ys: seq<real>, x: real)
    requires multiset(xs) == multiset(ys)
    ensures CountAbove(xs, x) == CountAbove(ys, x)
  {
    SameLength(xs, ys);
    if xs != [] {
      var k := MatchHead(xs, ys);
      CountAbovePermutes(xs[1..], Without(ys, k), x);
      CountAboveAppend(ys[..k], ys[k + 1..], x);
      CountAboveAppend(ys[..k], ys[k..], x);
      assert ys == ys[..k] + ys[k..] && ys[k..][1..] == ys[k + 1..];
    }
  }

  lemma {:induction false} CountAboveAtMost(xs: seq<real>, x: real)
    ensures CountAbove(xs, x) <= |xs|
    ensures (forall i :: 0 <= i < |xs| ==> xs[i] <= x) ==> CountAbove(xs, x) == 0
  {
    if xs != [] {
      CountAboveAtMost(xs[1..], x);
    }
  }

  /** Fewer than |xs| - k values of xs exceed the k-th smallest. */
  lemma CountAboveRank(xs: seq<real>, k: nat, x: real)
    requires k < |xs| && x >= Sorted(xs)[k]
    ensures CountAbove(xs, x) <= |xs| - 1 - k
  {
    var s := Sorted(xs);
    SortedSorts(xs);
    CountAbovePermutes(xs, s, x);
    assert s == s[..k + 1] + s[k + 1..];
    CountAboveAppend(s[..k + 1], s[k + 1..], x);
    CountAboveAtMost(s[..k + 1], x);
    CountAboveAtMost(s[k + 1..], x);
  }
}
