/** How many of a cohort gate 4 leaves: somebody always, exactly when the tensors are few enough. */
module GateSurvival {
  import opened Wrappers
  import opened RealSeqs
  import opened Tensors
  import opened NormGate

  // ---- what one tensor condemns ---------------------------------------------------------------

  lemma {:induction false} CountAboveIsSet(vals: seq<real>, x: real, m: nat)
    requires m <= |vals|
    ensures |set i: nat | i < m && vals[i] > x| == CountAbove(vals[..m], x)
  {
    var now := set i: nat | i < m && vals[i] > x;
    if m > 0 {
      var before := set i: nat | i < m - 1 && vals[i] > x;
      CountAboveIsSet(vals, x, m - 1);
      if vals[m - 1] > x {
        assert now == before + {m - 1};
      } else {
        assert now == before;
      }
      assert vals[..m] == vals[..m - 1] + [vals[m - 1]];
      CountAboveAppend(vals[..m - 1], [vals[m - 1]], x);
    } else {
      assert now == {};
    }
  }

  ghost function CondemnedHere(vals: seq<real>, k: real): set<nat> {
    set i: nat | i < |vals| && Outlier(vals, i, k)
  }

  lemma CondemnedHereBound(vals: seq<real>, k: real)
    requires |vals| >= 3 && FactorSuits(|vals|, k) && NonNegative(vals)
    ensures |CondemnedHere(vals, k)| <= (|vals| - 1) / 2
  {
    MinorityPerTensor(vals, k);
    CountAboveIsSet(vals, k * Median(vals), |vals|);
    assert vals[..|vals|] == vals;
    var above := set i: nat | i < |vals| && vals[i] > k * Median(vals);
    assert CondemnedHere(vals, k) == if Median(vals) == 0.0 then {} else above;
  }

  // ---- what all of them condemn -----------------------------------------------------------------

  /** The adapters that some tensor of the given names condemns. */
  ghost function CondemnedBy(adapters: seq<Adapter>, norm: Norm, k: real, names: set<string>): set<nat>
    requires SharedNames(adapters) && (|adapters| > 0 ==> names <= adapters[0].Keys)
  {
    set i: nat | i < |adapters| && SomeCondemns(adapters, norm, k, names, i)
  }

  ghost predicate SomeCondemns(adapters: seq<Adapter>, norm: Norm, k: real, names: set<string>, i: nat)
    requires SharedNames(adapters) && i < |adapters| && names <= adapters[0].Keys
  {
    exists name :: name in names && Outlier(NormsOf(name, adapters, norm), i, k)
  }

  ghost predicate NonNegativeNorm(norm: Norm) {
    forall t: Tensor :: norm(t) >= 0.0
  }

  lemma {:induction false} CondemnedBound(adapters: seq<Adapter>, norm: Norm, k: real, names: set<string>)
    requires SharedNames(adapters) && |adapters| >= 3 && names <= adapters[0].Keys
    requires FactorSuits(|adapters|, k) && NonNegativeNorm(norm)
    ensures |CondemnedBy(adapters, norm, k, names)| <= |names| * ((|adapters| - 1) / 2)
  {
    hide Outlier;
    var share := (|adapters| - 1) / 2;
    if names == {} {
      assert CondemnedBy(adapters, norm, k, names) == {};
    } else {
      var name :| name in names;
      var rest := names - {name};
      CondemnedBound(adapters, norm, k, rest);
      var vals := NormsOf(name, adapters, norm);
      CondemnedHereBound(vals, k);
      var all, some, here := CondemnedBy(adapters, norm, k, names), CondemnedBy(adapters, norm, k, rest), CondemnedHere(vals, k);
      assert all <= some + here;
      SmallerSet(all, some + here);
      assert |some + here| <= |some| + |here|;
      OneMoreShare(|rest|, share);
    }
  }

  lemma OneMoreShare(t: nat, share: nat)
    ensures (t + 1) * share == t * share + share
  {
  }

  ghost predicate SomebodyLeft(adapters: seq<Adapter>, norm: Norm, k: real)
    requires SharedNames(adapters)
  {
    exists i: nat :: i < |adapters| && VerdictOf(adapters, norm, k, i) == Accepted
  }

  /** With T shared tensors at most T times a minority is condemned; if that is not everybody, somebody
      is left. */
  lemma FewTensorsLeaveSomebody(adapters: seq<Adapter>, norm: Norm, k: real)
    requires SharedNames(adapters) && |adapters| >= 3 && FactorSuits(|adapters|, k) && NonNegativeNorm(norm)
    ensures |set i: nat | i < |adapters| && Condemned(adapters, norm, k, i)| <= |adapters[0].Keys| * ((|adapters| - 1) / 2)
    ensures |adapters[0].Keys| * ((|adapters| - 1) / 2) < |adapters| ==> SomebodyLeft(adapters, norm, k)
  {
    hide Outlier, NormsOf;
    var n := |adapters|;
    CondemnedBound(adapters, norm, k, adapters[0].Keys);
    var out := CondemnedBy(adapters, norm, k, adapters[0].Keys);
    assert out == set i: nat | i < n && Condemned(adapters, norm, k, i);
    var all := From(0, n);
    FromSize(0, n);
    if |out| < n {
      if all <= out { SmallerSet(all, out); }
      var i :| i in all && i !in out;
      assert VerdictOf(adapters, norm, k, i) == Accepted;
    }
  }

  /** The m numbers from `first` on. */
  ghost function From(first: nat, m: nat): set<nat> {
    if m == 0 then {} else From(first, m - 1) + {first + m - 1}
  }

  lemma {:induction false} FromSize(first: nat, m: nat)
    ensures |From(first, m)| == m && forall i: nat :: i in From(first, m) <==> first <= i < first + m
  {
    if m > 0 {
      FromSize(first, m - 1);
    }
  }

  // ---- everybody condemned ------------------------------------------------------------------------

  /** A norm that is the magnitude of a single cell. */
  ghost predicate OneCellNorm(norm: Norm) {
    forall x: real :: norm(OneCell(x)) == if x >= 0.0 then x else -x
  }

  function OneCell(x: real): Tensor {
    Dense([1], "float32", [x])
  }

  predicate Distinct<T(==)>(xs: seq<T>) {
    forall i, j | 0 <= i < j < |xs| :: xs[i] != xs[j]
  }

  /** Worker i of a cohort of n: in the tensor of its own block it is k + 1, in every other one. */
  function BlockAdapter(names: seq<string>, n: nat, k: real, i: nat): Adapter
    requires n >= 3
  {
    var block := i / ((n - 1) / 2);
    map name | name in names :: OneCell(if block < |names| && names[block] == name then k + 1.0 else 1.0)
  }

  function BlockCohort(names: seq<string>, n: nat, k: real): (r: seq<Adapter>)
    requires n >= 3
    ensures |r| == n
  {
    seq(n, i requires 0 <= i < n => BlockAdapter(names, n, k, i))
  }

  ghost function BlockNorm(m: nat, k: real, t: nat, i: nat): real
    requires m > 0
  {
    if i / m == t then k + 1.0 else 1.0
  }

  /** A tensor that is one for all but a minority has median one. */
  lemma MedianOfMajority(vals: seq<real>)
    requires |vals| >= 3 && (forall i :: 0 <= i < |vals| ==> vals[i] >= 1.0)
    requires CountAbove(vals, 1.0) <= (|vals| - 1) / 2
    ensures Median(vals) == 1.0
  {
    var s, n := Sorted(vals), |vals|;
    var mid := n / 2;
    SortedSorts(vals);
    CountAbovePermutes(vals, s, 1.0);
    forall i | 0 <= i < n ensures s[i] >= 1.0 {
      assert s[i] in multiset(s);
      assert s[i] in vals;
    }
    AboveFromMiddle(s, mid, 1.0);
    assert s[mid] == 1.0 && s[mid - 1] == 1.0;
  }

  lemma AboveFromMiddle(s: seq<real>, mid: nat, x: real)
    requires Ascending(s) && mid < |s|
    ensures s[mid] > x ==> CountAbove(s, x) >= |s| - mid
  {
    assert s == s[..mid] + s[mid..];
    CountAboveAppend(s[..mid], s[mid..], x);
    if s[mid] > x { CountAboveAll(s[mid..], x); }
  }

  lemma {:induction false} CountAboveAll(vals: seq<real>, x: real)
    requires forall i :: 0 <= i < |vals| ==> vals[i] > x
    ensures CountAbove(vals, x) == |vals|
  {
    if vals != [] {
      CountAboveAll(vals[1..], x);
    }
  }

  lemma BlockSize(m: nat, t: nat, n: nat)
    requires m > 0
    ensures |set i: nat | i < n && i / m == t| <= m
  {
    var block := set i: nat | i < n && i / m == t;
    FromSize(t * m, m);
    forall i | i in block ensures i in From(t * m, m) {
      assert i == t * m + i % m;
    }
    SmallerSet(block, From(t * m, m));
  }

  lemma BlockMedian(vals: seq<real>, k: real, t: nat)
    requires |vals| >= 3 && k >= 1.0 && forall i :: 0 <= i < |vals| ==> vals[i] == BlockNorm((|vals| - 1) / 2, k, t, i)
    ensures Median(vals) == 1.0
  {
    var n, m := |vals|, (|vals| - 1) / 2;
    CountAboveIsSet(vals, 1.0, n);
    assert vals[..n] == vals;
    assert (set i: nat | i < n && vals[i] > 1.0) == set i: nat | i < n && i / m == t;
    BlockSize(m, t, n);
    hide Median;
    MedianOfMajority(vals);
  }

  lemma BlockColumn(names: seq<string>, n: nat, k: real, norm: Norm, t: nat)
    requires n >= 3 && k >= 1.0 && Distinct(names) && OneCellNorm(norm) && t < |names|
    ensures forall i :: 0 <= i < n ==> names[t] in BlockCohort(names, n, k)[i]
    ensures var vals := NormsOf(names[t], BlockCohort(names, n, k), norm);
      forall i :: 0 <= i < n ==> vals[i] == BlockNorm((n - 1) / 2, k, t, i)
  {
    var m := (n - 1) / 2;
    forall i | 0 <= i < n
      ensures names[t] in BlockAdapter(names, n, k, i) && norm(BlockAdapter(names, n, k, i)[names[t]]) == BlockNorm(m, k, t, i)
    {
      var block := i / m;
      assert block < |names| && names[block] == names[t] <==> block == t;
      assert norm(OneCell(k + 1.0)) == k + 1.0 && norm(OneCell(1.0)) == 1.0;
    }
  }

  /** A cohort in which every worker is condemned, by the tensor of its block. */
  lemma BlocksCondemnEverybody(names: seq<string>, n: nat, k: real, norm: Norm)
    requires n >= 3 && k >= 1.0 && Distinct(names) && OneCellNorm(norm) && |names| * ((n - 1) / 2) >= n
    ensures var adapters := BlockCohort(names, n, k);
      SameKeys(adapters, set name | name in names) && SharedNames(adapters) && !SomebodyLeft(adapters, norm, k)
  {
    hide Median, NormsOf;
    var adapters, m := BlockCohort(names, n, k), (n - 1) / 2;
    assert SameKeys(adapters, set name | name in names);
    assert SharedNames(adapters);
    forall i: nat | i < n ensures Condemned(adapters, norm, k, i) {
      var t := i / m;
      BlockBelow(i, m, |names|, n);
      BlockColumn(names, n, k, norm, t);
      var vals := NormsOf(names[t], adapters, norm);
      BlockMedian(vals, k, t);
      assert vals[i] == k + 1.0;
      assert names[t] in adapters[0] && Outlier(vals, i, k);
    }
  }

  lemma BlockBelow(i: nat, m: nat, t: nat, n: nat)
    requires m > 0 && i < n <= t * m
    ensures i / m < t
  {
    var q := i / m;
    assert q * m <= i;
    MoreBlocks(t, q, m);
  }

  lemma MoreBlocks(t: nat, q: nat, m: nat)
    ensures q >= t ==> q * m >= t * m
  {
  }

  /** Gate 4 leaves somebody of every cohort of n workers over these tensors if and only if the
      tensors are fewer than n over a minority of n. */
  lemma LeavesSomebodyExactlyWhen(names: seq<string>, n: nat, k: real, norm: Norm)
    requires n >= 3 && FactorSuits(n, k) && Distinct(names) && NonNegativeNorm(norm) && OneCellNorm(norm)
    ensures (forall adapters: seq<Adapter> ::
               |adapters| == n && SameKeys(adapters, set name | name in names) && SharedNames(adapters) ==> SomebodyLeft(adapters, norm, k))
       <==> |names| * ((n - 1) / 2) < n
  {
    hide SomebodyLeft, Condemned;
    if |names| * ((n - 1) / 2) < n {
      NamesAreDistinct(names);
      forall adapters: seq<Adapter> | |adapters| == n && SameKeys(adapters, set name | name in names) && SharedNames(adapters)
        ensures SomebodyLeft(adapters, norm, k)
      {
        FewTensorsLeaveSomebody(adapters, norm, k);
      }
    } else {
      BlocksCondemnEverybody(names, n, k, norm);
    }
  }

  lemma {:induction false} NamesAreDistinct(names: seq<string>)
    requires Distinct(names)
    ensures |set name | name in names| == |names|
  {
    if names != [] {
      var n := |names| - 1;
      NamesAreDistinct(names[..n]);
      assert (set name | name in names) == (set name | name in names[..n]) + {names[n]};
    }
  }
}
