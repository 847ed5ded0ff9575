/** Gate 4: a tensor whose norm is far above its cohort's median condemns its adapter. */
module NormGate {
  import opened Wrappers
  import opened RealSeqs
  import opened Tensors

  /** The Frobenius norm, which the gate only ever compares. */
  type Norm = Tensor -> real

  function NormsOf(name: string, adapters: seq<Adapter>, norm: Norm): (r: seq<real>)
    requires forall i :: 0 <= i < |adapters| ==> name in adapters[i]
    ensures |r| == |adapters|
  {
    seq(|adapters|, i requires 0 <= i < |adapters| => norm(adapters[i][name]))
  }

  predicate Outlier(vals: seq<real>, i: nat, k: real)
    requires i < |vals|
  {
    Median(vals) != 0.0 && vals[i] > k * Median(vals)
  }

  /** Every adapter has each tensor that the first one has. */
  predicate SharedNames(adapters: seq<Adapter>) {
    |adapters| >= 1 ==> forall name, i | name in adapters[0] && 0 <= i < |adapters| :: name in adapters[i]
  }

  ghost predicate Condemned(adapters: seq<Adapter>, norm: Norm, k: real, i: nat)
    requires SharedNames(adapters) && i < |adapters|
  {
    |adapters| >= 3 && exists name :: name in adapters[0] && Outlier(NormsOf(name, adapters, norm), i, k)
  }

  ghost function VerdictOf(adapters: seq<Adapter>, norm: Norm, k: real, i: nat): Verdict
    requires SharedNames(adapters) && i < |adapters|
  {
    if Condemned(adapters, norm, k, i) then Rejected(NormOutlier) else Accepted
  }

  /** None when a lookup fails, which is an exception in the source. */
  method CheckNorms(adapters: seq<Adapter>, norm: Norm, k: real) returns (r: Option<seq<Verdict>>)
    ensures r.Some? <==> |adapters| < 3 || SharedNames(adapters)
    ensures r.Some? ==> |r.value| == |adapters|
    ensures r.Some? && |adapters| < 3 ==> forall i :: 0 <= i < |adapters| ==> r.value[i] == Accepted
    ensures r.Some? && |adapters| >= 3 ==> forall i :: 0 <= i < |adapters| ==> r.value[i] == VerdictOf(adapters, norm, k, i)
  {
    hide Outlier, NormsOf;
    var n := |adapters|;
    if n < 3 {
      return Some(seq(n, _ => Accepted));
    }
    if !SharedNames(adapters) {
      return None;
    }
    var norms: map<string, seq<real>> := map name | name in adapters[0] :: NormsOf(name, adapters, norm);
    var results := [];
    for i := 0 to n
      invariant |results| == i
      invariant forall j :: 0 <= j < i ==> results[j] == VerdictOf(adapters, norm, k, j)
    {
      var offending := Offends(norms, i, k);
      if offending {
        var name :| name in norms && Outlier(norms[name], i, k);
        assert Outlier(NormsOf(name, adapters, norm), i, k);
      } else {
        forall name | name in adapters[0] ensures !Outlier(NormsOf(name, adapters, norm), i, k) {
          assert norms[name] == NormsOf(name, adapters, norm);
        }
      }
      results := results + [if offending then Rejected(NormOutlier) else Accepted];
    }
    return Some(results);
  }

  /** Stops at the first tensor that condemns adapter i. */
  method Offends(norms: map<string, seq<real>>, i: nat, k: real) returns (offending: bool)
    requires forall name :: name in norms ==> i < |norms[name]|
    ensures offending <==> exists name :: name in norms && Outlier(norms[name], i, k)
  {
    var names := norms.Keys;
    while names != {}
      invariant names <= norms.Keys
      invariant forall name :: name in norms && name !in names ==> !Outlier(norms[name], i, k)
      decreases |names|
    {
      var name :| name in names;
      if Outlier(norms[name], i, k) {
        return true;
      }
      names := names - {name};
    }
    return false;
  }

  // ---- a strict minority per tensor ----------------------------------------

  /** How many adapters one tensor condemns. */
  function CondemnedBy(vals: seq<real>, k: real): nat
    requires vals != []
  {
    if Median(vals) == 0.0 then 0 else CountAbove(vals, k * Median(vals))
  }

  ghost predicate NonNegative(vals: seq<real>) {
    forall i :: 0 <= i < |vals| ==> vals[i] >= 0.0
  }

  lemma SortedNonNegative(vals: seq<real>)
    requires NonNegative(vals)
    ensures NonNegative(Sorted(vals))
  {
    SortedSorts(vals);
    var s := Sorted(vals);
    forall i | 0 <= i < |s| ensures s[i] >= 0.0 {
      assert s[i] in multiset(s);
      assert s[i] in vals;
    }
  }

  /** Factors under which a tensor condemns a minority: two, or one where the median is a member. */
  ghost predicate FactorSuits(n: nat, k: real) {
    k >= 2.0 || (n % 2 == 1 && k >= 1.0)
  }

  /** Each tensor condemns fewer than half of a cohort of three or more. */
  lemma MinorityPerTensor(vals: seq<real>, k: real)
    requires |vals| >= 3 && FactorSuits(|vals|, k) && NonNegative(vals)
    ensures CondemnedBy(vals, k) <= (|vals| - 1) / 2
  {
    SortedNonNegative(vals);
    var s, n := Sorted(vals), |vals|;
    var mid := n / 2;
    var least := if n % 2 == 1 then 1.0 else 2.0;
    if n % 2 == 0 {
      assert Median(vals) == (s[mid - 1] + s[mid]) / 2.0;
    }
    assert s[mid] <= least * Median(vals);
    assert Median(vals) >= 0.0;
    ScalingIsMonotone(Median(vals), least, k);
    CountAboveRank(vals, mid, k * Median(vals));
  }

  lemma ScaledBound(c: real, x: real, k: real, m: real)
    requires c > 0.0
    ensures c * x > k * (c * m) <==> x > k * m
    ensures c * m != 0.0 <==> m != 0.0
  {
    var y := k * m;
    assert k * (c * m) == c * y;
    ScaledOrder(c, x, y);
    ScaledOrder(c, m, 0.0);
    ScaledOrder(c, 0.0, m);
  }

  lemma ScaledOrder(c: real, x: real, y: real)
    requires c > 0.0
    ensures c * x > c * y <==> x > y
  {
    if x > y {
      assert c * (x - y) > 0.0;
    } else {
      ScalingIsMonotone(c, x, y);
    }
  }

  lemma OutlierIgnoresScale(vals: seq<real>, c: real, k: real, i: nat)
    requires c > 0.0 && i < |vals|
    ensures Outlier(Scale(c, vals), i, k) == Outlier(vals, i, k)
  {
    hide Median;
    MedianScales(c, vals);
    ScaledBound(c, vals[i], k, Median(vals));
  }

  /** The second cohort's norms are c times the first's. */
  ghost predicate Scaled(xs: seq<Adapter>, ys: seq<Adapter>, norm: Norm, c: real)
    requires SharedNames(xs) && SharedNames(ys)
  {
    && |xs| == |ys| && (|xs| > 0 ==> xs[0].Keys == ys[0].Keys)
    && forall name, i :: 0 <= i < |xs| && name in xs[0] ==> norm(ys[i][name]) == c * norm(xs[i][name])
  }

  /** Scaling the whole cohort changes no verdict. */
  lemma VerdictIgnoresScale(xs: seq<Adapter>, ys: seq<Adapter>, norm: Norm, c: real, k: real, i: nat)
    requires SharedNames(xs) && SharedNames(ys) && Scaled(xs, ys, norm, c) && c > 0.0 && i < |xs|
    ensures VerdictOf(ys, norm, k, i) == VerdictOf(xs, norm, k, i)
  {
    hide Outlier;
    forall name | name in xs[0] ensures Outlier(NormsOf(name, ys, norm), i, k) == Outlier(NormsOf(name, xs, norm), i, k) {
      var a, b := NormsOf(name, xs, norm), NormsOf(name, ys, norm);
      forall j | 0 <= j < |xs| ensures b[j] == Scale(c, a)[j] {
        assert norm(ys[j][name]) == c * norm(xs[j][name]);
      }
      assert b == Scale(c, a);
      OutlierIgnoresScale(NormsOf(name, xs, norm), c, k, i);
    }
    hide NormsOf;
    CondemnedTogether(xs, ys, norm, k, i, i);
  }

  function NormOrZero(name: string, norm: Norm): Adapter -> real {
    a => if name in a then norm(a[name]) else 0.0
  }

  ghost predicate SameKeys(adapters: seq<Adapter>, keys: set<string>) {
    forall i :: 0 <= i < |adapters| ==> adapters[i].Keys == keys
  }

  lemma SameKeysPermute(adapters: seq<Adapter>, others: seq<Adapter>, keys: set<string>)
    requires multiset(adapters) == multiset(others) && SameKeys(adapters, keys)
    ensures SameKeys(others, keys) && SharedNames(adapters) && SharedNames(others)
  {
    forall b | 0 <= b < |others| ensures others[b].Keys == keys {
      assert others[b] in multiset(others);
      assert others[b] in multiset(adapters);
      var a :| 0 <= a < |adapters| && adapters[a] == others[b];
    }
  }

  lemma OutlierFollowsAdapter(
    name: string, adapters: seq<Adapter>, others: seq<Adapter>, norm: Norm, k: real, i: nat, j: nat)
    requires multiset(adapters) == multiset(others)
    requires i < |adapters| && j < |others| && adapters[i] == others[j]
    requires forall a :: 0 <= a < |adapters| ==> name in adapters[a]
    requires forall b :: 0 <= b < |others| ==> name in others[b]
    ensures Outlier(NormsOf(name, adapters, norm), i, k) == Outlier(NormsOf(name, others, norm), j, k)
  {
    hide Median, Map;
    var f := NormOrZero(name, norm);
    MapPermutes(f, adapters, others);
    assert NormsOf(name, adapters, norm) == Map(f, adapters);
    assert NormsOf(name, others, norm) == Map(f, others);
    MedianPermutes(Map(f, adapters), Map(f, others));
  }

  /** The verdict on an adapter does not depend on where in the cohort it stands. */
  lemma VerdictFollowsAdapter(
    adapters: seq<Adapter>, others: seq<Adapter>, keys: set<string>, norm: Norm, k: real, i: nat, j: nat)
    requires multiset(adapters) == multiset(others) && SameKeys(adapters, keys)
    requires i < |adapters| && j < |others| && adapters[i] == others[j]
    ensures SharedNames(adapters) && SharedNames(others)
    ensures VerdictOf(adapters, norm, k, i) == VerdictOf(others, norm, k, j)
  {
    hide Outlier, NormsOf;
    SameKeysPermute(adapters, others, keys);
    SameLength(adapters, others);
    forall name | name in keys
      ensures Outlier(NormsOf(name, adapters, norm), i, k) == Outlier(NormsOf(name, others, norm), j, k)
    {
      OutlierFollowsAdapter(name, adapters, others, norm, k, i, j);
    }
    CondemnedTogether(adapters, others, norm, k, i, j);
  }

  lemma CondemnedTogether(adapters: seq<Adapter>, others: seq<Adapter>, norm: Norm, k: real, i: nat, j: nat)
    requires |adapters| == |others| && i < |adapters| && j < |others|
    requires SharedNames(adapters) && SharedNames(others) && adapters[0].Keys == others[0].Keys
    requires forall name :: name in adapters[0] ==>
      Outlier(NormsOf(name, adapters, norm), i, k) == Outlier(NormsOf(name, others, norm), j, k)
    ensures Condemned(adapters, norm, k, i) == Condemned(others, norm, k, j)
  {
  }
}
