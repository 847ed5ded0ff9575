/** The divergence of a round's adapters: pairwise cosine distances of the flattened adapters. Its
    value is only recorded, but computing it can fail. */
module Divergence {
  import opened Wrappers
  import RealSeqs
  import opened Tensors
  import opened NormGate
  import opened OuterStep

  /** The length of an adapter flattened over these tensors. */
  ghost function FlatSize(a: Adapter, names: set<string>): nat
    requires names <= a.Keys
  {
    if names == {} then 0
    else var name :| name in names; Volume(a[name].shape) + FlatSize(a, names - {name})
  }

  predicate AllZero(t: Tensor) {
    t.Dense? && forall c | 0 <= c < |t.cells| :: t.cells[c] == 0.0
  }

  /** The flattened adapter has norm zero. */
  predicate FlatZero(a: Adapter, names: set<string>)
    requires names <= a.Keys
  {
    forall name | name in names :: AllZero(a[name])
  }

  /** Two flattened adapters whose distance can be computed: one of them is zero, or they are of the
      same length. */
  ghost predicate PairComparable(a: Adapter, b: Adapter, names: set<string>)
    requires names <= a.Keys && names <= b.Keys
  {
    FlatZero(a, names) || FlatZero(b, names) || FlatSize(a, names) == FlatSize(b, names)
  }

  /** The divergence can be computed: nobody to compare, or every adapter has the tensors of the first,
      which has some, and every pair is comparable. */
  ghost predicate Comparable(adapters: seq<Adapter>) {
    |adapters| < 2 ||
      (adapters[0] != map[] && SharedNames(adapters)
       && forall i, j :: 0 <= i < j < |adapters| ==> PairComparable(adapters[i], adapters[j], adapters[0].Keys))
  }

  /** Whichever tensor is counted last, the length is the same. */
  lemma {:induction false} FlatSizeOne(a: Adapter, names: set<string>, name: string)
    requires names <= a.Keys && name in names
    ensures FlatSize(a, names) == Volume(a[name].shape) + FlatSize(a, names - {name})
  {
    var other :| other in names && FlatSize(a, names) == Volume(a[other].shape) + FlatSize(a, names - {other});
    if other != name {
      FlatSizeOne(a, names - {other}, name);
      FlatSizeOne(a, names - {name}, other);
      assert names - {other} - {name} == names - {name} - {other};
    }
  }

  /** The length of one flattened adapter, tensor by tensor. */
  method Flatten(a: Adapter, names: set<string>) returns (size: nat)
    requires names <= a.Keys
    ensures size == FlatSize(a, names)
  {
    size := 0;
    var left := names;
    while left != {}
      invariant left <= names && size + FlatSize(a, left) == FlatSize(a, names)
      decreases |left|
    {
      var name :| name in left;
      FlatSizeOne(a, left, name);
      size := size + Volume(a[name].shape);
      left := left - {name};
    }
  }

  /** Goes through the pairs; false is an exception in the source. */
  method MeasureDivergence(adapters: seq<Adapter>) returns (measured: bool)
    ensures measured <==> Comparable(adapters)
  {
    hide FlatZero, SharedNames;
    var n := |adapters|;
    if n < 2 { return true; }
    if adapters[0] == map[] || !SharedNames(adapters) { return false; }
    var names := adapters[0].Keys;
    SharedKeys(adapters);
    var sizes: seq<nat> := [];
    for i := 0 to n
      invariant |sizes| == i && forall k :: 0 <= k < i ==> sizes[k] == FlatSize(adapters[k], names)
    {
      var size := Flatten(adapters[i], names);
      sizes := sizes + [size];
    }
    for i := 0 to n
      invariant forall k, l :: 0 <= k < i && k < l < n ==> PairComparable(adapters[k], adapters[l], names)
    {
      for j := i + 1 to n
        invariant forall l :: i < l < j ==> PairComparable(adapters[i], adapters[l], names)
      {
        if !FlatZero(adapters[i], names) && !FlatZero(adapters[j], names) && sizes[i] != sizes[j] {
          assert !PairComparable(adapters[i], adapters[j], names);
          return false;
        }
      }
    }
    return true;
  }

  lemma SharedKeys(adapters: seq<Adapter>)
    requires SharedNames(adapters) && adapters != []
    ensures forall i :: 0 <= i < |adapters| ==> adapters[0].Keys <= adapters[i].Keys
  {
  }

  // ---- fitting work ------------------------------------------------------------------------

  lemma {:induction false} SameFlatSize(a: Adapter, b: Adapter, names: set<string>)
    requires names <= a.Keys && names <= b.Keys && forall name :: name in names ==> a[name].shape == b[name].shape
    ensures FlatSize(a, names) == FlatSize(b, names)
    decreases names
  {
    if names != {} {
      var name :| name in names;
      FlatSizeOne(a, names, name);
      FlatSizeOne(b, names, name);
      SameFlatSize(a, b, names - {name});
    }
  }

  lemma FitsHasKeys(a: Adapter, base: Adapter)
    requires Fits(a, base)
    ensures a.Keys == base.Keys
  {
    assert ManifestOf(a).Keys == a.Keys && ManifestOf(base).Keys == base.Keys;
  }

  /** Work that fits one base is comparable. */
  lemma FittingAreComparable(adapters: seq<Adapter>, base: Adapter)
    requires base != map[] && forall i :: 0 <= i < |adapters| ==> Fits(adapters[i], base)
    ensures Comparable(adapters)
  {
    hide FlatSize, Volume;
    forall i | 0 <= i < |adapters| ensures adapters[i].Keys == base.Keys {
      FitsHasKeys(adapters[i], base);
    }
    forall i, j | 0 <= i < j < |adapters| ensures PairComparable(adapters[i], adapters[j], adapters[0].Keys) {
      forall name | name in base ensures adapters[i][name].shape == adapters[j][name].shape {
        FitsTensor(adapters[i], base, name);
        FitsTensor(adapters[j], base, name);
      }
      SameFlatSize(adapters[i], adapters[j], base.Keys);
    }
  }

  // ---- flattened adapters ----------------------------------------------------------------

  /** The cells of some tensors of an adapter, one tensor after another. */
  function Flat(a: Adapter, order: seq<string>): seq<real>
    requires forall name :: name in order ==> name in a && a[name].Dense?
  {
    if order == [] then [] else a[order[0]].cells + Flat(a, order[1..])
  }

  function Product(x: real, y: real): real {
    x * y
  }

  function Square(x: real): real {
    Product(x, x)
  }

  function Squares(xs: seq<real>): (r: seq<real>)
    ensures |r| == |xs| && forall i :: 0 <= i < |xs| ==> r[i] == Square(xs[i])
  {
    RealSeqs.Map(x => Square(x), xs)
  }

  ghost predicate Ordering(names: set<string>, order: seq<string>) {
    (forall i, j :: 0 <= i < j < |order| ==> order[i] != order[j]) && (forall name :: name in order <==> name in names)
  }

  lemma OrderingRest(names: set<string>, order: seq<string>)
    requires Ordering(names, order) && order != []
    ensures order[0] in names && Ordering(names - {order[0]}, order[1..])
  {
    var rest := order[1..];
    assert order == [order[0]] + rest;
    forall i, j | 0 <= i < j < |rest| ensures rest[i] != rest[j] {
      assert rest[i] == order[i + 1] && rest[j] == order[j + 1];
    }
    forall j | 0 <= j < |rest| ensures rest[j] != order[0] {
      assert rest[j] == order[j + 1];
    }
  }

  /** In whatever order the tensors are flattened, the length is the one measured, and the flattened
      adapter has norm zero exactly when all of its tensors are zero. */
  lemma {:induction false} FlatIs(a: Adapter, names: set<string>, order: seq<string>)
    requires names <= a.Keys && Ordering(names, order)
    requires forall name :: name in names ==> a[name].Dense? && WellFormed(a[name])
    ensures |Flat(a, order)| == FlatSize(a, names)
    ensures RealSeqs.Sum(Squares(Flat(a, order))) >= 0.0
    ensures RealSeqs.Sum(Squares(Flat(a, order))) == 0.0 <==> FlatZero(a, names)
  {
    hide Ordering, Volume;
    if order == [] {
      NothingOrdered(names);
    } else {
      OrderingRest(names, order);
      var name, rest := order[0], order[1..];
      FlatIs(a, names - {name}, rest);
      FlatSizeOne(a, names, name);
      SquaresAppend(a[name].cells, Flat(a, rest));
      SumOfSquares(a[name].cells);
      assert names == names - {name} + {name};
    }
  }

  lemma NothingOrdered(names: set<string>)
    requires Ordering(names, [])
    ensures names == {}
  {
  }

  lemma SquaresAppend(xs: seq<real>, ys: seq<real>)
    ensures RealSeqs.Sum(Squares(xs + ys)) == RealSeqs.Sum(Squares(xs)) + RealSeqs.Sum(Squares(ys))
  {
    assert Squares(xs + ys) == Squares(xs) + Squares(ys);
    RealSeqs.SumAppend(Squares(xs), Squares(ys));
  }

  lemma {:induction false} SumOfSquares(xs: seq<real>)
    ensures RealSeqs.Sum(Squares(xs)) >= 0.0
    ensures RealSeqs.Sum(Squares(xs)) == 0.0 <==> forall i :: 0 <= i < |xs| ==> xs[i] == 0.0
  {
    hide Square, Squares;
    if xs != [] {
      var rest := xs[1..];
      SumOfSquares(rest);
      assert Squares(xs)[1..] == Squares(rest);
      assert RealSeqs.Sum(Squares(xs)) == Square(xs[0]) + RealSeqs.Sum(Squares(rest));
      if xs[0] == 0.0 { ZeroSquare(xs[0]); } else { PositiveSquare(xs[0]); }
      assert xs == [xs[0]] + rest;
      if RealSeqs.Sum(Squares(xs)) == 0.0 {
        forall i | 0 <= i < |xs| ensures xs[i] == 0.0 {
          if i > 0 { assert xs[i] == rest[i - 1]; }
        }
      } else if forall i :: 0 <= i < |xs| ==> xs[i] == 0.0 {
        forall i | 0 <= i < |rest| ensures rest[i] == 0.0 {
          assert rest[i] == xs[i + 1];
        }
        assert false;
      }
    }
  }

  lemma ZeroSquare(x: real)
    requires x == 0.0
    ensures Square(x) == 0.0
  {
  }

  lemma PositiveSquare(x: real)
    requires x != 0.0
    ensures Square(x) > 0.0
  {
    hide Product;
    SameSigns(x, x);
  }

  lemma SameSigns(x: real, y: real)
    ensures x > 0.0 && y > 0.0 ==> Product(x, y) > 0.0
    ensures x < 0.0 && y < 0.0 ==> Product(x, y) > 0.0
  {
  }
}
