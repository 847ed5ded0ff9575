/** Shapes of elementwise operations: two shapes are aligned at their last dimension, and a missing
    dimension or one of length one stretches to the other's. */
module Broadcasting {
  import opened Wrappers
  import opened Tensors

  type Shape = seq<nat>

  function Longer(d: nat, rest: Option<Shape>): Option<Shape> {
    if rest.Some? then Some([d] + rest.value) else None
  }

  /** One dimension of the result; None where the lengths disagree. */
  function Stretched(x: nat, y: nat): Option<nat> {
    if x == y || y == 1 then Some(x) else if x == 1 then Some(y) else None
  }

  /** The shape of the result; None where the operation raises. */
  function Broadcast(a: Shape, b: Shape): Option<Shape>
    decreases |a| + |b|
  {
    if |a| < |b| then Longer(b[0], Broadcast(a, b[1..]))
    else if |b| < |a| then Longer(a[0], Broadcast(a[1..], b))
    else if a == [] then Some([])
    else
      match Stretched(a[0], b[0])
      case None => None
      case Some(d) => Longer(d, Broadcast(a[1..], b[1..]))
  }

  /** Shape a stretches to b without changing it. */
  predicate Into(a: Shape, b: Shape) {
    if |a| > |b| then false
    else if |a| < |b| then Into(a, b[1..])
    else a == [] || ((a[0] == b[0] || a[0] == 1) && Into(a[1..], b[1..]))
  }

  // ---- an order with least upper bounds -----------------------------------------------------

  lemma {:induction false} IntoItself(a: Shape)
    ensures Into(a, a)
  {
    if a != [] {
      IntoItself(a[1..]);
    }
  }

  lemma {:induction false} IntoChains(a: Shape, b: Shape, c: Shape)
    requires Into(a, b) && Into(b, c)
    ensures Into(a, c)
    decreases |a| + |b| + |c|
  {
    if |b| < |c| {
      IntoChains(a, b, c[1..]);
    } else if |a| < |b| {
      IntoChains(a, b[1..], c[1..]);
    } else if a != [] {
      IntoChains(a[1..], b[1..], c[1..]);
    }
  }

  lemma {:induction false} IntoIsOrder(a: Shape, b: Shape)
    requires Into(a, b) && Into(b, a)
    ensures a == b
  {
    if a != [] {
      IntoIsOrder(a[1..], b[1..]);
      assert a == [a[0]] + a[1..] && b == [b[0]] + b[1..];
    }
  }

  lemma IntoLonger(a: Shape, d: nat, c: Shape)
    requires Into(a, c)
    ensures Into(a, [d] + c)
  {
    assert ([d] + c)[1..] == c;
    IntoNotLonger(a, c);
  }

  lemma {:induction false} IntoNotLonger(a: Shape, c: Shape)
    requires Into(a, c)
    ensures |a| <= |c|
  {
  }

  /** Both operands stretch to the result. */
  lemma {:induction false} BroadcastCovers(a: Shape, b: Shape)
    requires Broadcast(a, b).Some?
    ensures Into(a, Broadcast(a, b).value) && Into(b, Broadcast(a, b).value)
    decreases |a| + |b|
  {
    if |a| < |b| {
      BroadcastCovers(a, b[1..]);
      var rest := Broadcast(a, b[1..]).value;
      IntoLonger(a, b[0], rest);
      assert ([b[0]] + rest)[1..] == rest;
      BroadcastLength(a, b[1..]);
    } else if |b| < |a| {
      BroadcastCovers(a[1..], b);
      var rest := Broadcast(a[1..], b).value;
      IntoLonger(b, a[0], rest);
      assert ([a[0]] + rest)[1..] == rest;
      BroadcastLength(a[1..], b);
    } else if a != [] {
      BroadcastCovers(a[1..], b[1..]);
      var rest := Broadcast(a[1..], b[1..]).value;
      BroadcastLength(a[1..], b[1..]);
      assert ([Stretched(a[0], b[0]).value] + rest)[1..] == rest;
    }
  }

  lemma {:induction false} BroadcastLength(a: Shape, b: Shape)
    requires Broadcast(a, b).Some?
    ensures |Broadcast(a, b).value| == if |a| < |b| then |b| else |a|
    decreases |a| + |b|
  {
    if |a| < |b| {
      BroadcastLength(a, b[1..]);
    } else if |b| < |a| {
      BroadcastLength(a[1..], b);
    } else if a != [] {
      BroadcastLength(a[1..], b[1..]);
    }
  }

  /** And the result is the least such shape. */
  lemma {:induction false} BroadcastIsLeast(a: Shape, b: Shape, c: Shape)
    requires Into(a, c) && Into(b, c)
    ensures Broadcast(a, b).Some? && Into(Broadcast(a, b).value, c)
    decreases |a| + |b| + |c|
  {
    IntoNotLonger(a, c);
    IntoNotLonger(b, c);
    if |a| < |c| && |b| < |c| {
      BroadcastIsLeast(a, b, c[1..]);
      BroadcastLength(a, b);
    } else if |a| < |b| {
      BroadcastIsLeast(a, b[1..], c[1..]);
      BroadcastLength(a, b[1..]);
      var rest := Broadcast(a, b[1..]).value;
      assert ([b[0]] + rest)[1..] == rest;
    } else if |b| < |a| {
      BroadcastIsLeast(a[1..], b, c[1..]);
      BroadcastLength(a[1..], b);
      var rest := Broadcast(a[1..], b).value;
      assert ([a[0]] + rest)[1..] == rest;
    } else if a != [] {
      BroadcastIsLeast(a[1..], b[1..], c[1..]);
      BroadcastLength(a[1..], b[1..]);
      var rest := Broadcast(a[1..], b[1..]).value;
      assert ([Stretched(a[0], b[0]).value] + rest)[1..] == rest;
    }
  }

  /** An operand leaves the other's shape alone exactly when it stretches to it. */
  lemma {:induction false} IntoExactlyWhen(a: Shape, b: Shape)
    ensures Into(a, b) <==> Broadcast(b, a) == Some(b)
  {
    if Into(a, b) {
      IntoItself(b);
      BroadcastIsLeast(b, a, b);
      BroadcastCovers(b, a);
      IntoIsOrder(Broadcast(b, a).value, b);
    } else if Broadcast(b, a) == Some(b) {
      BroadcastCovers(b, a);
    }
  }

  lemma BroadcastItself(a: Shape)
    ensures Broadcast(a, a) == Some(a)
  {
    IntoItself(a);
    IntoExactlyWhen(a, a);
  }

  // ---- cells ------------------------------------------------------------------------------------

  /** Which cell of a tensor a cell of the stretched tensor repeats, both counted row by row. */
  function Repeated(shape: Shape, out: Shape, c: nat): nat {
    if out == [] || |shape| > |out| then 0
    else
      var inner := Volume(out[1..]);
      if inner == 0 then 0
      else if |shape| < |out| then Repeated(shape, out[1..], c % inner)
      else
        Offset(if shape[0] == 1 then 0 else c / inner, Volume(shape[1..])) + Repeated(shape[1..], out[1..], c % inner)
  }

  /** Where a row of this length starts. */
  function Offset(row: nat, length: nat): nat {
    row * length
  }

  /** The value a tensor contributes to a cell of the result. */
  function CellAt(t: Tensor, out: Shape, c: nat): real
    requires t.Dense?
  {
    var k := Repeated(t.shape, out, c);
    if k < |t.cells| then t.cells[k] else 0.0
  }

  /** Stretching to its own shape repeats nothing. */
  lemma {:induction false} RepeatedItself(shape: Shape, c: nat)
    requires c < Volume(shape)
    ensures Repeated(shape, shape, c) == c
  {
    hide Offset;
    if shape != [] {
      var inner := Volume(shape[1..]);
      RowAndColumn(c, shape[0], inner);
      NoRow(inner);
      RepeatedItself(shape[1..], c % inner);
    }
  }

  lemma NoRow(length: nat)
    ensures Offset(0, length) == 0
  {
  }

  lemma RowAndColumn(c: nat, d: nat, inner: nat)
    requires c < d * inner
    ensures inner > 0 && c % inner < inner && c / inner < d && Offset(c / inner, inner) + c % inner == c
  {
    if inner > 0 { BelowProduct(c, d, inner); }
  }

  lemma BelowProduct(c: nat, d: nat, inner: nat)
    requires inner > 0 && c < d * inner
    ensures c / inner < d
  {
    var q := c / inner;
    assert q * inner <= c;
    NotBelow(q, d, inner);
  }

  lemma NotBelow(q: nat, d: nat, inner: nat)
    ensures q >= d ==> q * inner >= d * inner
  {
  }

  lemma CellItself(t: Tensor, c: nat)
    requires t.Dense? && WellFormed(t) && c < |t.cells|
    ensures CellAt(t, t.shape, c) == t.cells[c]
  {
    RepeatedItself(t.shape, c);
  }

  /** Every cell of a stretched tensor repeats one that exists. */
  lemma {:induction false} RepeatedExists(shape: Shape, out: Shape, c: nat)
    requires Into(shape, out) && c < Volume(out)
    ensures Repeated(shape, out, c) < Volume(shape)
    decreases |out|
  {
    if out != [] {
      var inner := Volume(out[1..]);
      RowAndColumn(c, out[0], inner);
      if |shape| < |out| {
        RepeatedExists(shape, out[1..], c % inner);
      } else {
        RepeatedExists(shape[1..], out[1..], c % inner);
        var row := if shape[0] == 1 then 0 else c / inner;
        LastRow(row, shape[0], Volume(shape[1..]), Repeated(shape[1..], out[1..], c % inner));
      }
    }
  }

  lemma LastRow(row: nat, rows: nat, inner: nat, rest: nat)
    requires row < rows && rest < inner
    ensures Offset(row, inner) + rest < rows * inner
  {
    NotBelow(rows, row + 1, inner);
    assert (row + 1) * inner == row * inner + inner;
  }

  lemma RowAt(row: nat, length: nat, rest: nat)
    requires rest < length
    ensures (Offset(row, length) + rest) / length == row && (Offset(row, length) + rest) % length == rest
  {
    DivModUnique(Offset(row, length) + rest, length, row, rest);
  }

  /** Stretching in two steps is stretching in one, so that a chain of elementwise operations may be
      read cell by cell. */
  lemma {:induction false} RepeatedTwice(shape: Shape, mid: Shape, out: Shape, c: nat)
    requires Into(shape, mid) && Into(mid, out) && c < Volume(out)
    ensures Repeated(shape, mid, Repeated(mid, out, c)) == Repeated(shape, out, c)
    decreases |out|
  {
    hide Offset, Volume;
    IntoNotLonger(shape, mid);
    IntoNotLonger(mid, out);
    if out != [] {
      var inner, k := Volume(out[1..]), Repeated(mid, out, c);
      VolumeRows(out, c);
      if |mid| < |out| {
        RepeatedTwice(shape, mid, out[1..], c % inner);
      } else {
        var rest := Repeated(mid[1..], out[1..], c % inner);
        RepeatedExists(mid[1..], out[1..], c % inner);
        RowAt(if mid[0] == 1 then 0 else c / inner, Volume(mid[1..]), rest);
        RepeatedTwice(if |shape| < |mid| then shape else shape[1..], mid[1..], out[1..], c % inner);
      }
    }
  }

  lemma VolumeRows(out: Shape, c: nat)
    requires out != [] && c < Volume(out)
    ensures Volume(out[1..]) > 0 && c % Volume(out[1..]) < Volume(out[1..])
  {
    RowAndColumn(c, out[0], Volume(out[1..]));
  }
}
