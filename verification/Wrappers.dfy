/** The two result shapes the model uses where the source returns None or raises, and two facts that
    several modules need. */
module Wrappers {
  datatype Option<+T> = None | Some(value: T)

  datatype Result<+T, +E> = Ok(value: T) | Err(error: E)

  lemma {:induction false} SmallerSet<T>(a: set<T>, b: set<T>)
    requires a <= b
    ensures |a| <= |b|
  {
    if a != {} {
      var x :| x in a;
      SmallerSet(a - {x}, b - {x});
    }
  }

  lemma {:induction false} MultiplesApart(b: nat, c: nat, k: nat)
    requires b < c
    ensures b * k + k <= c * k
  {
    assert c * k == (c - 1) * k + k;
    if b + 1 < c { MultiplesApart(b, c - 1, k); }
  }

  lemma DivModUnique(k: nat, per: nat, q: nat, r: nat)
    requires per >= 1 && k == q * per + r && r < per
    ensures k / per == q && k % per == r
  {
    var q', r' := k / per, k % per;
    assert k == q' * per + r';
    if q' < q {
      MultiplesApart(q', q, per);
    } else if q < q' {
      MultiplesApart(q, q', per);
    }
  }
}
