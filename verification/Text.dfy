/** Decimal text and the order in which the database and the object store compare text. */
module Text {
  function Pow10(w: nat): (r: nat)
    ensures r >= 1
  {
    if w == 0 then 1 else 10 * Pow10(w - 1)
  }

  function Digit(d: nat): char
    requires d < 10
  {
    (48 + d) as char
  }

  predicate IsDigit(c: char) {
    '0' <= c <= '9'
  }

  predicate AllDigits(s: string) {
    forall i | 0 <= i < |s| :: IsDigit(s[i])
  }

  function Value(s: string): nat
    requires AllDigits(s)
  {
    if s == "" then 0 else Value(s[..|s| - 1]) * 10 + (s[|s| - 1] as int - 48)
  }

  /** n in exactly w digits, keeping the low ones. */
  function Fixed(n: nat, w: nat): (r: string)
    ensures |r| == w && AllDigits(r)
    decreases w
  {
    if w == 0 then "" else Fixed(n / 10, w - 1) + [Digit(n % 10)]
  }

  lemma {:induction false} ValueOfFixed(n: nat, w: nat)
    requires n < Pow10(w)
    ensures Value(Fixed(n, w)) == n
  {
    if w > 0 {
      ValueOfFixed(n / 10, w - 1);
      var s := Fixed(n, w);
      assert s[..|s| - 1] == Fixed(n / 10, w - 1);
    }
  }

  /** The shortest decimal form of n. */
  function Decimal(n: nat): (r: string)
    ensures r != "" && AllDigits(r)
  {
    if n < 10 then [Digit(n)] else Decimal(n / 10) + [Digit(n % 10)]
  }

  lemma {:induction false} ValueOfDecimal(n: nat)
    ensures Value(Decimal(n)) == n
  {
    var s := Decimal(n);
    if n < 10 {
      assert s[..0] == "";
    } else {
      ValueOfDecimal(n / 10);
      assert s[..|s| - 1] == Decimal(n / 10);
    }
  }

  lemma {:induction false} DecimalLength(n: nat, w: nat)
    requires n >= Pow10(w)
    ensures |Decimal(n)| > w
  {
    if w > 0 {
      DecimalLength(n / 10, w - 1);
    }
  }

  /** Text order: by the first character that differs, a proper prefix first. */
  predicate Less(a: string, b: string) {
    b != "" && (a == "" || a[0] < b[0] || (a[0] == b[0] && Less(a[1..], b[1..])))
  }

  lemma {:induction false} LessIrreflexive(a: string)
    ensures !Less(a, a)
  {
    if a != "" {
      LessIrreflexive(a[1..]);
    }
  }

  lemma {:induction false} LessAsymmetric(a: string, b: string)
    requires Less(a, b)
    ensures !Less(b, a)
  {
    if a != "" && a[0] == b[0] {
      LessAsymmetric(a[1..], b[1..]);
    }
  }

  lemma {:induction false} LessAfterPrefix(p: string, a: string, b: string)
    ensures Less(p + a, p + b) <==> Less(a, b)
  {
    if p == "" {
      assert p + a == a && p + b == b;
    } else {
      LessAfterPrefix(p[1..], a, b);
      assert (p + a)[1..] == p[1..] + a && (p + b)[1..] == p[1..] + b;
    }
  }

  /** Once two texts of one length differ, what follows them is never looked at. */
  lemma {:induction false} LessBefore(a: string, b: string, x: string, y: string)
    requires |a| == |b| && Less(a, b)
    ensures Less(a + x, b + y)
  {
    assert (a + x)[1..] == a[1..] + x && (b + y)[1..] == b[1..] + y;
    if a[0] == b[0] {
      LessBefore(a[1..], b[1..], x, y);
    }
  }

  /** Zero-padded numbers sort as text in numeric order. */
  lemma {:induction false} FixedOrder(m: nat, n: nat, w: nat)
    requires m < n < Pow10(w)
    ensures Less(Fixed(m, w), Fixed(n, w))
  {
    var p, q := Fixed(m / 10, w - 1), Fixed(n / 10, w - 1);
    if m / 10 == n / 10 {
      assert Digit(m % 10) < Digit(n % 10);
      LessAfterPrefix(p, [Digit(m % 10)], [Digit(n % 10)]);
    } else {
      FixedOrder(m / 10, n / 10, w - 1);
      LessBefore(p, q, [Digit(m % 10)], [Digit(n % 10)]);
    }
  }

  /** One fixed-width number and the text after it. */
  datatype Field = Field(value: nat, width: nat, after: string)

  function Render(fields: seq<Field>): string {
    if fields == [] then "" else Fixed(fields[0].value, fields[0].width) + fields[0].after + Render(fields[1..])
  }

  predicate SameLayout(a: seq<Field>, b: seq<Field>) {
    |a| == |b| && forall i | 0 <= i < |a| :: a[i].width == b[i].width && a[i].after == b[i].after
  }

  predicate InRange(a: seq<Field>) {
    forall i | 0 <= i < |a| :: a[i].value < Pow10(a[i].width)
  }

  /** Field by field, most significant first. */
  predicate FieldsLess(a: seq<Field>, b: seq<Field>)
    requires |a| == |b|
  {
    a != [] && (a[0].value < b[0].value || (a[0].value == b[0].value && FieldsLess(a[1..], b[1..])))
  }

  lemma {:induction false} RenderedLess(a: seq<Field>, b: seq<Field>, x: string, y: string)
    requires SameLayout(a, b) && InRange(a) && InRange(b)
    requires FieldsLess(a, b) || (a == b && Less(x, y))
    ensures Less(Render(a) + x, Render(b) + y)
  {
    if a == [] {
      assert Render(a) + x == x && Render(b) + y == y;
    } else {
      var w, sep := a[0].width, a[0].after;
      var p, q := Fixed(a[0].value, w), Fixed(b[0].value, w);
      var left, right := Render(a[1..]) + x, Render(b[1..]) + y;
      assert Render(a) + x == p + (sep + left);
      assert Render(b) + y == q + (sep + right);
      if a[0].value < b[0].value {
        FixedOrder(a[0].value, b[0].value, w);
        LessBefore(p, q, sep + left, sep + right);
      } else {
        RenderedLess(a[1..], b[1..], x, y);
        LessAfterPrefix(p, sep + left, sep + right);
        LessAfterPrefix(sep, left, right);
      }
    }
  }

  lemma {:induction false} FieldsTotal(a: seq<Field>, b: seq<Field>)
    requires SameLayout(a, b)
    ensures FieldsLess(a, b) || FieldsLess(b, a) || a == b
  {
    if a != [] && a[0].value == b[0].value {
      FieldsTotal(a[1..], b[1..]);
      assert a == [a[0]] + a[1..] && b == [b[0]] + b[1..];
    }
  }
}
