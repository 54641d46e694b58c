/** Facts about remainders by a variable divisor. */
module Modular {
  lemma MulAssociates(a: int, b: int, c: int)
    ensures (a * b) * c == a * (b * c)
  {
  }

  lemma {:induction false} AtLeastOneMore(a: nat, q: nat, q': nat)
    requires q < q'
    ensures a * q + a <= a * q'
    decreases q'
  {
    assert a * q' == a * (q' - 1) + a;
    if q < q' - 1 { AtLeastOneMore(a, q, q' - 1); }
  }

  lemma QuotientUnique(a: nat, q: nat, r: nat, q': nat, r': nat)
    requires a > 0 && r < a && r' < a
    requires a * q + r == a * q' + r'
    ensures r == r'
  {
    if q < q' {
      AtLeastOneMore(a, q, q');
    } else if q' < q {
      AtLeastOneMore(a, q', q);
    }
  }

  lemma ModUnique(x: nat, a: nat, q: nat, r: nat)
    requires a > 0 && r < a && x == a * q + r
    ensures x % a == r
  {
    QuotientUnique(a, q, r, x / a, x % a);
  }

  lemma Multiple(a: nat, q: nat)
    requires a > 0
    ensures (a * q) % a == 0
  {
    ModUnique(a * q, a, q, 0);
  }

  lemma DividesSum(a: nat, x: nat, y: nat)
    requires a > 0 && x % a == 0 && y % a == 0
    ensures (x + y) % a == 0
  {
    var i, j := x / a, y / a;
    assert x == a * i && y == a * j;
    assert a * i + a * j == a * (i + j);
    Multiple(a, i + j);
  }

  lemma DividesTrans(a: nat, b: nat, x: nat)
    requires a > 0 && b > 0 && b % a == 0 && x % b == 0
    ensures x % a == 0
  {
    var i, j := b / a, x / b;
    assert b == a * i && x == b * j;
    MulAssociates(a, i, j);
    Multiple(a, i * j);
  }

  lemma NextMod(t: nat, a: nat)
    requires a > 0
    ensures (t % a + 1) % a == (t + 1) % a
  {
    var q, r := t / a, t % a;
    assert t + 1 == a * q + (r + 1);
    if r + 1 < a {
      ModUnique(t + 1, a, q, r + 1);
      ModUnique(r + 1, a, 0, r + 1);
    } else {
      assert a * (q + 1) == a * q + a;
      ModUnique(t + 1, a, q + 1, 0);
      ModUnique(r + 1, a, 1, 0);
    }
  }
}
