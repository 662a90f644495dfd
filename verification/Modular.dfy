/** The modular arithmetic behind the rolling pointers and the ring indices. */
module Modular {
  lemma Multiple(b: int, k: int)
    requires b > 0 && k >= 1
    ensures b * k >= b
  {
  }

  lemma Remainder(x: int, q: int, r: int, b: int)
    requires b > 0 && x == b * q + r && 0 <= r < b
    ensures x % b == r
  {
    var q', r' := x / b, x % b;
    assert b * (q - q') == r' - r;
    if q > q' {
      Multiple(b, q - q');
    } else if q < q' {
      Multiple(b, q' - q);
    }
  }

  lemma Distributes(b: int, x: int, y: int)
    ensures b * (x + y) == b * x + b * y
  {
  }

  lemma AddModulo(x: nat, n: nat, b: int)
    requires b > 0
    ensures (x % b + n) % b == (x + n) % b
  {
    var q, r := x / b, x % b;
    var p, t := (r + n) / b, (r + n) % b;
    Distributes(b, q, p);
    Remainder(x + n, q + p, t, b);
  }

  lemma NextModulo(x: nat, b: int)
    requires b > 0
    ensures (x % b + 1) % b == (x + 1) % b
  {
    AddModulo(x, 1, b);
  }

  lemma CloseQuotient(b: int, k: int, e: int)
    requires -b < e < b && 0 <= b * k + e < b
    ensures k == 0 || k == 1
  {
    if k < 0 {
      Multiple(b, -k);
    } else if k > 1 {
      Multiple(b, k - 1);
    }
  }

  lemma WrapsOnce(x: nat, b: int)
    requires 0 < b && x < 2 * b
    ensures x % b == if x < b then x else x - b
  {
    if x < b {
      Remainder(x, 0, x, b);
    } else {
      Remainder(x, 1, x - b, b);
    }
  }
}
