/** Remainders modulo a variable. */
module Remainders {

  lemma MultipleGrows(m: nat, d: int)
    ensures d >= 1 ==> m * d >= m
    ensures d <= -1 ==> m * d + m <= 0
  {
    if d >= 1 {
      assert m * d == m * (d - 1) + m;
    } else if d <= -1 {
      assert m * d == m * (d + 1) - m;
    }
  }

  /** The remainder is the only representative below the modulus, with one quotient. */
  lemma Residue(n: nat, m: nat, q: nat, r: nat)
    requires m >= 1 && r < m && n == m * q + r
    ensures n % m == r && n / m == q
  {
    var q', r' := n / m, n % m;
    assert n == m * q' + r';
    assert m * (q - q') == m * q - m * q';
    MultipleGrows(m, q - q');
  }

  /** Dividing by 256 and then by `b` is dividing by the product. */
  lemma DivideTwice(n: nat, b: nat)
    requires b >= 1
    ensures n / (256 * b) == (n / 256) / b
  {
    var q, r := n / 256, n % 256;
    var q', r' := q / b, q % b;
    assert q == b * q' + r';
    assert (256 * b) * q' == 256 * (b * q');
    Residue(n, 256 * b, q', 256 * r' + r);
  }
}
