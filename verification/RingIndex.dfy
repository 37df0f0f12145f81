/** Slot indices of the broadcast ring: `seq & RING_MASK` for a power-of-two ring. */
module RingIndex {
  import opened Remainders

  ghost function Pow2(k: nat): (n: nat)
    ensures n >= 1
  {
    if k == 0 then 1 else 2 * Pow2(k - 1)
  }

  /** Bitwise conjunction of two unsigned integers, bit by bit from the lowest. */
  function BitAnd(a: nat, b: nat): (r: nat)
    decreases a
  {
    if a == 0 || b == 0 then 0
    else (a % 2) * (b % 2) + 2 * BitAnd(a / 2, b / 2)
  }

  /** Two sequence numbers less than one ring length apart never share a slot. */
  lemma DistinctSlots(i: nat, j: nat, size: nat)
    requires size >= 1 && i < j < i + size
    ensures i % size != j % size
  {
    var a, b := i / size, j / size;
    assert i == size * a + i % size;
    assert j == size * b + j % size;
    assert size * (b - a) == size * b - size * a;
    MultipleGrows(size, b - a);
  }

  lemma ModuloHalves(n: nat, half: nat)
    requires half >= 1
    ensures n % (2 * half) == n % 2 + 2 * ((n / 2) % half)
  {
    var q, r := (n / 2) / half, (n / 2) % half;
    assert n / 2 == half * q + r;
    assert 2 * half * q == 2 * (half * q);
    Residue(n, 2 * half, q, n % 2 + 2 * r);
  }

  /** Masking with `2^k - 1` is reduction modulo `2^k`. */
  lemma {:induction false} MaskIsModulo(seqno: nat, k: nat)
    ensures BitAnd(seqno, Pow2(k) - 1) == seqno % Pow2(k)
    decreases k
  {
    if k > 0 {
      MaskIsModulo(seqno / 2, k - 1);
      Halve(seqno, Pow2(k - 1));
    }
  }

  lemma Halve(seqno: nat, half: nat)
    requires half >= 1 && BitAnd(seqno / 2, half - 1) == (seqno / 2) % half
    ensures BitAnd(seqno, 2 * half - 1) == seqno % (2 * half)
  {
    ModuloHalves(seqno, half);
    LowBit(seqno, half);
  }

  lemma LowBit(seqno: nat, half: nat)
    requires half >= 1
    ensures BitAnd(seqno, 2 * half - 1) == seqno % 2 + 2 * BitAnd(seqno / 2, half - 1)
  {
    var mask := 2 * half - 1;
    assert mask % 2 == 1 && mask / 2 == half - 1;
    assert (seqno % 2) * 1 == seqno % 2;
  }

  const RING_SIZE: nat := 8192

  lemma RingSizeIsPowerOfTwo()
    ensures RING_SIZE == Pow2(13)
  {
    assert Pow2(4) == 16;
    assert Pow2(8) == 16 * Pow2(4);
    assert Pow2(12) == 16 * Pow2(8);
  }
}
