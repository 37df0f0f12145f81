/** Little-endian integers, and fixed-width records laid end to end. */
module Bytes {
  import opened Remainders

  type Byte = x: int | 0 <= x < 256
  type U16 = x: int | 0 <= x < 0x1_0000
  type U32 = x: int | 0 <= x < 0x1_0000_0000
  type U64 = x: int | 0 <= x < 0x1_0000_0000_0000_0000

  const SIZE16: nat := 0x1_0000
  const SIZE32: nat := 0x1_0000_0000
  const SIZE64: nat := 0x1_0000_0000_0000_0000

  // ---- integers -------------------------------------------------------------------------

  ghost function Pow256(w: nat): (n: nat)
    ensures n >= 1
  {
    if w == 0 then 1 else 256 * Pow256(w - 1)
  }

  lemma Widths()
    ensures Pow256(2) == SIZE16 && Pow256(4) == SIZE32 && Pow256(8) == SIZE64
  {
    assert Pow256(1) == 256;
    assert Pow256(4) == 256 * 256 * Pow256(2);
    assert Pow256(6) == 256 * 256 * Pow256(4);
  }

  lemma Small(n: nat, m: nat)
    requires n < m
    ensures n % m == n
  {
  }

  /** The low `w` bytes of `n`, least significant first. */
  function LittleEndian(n: nat, w: nat): (bs: seq<Byte>)
    ensures |bs| == w
  {
    if w == 0 then [] else [n % 256] + LittleEndian(n / 256, w - 1)
  }

  function FromLittleEndian(bs: seq<Byte>): nat {
    if bs == [] then 0 else bs[0] + 256 * FromLittleEndian(bs[1..])
  }

  lemma {:induction false} DecodedBound(bs: seq<Byte>)
    ensures FromLittleEndian(bs) < Pow256(|bs|)
  {
    if bs != [] {
      DecodedBound(bs[1..]);
    }
  }

  lemma {:induction false} IntegerRoundTrip(n: nat, w: nat)
    requires n < Pow256(w)
    ensures FromLittleEndian(LittleEndian(n, w)) == n
  {
    if w > 0 {
      IntegerRoundTrip(n / 256, w - 1);
      assert LittleEndian(n, w)[1..] == LittleEndian(n / 256, w - 1);
    }
  }

  lemma {:induction false} BytesRoundTrip(bs: seq<Byte>)
    ensures LittleEndian(FromLittleEndian(bs), |bs|) == bs
  {
    if bs != [] {
      BytesRoundTrip(bs[1..]);
      LowByte(bs[0], FromLittleEndian(bs[1..]));
      assert [bs[0]] + bs[1..] == bs;
    }
  }

  lemma LowByte(b: Byte, rest: nat)
    ensures (b + 256 * rest) % 256 == b && (b + 256 * rest) / 256 == rest
  {
  }

  function Read16(bs: seq<Byte>): U16 { FromLittleEndian(bs) % SIZE16 }
  function Read32(bs: seq<Byte>): U32 { FromLittleEndian(bs) % SIZE32 }
  function Read64(bs: seq<Byte>): U64 { FromLittleEndian(bs) % SIZE64 }

  function Write16(n: U16): seq<Byte> { LittleEndian(n, 2) }
  function Write32(n: U32): seq<Byte> { LittleEndian(n, 4) }
  function Write64(n: U64): seq<Byte> { LittleEndian(n, 8) }

  lemma There16(n: U16)
    ensures |Write16(n)| == 2 && Read16(Write16(n)) == n
  {
    Widths();
    IntegerRoundTrip(n, 2);
    Small(n, SIZE16);
  }

  lemma Back16(bs: seq<Byte>)
    requires |bs| == 2
    ensures Write16(Read16(bs)) == bs
  {
    Widths();
    DecodedBound(bs);
    BytesRoundTrip(bs);
    Small(FromLittleEndian(bs), SIZE16);
  }

  lemma Codec16()
    ensures Codec(Write16, Read16, 2)
  {
    forall n: U16
      ensures |Write16(n)| == 2 && Read16(Write16(n)) == n
    {
      There16(n);
    }
    forall b: seq<Byte> | |b| == 2
      ensures Write16(Read16(b)) == b
    {
      Back16(b);
    }
  }

  lemma There32(n: U32)
    ensures |Write32(n)| == 4 && Read32(Write32(n)) == n
  {
    Widths();
    IntegerRoundTrip(n, 4);
    Small(n, SIZE32);
  }

  lemma Back32(bs: seq<Byte>)
    requires |bs| == 4
    ensures Write32(Read32(bs)) == bs
  {
    Widths();
    DecodedBound(bs);
    BytesRoundTrip(bs);
    Small(FromLittleEndian(bs), SIZE32);
  }

  lemma There64(n: U64)
    ensures |Write64(n)| == 8 && Read64(Write64(n)) == n
  {
    Widths();
    IntegerRoundTrip(n, 8);
    Small(n, SIZE64);
  }

  lemma Back64(bs: seq<Byte>)
    requires |bs| == 8
    ensures Write64(Read64(bs)) == bs
  {
    Widths();
    DecodedBound(bs);
    BytesRoundTrip(bs);
    Small(FromLittleEndian(bs), SIZE64);
  }

  lemma Codec64()
    ensures Codec(Write64, Read64, 8)
  {
    forall n: U64
      ensures |Write64(n)| == 8 && Read64(Write64(n)) == n
    {
      There64(n);
    }
    forall b: seq<Byte> | |b| == 8
      ensures Write64(Read64(b)) == b
    {
      Back64(b);
    }
  }

  // ---- digits ---------------------------------------------------------------------------

  /** Digit `b` of `n` to the base 256, the least significant first. */
  ghost function Digit(n: nat, b: nat): Byte { n / Pow256(b) % 256 }

  /** The `w` bytes from `at` are the low digits of `n`. */
  ghost predicate IntAt(data: seq<Byte>, at: nat, n: nat, w: nat) {
    at + w <= |data| && forall b :: 0 <= b < w ==> data[at + b] == Digit(n, b)
  }

  lemma {:induction false} DigitOf(n: nat, w: nat, b: nat)
    requires b < w
    ensures LittleEndian(n, w)[b] == Digit(n, b)
  {
    if b > 0 {
      DigitOf(n / 256, w - 1, b - 1);
      DivideTwice(n, Pow256(b - 1));
    }
  }

  lemma DigitsAt(data: seq<Byte>, at: nat, n: nat, w: nat)
    requires at + w <= |data| && data[at..at + w] == LittleEndian(n, w)
    ensures IntAt(data, at, n, w)
  {
    forall b | 0 <= b < w
      ensures data[at + b] == Digit(n, b)
    {
      assert data[at + b] == data[at..at + w][b];
      DigitOf(n, w, b);
    }
  }

  lemma Read32IsArithmetic(bs: seq<Byte>)
    requires |bs| == 4
    ensures Read32(bs) == bs[0] as int + 256 * bs[1] as int + 65536 * bs[2] as int + 16777216 * bs[3] as int
  {
    assert FromLittleEndian(bs[1..]) == bs[1] as int + 256 * FromLittleEndian(bs[1..][1..]);
    assert bs[1..][1..] == bs[2..] && bs[2..][1..] == bs[3..] && bs[3..][1..] == [];
    assert FromLittleEndian(bs[3..]) == bs[3];
    assert FromLittleEndian(bs[2..]) == bs[2] as int + 256 * FromLittleEndian(bs[3..]);
  }

  /** The number four bytes stand for. */
  ghost function LengthAt(data: seq<Byte>, at: nat): nat
    requires at + 4 <= |data|
  {
    data[at] as int + 256 * data[at + 1] as int + 65536 * data[at + 2] as int + 16777216 * data[at + 3] as int
  }

  lemma LengthRead(data: seq<Byte>, at: nat)
    requires at + 4 <= |data|
    ensures Read32(data[at..at + 4]) == LengthAt(data, at)
  {
    Read32IsArithmetic(data[at..at + 4]);
  }

  // ---- records --------------------------------------------------------------------------

  /** `enc` and `dec` are mutually inverse on strings of exactly `w` bytes. */
  ghost predicate Codec<T(!new)>(enc: T -> seq<Byte>, dec: seq<Byte> -> T, w: nat) {
    && w >= 1
    && (forall x :: |enc(x)| == w && dec(enc(x)) == x)
    && (forall b: seq<Byte> :: |b| == w ==> enc(dec(b)) == b)
  }

  /** The memory image of a slice: its records one after the other. */
  function Flat<T>(xs: seq<T>, enc: T -> seq<Byte>): seq<Byte> {
    if xs == [] then [] else enc(xs[0]) + Flat(xs[1..], enc)
  }

  lemma OneMore(n: nat, w: nat)
    requires n > 0
    ensures n * w == w + (n - 1) * w && n * w >= w
  {
  }

  lemma Part(a: nat, n: nat, w: nat)
    requires a <= n
    ensures n * w == a * w + (n - a) * w && a * w <= n * w
  {
  }

  /** The `n` records of width `w` at the start of `bs`. */
  function Records<T>(bs: seq<Byte>, n: nat, w: nat, dec: seq<Byte> -> T): (xs: seq<T>)
    requires n * w <= |bs|
    ensures |xs| == n
  {
    if n == 0 then []
    else
      OneMore(n, w);
      [dec(bs[..w])] + Records(bs[w..], n - 1, w, dec)
  }

  lemma {:induction false} FlatLength<T(!new)>(xs: seq<T>, enc: T -> seq<Byte>, dec: seq<Byte> -> T, w: nat)
    requires Codec(enc, dec, w)
    ensures |Flat(xs, enc)| == |xs| * w
  {
    if xs != [] {
      FlatLength(xs[1..], enc, dec, w);
      OneMore(|xs|, w);
    }
  }

  /** Reading back a slice's memory image, whatever follows it. */
  lemma {:induction false} RecordsOfFlat<T(!new)>(xs: seq<T>, enc: T -> seq<Byte>, dec: seq<Byte> -> T, w: nat, more: seq<Byte>)
    requires Codec(enc, dec, w)
    ensures |xs| * w <= |Flat(xs, enc) + more|
    ensures Records(Flat(xs, enc) + more, |xs|, w, dec) == xs
  {
    FlatLength(xs, enc, dec, w);
    if xs != [] {
      var rest := Flat(xs[1..], enc) + more;
      var bs := Flat(xs, enc) + more;
      RecordsOfFlat(xs[1..], enc, dec, w, more);
      assert bs == enc(xs[0]) + rest;
      assert bs[..w] == enc(xs[0]) && bs[w..] == rest;
    }
  }

  /** Writing back what was read restores the bytes. */
  lemma {:induction false} FlatOfRecords<T(!new)>(bs: seq<Byte>, n: nat, enc: T -> seq<Byte>, dec: seq<Byte> -> T, w: nat)
    requires Codec(enc, dec, w) && |bs| == n * w
    ensures Flat(Records(bs, n, w, dec), enc) == bs
  {
    if n > 0 {
      OneMore(n, w);
      FlatOfRecords(bs[w..], n - 1, enc, dec, w);
      assert bs == bs[..w] + bs[w..];
    }
  }

  /** The `i`-th record can be read in place, without decoding the ones before it. */
  lemma {:induction false} RecordAt<T>(bs: seq<Byte>, n: nat, w: nat, dec: seq<Byte> -> T, i: nat)
    requires n * w <= |bs| && i < n
    ensures i * w + w <= |bs|
    ensures Records(bs, n, w, dec)[i] == dec(bs[i * w..i * w + w])
  {
    OneMore(n, w);
    Part(i + 1, n, w);
    OneMore(i + 1, w);
    if i > 0 {
      OneMore(i, w);
      RecordAt(bs[w..], n - 1, w, dec, i - 1);
      SubTail(bs, w, (i - 1) * w, (i - 1) * w + w);
    }
  }

  lemma SubRange(bs: seq<Byte>, p: nat, q: nat, a: nat, b: nat)
    requires p <= q <= |bs| && a <= b <= q - p
    ensures bs[p..q][a..b] == bs[p + a..p + b]
  {
    var x, y := bs[p..q][a..b], bs[p + a..p + b];
    assert |x| == |y| && forall i :: 0 <= i < |x| ==> x[i] == y[i];
  }

  lemma SubTail(bs: seq<Byte>, p: nat, a: nat, b: nat)
    requires p <= |bs| && a <= b <= |bs| - p
    ensures bs[p..][a..b] == bs[p + a..p + b]
  {
    SubRange(bs, p, |bs|, a, b);
    assert bs[p..] == bs[p..|bs|];
  }

  lemma TailTail(bs: seq<Byte>, p: nat, a: nat)
    requires p <= |bs| && a <= |bs| - p
    ensures bs[p..][a..] == bs[p + a..]
  {
  }
}
