/** Writing and parsing are inverse, on exactly the transactions the format can hold. */
module WireRoundTrip {
  import opened Bytes
  import opened Wire

  /** Lengths fit their header fields, both tables cover every instruction, and there is
      one inner count per outer instruction. */
  predicate WellFormed(tx: Transaction) {
    && |tx.outer| < SIZE32 && |tx.inner| < SIZE32 && |tx.account| < SIZE32
    && |tx.accountChunk| < SIZE32 && |tx.dataChunk| < SIZE32
    && |tx.accountChunkLast| == |tx.outer| + |tx.inner|
    && |tx.dataChunkLast| == |tx.outer| + |tx.inner|
    && |tx.l1Inner| == |tx.outer|
  }

  lemma IxThere(p: Padded)
    ensures |WriteIx(p)| == 16 && ReadIx(WriteIx(p)) == p
  {
    var bs := WriteIx(p);
    There64(p.ix.program);
    There16(p.ix.dataChunk);
    There16(p.ix.accountChunk);
    assert bs[..8] == Write64(p.ix.program);
    assert bs[8..10] == Write16(p.ix.dataChunk);
    assert bs[10..12] == Write16(p.ix.accountChunk);
    assert bs[12..] == p.pad;
  }

  lemma IxBack(b: seq<Byte>)
    requires |b| == 16
    ensures WriteIx(ReadIx(b)) == b
  {
    Back64(b[..8]);
    Back16(b[8..10]);
    Back16(b[10..12]);
    assert b == b[..8] + b[8..10] + b[10..12] + b[12..];
  }

  lemma CodecIx()
    ensures Codec(WriteIx, ReadIx, 16)
  {
    forall p: Padded
      ensures |WriteIx(p)| == 16 && ReadIx(WriteIx(p)) == p
    {
      IxThere(p);
    }
    forall b: seq<Byte> | |b| == 16
      ensures WriteIx(ReadIx(b)) == b
    {
      IxBack(b);
    }
  }

  // ---- the header -----------------------------------------------------------------------

  ghost predicate HeaderShows(data: seq<Byte>, tx: Transaction) {
    && |data| >= HEADER
    && data[..64] == tx.signature
    && Read64(data[64..72]) == tx.index
    && CountsOf(data) == Counts(AsU32(|tx.outer|), AsU32(|tx.inner|), AsU32(|tx.account|),
                                AsU32(|tx.accountChunk|), AsU32(|tx.dataChunk|))
  }

  lemma HeaderSlices(tx: Transaction, tail: Quad, more: seq<Byte>)
    ensures var data := Header(tx, tail) + more;
            && data[..64] == tx.signature
            && data[64..72] == Write64(tx.index)
            && data[72..76] == Write32(AsU32(|tx.outer|))
            && data[76..80] == Write32(AsU32(|tx.inner|))
            && data[80..84] == Write32(AsU32(|tx.account|))
            && data[84..88] == Write32(AsU32(|tx.accountChunk|))
            && data[88..92] == Write32(AsU32(|tx.dataChunk|))
  {
  }

  lemma HeaderReadsBack(tx: Transaction, tail: Quad, more: seq<Byte>)
    ensures HeaderShows(Header(tx, tail) + more, tx)
  {
    HeaderSlices(tx, tail, more);
    There64(tx.index);
    There32(AsU32(|tx.outer|));
    There32(AsU32(|tx.inner|));
    There32(AsU32(|tx.account|));
    There32(AsU32(|tx.accountChunk|));
    There32(AsU32(|tx.dataChunk|));
  }

  lemma HeaderWritesBack(data: seq<Byte>, tx: Transaction)
    requires HeaderShows(data, tx)
    ensures Header(tx, data[92..96]) == data[..96]
  {
    Back64(data[64..72]);
    Back32(data[72..76]);
    Back32(data[76..80]);
    Back32(data[80..84]);
    Back32(data[84..88]);
    Back32(data[88..92]);
    HeaderPieces(data);
  }

  lemma HeaderPieces(data: seq<Byte>)
    requires |data| >= HEADER
    ensures data[..96] == data[..64] + data[64..72] + data[72..76] + data[76..80] + data[80..84]
                          + data[84..88] + data[88..92] + data[92..96]
  {
    assert data[..72] == data[..64] + data[64..72];
    assert data[..76] == data[..72] + data[72..76];
    assert data[..80] == data[..76] + data[76..80];
    assert data[..84] == data[..80] + data[80..84];
    assert data[..88] == data[..84] + data[84..88];
    assert data[..92] == data[..88] + data[88..92];
  }

  // ---- the sections ---------------------------------------------------------------------

  /** The eight images after the header, in order. */
  ghost function Images(tx: Transaction, pad: nat -> Quad): (ss: seq<seq<Byte>>)
    ensures |ss| == 8
  {
    [Flat(WithPadding(tx.outer, pad, 0), WriteIx),
     Flat(WithPadding(tx.inner, pad, |tx.outer|), WriteIx),
     Flat(tx.account, Write64),
     Flat(tx.accountChunk, Write64),
     Flat(tx.accountChunkLast, Write16),
     Flat(tx.dataChunkLast, Write16),
     tx.l1Inner,
     tx.dataChunk]
  }

  /** The images from the `k`-th on, followed by `more`. */
  ghost function From(ss: seq<seq<Byte>>, k: nat, more: seq<Byte>): seq<Byte>
    requires k <= |ss|
    decreases |ss| - k
  {
    if k == |ss| then more else ss[k] + From(ss, k + 1, more)
  }

  lemma EncodingIsImages(tx: Transaction, tail: Quad, pad: nat -> Quad, more: seq<Byte>)
    ensures EncodeWith(tx, tail, pad) + more == Header(tx, tail) + From(Images(tx, pad), 0, more)
  {
    var h, ss := Header(tx, tail), Images(tx, pad);
    var p1 := h + ss[0];
    var p2 := p1 + ss[1];
    var p3 := p2 + ss[2];
    var p4 := p3 + ss[3];
    var p5 := p4 + ss[4];
    var p6 := p5 + ss[5];
    var p7 := p6 + ss[6];
    var p8 := p7 + ss[7];
    Shift(p7, ss, 7, more);
    Shift(p6, ss, 6, more);
    Shift(p5, ss, 5, more);
    Shift(p4, ss, 4, more);
    Shift(p3, ss, 3, more);
    Shift(p2, ss, 2, more);
    Shift(p1, ss, 1, more);
    Shift(h, ss, 0, more);
  }

  lemma Shift(before: seq<Byte>, ss: seq<seq<Byte>>, k: nat, more: seq<Byte>)
    requires k < |ss|
    ensures before + From(ss, k, more) == (before + ss[k]) + From(ss, k + 1, more)
  {
    Regroup(before, ss[k], From(ss, k + 1, more));
  }

  /** Dropping what comes before an image leaves that image and the rest. */
  lemma Next(data: seq<Byte>, at: nat, next: nat, ss: seq<seq<Byte>>, k: nat, more: seq<Byte>)
    requires k < |ss| && at <= |data| && data[at..] == From(ss, k, more) && next == at + |ss[k]|
    ensures next <= |data| && data[at..next] == ss[k] && data[next..] == From(ss, k + 1, more)
  {
    assert data[next..] == data[at..][|ss[k]|..];
    assert data[at..next] == data[at..][..|ss[k]|];
  }

  ghost predicate Placed(data: seq<Byte>, v: View, ss: seq<seq<Byte>>, more: seq<Byte>)
    requires |ss| == 8
  {
    && InBounds(data, v)
    && data[v.outer.start..] == From(ss, 0, more)
    && data[v.inner.start..] == From(ss, 1, more)
    && data[v.account.start..] == From(ss, 2, more)
    && data[v.accountChunk.start..] == From(ss, 3, more)
    && data[v.accountChunkLast.start..] == From(ss, 4, more)
    && data[v.dataChunkLast.start..] == From(ss, 5, more)
    && data[v.l1Inner.start..v.l1Inner.start + v.l1Inner.count] == ss[6]
    && data[v.dataChunk.start..v.dataChunk.start + v.dataChunk.count] == ss[7]
  }

  ghost predicate SizesAre(ss: seq<seq<Byte>>, v: View) {
    && |ss| == 8
    && |ss[0]| == 16 * v.outer.count && |ss[1]| == 16 * v.inner.count
    && |ss[2]| == 8 * v.account.count && |ss[3]| == 8 * v.accountChunk.count
    && |ss[4]| == 2 * v.accountChunkLast.count && |ss[5]| == 2 * v.dataChunkLast.count
    && |ss[6]| == v.l1Inner.count && |ss[7]| == v.dataChunk.count
  }

  lemma Length16(xs: seq<U16>)
    ensures |Flat(xs, Write16)| == 2 * |xs|
  {
    Codec16();
    FlatLength<U16>(xs, Write16, Read16, 2);
  }

  lemma Length64(xs: seq<U64>)
    ensures |Flat(xs, Write64)| == 8 * |xs|
  {
    Codec64();
    FlatLength<U64>(xs, Write64, Read64, 8);
  }

  lemma LengthIx(ps: seq<Padded>)
    ensures |Flat(ps, WriteIx)| == 16 * |ps|
  {
    CodecIx();
    FlatLength(ps, WriteIx, ReadIx, 16);
  }

  lemma ImageSizes(tx: Transaction, pad: nat -> Quad, v: View)
    requires v.outer.count == |tx.outer| && v.inner.count == |tx.inner|
    requires v.account.count == |tx.account| && v.accountChunk.count == |tx.accountChunk|
    requires v.accountChunkLast.count == |tx.accountChunkLast| && v.dataChunkLast.count == |tx.dataChunkLast|
    requires v.l1Inner.count == |tx.l1Inner| && v.dataChunk.count == |tx.dataChunk|
    ensures SizesAre(Images(tx, pad), v)
  {
    LengthIx(WithPadding(tx.outer, pad, 0));
    LengthIx(WithPadding(tx.inner, pad, |tx.outer|));
    Length64(tx.account);
    Length64(tx.accountChunk);
    Length16(tx.accountChunkLast);
    Length16(tx.dataChunkLast);
  }

  lemma SectionsPlaced(data: seq<Byte>, v: View, end: nat, ss: seq<seq<Byte>>, more: seq<Byte>)
    requires Contiguous(v, end) && SizesAre(ss, v) && |data| >= HEADER && data[HEADER..] == From(ss, 0, more)
    ensures Placed(data, v, ss, more) && end + |more| == |data|
  {
    WidePlaced(data, v, end, ss, more);
    NarrowPlaced(data, v, end, ss, more);
  }

  lemma WidePlaced(data: seq<Byte>, v: View, end: nat, ss: seq<seq<Byte>>, more: seq<Byte>)
    requires Contiguous(v, end) && SizesAre(ss, v) && |data| >= HEADER && data[HEADER..] == From(ss, 0, more)
    ensures v.accountChunkLast.start <= |data|
    ensures data[v.inner.start..] == From(ss, 1, more)
    ensures data[v.account.start..] == From(ss, 2, more)
    ensures data[v.accountChunk.start..] == From(ss, 3, more)
    ensures data[v.accountChunkLast.start..] == From(ss, 4, more)
  {
    Next(data, v.outer.start, v.inner.start, ss, 0, more);
    Next(data, v.inner.start, v.account.start, ss, 1, more);
    Next(data, v.account.start, v.accountChunk.start, ss, 2, more);
    Next(data, v.accountChunk.start, v.accountChunkLast.start, ss, 3, more);
  }

  lemma NarrowPlaced(data: seq<Byte>, v: View, end: nat, ss: seq<seq<Byte>>, more: seq<Byte>)
    requires Contiguous(v, end) && SizesAre(ss, v) && v.accountChunkLast.start <= |data|
    requires data[v.accountChunkLast.start..] == From(ss, 4, more)
    ensures end + |more| == |data|
    ensures data[v.dataChunkLast.start..] == From(ss, 5, more)
    ensures data[v.l1Inner.start..v.l1Inner.start + v.l1Inner.count] == ss[6]
    ensures data[v.dataChunk.start..v.dataChunk.start + v.dataChunk.count] == ss[7]
  {
    Next(data, v.accountChunkLast.start, v.dataChunkLast.start, ss, 4, more);
    Next(data, v.dataChunkLast.start, v.l1Inner.start, ss, 5, more);
    Next(data, v.l1Inner.start, v.dataChunk.start, ss, 6, more);
    Next(data, v.dataChunk.start, end, ss, 7, more);
  }

  lemma Section16Reads(data: seq<Byte>, s: Section, xs: seq<U16>, rest: seq<Byte>)
    requires Holds(data, s, 2) && s.count == |xs| && data[s.start..] == Flat(xs, Write16) + rest
    ensures Elements(data, s, 2, Read16) == xs
  {
    Codec16();
    RecordsOfFlat<U16>(xs, Write16, Read16, 2, rest);
  }

  lemma Section64Reads(data: seq<Byte>, s: Section, xs: seq<U64>, rest: seq<Byte>)
    requires Holds(data, s, 8) && s.count == |xs| && data[s.start..] == Flat(xs, Write64) + rest
    ensures Elements(data, s, 8, Read64) == xs
  {
    Codec64();
    RecordsOfFlat<U64>(xs, Write64, Read64, 8, rest);
  }

  lemma InstructionsRead(data: seq<Byte>, s: Section, ixs: seq<Instruction>, pad: nat -> Quad, first: nat, rest: seq<Byte>)
    requires Holds(data, s, 16) && s.count == |ixs|
    requires data[s.start..] == Flat(WithPadding(ixs, pad, first), WriteIx) + rest
    ensures WithoutPadding(Elements(data, s, 16, ReadIx)) == ixs
  {
    CodecIx();
    RecordsOfFlat(WithPadding(ixs, pad, first), WriteIx, ReadIx, 16, rest);
  }

  ghost predicate Announces(c: Counts, tx: Transaction) {
    && WellFormed(tx)
    && c == Counts(|tx.outer|, |tx.inner|, |tx.account|, |tx.accountChunk|, |tx.dataChunk|)
  }

  lemma Unfold(ss: seq<seq<Byte>>, k: nat, more: seq<Byte>)
    requires k < |ss|
    ensures From(ss, k, more) == ss[k] + From(ss, k + 1, more)
  {
  }

  lemma InstructionSections(data: seq<Byte>, v: View, tx: Transaction, pad: nat -> Quad, more: seq<Byte>)
    requires Placed(data, v, Images(tx, pad), more)
    requires v.outer.count == |tx.outer| && v.inner.count == |tx.inner|
    ensures WithoutPadding(Elements(data, v.outer, 16, ReadIx)) == tx.outer
    ensures WithoutPadding(Elements(data, v.inner, 16, ReadIx)) == tx.inner
  {
    var ss := Images(tx, pad);
    Unfold(ss, 0, more);
    Unfold(ss, 1, more);
    InstructionsRead(data, v.outer, tx.outer, pad, 0, From(ss, 1, more));
    InstructionsRead(data, v.inner, tx.inner, pad, |tx.outer|, From(ss, 2, more));
  }

  lemma AccountSections(data: seq<Byte>, v: View, tx: Transaction, pad: nat -> Quad, more: seq<Byte>)
    requires Placed(data, v, Images(tx, pad), more)
    requires v.account.count == |tx.account| && v.accountChunk.count == |tx.accountChunk|
    ensures Elements(data, v.account, 8, Read64) == tx.account
    ensures Elements(data, v.accountChunk, 8, Read64) == tx.accountChunk
  {
    var ss := Images(tx, pad);
    Unfold(ss, 2, more);
    Unfold(ss, 3, more);
    Section64Reads(data, v.account, tx.account, From(ss, 3, more));
    Section64Reads(data, v.accountChunk, tx.accountChunk, From(ss, 4, more));
  }

  lemma TableSections(data: seq<Byte>, v: View, tx: Transaction, pad: nat -> Quad, more: seq<Byte>)
    requires Placed(data, v, Images(tx, pad), more)
    requires v.accountChunkLast.count == |tx.accountChunkLast| && v.dataChunkLast.count == |tx.dataChunkLast|
    ensures Elements(data, v.accountChunkLast, 2, Read16) == tx.accountChunkLast
    ensures Elements(data, v.dataChunkLast, 2, Read16) == tx.dataChunkLast
  {
    var ss := Images(tx, pad);
    Unfold(ss, 4, more);
    Unfold(ss, 5, more);
    Section16Reads(data, v.accountChunkLast, tx.accountChunkLast, From(ss, 5, more));
    Section16Reads(data, v.dataChunkLast, tx.dataChunkLast, From(ss, 6, more));
  }

  lemma SectionsReadBack(data: seq<Byte>, c: Counts, tx: Transaction, pad: nat -> Quad, more: seq<Byte>)
    requires Announces(c, tx) && |data| >= HEADER
    requires data[HEADER..] == From(Images(tx, pad), 0, more)
    requires data[..64] == tx.signature && Read64(data[64..72]) == tx.index
    ensures InBounds(data, Layout(c)) && Contents(data, Layout(c)) == tx
    ensures Extent(c) + |more| == |data|
  {
    var v := Layout(c);
    LayoutContiguous(c);
    ImageSizes(tx, pad, v);
    SectionsPlaced(data, v, Extent(c), Images(tx, pad), more);
    InstructionSections(data, v, tx, pad, more);
    AccountSections(data, v, tx, pad, more);
    TableSections(data, v, tx, pad, more);
  }

  lemma Untruncated(data: seq<Byte>, tx: Transaction)
    requires WellFormed(tx) && HeaderShows(data, tx)
    ensures Announces(CountsOf(data), tx)
  {
  }

  lemma ParsesBack(data: seq<Byte>, tx: Transaction, pad: nat -> Quad, more: seq<Byte>, base: nat)
    requires WellFormed(tx) && HeaderShows(data, tx) && base % 8 == 0
    requires data[HEADER..] == From(Images(tx, pad), 0, more)
    ensures Parse(data, base).Ok? && Extent(CountsOf(data)) + |more| == |data|
    ensures InBounds(data, Parse(data, base).value) && Contents(data, Parse(data, base).value) == tx
  {
    Untruncated(data, tx);
    SectionsReadBack(data, CountsOf(data), tx, pad, more);
  }

  /** The parser accepts `data` at address `base`, and the view shows `tx`. */
  ghost predicate ParsesAs(data: seq<Byte>, base: nat, tx: Transaction) {
    && Parse(data, base).Ok?
    && InBounds(data, Parse(data, base).value)
    && Contents(data, Parse(data, base).value) == tx
  }

  /** Parsing what was written, whatever the padding and whatever follows. */
  lemma ReadsBack(tx: Transaction, tail: Quad, pad: nat -> Quad, more: seq<Byte>, base: nat)
    requires WellFormed(tx) && base % 8 == 0
    ensures ParsesAs(EncodeWith(tx, tail, pad) + more, base, tx)
    ensures Extent(CountsOf(EncodeWith(tx, tail, pad) + more)) == |EncodeWith(tx, tail, pad)|
  {
    var data := EncodeWith(tx, tail, pad) + more;
    EncodingIsImages(tx, tail, pad, more);
    HeaderReadsBack(tx, tail, From(Images(tx, pad), 0, more));
    assert data[HEADER..] == From(Images(tx, pad), 0, more);
    ParsesBack(data, tx, pad, more, base);
  }

  lemma LayoutInBounds(data: seq<Byte>, c: Counts)
    requires |data| >= HEADER && Extent(c) <= |data|
    ensures InBounds(data, Layout(c)) && Announces(c, Contents(data, Layout(c)))
  {
  }

  /** A view the parser accepts is in bounds and shows a well-formed transaction, whose
      lengths are those the header announced. */
  lemma AcceptedIsWellFormed(data: seq<Byte>, base: nat)
    requires Parse(data, base).Ok?
    ensures InBounds(data, Parse(data, base).value)
    ensures Announces(CountsOf(data), Contents(data, Parse(data, base).value))
  {
    LayoutInBounds(data, CountsOf(data));
  }

  /** The round trip, for every padding, suffix and 8-aligned address: the parser returns
      the transaction that was written if and only if it was well-formed. */
  lemma RoundTripIff(tx: Transaction, pad: nat -> Quad, more: seq<Byte>, base: nat)
    requires base % 8 == 0
    ensures WellFormed(tx) <==> ParsesAs(Encode(tx, pad) + more, base, tx)
  {
    var data := Encode(tx, pad) + more;
    if WellFormed(tx) {
      ReadsBack(tx, [0, 0, 0, 0], pad, more, base);
    } else if Parse(data, base).Ok? {
      AcceptedIsWellFormed(data, base);
    }
  }

  /** No encoding is a prefix of the encoding of a different transaction. */
  lemma PrefixFree(tx: Transaction, pad: nat -> Quad, tx': Transaction, pad': nat -> Quad)
    requires WellFormed(tx) && WellFormed(tx') && Encode(tx, pad) <= Encode(tx', pad')
    ensures tx == tx' && |Encode(tx, pad)| == |Encode(tx', pad')|
  {
    var more := Encode(tx', pad')[|Encode(tx, pad)|..];
    var data := Encode(tx, pad) + more;
    assert data == Encode(tx', pad') + [];
    ReadsBack(tx, [0, 0, 0, 0], pad, more, 0);
    ReadsBack(tx', [0, 0, 0, 0], pad', [], 0);
    OneReading(data, 0, tx, tx');
  }

  lemma OneReading(data: seq<Byte>, base: nat, tx: Transaction, tx': Transaction)
    requires ParsesAs(data, base, tx) && ParsesAs(data, base, tx')
    ensures tx == tx'
  {
  }
}
