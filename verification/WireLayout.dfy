/** Where every field of a transaction lies in its encoding, byte by byte. */
module WireLayout {
  import opened Options
  import opened Bytes
  import opened Wire
  import opened WireRoundTrip
  import opened WireReaders

  /** Program, data chunk, account chunk; four more bytes are padding. */
  ghost predicate InstructionAt(data: seq<Byte>, at: nat, x: Instruction) {
    && IntAt(data, at, x.program, 8)
    && IntAt(data, at + 8, x.dataChunk, 2)
    && IntAt(data, at + 10, x.accountChunk, 2)
    && at + 16 <= |data|
  }

  // ---- records --------------------------------------------------------------------------

  lemma Element16(data: seq<Byte>, s: Section, i: nat)
    requires Holds(data, s, 2) && i < s.count
    ensures IntAt(data, s.start + 2 * i, Elements(data, s, 2, Read16)[i], 2)
  {
    var at := s.start + i * 2;
    PeekIsElement<U16>(data, s, 2, Read16, i);
    Back16(data[at..at + 2]);
    DigitsAt(data, at, Read16(data[at..at + 2]), 2);
  }

  lemma Element64(data: seq<Byte>, s: Section, i: nat)
    requires Holds(data, s, 8) && i < s.count
    ensures IntAt(data, s.start + 8 * i, Elements(data, s, 8, Read64)[i], 8)
  {
    var at := s.start + i * 8;
    PeekIsElement<U64>(data, s, 8, Read64, i);
    Back64(data[at..at + 8]);
    DigitsAt(data, at, Read64(data[at..at + 8]), 8);
  }

  lemma ElementIx(data: seq<Byte>, s: Section, i: nat)
    requires Holds(data, s, 16) && i < s.count
    ensures InstructionAt(data, s.start + 16 * i, WithoutPadding(Elements(data, s, 16, ReadIx))[i])
  {
    var at := s.start + i * 16;
    PeekIsElement(data, s, 16, ReadIx, i);
    InstructionRead(data, at);
  }

  lemma InstructionRead(data: seq<Byte>, at: nat)
    requires at + 16 <= |data|
    ensures InstructionAt(data, at, ReadIx(data[at..at + 16]).ix)
  {
    IntegersRead(data, at, data[at..at + 16]);
  }

  lemma IntegersRead(data: seq<Byte>, at: nat, bs: seq<Byte>)
    requires at + 16 <= |data| && bs == data[at..at + 16]
    ensures InstructionAt(data, at, ReadIx(bs).ix)
  {
    SubRange(data, at, at + 16, 0, 8);
    SubRange(data, at, at + 16, 8, 10);
    SubRange(data, at, at + 16, 10, 12);
    assert bs[..8] == bs[0..8];
    Back64(bs[..8]);
    Back16(bs[8..10]);
    Back16(bs[10..12]);
    DigitsAt(data, at, Read64(bs[..8]), 8);
    DigitsAt(data, at + 8, Read16(bs[8..10]), 2);
    DigitsAt(data, at + 10, Read16(bs[10..12]), 2);
  }

  // ---- the whole encoding ---------------------------------------------------------------

  /** The sections by the actual lengths of the transaction. */
  ghost function Places(tx: Transaction): View {
    var ixs := |tx.outer| + |tx.inner|;
    var account := 96 + 16 * ixs;
    var tables := account + 8 * |tx.account| + 8 * |tx.accountChunk|;
    var bytes := tables + 2 * |tx.accountChunkLast| + 2 * |tx.dataChunkLast|;
    View(Section(96, |tx.outer|), Section(96 + 16 * |tx.outer|, |tx.inner|),
         Section(account, |tx.account|), Section(account + 8 * |tx.account|, |tx.accountChunk|),
         Section(tables, |tx.accountChunkLast|),
         Section(tables + 2 * |tx.accountChunkLast|, |tx.dataChunkLast|),
         Section(bytes, |tx.l1Inner|), Section(bytes + |tx.l1Inner|, |tx.dataChunk|))
  }

  lemma EncodingPlaced(tx: Transaction, pad: nat -> Quad)
    ensures Placed(Encode(tx, pad), Places(tx), Images(tx, pad), [])
    ensures |Encode(tx, pad)| == Places(tx).dataChunk.start + |tx.dataChunk|
  {
    var data, v := Encode(tx, pad), Places(tx);
    EncodingIsImages(tx, [0, 0, 0, 0], pad, []);
    assert data + [] == data;
    assert data[HEADER..] == From(Images(tx, pad), 0, []);
    ImageSizes(tx, pad, v);
    SectionsPlaced(data, v, v.dataChunk.start + |tx.dataChunk|, Images(tx, pad), []);
  }

  /** The encoding holds the records of the transaction, at its places. */
  ghost predicate Shown(data: seq<Byte>, v: View, tx: Transaction) {
    && InBounds(data, v)
    && WithoutPadding(Elements(data, v.outer, 16, ReadIx)) == tx.outer
    && WithoutPadding(Elements(data, v.inner, 16, ReadIx)) == tx.inner
    && Elements(data, v.account, 8, Read64) == tx.account
    && Elements(data, v.accountChunk, 8, Read64) == tx.accountChunk
    && Elements(data, v.accountChunkLast, 2, Read16) == tx.accountChunkLast
    && Elements(data, v.dataChunkLast, 2, Read16) == tx.dataChunkLast
  }

  lemma EncodingShows(tx: Transaction, pad: nat -> Quad)
    ensures Shown(Encode(tx, pad), Places(tx), tx)
  {
    EncodingPlaced(tx, pad);
    PlacedShows(Encode(tx, pad), Places(tx), tx, pad);
  }

  lemma PlacedShows(data: seq<Byte>, v: View, tx: Transaction, pad: nat -> Quad)
    requires v == Places(tx) && Placed(data, v, Images(tx, pad), [])
    ensures Shown(data, v, tx)
  {
    InstructionSections(data, v, tx, pad, []);
    AccountSections(data, v, tx, pad, []);
    TableSections(data, v, tx, pad, []);
  }

  /** The header: signature, index, the five lengths cut to 32 bits, and four zero bytes. */
  lemma HeaderBytes(tx: Transaction, pad: nat -> Quad)
    ensures var data := Encode(tx, pad);
            && |data| >= 96
            && data[..64] == tx.signature
            && IntAt(data, 64, tx.index, 8)
            && IntAt(data, 72, |tx.outer| % 0x1_0000_0000, 4)
            && IntAt(data, 76, |tx.inner| % 0x1_0000_0000, 4)
            && IntAt(data, 80, |tx.account| % 0x1_0000_0000, 4)
            && IntAt(data, 84, |tx.accountChunk| % 0x1_0000_0000, 4)
            && IntAt(data, 88, |tx.dataChunk| % 0x1_0000_0000, 4)
            && data[92..96] == [0, 0, 0, 0]
  {
    var data, more := Encode(tx, pad), From(Images(tx, pad), 0, []);
    EncodingIsImages(tx, [0, 0, 0, 0], pad, []);
    assert data == Header(tx, [0, 0, 0, 0]) + more;
    HeaderSlices(tx, [0, 0, 0, 0], more);
    HeaderTail(tx, [0, 0, 0, 0], more);
    DigitsAt(data, 64, tx.index, 8);
    DigitsAt(data, 72, AsU32(|tx.outer|), 4);
    DigitsAt(data, 76, AsU32(|tx.inner|), 4);
    DigitsAt(data, 80, AsU32(|tx.account|), 4);
    DigitsAt(data, 84, AsU32(|tx.accountChunk|), 4);
    DigitsAt(data, 88, AsU32(|tx.dataChunk|), 4);
  }

  lemma HeaderTail(tx: Transaction, tail: Quad, more: seq<Byte>)
    ensures (Header(tx, tail) + more)[92..96] == tail
  {
  }

  lemma InstructionsIn(data: seq<Byte>, v: View, tx: Transaction, i: nat)
    requires v == Places(tx) && Shown(data, v, tx)
    ensures i < |tx.outer| ==> InstructionAt(data, 96 + 16 * i, tx.outer[i])
    ensures i < |tx.inner| ==> InstructionAt(data, 96 + 16 * |tx.outer| + 16 * i, tx.inner[i])
  {
    if i < |tx.outer| {
      ElementIx(data, v.outer, i);
    }
    if i < |tx.inner| {
      ElementIx(data, v.inner, i);
    }
  }

  /** Outer instruction `i` is the 16 bytes from `96 + 16 * i`; the inner ones follow. */
  lemma InstructionBytes(tx: Transaction, pad: nat -> Quad, data: seq<Byte>, i: nat)
    requires data == Encode(tx, pad)
    ensures i < |tx.outer| ==> InstructionAt(data, 96 + 16 * i, tx.outer[i])
    ensures i < |tx.inner| ==> InstructionAt(data, 96 + 16 * |tx.outer| + 16 * i, tx.inner[i])
  {
    EncodingShows(tx, pad);
    InstructionsIn(data, Places(tx), tx, i);
  }

  lemma AccountsIn(data: seq<Byte>, v: View, tx: Transaction, i: nat)
    requires v == Places(tx) && Shown(data, v, tx)
    ensures var at := 96 + 16 * (|tx.outer| + |tx.inner|);
            && (i < |tx.account| ==> IntAt(data, at + 8 * i, tx.account[i], 8))
            && (i < |tx.accountChunk| ==> IntAt(data, at + 8 * |tx.account| + 8 * i, tx.accountChunk[i], 8))
  {
    if i < |tx.account| {
      Element64(data, v.account, i);
    }
    if i < |tx.accountChunk| {
      Element64(data, v.accountChunk, i);
    }
  }

  /** Then the account list, then the account chunks, eight bytes each. */
  lemma AccountBytes(tx: Transaction, pad: nat -> Quad, data: seq<Byte>, i: nat)
    requires data == Encode(tx, pad)
    ensures var at := 96 + 16 * (|tx.outer| + |tx.inner|);
            && (i < |tx.account| ==> IntAt(data, at + 8 * i, tx.account[i], 8))
            && (i < |tx.accountChunk| ==> IntAt(data, at + 8 * |tx.account| + 8 * i, tx.accountChunk[i], 8))
  {
    EncodingShows(tx, pad);
    AccountsIn(data, Places(tx), tx, i);
  }

  lemma TablesIn(data: seq<Byte>, v: View, tx: Transaction, i: nat)
    requires v == Places(tx) && Shown(data, v, tx)
    ensures var at := 96 + 16 * (|tx.outer| + |tx.inner|) + 8 * |tx.account| + 8 * |tx.accountChunk|;
            && (i < |tx.accountChunkLast| ==> IntAt(data, at + 2 * i, tx.accountChunkLast[i], 2))
            && (i < |tx.dataChunkLast| ==>
                  IntAt(data, at + 2 * |tx.accountChunkLast| + 2 * i, tx.dataChunkLast[i], 2))
  {
    if i < |tx.accountChunkLast| {
      Element16(data, v.accountChunkLast, i);
    }
    if i < |tx.dataChunkLast| {
      Element16(data, v.dataChunkLast, i);
    }
  }

  /** Then the two tables, account chunks first, two bytes each. */
  lemma TableBytes(tx: Transaction, pad: nat -> Quad, data: seq<Byte>, i: nat)
    requires data == Encode(tx, pad)
    ensures var at := 96 + 16 * (|tx.outer| + |tx.inner|) + 8 * |tx.account| + 8 * |tx.accountChunk|;
            && (i < |tx.accountChunkLast| ==> IntAt(data, at + 2 * i, tx.accountChunkLast[i], 2))
            && (i < |tx.dataChunkLast| ==>
                  IntAt(data, at + 2 * |tx.accountChunkLast| + 2 * i, tx.dataChunkLast[i], 2))
  {
    EncodingShows(tx, pad);
    TablesIn(data, Places(tx), tx, i);
  }

  /** Last the inner counts and the instruction data, as they are, and nothing more. */
  lemma TrailingBytes(tx: Transaction, pad: nat -> Quad)
    ensures var data := Encode(tx, pad);
            var at := 96 + 16 * (|tx.outer| + |tx.inner|) + 8 * |tx.account| + 8 * |tx.accountChunk|
                      + 2 * |tx.accountChunkLast| + 2 * |tx.dataChunkLast|;
            && |data| == at + |tx.l1Inner| + |tx.dataChunk|
            && data[at..at + |tx.l1Inner|] == tx.l1Inner
            && data[at + |tx.l1Inner|..] == tx.dataChunk
  {
    EncodingPlaced(tx, pad);
    var data, v := Encode(tx, pad), Places(tx);
    assert data[v.dataChunk.start..] == data[v.dataChunk.start..|data|];
  }

  // ---- what the parser decides ----------------------------------------------------------

  /** Every buffer, at every address: which error, or which sections. */
  lemma ParserDecision(data: seq<Byte>, base: nat)
    ensures |data| < 96 ==> Parse(data, base) == Err(OutOfRange)
    ensures |data| >= 96 && base % 8 != 0 ==> Parse(data, base) == Err(UnalignedMemory)
    ensures |data| >= 96 && base % 8 == 0 ==>
              var outer, inner := LengthAt(data, 72), LengthAt(data, 76);
              var account, accountChunk, dataChunk := LengthAt(data, 80), LengthAt(data, 84), LengthAt(data, 88);
              var end := 96 + 16 * (outer + inner) + 8 * (account + accountChunk)
                         + 4 * (outer + inner) + outer + dataChunk;
              if end > |data| then Parse(data, base) == Err(OutOfRange)
              else
                && Parse(data, base).Ok?
                && var v := Parse(data, base).value;
                && Contiguous(v, end)
                && v.outer.count == v.l1Inner.count == outer && v.inner.count == inner
                && v.account.count == account && v.accountChunk.count == accountChunk
                && v.accountChunkLast.count == v.dataChunkLast.count == outer + inner
                && v.dataChunk.count == dataChunk
  {
    if |data| >= 96 {
      LengthRead(data, 72);
      LengthRead(data, 76);
      LengthRead(data, 80);
      LengthRead(data, 84);
      LengthRead(data, 88);
      LayoutContiguous(CountsOf(data));
    }
  }
}
