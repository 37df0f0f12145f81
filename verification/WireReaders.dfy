/**
 What readers of a parsed buffer get: the bytes they were given determine the transaction
 both ways, and the zero-copy instruction reader agrees with the reader of an owned one.
 */
module WireReaders {
  import opened Options
  import opened Bytes
  import opened Wire
  import opened WireRoundTrip

  // ---- parse, then write ----------------------------------------------------------------

  lemma {:induction false} RecordsPrefix<T>(bs: seq<Byte>, more: seq<Byte>, n: nat, w: nat, dec: seq<Byte> -> T)
    requires |bs| == n * w
    ensures |bs + more| >= n * w && Records(bs + more, n, w, dec) == Records(bs, n, w, dec)
  {
    if n > 0 {
      OneMore(n, w);
      RecordsPrefix(bs[w..], more, n - 1, w, dec);
      assert (bs + more)[w..] == bs[w..] + more && (bs + more)[..w] == bs[..w];
    }
  }

  lemma ElementsWriteBack<T(!new)>(data: seq<Byte>, s: Section, enc: T -> seq<Byte>, dec: seq<Byte> -> T, w: nat)
    requires Codec(enc, dec, w) && Holds(data, s, w)
    ensures Flat(Elements(data, s, w, dec), enc) == data[s.start..s.start + s.count * w]
  {
    var bs, more := data[s.start..s.start + s.count * w], data[s.start + s.count * w..];
    assert data[s.start..] == bs + more;
    RecordsPrefix(bs, more, s.count, w, dec);
    FlatOfRecords(bs, s.count, enc, dec, w);
  }

  lemma WriteBack16(data: seq<Byte>, s: Section)
    requires Holds(data, s, 2)
    ensures Flat(Elements(data, s, 2, Read16), Write16) == data[s.start..s.start + 2 * s.count]
  {
    Codec16();
    ElementsWriteBack<U16>(data, s, Write16, Read16, 2);
  }

  lemma WriteBack64(data: seq<Byte>, s: Section)
    requires Holds(data, s, 8)
    ensures Flat(Elements(data, s, 8, Read64), Write64) == data[s.start..s.start + 8 * s.count]
  {
    Codec64();
    ElementsWriteBack<U64>(data, s, Write64, Read64, 8);
  }

  function PadAt(outer: seq<Padded>, inner: seq<Padded>, i: nat): Quad {
    if i < |outer| then outer[i].pad
    else if i - |outer| < |inner| then inner[i - |outer|].pad
    else [0, 0, 0, 0]
  }

  /** The padding bytes a buffer holds, by instruction. */
  function PaddingIn(data: seq<Byte>, v: View): nat -> Quad
    requires InBounds(data, v)
  {
    var outer, inner := Elements(data, v.outer, 16, ReadIx), Elements(data, v.inner, 16, ReadIx);
    (i: nat) => PadAt(outer, inner, i)
  }

  lemma PaddingRestored(outer: seq<Padded>, inner: seq<Padded>, pad: nat -> Quad)
    requires forall i: nat :: pad(i) == PadAt(outer, inner, i)
    ensures WithPadding(WithoutPadding(outer), pad, 0) == outer
    ensures WithPadding(WithoutPadding(inner), pad, |outer|) == inner
  {
  }

  lemma InstructionsWriteBack(data: seq<Byte>, s: Section)
    requires Holds(data, s, 16)
    ensures Flat(Elements(data, s, 16, ReadIx), WriteIx) == data[s.start..s.start + 16 * s.count]
  {
    CodecIx();
    ElementsWriteBack(data, s, WriteIx, ReadIx, 16);
  }

  /** The sections of `v` hold the sequences of `tx`. */
  ghost predicate Shows(data: seq<Byte>, v: View, tx: Transaction) {
    && InBounds(data, v)
    && tx.outer == WithoutPadding(Elements(data, v.outer, 16, ReadIx))
    && tx.inner == WithoutPadding(Elements(data, v.inner, 16, ReadIx))
    && tx.account == Elements(data, v.account, 8, Read64)
    && tx.accountChunk == Elements(data, v.accountChunk, 8, Read64)
    && tx.accountChunkLast == Elements(data, v.accountChunkLast, 2, Read16)
    && tx.dataChunkLast == Elements(data, v.dataChunkLast, 2, Read16)
    && tx.l1Inner == data[v.l1Inner.start..v.l1Inner.start + v.l1Inner.count]
    && tx.dataChunk == data[v.dataChunk.start..v.dataChunk.start + v.dataChunk.count]
  }

  lemma ContentsShow(data: seq<Byte>, v: View)
    requires InBounds(data, v)
    ensures Shows(data, v, Contents(data, v))
  {
  }

  /** `s` is what `data` holds between `a` and `b`. */
  ghost predicate Span(data: seq<Byte>, a: nat, b: nat, s: seq<Byte>) {
    a <= b <= |data| && s == data[a..b]
  }

  ghost predicate ImagesAre(data: seq<Byte>, v: View, ss: seq<seq<Byte>>, end: nat) {
    && |ss| == 8
    && Span(data, v.outer.start, v.inner.start, ss[0])
    && Span(data, v.inner.start, v.account.start, ss[1])
    && Span(data, v.account.start, v.accountChunk.start, ss[2])
    && Span(data, v.accountChunk.start, v.accountChunkLast.start, ss[3])
    && Span(data, v.accountChunkLast.start, v.dataChunkLast.start, ss[4])
    && Span(data, v.dataChunkLast.start, v.l1Inner.start, ss[5])
    && Span(data, v.l1Inner.start, v.dataChunk.start, ss[6])
    && Span(data, v.dataChunk.start, end, ss[7])
  }

  lemma InstructionImages(data: seq<Byte>, v: View, tx: Transaction)
    requires Shows(data, v, tx)
    ensures var pad := PaddingIn(data, v);
            && Span(data, v.outer.start, v.outer.start + 16 * v.outer.count, Flat(WithPadding(tx.outer, pad, 0), WriteIx))
            && Span(data, v.inner.start, v.inner.start + 16 * v.inner.count,
                    Flat(WithPadding(tx.inner, pad, |tx.outer|), WriteIx))
  {
    var outer, inner := Elements(data, v.outer, 16, ReadIx), Elements(data, v.inner, 16, ReadIx);
    PaddingRestored(outer, inner, PaddingIn(data, v));
    InstructionsWriteBack(data, v.outer);
    InstructionsWriteBack(data, v.inner);
  }

  lemma RecordImages(data: seq<Byte>, v: View, tx: Transaction)
    requires Shows(data, v, tx)
    ensures Span(data, v.account.start, v.account.start + 8 * v.account.count, Flat(tx.account, Write64))
    ensures Span(data, v.accountChunk.start, v.accountChunk.start + 8 * v.accountChunk.count, Flat(tx.accountChunk, Write64))
    ensures Span(data, v.accountChunkLast.start, v.accountChunkLast.start + 2 * v.accountChunkLast.count,
                 Flat(tx.accountChunkLast, Write16))
    ensures Span(data, v.dataChunkLast.start, v.dataChunkLast.start + 2 * v.dataChunkLast.count,
                 Flat(tx.dataChunkLast, Write16))
  {
    WriteBack64(data, v.account);
    WriteBack64(data, v.accountChunk);
    WriteBack16(data, v.accountChunkLast);
    WriteBack16(data, v.dataChunkLast);
  }

  lemma ByteImages(data: seq<Byte>, v: View, tx: Transaction)
    requires Shows(data, v, tx)
    ensures Span(data, v.l1Inner.start, v.l1Inner.start + v.l1Inner.count, tx.l1Inner)
    ensures Span(data, v.dataChunk.start, v.dataChunk.start + v.dataChunk.count, tx.dataChunk)
  {
  }

  lemma ImagesWriteBack(data: seq<Byte>, v: View, tx: Transaction, end: nat)
    requires Contiguous(v, end) && Shows(data, v, tx)
    ensures ImagesAre(data, v, Images(tx, PaddingIn(data, v)), end)
  {
    InstructionImages(data, v, tx);
    RecordImages(data, v, tx);
    ByteImages(data, v, tx);
    PlaceImages(data, v, Images(tx, PaddingIn(data, v)), end);
  }

  lemma PlaceImages(data: seq<Byte>, v: View, ss: seq<seq<Byte>>, end: nat)
    requires Contiguous(v, end) && |ss| == 8
    requires Span(data, v.outer.start, v.outer.start + 16 * v.outer.count, ss[0])
    requires Span(data, v.inner.start, v.inner.start + 16 * v.inner.count, ss[1])
    requires Span(data, v.account.start, v.account.start + 8 * v.account.count, ss[2])
    requires Span(data, v.accountChunk.start, v.accountChunk.start + 8 * v.accountChunk.count, ss[3])
    requires Span(data, v.accountChunkLast.start, v.accountChunkLast.start + 2 * v.accountChunkLast.count, ss[4])
    requires Span(data, v.dataChunkLast.start, v.dataChunkLast.start + 2 * v.dataChunkLast.count, ss[5])
    requires Span(data, v.l1Inner.start, v.l1Inner.start + v.l1Inner.count, ss[6])
    requires Span(data, v.dataChunk.start, v.dataChunk.start + v.dataChunk.count, ss[7])
    ensures ImagesAre(data, v, ss, end)
  {
  }

  lemma Join(data: seq<Byte>, a: nat, b: nat, before: seq<Byte>, s: seq<Byte>)
    requires Span(data, 0, a, before) && Span(data, a, b, s)
    ensures Span(data, 0, b, before + s)
  {
  }

  lemma Gather(data: seq<Byte>, v: View, header: seq<Byte>, ss: seq<seq<Byte>>, end: nat)
    requires ImagesAre(data, v, ss, end) && Span(data, 0, v.outer.start, header)
    ensures Span(data, 0, end, header + ss[0] + ss[1] + ss[2] + ss[3] + ss[4] + ss[5] + ss[6] + ss[7])
  {
    var p1 := header + ss[0];
    var p2 := p1 + ss[1];
    var p3 := p2 + ss[2];
    var p4 := p3 + ss[3];
    var p5 := p4 + ss[4];
    var p6 := p5 + ss[5];
    var p7 := p6 + ss[6];
    Join(data, v.outer.start, v.inner.start, header, ss[0]);
    Join(data, v.inner.start, v.account.start, p1, ss[1]);
    Join(data, v.account.start, v.accountChunk.start, p2, ss[2]);
    Join(data, v.accountChunk.start, v.accountChunkLast.start, p3, ss[3]);
    Join(data, v.accountChunkLast.start, v.dataChunkLast.start, p4, ss[4]);
    Join(data, v.dataChunkLast.start, v.l1Inner.start, p5, ss[5]);
    Join(data, v.l1Inner.start, v.dataChunk.start, p6, ss[6]);
    Join(data, v.dataChunk.start, end, p7, ss[7]);
  }

  /** The header's unused last field. */
  function TailIn(data: seq<Byte>): Quad
    requires |data| >= HEADER
  {
    data[92..96]
  }

  /** The first `n` bytes are the encoding of what the view shows, up to padding. */
  ghost predicate BeginsWithEncoding(data: seq<Byte>, v: View, n: nat) {
    && InBounds(data, v)
    && n <= |data|
    && EncodeWith(Contents(data, v), TailIn(data), PaddingIn(data, v)) == data[..n]
  }

  /** Every accepted buffer begins with the encoding of what it was parsed as: the parser
      reads nothing else, and drops only padding and the header's unused last field. */
  lemma ParseThenWrite(data: seq<Byte>, base: nat)
    requires Parse(data, base).Ok?
    ensures BeginsWithEncoding(data, Parse(data, base).value, Extent(CountsOf(data)))
  {
    var v := Parse(data, base).value;
    AcceptedIsWellFormed(data, base);
    ContentsShow(data, v);
    WritesBack(data, CountsOf(data), v, Contents(data, v), TailIn(data));
  }

  lemma WritesBack(data: seq<Byte>, c: Counts, v: View, tx: Transaction, tail: Quad)
    requires |data| >= HEADER && Extent(c) <= |data| && c == CountsOf(data) && Announces(c, tx)
    requires v == Layout(c) && tail == TailIn(data)
    requires Shows(data, v, tx) && tx.signature == data[..64] && tx.index == Read64(data[64..72])
    ensures EncodeWith(tx, tail, PaddingIn(data, v)) == data[..Extent(c)]
  {
    AnnouncedIsShown(data, tx);
    HeaderWritesBack(data, tx);
    LayoutContiguous(c);
    ImagesWriteBack(data, v, tx, Extent(c));
    Reassemble(data, v, tx, tail, PaddingIn(data, v), Extent(c));
  }

  lemma AnnouncedIsShown(data: seq<Byte>, tx: Transaction)
    requires |data| >= HEADER && Announces(CountsOf(data), tx)
    requires tx.signature == data[..64] && tx.index == Read64(data[64..72])
    ensures HeaderShows(data, tx)
  {
    var c := CountsOf(data);
    assert c.outer == AsU32(|tx.outer|) && c.inner == AsU32(|tx.inner|) && c.account == AsU32(|tx.account|);
    assert c.accountChunk == AsU32(|tx.accountChunk|) && c.dataChunk == AsU32(|tx.dataChunk|);
  }

  lemma Reassemble(data: seq<Byte>, v: View, tx: Transaction, tail: Quad, pad: nat -> Quad, end: nat)
    requires Span(data, 0, v.outer.start, Header(tx, tail)) && ImagesAre(data, v, Images(tx, pad), end)
    ensures end <= |data| && EncodeWith(tx, tail, pad) == data[..end]
  {
    Gather(data, v, Header(tx, tail), Images(tx, pad), end);
  }

  // ---- reading one instruction ----------------------------------------------------------

  datatype IxIndex = Outer(i: nat) | Inner(i: nat)

  /** What an accessor hands back; `None` is an index out of bounds, which panics. */
  function Slice<T>(xs: seq<T>, start: nat, finish: nat): Option<seq<T>> {
    if start <= finish <= |xs| then Some(xs[start..finish]) else None
  }

  function At<T>(xs: seq<T>, i: nat): Option<T> { if i < |xs| then Some(xs[i]) else None }

  function OwnedIx(tx: Transaction, ix: IxIndex): Option<Instruction> {
    match ix
    case Outer(i) => At(tx.outer, i)
    case Inner(i) => At(tx.inner, i)
  }

  /** The range of chunk `k`: from the end of the chunk before it to its own end. */
  function ChunkRange(last: seq<U16>, k: nat): Option<(nat, nat)> {
    if k >= |last| then None
    else if k == 0 then Some((0, last[0]))
    else Some((last[k - 1], last[k]))
  }

  /** Chunk `k` of a buffer cut up by the offset table `last`. */
  function Chunk<T>(last: seq<U16>, xs: seq<T>, k: nat): Option<seq<T>> {
    match ChunkRange(last, k)
    case None => None
    case Some((a, b)) => Slice(xs, a, b)
  }

  function OwnedData(tx: Transaction, ix: IxIndex): Option<seq<Byte>> {
    match OwnedIx(tx, ix)
    case None => None
    case Some(x) => Chunk(tx.dataChunkLast, tx.dataChunk, x.dataChunk)
  }

  function OwnedAccounts(tx: Transaction, ix: IxIndex): Option<seq<U64>> {
    match OwnedIx(tx, ix)
    case None => None
    case Some(x) => Chunk(tx.accountChunkLast, tx.accountChunk, x.accountChunk)
  }

  /** One element read in place. */
  function Peek<T>(data: seq<Byte>, s: Section, w: nat, dec: seq<Byte> -> T, i: nat): Option<T>
    requires Holds(data, s, w)
  {
    if i < s.count then
      InPlace(data, s, w, i);
      Some(dec(data[s.start + i * w..s.start + i * w + w]))
    else
      None
  }

  lemma InPlace(data: seq<Byte>, s: Section, w: nat, i: nat)
    requires Holds(data, s, w) && i < s.count
    ensures s.start + i * w + w <= |data|
  {
    Part(i + 1, s.count, w);
    OneMore(i + 1, w);
  }

  function ViewIx(data: seq<Byte>, v: View, ix: IxIndex): Option<Instruction>
    requires InBounds(data, v)
  {
    var p := match ix
             case Outer(i) => Peek(data, v.outer, 16, ReadIx, i)
             case Inner(i) => Peek(data, v.inner, 16, ReadIx, i);
    if p == None then None else Some(p.value.ix)
  }

  function ViewRange(data: seq<Byte>, s: Section, k: nat): Option<(nat, nat)>
    requires Holds(data, s, 2)
  {
    var finish := Peek(data, s, 2, Read16, k);
    if finish == None then None
    else if k == 0 then Some((0, finish.value))
    else
      var start := Peek(data, s, 2, Read16, k - 1);
      if start == None then None else Some((start.value, finish.value))
  }

  /** Where chunk `k` of section `s` lies, as a typed slice of width `w`. */
  function ViewChunk(data: seq<Byte>, last: Section, s: Section, w: nat, k: nat): Option<Section>
    requires Holds(data, last, 2)
  {
    match ViewRange(data, last, k)
    case None => None
    case Some((a, b)) => if a <= b <= s.count then Some(Section(s.start + a * w, b - a)) else None
  }

  function ViewData(data: seq<Byte>, v: View, ix: IxIndex): Option<Section>
    requires InBounds(data, v)
  {
    match ViewIx(data, v, ix)
    case None => None
    case Some(x) => ViewChunk(data, v.dataChunkLast, v.dataChunk, 1, x.dataChunk)
  }

  function ViewAccounts(data: seq<Byte>, v: View, ix: IxIndex): Option<Section>
    requires InBounds(data, v)
  {
    match ViewIx(data, v, ix)
    case None => None
    case Some(x) => ViewChunk(data, v.accountChunkLast, v.accountChunk, 8, x.accountChunk)
  }

  lemma PeekIsElement<T>(data: seq<Byte>, s: Section, w: nat, dec: seq<Byte> -> T, i: nat)
    requires Holds(data, s, w)
    ensures Peek(data, s, w, dec, i) == At(Elements(data, s, w, dec), i)
  {
    if i < s.count {
      var bs := data[s.start..];
      InPlace(data, s, w, i);
      RecordAt(bs, s.count, w, dec, i);
      SubTail(data, s.start, i * w, i * w + w);
    }
  }

  lemma IxAgrees(data: seq<Byte>, v: View, tx: Transaction, ix: IxIndex)
    requires Shows(data, v, tx)
    ensures ViewIx(data, v, ix) == OwnedIx(tx, ix)
  {
    PeekIsElement(data, v.outer, 16, ReadIx, ix.i);
    PeekIsElement(data, v.inner, 16, ReadIx, ix.i);
  }

  lemma RangeAgrees(data: seq<Byte>, s: Section, last: seq<U16>, k: nat)
    requires Holds(data, s, 2) && last == Elements(data, s, 2, Read16)
    ensures ViewRange(data, s, k) == ChunkRange(last, k)
  {
    PeekIsElement<U16>(data, s, 2, Read16, k);
    if k > 0 {
      PeekIsElement<U16>(data, s, 2, Read16, k - 1);
    }
  }

  lemma {:induction false} RecordsDrop<T>(bs: seq<Byte>, n: nat, w: nat, dec: seq<Byte> -> T, a: nat)
    requires n * w <= |bs| && a <= n
    ensures a * w <= |bs| && (n - a) * w <= |bs[a * w..]|
    ensures Records(bs[a * w..], n - a, w, dec) == Records(bs, n, w, dec)[a..]
    decreases n
  {
    Part(a, n, w);
    if a > 0 {
      OneMore(n, w);
      OneMore(a, w);
      RecordsDrop(bs[w..], n - 1, w, dec, a - 1);
      TailTail(bs, w, (a - 1) * w);
    } else {
      assert bs[0..] == bs;
    }
  }

  lemma {:induction false} RecordsTake<T>(bs: seq<Byte>, n: nat, w: nat, dec: seq<Byte> -> T, b: nat)
    requires n * w <= |bs| && b <= n
    ensures b * w <= |bs| && Records(bs, b, w, dec) == Records(bs, n, w, dec)[..b]
  {
    Part(b, n, w);
    if b > 0 {
      OneMore(n, w);
      OneMore(b, w);
      RecordsTake(bs[w..], n - 1, w, dec, b - 1);
    }
  }

  /** A sub-slice of a typed slice holds the corresponding elements. */
  lemma SubSection(data: seq<Byte>, s: Section, a: nat, b: nat)
    requires Holds(data, s, 8) && a <= b <= s.count
    ensures Holds(data, Section(s.start + 8 * a, b - a), 8)
    ensures Elements(data, Section(s.start + 8 * a, b - a), 8, Read64) == Elements(data, s, 8, Read64)[a..b]
  {
    var bs := data[s.start..];
    RecordsTake<U64>(bs, s.count, 8, Read64, b);
    RecordsDrop<U64>(bs, b, 8, Read64, a);
    TailTail(data, s.start, a * 8);
  }

  /** A view's typed slice `got` is in bounds and holds what the owned reader returns, or
      both index out of bounds. */
  ghost predicate SameAccounts(data: seq<Byte>, got: Option<Section>, owned: Option<seq<U64>>) {
    match got
    case None => owned == None
    case Some(s) => Holds(data, s, 8) && owned == Some(Elements(data, s, 8, Read64))
  }

  ghost predicate SameBytes(data: seq<Byte>, got: Option<Section>, owned: Option<seq<Byte>>) {
    match got
    case None => owned == None
    case Some(s) => Holds(data, s, 1) && owned == Some(data[s.start..s.start + s.count])
  }

  lemma AccountChunkAgrees(data: seq<Byte>, lastAt: Section, s: Section, k: nat)
    requires Holds(data, lastAt, 2) && Holds(data, s, 8)
    ensures SameAccounts(data, ViewChunk(data, lastAt, s, 8, k),
                         Chunk(Elements(data, lastAt, 2, Read16), Elements(data, s, 8, Read64), k))
  {
    var last := Elements(data, lastAt, 2, Read16);
    RangeAgrees(data, lastAt, last, k);
    if ChunkRange(last, k).Some? {
      var (a, b) := ChunkRange(last, k).value;
      if a <= b <= s.count {
        SubSection(data, s, a, b);
      }
    }
  }

  lemma DataChunkAgrees(data: seq<Byte>, lastAt: Section, s: Section, k: nat)
    requires Holds(data, lastAt, 2) && Holds(data, s, 1)
    ensures SameBytes(data, ViewChunk(data, lastAt, s, 1, k),
                      Chunk(Elements(data, lastAt, 2, Read16), data[s.start..s.start + s.count], k))
  {
    var last := Elements(data, lastAt, 2, Read16);
    RangeAgrees(data, lastAt, last, k);
    if ChunkRange(last, k).Some? {
      var (a, b) := ChunkRange(last, k).value;
      if a <= b <= s.count {
        SubRange(data, s.start, s.start + s.count, a, b);
      }
    }
  }

  /** On every buffer the parser accepts, the zero-copy reader and a reader of the decoded
      transaction give the same program, data and accounts, and panic together. */
  lemma ReadersAgree(data: seq<Byte>, base: nat, ix: IxIndex)
    requires Parse(data, base).Ok?
    ensures InBounds(data, Parse(data, base).value)
    ensures Agree(data, Parse(data, base).value, Contents(data, Parse(data, base).value), ix)
  {
    var v := Parse(data, base).value;
    AcceptedIsWellFormed(data, base);
    ContentsShow(data, v);
    ShownAgrees(data, v, Contents(data, v), ix);
  }

  ghost predicate Agree(data: seq<Byte>, v: View, tx: Transaction, ix: IxIndex)
    requires InBounds(data, v)
  {
    && ViewIx(data, v, ix) == OwnedIx(tx, ix)
    && SameBytes(data, ViewData(data, v, ix), OwnedData(tx, ix))
    && SameAccounts(data, ViewAccounts(data, v, ix), OwnedAccounts(tx, ix))
  }

  lemma ShownAgrees(data: seq<Byte>, v: View, tx: Transaction, ix: IxIndex)
    requires Shows(data, v, tx)
    ensures Agree(data, v, tx, ix)
  {
    IxAgrees(data, v, tx, ix);
    DataAgrees(data, v, tx, ix);
    AccountsAgree(data, v, tx, ix);
  }

  lemma DataAgrees(data: seq<Byte>, v: View, tx: Transaction, ix: IxIndex)
    requires InBounds(data, v) && ViewIx(data, v, ix) == OwnedIx(tx, ix)
    requires tx.dataChunkLast == Elements(data, v.dataChunkLast, 2, Read16)
    requires tx.dataChunk == data[v.dataChunk.start..v.dataChunk.start + v.dataChunk.count]
    ensures SameBytes(data, ViewData(data, v, ix), OwnedData(tx, ix))
  {
    if OwnedIx(tx, ix).Some? {
      DataChunkAgrees(data, v.dataChunkLast, v.dataChunk, OwnedIx(tx, ix).value.dataChunk);
    }
  }

  lemma AccountsAgree(data: seq<Byte>, v: View, tx: Transaction, ix: IxIndex)
    requires InBounds(data, v) && ViewIx(data, v, ix) == OwnedIx(tx, ix)
    requires tx.accountChunkLast == Elements(data, v.accountChunkLast, 2, Read16)
    requires tx.accountChunk == Elements(data, v.accountChunk, 8, Read64)
    ensures SameAccounts(data, ViewAccounts(data, v, ix), OwnedAccounts(tx, ix))
  {
    if OwnedIx(tx, ix).Some? {
      AccountChunkAgrees(data, v.accountChunkLast, v.accountChunk, OwnedIx(tx, ix).value.accountChunk);
    }
  }

  /** So every instruction of a well-formed transaction reads the same before serialising
      and after parsing its bytes. */
  lemma ReadersSurviveTheWire(tx: Transaction, pad: nat -> Quad, more: seq<Byte>, base: nat, ix: IxIndex)
    requires WellFormed(tx) && base % 8 == 0
    ensures var data := Encode(tx, pad) + more;
            ParsesAs(data, base, tx) && Agree(data, Parse(data, base).value, tx, ix)
  {
    ReadsBack(tx, [0, 0, 0, 0], pad, more, base);
    ReadersAgree(Encode(tx, pad) + more, base, ix);
  }

  /** Offset tables as the builder leaves them: non-decreasing and within the chunk. */
  predicate TableOk(last: seq<U16>, length: nat) {
    && (forall i :: 0 <= i < |last| ==> last[i] <= length)
    && (forall i, j :: 0 <= i < j < |last| ==> last[i] <= last[j])
  }

  /** Where chunk `k` begins: the end of the chunk before it. */
  function ChunkStart(last: seq<U16>, k: nat): nat
    requires k < |last|
  {
    if k == 0 then 0 else last[k - 1]
  }

  /** What an accessor of instruction `x` returns: the data and the accounts between the two
      table entries that its own indices name.  It panics when an index is outside its table
      or the entries are not a range of the buffer. */
  lemma ReadsNamedChunk(tx: Transaction, ix: IxIndex, x: Instruction)
    requires match ix
             case Outer(i) => i < |tx.outer| && x == tx.outer[i]
             case Inner(i) => i < |tx.inner| && x == tx.inner[i]
    ensures OwnedIx(tx, ix) == Some(x)
    ensures OwnedData(tx, ix).Some? <==>
              x.dataChunk < |tx.dataChunkLast|
              && ChunkStart(tx.dataChunkLast, x.dataChunk) <= tx.dataChunkLast[x.dataChunk] <= |tx.dataChunk|
    ensures OwnedData(tx, ix).Some? ==>
              OwnedData(tx, ix).value
              == tx.dataChunk[ChunkStart(tx.dataChunkLast, x.dataChunk)..tx.dataChunkLast[x.dataChunk]]
    ensures OwnedAccounts(tx, ix).Some? <==>
              x.accountChunk < |tx.accountChunkLast|
              && ChunkStart(tx.accountChunkLast, x.accountChunk) <= tx.accountChunkLast[x.accountChunk] <= |tx.accountChunk|
    ensures OwnedAccounts(tx, ix).Some? ==>
              OwnedAccounts(tx, ix).value
              == tx.accountChunk[ChunkStart(tx.accountChunkLast, x.accountChunk)..tx.accountChunkLast[x.accountChunk]]
  {
  }

  /** With such tables no accessor of an existing instruction can go out of bounds, provided
      its chunk indices are in range. */
  lemma InRangeReads(tx: Transaction, ix: IxIndex)
    requires TableOk(tx.dataChunkLast, |tx.dataChunk|) && TableOk(tx.accountChunkLast, |tx.accountChunk|)
    requires match OwnedIx(tx, ix)
             case None => false
             case Some(x) => x.dataChunk < |tx.dataChunkLast| && x.accountChunk < |tx.accountChunkLast|
    ensures OwnedData(tx, ix).Some? && OwnedAccounts(tx, ix).Some?
  {
  }
}
