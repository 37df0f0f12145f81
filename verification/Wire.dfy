/**
 The transaction wire format of src/store.rs: a 96-byte header and eight sections, written
 by appending memory images and read by a parser that only moves an offset.
 */
module Wire {
  import opened Options
  import opened Bytes

  type Signature = bs: seq<Byte> | |bs| == 64 witness seq(64, _ => 0)
  type Quad = bs: seq<Byte> | |bs| == 4 witness [0, 0, 0, 0]

  datatype Instruction = Instruction(program: U64, dataChunk: U16, accountChunk: U16)

  datatype Transaction = Transaction(
    signature: Signature,
    index: U64,
    dataChunkLast: seq<U16>,
    dataChunk: seq<Byte>,
    accountChunkLast: seq<U16>,
    accountChunk: seq<U64>,
    outer: seq<Instruction>,
    l1Inner: seq<Byte>,
    inner: seq<Instruction>,
    account: seq<U64>)

  datatype Error = OutOfRange | UnalignedMemory

  const HEADER: nat := 96

  // ---- writing --------------------------------------------------------------------------

  /** An instruction occupies 16 bytes, the last 4 of which are never initialised. */
  datatype Padded = Padded(ix: Instruction, pad: Quad)

  function WriteIx(p: Padded): seq<Byte> {
    Write64(p.ix.program) + Write16(p.ix.dataChunk) + Write16(p.ix.accountChunk) + p.pad
  }

  function ReadIx(bs: seq<Byte>): Padded {
    if |bs| != 16 then Padded(Instruction(0, 0, 0), [0, 0, 0, 0])
    else Padded(Instruction(Read64(bs[..8]), Read16(bs[8..10]), Read16(bs[10..12])), bs[12..])
  }

  /** The padding bytes are whatever memory held: `pad` names them by instruction. */
  function WithPadding(ixs: seq<Instruction>, pad: nat -> Quad, first: nat): (ps: seq<Padded>)
    ensures |ps| == |ixs|
  {
    seq(|ixs|, i requires 0 <= i < |ixs| => Padded(ixs[i], pad(first + i)))
  }

  function WithoutPadding(ps: seq<Padded>): (ixs: seq<Instruction>)
    ensures |ixs| == |ps|
  {
    seq(|ps|, i requires 0 <= i < |ps| => ps[i].ix)
  }

  /** A length cast to 32 bits. */
  function AsU32(n: nat): U32 { n % SIZE32 }

  function Header(tx: Transaction, tail: Quad): (bs: seq<Byte>)
    ensures |bs| == HEADER
  {
    tx.signature + Write64(tx.index) + Write32(AsU32(|tx.outer|)) + Write32(AsU32(|tx.inner|))
    + Write32(AsU32(|tx.account|)) + Write32(AsU32(|tx.accountChunk|)) + Write32(AsU32(|tx.dataChunk|)) + tail
  }

  /** The header's own last field is written as zero by `write_to` and ignored by readers. */
  function EncodeWith(tx: Transaction, tail: Quad, pad: nat -> Quad): seq<Byte> {
    Header(tx, tail)
    + Flat(WithPadding(tx.outer, pad, 0), WriteIx)
    + Flat(WithPadding(tx.inner, pad, |tx.outer|), WriteIx)
    + Flat(tx.account, Write64)
    + Flat(tx.accountChunk, Write64)
    + Flat(tx.accountChunkLast, Write16)
    + Flat(tx.dataChunkLast, Write16)
    + tx.l1Inner
    + tx.dataChunk
  }

  function Encode(tx: Transaction, pad: nat -> Quad): seq<Byte> {
    EncodeWith(tx, [0, 0, 0, 0], pad)
  }

  class ByteBuffer {
    var bytes: seq<Byte>

    constructor ()
      ensures bytes == []
    {
      bytes := [];
    }

    method ExtendFromSlice(more: seq<Byte>)
      modifies this
      ensures bytes == old(bytes) + more
    {
      bytes := bytes + more;
    }
  }

  lemma Regroup(a: seq<Byte>, b: seq<Byte>, c: seq<Byte>)
    ensures (a + b) + c == a + (b + c)
  {
  }

  /** Appends the encoding to `buf`, one memory image after the other. */
  method WriteTo(tx: Transaction, pad: nat -> Quad, buf: ByteBuffer)
    modifies buf
    ensures buf.bytes == old(buf.bytes) + Encode(tx, pad)
  {
    ghost var before, done := buf.bytes, Header(tx, [0, 0, 0, 0]);
    buf.ExtendFromSlice(Header(tx, [0, 0, 0, 0]));
    done := Extend(buf, before, done, Flat(WithPadding(tx.outer, pad, 0), WriteIx));
    done := Extend(buf, before, done, Flat(WithPadding(tx.inner, pad, |tx.outer|), WriteIx));
    done := Extend(buf, before, done, Flat(tx.account, Write64));
    done := Extend(buf, before, done, Flat(tx.accountChunk, Write64));
    done := Extend(buf, before, done, Flat(tx.accountChunkLast, Write16));
    done := Extend(buf, before, done, Flat(tx.dataChunkLast, Write16));
    done := Extend(buf, before, done, tx.l1Inner);
    done := Extend(buf, before, done, tx.dataChunk);
  }

  /** One append; `done` is what has been written since `before`. */
  method Extend(buf: ByteBuffer, ghost before: seq<Byte>, ghost done: seq<Byte>, more: seq<Byte>)
    returns (ghost done': seq<Byte>)
    requires buf.bytes == before + done
    modifies buf
    ensures done' == done + more && buf.bytes == before + done'
  {
    buf.ExtendFromSlice(more);
    done' := done + more;
    Regroup(before, done, more);
  }

  // ---- reading --------------------------------------------------------------------------

  /** A typed slice aliasing the buffer: `count` records from byte `start`. */
  datatype Section = Section(start: nat, count: nat)

  /** The zero-copy view: nothing but positions in the buffer it was made from. */
  datatype View = View(
    outer: Section,
    inner: Section,
    account: Section,
    accountChunk: Section,
    accountChunkLast: Section,
    dataChunkLast: Section,
    l1Inner: Section,
    dataChunk: Section)

  /** A byte slice never exceeds half the address space and lies inside it. */
  predicate Addressable(data: seq<Byte>, base: nat) {
    |data| < 0x8000_0000_0000_0000 && base + |data| <= SIZE64
  }

  function CheckedMul(a: nat, b: nat): Option<nat> { if a * b < SIZE64 then Some(a * b) else None }
  function CheckedAdd(a: nat, b: nat): Option<nat> { if a + b < SIZE64 then Some(a + b) else None }

  /** Advances `offset` past `count` records: neither checked operation can be the reason
      for failure, since a slice that overflows is out of range anyway. */
  method TakeSlice(data: seq<Byte>, base: nat, offset: nat, count: nat, size: nat, align: nat)
    returns (r: Result<Section, Error>, end: nat)
    requires Addressable(data, base) && offset <= |data| && size >= 1 && align >= 1
    ensures r == if offset + count * size > |data| then Err(OutOfRange)
                 else if (base + offset) % align != 0 then Err(UnalignedMemory)
                 else Ok(Section(offset, count))
    ensures end == if r.Ok? then offset + count * size else offset
  {
    end := offset;
    var byteLen := CheckedMul(count, size);
    if byteLen == None {
      return Err(OutOfRange), end;
    }
    var finish := CheckedAdd(offset, byteLen.value);
    if finish == None {
      return Err(OutOfRange), end;
    }
    if finish.value > |data| {
      return Err(OutOfRange), end;
    }
    if (base + offset) % align != 0 {
      return Err(UnalignedMemory), end;
    }
    end := finish.value;
    r := Ok(Section(offset, count));
  }

  /** The lengths a header announces. */
  datatype Counts = Counts(outer: U32, inner: U32, account: U32, accountChunk: U32, dataChunk: U32)

  function CountsOf(data: seq<Byte>): Counts
    requires |data| >= HEADER
  {
    Counts(Read32(data[72..76]), Read32(data[76..80]), Read32(data[80..84]), Read32(data[84..88]), Read32(data[88..92]))
  }

  /** The sections in order, each starting where the one before it ends. */
  function Layout(c: Counts): View {
    var ixs := c.outer + c.inner;
    var outer := Section(HEADER, c.outer);
    var inner := Section(outer.start + 16 * outer.count, c.inner);
    var account := Section(inner.start + 16 * inner.count, c.account);
    var accountChunk := Section(account.start + 8 * account.count, c.accountChunk);
    var accountChunkLast := Section(accountChunk.start + 8 * accountChunk.count, ixs);
    var dataChunkLast := Section(accountChunkLast.start + 2 * ixs, ixs);
    var l1Inner := Section(dataChunkLast.start + 2 * ixs, c.outer);
    var dataChunk := Section(l1Inner.start + c.outer, c.dataChunk);
    View(outer, inner, account, accountChunk, accountChunkLast, dataChunkLast, l1Inner, dataChunk)
  }

  /** The bytes a header asks for. */
  function Extent(c: Counts): nat {
    HEADER + 16 * c.outer + 16 * c.inner + 8 * c.account + 8 * c.accountChunk
    + 4 * (c.outer + c.inner) + c.outer + c.dataChunk
  }

  /** The sections tile the buffer from the header to `end`: disjoint and without gaps. */
  ghost predicate Contiguous(v: View, end: nat) {
    && v.outer.start == HEADER
    && v.inner.start == v.outer.start + 16 * v.outer.count
    && v.account.start == v.inner.start + 16 * v.inner.count
    && v.accountChunk.start == v.account.start + 8 * v.account.count
    && v.accountChunkLast.start == v.accountChunk.start + 8 * v.accountChunk.count
    && v.dataChunkLast.start == v.accountChunkLast.start + 2 * v.accountChunkLast.count
    && v.l1Inner.start == v.dataChunkLast.start + 2 * v.dataChunkLast.count
    && v.dataChunk.start == v.l1Inner.start + v.l1Inner.count
    && end == v.dataChunk.start + v.dataChunk.count
  }

  lemma LayoutContiguous(c: Counts)
    ensures Contiguous(Layout(c), Extent(c))
  {
  }

  /** What the parser decides, without its steps. */
  function Parse(data: seq<Byte>, base: nat): Result<View, Error> {
    if |data| < HEADER then Err(OutOfRange)
    else if base % 8 != 0 then Err(UnalignedMemory)
    else if Extent(CountsOf(data)) > |data| then Err(OutOfRange)
    else Ok(Layout(CountsOf(data)))
  }

  /** In a buffer at an 8-aligned address every section is aligned for its type, the last
      one ends at the extent, and the extent is far below 2^64: no later alignment check or
      checked operation can fail. */
  lemma SectionsAligned(c: Counts, base: nat)
    requires base % 8 == 0
    ensures var v := Layout(c);
            && (base + v.outer.start) % 8 == 0 && (base + v.inner.start) % 8 == 0
            && (base + v.account.start) % 8 == 0 && (base + v.accountChunk.start) % 8 == 0
            && (base + v.accountChunkLast.start) % 2 == 0 && (base + v.dataChunkLast.start) % 2 == 0
            && v.dataChunk.start + v.dataChunk.count == Extent(c) < SIZE64
  {
    var q, ixs := base / 8 + 12, c.outer + c.inner;
    var wide := q + 2 * ixs + c.account + c.accountChunk;
    Multiple(q, 8);
    Multiple(q + 2 * c.outer, 8);
    Multiple(q + 2 * ixs, 8);
    Multiple(q + 2 * ixs + c.account, 8);
    Multiple(4 * wide, 2);
    Multiple(4 * wide + ixs, 2);
  }

  lemma Multiple(q: nat, m: nat)
    requires m == 2 || m == 8
    ensures (m * q) % m == 0
  {
  }

  /** The 16- and 8-byte sections. */
  method TakeWide(data: seq<Byte>, base: nat, c: Counts) returns (r: Result<(Section, Section, Section, Section), Error>, off: nat)
    requires Addressable(data, base) && base % 8 == 0 && |data| >= HEADER
    ensures var v := Layout(c);
            r == if v.accountChunkLast.start > |data| then Err(OutOfRange)
                 else Ok((v.outer, v.inner, v.account, v.accountChunk))
    ensures r.Ok? ==> off == Layout(c).accountChunkLast.start
  {
    SectionsAligned(c, base);
    off := HEADER;
    var outer, inner, account, accountChunk;
    outer, off := TakeSlice(data, base, off, c.outer, 16, 8);
    if outer.Err? { return Err(outer.error), off; }
    inner, off := TakeSlice(data, base, off, c.inner, 16, 8);
    if inner.Err? { return Err(inner.error), off; }
    account, off := TakeSlice(data, base, off, c.account, 8, 8);
    if account.Err? { return Err(account.error), off; }
    accountChunk, off := TakeSlice(data, base, off, c.accountChunk, 8, 8);
    if accountChunk.Err? { return Err(accountChunk.error), off; }
    r := Ok((outer.value, inner.value, account.value, accountChunk.value));
  }

  /** The 2- and 1-byte sections. */
  method TakeNarrow(data: seq<Byte>, base: nat, c: Counts, ixCount: nat, offset: nat) returns (r: Result<(Section, Section, Section, Section), Error>)
    requires Addressable(data, base) && base % 8 == 0 && ixCount == c.outer + c.inner
    requires offset == Layout(c).accountChunkLast.start <= |data|
    ensures var v := Layout(c);
            r == if Extent(c) > |data| then Err(OutOfRange)
                 else Ok((v.accountChunkLast, v.dataChunkLast, v.l1Inner, v.dataChunk))
  {
    SectionsAligned(c, base);
    var off := offset;
    var accountChunkLast, dataChunkLast, l1Inner, dataChunk;
    accountChunkLast, off := TakeSlice(data, base, off, ixCount, 2, 2);
    if accountChunkLast.Err? { return Err(accountChunkLast.error); }
    dataChunkLast, off := TakeSlice(data, base, off, ixCount, 2, 2);
    if dataChunkLast.Err? { return Err(dataChunkLast.error); }
    l1Inner, off := TakeSlice(data, base, off, c.outer, 1, 1);
    if l1Inner.Err? { return Err(l1Inner.error); }
    dataChunk, off := TakeSlice(data, base, off, c.dataChunk, 1, 1);
    if dataChunk.Err? { return Err(dataChunk.error); }
    r := Ok((accountChunkLast.value, dataChunkLast.value, l1Inner.value, dataChunk.value));
  }

  /** The parser itself decides exactly that, for every buffer at every address. */
  method TryFrom(data: seq<Byte>, base: nat) returns (r: Result<View, Error>)
    requires Addressable(data, base)
    ensures r == Parse(data, base)
  {
    if |data| < HEADER {
      return Err(OutOfRange);
    }
    if base % 8 != 0 {
      return Err(UnalignedMemory);
    }
    var c := CountsOf(data);
    var ixCount := CheckedAdd(c.outer, c.inner);
    if ixCount == None {
      return Err(OutOfRange);
    }
    var wide, off := TakeWide(data, base, c);
    if wide.Err? { return Err(wide.error); }
    var narrow := TakeNarrow(data, base, c, ixCount.value, off);
    if narrow.Err? { return Err(narrow.error); }
    var (outer, inner, account, accountChunk) := wide.value;
    var (accountChunkLast, dataChunkLast, l1Inner, dataChunk) := narrow.value;
    r := Ok(View(outer, inner, account, accountChunk, accountChunkLast, dataChunkLast, l1Inner, dataChunk));
  }

  // ---- what a view shows ----------------------------------------------------------------

  predicate Holds(data: seq<Byte>, s: Section, w: nat) { s.start + s.count * w <= |data| }

  predicate InBounds(data: seq<Byte>, v: View) {
    && |data| >= HEADER
    && Holds(data, v.outer, 16) && Holds(data, v.inner, 16)
    && Holds(data, v.account, 8) && Holds(data, v.accountChunk, 8)
    && Holds(data, v.accountChunkLast, 2) && Holds(data, v.dataChunkLast, 2)
    && Holds(data, v.l1Inner, 1) && Holds(data, v.dataChunk, 1)
  }

  function Elements<T>(data: seq<Byte>, s: Section, w: nat, dec: seq<Byte> -> T): (xs: seq<T>)
    requires Holds(data, s, w)
    ensures |xs| == s.count
  {
    Records(data[s.start..], s.count, w, dec)
  }

  /** The transaction a reader of the view sees. */
  function Contents(data: seq<Byte>, v: View): Transaction
    requires InBounds(data, v)
  {
    Transaction(
      data[..64],
      Read64(data[64..72]),
      Elements(data, v.dataChunkLast, 2, Read16),
      data[v.dataChunk.start..v.dataChunk.start + v.dataChunk.count],
      Elements(data, v.accountChunkLast, 2, Read16),
      Elements(data, v.accountChunk, 8, Read64),
      WithoutPadding(Elements(data, v.outer, 16, ReadIx)),
      data[v.l1Inner.start..v.l1Inner.start + v.l1Inner.count],
      WithoutPadding(Elements(data, v.inner, 16, ReadIx)),
      Elements(data, v.account, 8, Read64))
  }
}
