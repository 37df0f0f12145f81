/**
 The instruction builder of src/store.rs as functions on transactions: appending an
 instruction, filling its account and data chunks, and closing its writer.
 */
module Builder {
  import opened Options
  import opened Bytes
  import opened Wire
  import opened WireReaders

  /** A client-submitted instruction, or one invoked by the outer instruction `outer`. */
  datatype Kind = TopLevel | Nested(outer: nat)

  /** One completed use of an instruction writer. */
  datatype Write = Write(kind: Kind, program: Option<U64>, accounts: seq<U64>, data: seq<Byte>)

  const BLANK: Instruction := Instruction(0, 0, 0)

  function Empty(): Transaction {
    Transaction(seq(64, _ => 0), 0, [], [], [], [], [], [], [], [])
  }

  predicate CanAppend(tx: Transaction, kind: Kind) {
    kind.Nested? ==> kind.outer < |tx.l1Inner|
  }

  /** `append_outer` and `append_inner`: a blank instruction and a zero in both tables.  The
      count of inner instructions is a byte and wraps. */
  function Append(tx: Transaction, kind: Kind): Transaction
    requires CanAppend(tx, kind)
  {
    var grown := tx.(accountChunkLast := tx.accountChunkLast + [0], dataChunkLast := tx.dataChunkLast + [0]);
    match kind
    case TopLevel => grown.(outer := tx.outer + [BLANK], l1Inner := tx.l1Inner + [0])
    case Nested(o) => grown.(inner := tx.inner + [BLANK], l1Inner := tx.l1Inner[o := (tx.l1Inner[o] as int + 1) % 256])
  }

  /** The place of the instruction that `Append` adds. */
  function NextIndex(tx: Transaction, kind: Kind): IxIndex {
    if kind.TopLevel? then Outer(|tx.outer|) else Inner(|tx.inner|)
  }

  function SetProgram(tx: Transaction, ix: IxIndex, program: U64): Transaction
    requires OwnedIx(tx, ix).Some?
  {
    match ix
    case Outer(i) => tx.(outer := tx.outer[i := tx.outer[i].(program := program)])
    case Inner(i) => tx.(inner := tx.inner[i := tx.inner[i].(program := program)])
  }

  /** Filling the account chunk records where it ends, cut down to 16 bits. */
  function SetAccounts(tx: Transaction, k: nat, accounts: seq<U64>): Transaction
    requires k < |tx.accountChunkLast|
  {
    tx.(accountChunk := tx.accountChunk + accounts,
        accountChunkLast := tx.accountChunkLast[k := (|tx.accountChunk| + |accounts|) % SIZE16])
  }

  function SetData(tx: Transaction, k: nat, data: seq<Byte>): Transaction
    requires k < |tx.dataChunkLast|
  {
    tx.(dataChunk := tx.dataChunk + data,
        dataChunkLast := tx.dataChunkLast[k := (|tx.dataChunk| + |data|) % SIZE16])
  }

  // ---- the sorted account list ----------------------------------------------------------

  ghost predicate StrictlyAscending(xs: seq<U64>) {
    forall i, j :: 0 <= i < j < |xs| ==> xs[i] < xs[j]
  }

  ghost function Members<T>(xs: seq<T>): set<T> { set x | x in xs }

  /** The one strictly ascending list with the members of `xs` and `x`. */
  ghost predicate Inserted(xs: seq<U64>, x: U64, ys: seq<U64>) {
    StrictlyAscending(ys) && Members(ys) == Members(xs) + {x}
  }

  /** Adding accounts one by one, each in its place unless already there. */
  function InsertAll(xs: seq<U64>, more: seq<U64>): seq<U64> {
    if more == [] then xs
    else Insert(InsertAll(xs, more[..|more| - 1]), more[|more| - 1])
  }

  function Insert(xs: seq<U64>, x: U64): seq<U64> {
    if x in xs then xs
    else xs[..Rank(xs, x)] + [x] + xs[Rank(xs, x)..]
  }

  /** How many leading entries are below `x`. */
  function Rank(xs: seq<U64>, x: U64): (r: nat)
    ensures r <= |xs| && (forall i :: 0 <= i < r ==> xs[i] < x) && (r < |xs| ==> xs[r] >= x)
  {
    if xs == [] || xs[0] >= x then 0 else 1 + Rank(xs[1..], x)
  }

  lemma InsertCorrect(xs: seq<U64>, x: U64)
    requires StrictlyAscending(xs)
    ensures Inserted(xs, x, Insert(xs, x))
  {
    var r, ys := Rank(xs, x), Insert(xs, x);
    if x !in xs {
      forall y
        ensures y in ys <==> y in xs || y == x
      {
        assert xs == xs[..r] + xs[r..];
      }
      assert r < |xs| ==> xs[r] > x;
    }
  }

  lemma {:induction false} InsertAllCorrect(xs: seq<U64>, more: seq<U64>)
    requires StrictlyAscending(xs)
    ensures StrictlyAscending(InsertAll(xs, more))
    ensures Members(InsertAll(xs, more)) == Members(xs) + Members(more)
  {
    if more != [] {
      var init, last := more[..|more| - 1], more[|more| - 1];
      InsertAllCorrect(xs, init);
      InsertCorrect(InsertAll(xs, init), last);
      assert more == init + [last];
      assert Members(more) == Members(init) + {last};
    }
  }

  lemma InsertOneMore(xs: seq<U64>, more: seq<U64>, j: nat)
    requires j < |more|
    ensures InsertAll(xs, more[..j + 1]) == Insert(InsertAll(xs, more[..j]), more[j])
  {
    assert more[..j + 1][..j] == more[..j];
  }

  /** Closing a writer adds the accounts of the chunk its stored instruction names. */
  function Close(tx: Transaction, ix: IxIndex): Transaction {
    match OwnedAccounts(tx, ix)
    case None => tx
    case Some(accounts) => tx.(account := InsertAll(tx.account, accounts))
  }

  // ---- whole runs -----------------------------------------------------------------------

  /** One writer from append to drop. */
  function Complete(tx: Transaction, w: Write): Transaction
    requires CanAppend(tx, w.kind)
  {
    var ix, t0 := NextIndex(tx, w.kind), Append(tx, w.kind);
    var t1 := if w.program.Some? then SetProgram(t0, ix, w.program.value) else t0;
    var t2 := SetAccounts(t1, |tx.accountChunkLast|, w.accounts);
    var t3 := SetData(t2, |tx.dataChunkLast|, w.data);
    Close(t3, ix)
  }

  function TopLevels(ws: seq<Write>): nat {
    if ws == [] then 0
    else TopLevels(ws[..|ws| - 1]) + if ws[|ws| - 1].kind.TopLevel? then 1 else 0
  }

  /** Inner instructions only under outer ones already appended. */
  predicate Legal(ws: seq<Write>) {
    ws != [] ==>
      && Legal(ws[..|ws| - 1])
      && match ws[|ws| - 1].kind
         case TopLevel => true
         case Nested(o) => o < TopLevels(ws[..|ws| - 1])
  }

  /** The transaction after the writers `ws`, in order. */
  function Built(ws: seq<Write>): (tx: Transaction)
    requires Legal(ws)
    ensures |tx.l1Inner| == TopLevels(ws)
  {
    if ws == [] then Empty() else Complete(Built(ws[..|ws| - 1]), ws[|ws| - 1])
  }

  lemma {:induction false} TopLevelsBound(ws: seq<Write>)
    ensures TopLevels(ws) <= |ws|
  {
    if ws != [] {
      TopLevelsBound(ws[..|ws| - 1]);
    }
  }
}
