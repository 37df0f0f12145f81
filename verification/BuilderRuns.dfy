/** What the builder guarantees after any sequence of completed writers, and where it stops. */
module BuilderRuns {
  import opened Options
  import opened Bytes
  import opened Wire
  import opened WireRoundTrip
  import opened WireReaders
  import opened Builder

  // ---- everything written so far --------------------------------------------------------

  ghost function AllAccounts(ws: seq<Write>): seq<U64> {
    if ws == [] then [] else AllAccounts(ws[..|ws| - 1]) + ws[|ws| - 1].accounts
  }

  ghost function AllData(ws: seq<Write>): seq<Byte> {
    if ws == [] then [] else AllData(ws[..|ws| - 1]) + ws[|ws| - 1].data
  }

  /** Writers so far for inner instructions of outer instruction `o`. */
  ghost function InnersOf(ws: seq<Write>, o: nat): nat {
    if ws == [] then 0
    else InnersOf(ws[..|ws| - 1], o) + if ws[|ws| - 1].kind == Nested(o) then 1 else 0
  }

  /** Which instruction the `k`-th writer filled in. */
  ghost function IndexOf(ws: seq<Write>, k: nat): IxIndex
    requires k < |ws|
  {
    TopLevelsBound(ws[..k]);
    var tops := TopLevels(ws[..k]);
    if ws[k].kind.TopLevel? then Outer(tops) else Inner(k - tops)
  }

  // ---- one writer -----------------------------------------------------------------------

  /** Tables cover the instructions, and every stored chunk index is still zero. */
  ghost predicate Shaped(tx: Transaction) {
    && |tx.accountChunkLast| == |tx.dataChunkLast| == |tx.outer| + |tx.inner|
    && |tx.l1Inner| == |tx.outer|
    && (forall i :: 0 <= i < |tx.outer| ==> tx.outer[i].dataChunk == 0 && tx.outer[i].accountChunk == 0)
    && (forall i :: 0 <= i < |tx.inner| ==> tx.inner[i].dataChunk == 0 && tx.inner[i].accountChunk == 0)
  }

  ghost function Stored(w: Write): Instruction {
    Instruction(if w.program.Some? then w.program.value else 0, 0, 0)
  }

  /** How one completed writer changes everything but the account list. */
  ghost predicate Grown(tx: Transaction, t: Transaction, w: Write) {
    && Shaped(t)
    && t.signature == tx.signature && t.index == tx.index
    && t.outer == tx.outer + (if w.kind.TopLevel? then [Stored(w)] else [])
    && t.inner == tx.inner + (if w.kind.TopLevel? then [] else [Stored(w)])
    && t.accountChunk == tx.accountChunk + w.accounts
    && t.dataChunk == tx.dataChunk + w.data
    && t.accountChunkLast == tx.accountChunkLast + [|t.accountChunk| % SIZE16]
    && t.dataChunkLast == tx.dataChunkLast + [|t.dataChunk| % SIZE16]
    && CanAppend(tx, w.kind) && t.l1Inner == Append(tx, w.kind).l1Inner
  }

  lemma CompleteGrows(tx: Transaction, w: Write)
    requires Shaped(tx) && CanAppend(tx, w.kind)
    ensures Grown(tx, Complete(tx, w), w)
  {
  }

  /** Closing resolves chunk zero, whichever instruction was written. */
  ghost function AfterClose(account: seq<U64>, t: Transaction): seq<U64>
    requires |t.accountChunkLast| > 0
  {
    var n := t.accountChunkLast[0];
    if n <= |t.accountChunk| then InsertAll(account, t.accountChunk[..n]) else account
  }

  lemma CompleteAccounts(tx: Transaction, w: Write)
    requires Shaped(tx) && CanAppend(tx, w.kind)
    ensures |Complete(tx, w).accountChunkLast| > 0
    ensures Complete(tx, w).account == AfterClose(tx.account, Complete(tx, w))
  {
  }

  /** The last writer of a run. */
  lemma {:induction false} BuiltStep(ws: seq<Write>)
    requires Legal(ws) && ws != []
    ensures Grown(Built(ws[..|ws| - 1]), Built(ws), ws[|ws| - 1])
    ensures |Built(ws).accountChunkLast| > 0
    ensures Built(ws).account == AfterClose(Built(ws[..|ws| - 1]).account, Built(ws))
  {
    BuiltShaped(ws[..|ws| - 1]);
    CompleteGrows(Built(ws[..|ws| - 1]), ws[|ws| - 1]);
    CompleteAccounts(Built(ws[..|ws| - 1]), ws[|ws| - 1]);
  }

  lemma {:induction false} BuiltShaped(ws: seq<Write>)
    requires Legal(ws)
    ensures Shaped(Built(ws))
  {
    if ws != [] {
      BuiltShaped(ws[..|ws| - 1]);
      CompleteGrows(Built(ws[..|ws| - 1]), ws[|ws| - 1]);
    }
  }

  lemma {:induction false} BuiltCounts(ws: seq<Write>)
    requires Legal(ws)
    ensures |Built(ws).outer| == TopLevels(ws) && |Built(ws).inner| == |ws| - TopLevels(ws)
  {
    if ws != [] {
      BuiltCounts(ws[..|ws| - 1]);
      BuiltStep(ws);
    }
  }

  /** The builder never touches the signature or the index. */
  lemma {:induction false} IdentityKept(ws: seq<Write>)
    requires Legal(ws)
    ensures Built(ws).signature == seq(64, _ => 0) && Built(ws).index == 0
  {
    if ws != [] {
      IdentityKept(ws[..|ws| - 1]);
      BuiltStep(ws);
    }
  }

  // ---- the tables -----------------------------------------------------------------------

  ghost predicate Tables(ws: seq<Write>, tx: Transaction) {
    && |tx.accountChunkLast| == |tx.dataChunkLast| == |ws|
    && tx.accountChunk == AllAccounts(ws)
    && tx.dataChunk == AllData(ws)
    && (forall k :: 0 <= k < |ws| ==> tx.accountChunkLast[k] == |AllAccounts(ws[..k + 1])| % SIZE16)
    && (forall k :: 0 <= k < |ws| ==> tx.dataChunkLast[k] == |AllData(ws[..k + 1])| % SIZE16)
  }

  lemma TablesStep(init: seq<Write>, w: Write, before: Transaction, tx: Transaction)
    requires Tables(init, before) && Grown(before, tx, w)
    ensures Tables(init + [w], tx)
  {
    var ws := init + [w];
    assert ws[..|ws| - 1] == init;
    forall k | 0 <= k < |ws|
      ensures tx.accountChunkLast[k] == |AllAccounts(ws[..k + 1])| % SIZE16
      ensures tx.dataChunkLast[k] == |AllData(ws[..k + 1])| % SIZE16
    {
      if k < |init| {
        assert init[..k + 1] == ws[..k + 1];
      } else {
        assert ws[..k + 1] == ws;
      }
    }
  }

  lemma TablesNext(ws: seq<Write>, before: Transaction, tx: Transaction)
    requires ws != [] && Grown(before, tx, ws[|ws| - 1]) && Tables(ws[..|ws| - 1], before)
    ensures Tables(ws, tx)
  {
    TablesStep(ws[..|ws| - 1], ws[|ws| - 1], before, tx);
    assert ws[..|ws| - 1] + [ws[|ws| - 1]] == ws;
  }

  lemma {:induction false} BuiltTables(ws: seq<Write>)
    requires Legal(ws)
    ensures Tables(ws, Built(ws))
  {
    if ws != [] {
      var init := ws[..|ws| - 1];
      BuiltTables(init);
      BuiltStep(ws);
      TablesNext(ws, Built(init), Built(ws));
    }
  }

  lemma {:induction false} AccountsPrefix(ws: seq<Write>, k: nat)
    requires k <= |ws|
    ensures AllAccounts(ws[..k]) <= AllAccounts(ws)
  {
    if k < |ws| {
      AccountsPrefix(ws[..|ws| - 1], k);
      assert ws[..|ws| - 1][..k] == ws[..k];
    } else {
      assert ws[..k] == ws;
    }
  }

  lemma {:induction false} DataPrefix(ws: seq<Write>, k: nat)
    requires k <= |ws|
    ensures AllData(ws[..k]) <= AllData(ws)
  {
    if k < |ws| {
      DataPrefix(ws[..|ws| - 1], k);
      assert ws[..|ws| - 1][..k] == ws[..k];
    } else {
      assert ws[..k] == ws;
    }
  }

  /** Totals that the 16-bit table entries can express. */
  ghost predicate Fits(ws: seq<Write>) {
    |AllAccounts(ws)| < SIZE16 && |AllData(ws)| < SIZE16
  }

  lemma EndsGrow(ws: seq<Write>, i: nat, j: nat)
    requires i <= j <= |ws|
    ensures |AllAccounts(ws[..i])| <= |AllAccounts(ws[..j])| <= |AllAccounts(ws)|
    ensures |AllData(ws[..i])| <= |AllData(ws[..j])| <= |AllData(ws)|
  {
    assert ws[..j][..i] == ws[..i];
    AccountsPrefix(ws[..j], i);
    DataPrefix(ws[..j], i);
    AccountsPrefix(ws, j);
    DataPrefix(ws, j);
  }

  lemma ChunkOf(ws: seq<Write>, tx: Transaction, k: nat)
    requires Tables(ws, tx) && k < |ws| && Fits(ws[..k + 1])
    ensures Chunk(tx.accountChunkLast, tx.accountChunk, k) == Some(ws[k].accounts)
    ensures Chunk(tx.dataChunkLast, tx.dataChunk, k) == Some(ws[k].data)
  {
    var upTo := ws[..k + 1];
    AccountsPrefix(ws, k + 1);
    DataPrefix(ws, k + 1);
    assert upTo[..k] == ws[..k];
    var a, d := |AllAccounts(ws[..k])|, |AllData(ws[..k])|;
    assert AllAccounts(ws)[..a + |ws[k].accounts|] == AllAccounts(ws[..k]) + ws[k].accounts;
    assert AllData(ws)[..d + |ws[k].data|] == AllData(ws[..k]) + ws[k].data;
    assert AllAccounts(ws)[a..a + |ws[k].accounts|] == ws[k].accounts;
    assert AllData(ws)[d..d + |ws[k].data|] == ws[k].data;
    if k > 0 {
      assert ws[..k - 1 + 1] == ws[..k];
      EndsGrow(ws, k, k);
    }
  }

  /** Chunk `k` of either buffer is what the `k`-th writer filled in, provided the totals up
      to it fit; it stays so whatever follows, even if later totals overflow. */
  lemma ChunkIsOwn(ws: seq<Write>, k: nat)
    requires Legal(ws) && k < |ws| && Fits(ws[..k + 1])
    ensures Chunk(Built(ws).accountChunkLast, Built(ws).accountChunk, k) == Some(ws[k].accounts)
    ensures Chunk(Built(ws).dataChunkLast, Built(ws).dataChunk, k) == Some(ws[k].data)
  {
    BuiltTables(ws);
    ChunkOf(ws, Built(ws), k);
  }

  lemma EntriesAscend(ws: seq<Write>, tx: Transaction, i: nat, j: nat)
    requires Tables(ws, tx) && Fits(ws) && i <= j < |ws|
    ensures tx.accountChunkLast[i] <= tx.accountChunkLast[j] <= |tx.accountChunk|
    ensures tx.dataChunkLast[i] <= tx.dataChunkLast[j] <= |tx.dataChunk|
  {
    EndsGrow(ws, i + 1, j + 1);
  }

  lemma TablesAscend(ws: seq<Write>, tx: Transaction)
    requires Tables(ws, tx) && Fits(ws)
    ensures TableOk(tx.accountChunkLast, |tx.accountChunk|) && TableOk(tx.dataChunkLast, |tx.dataChunk|)
  {
    forall i, j | 0 <= i <= j < |ws|
      ensures tx.accountChunkLast[i] <= tx.accountChunkLast[j] <= |tx.accountChunk|
      ensures tx.dataChunkLast[i] <= tx.dataChunkLast[j] <= |tx.dataChunk|
    {
      EntriesAscend(ws, tx, i, j);
    }
  }

  /** Both tables are non-decreasing, stay within their buffers, and end at their length. */
  lemma TablesMonotone(ws: seq<Write>)
    requires Legal(ws) && Fits(ws)
    ensures TableOk(Built(ws).accountChunkLast, |Built(ws).accountChunk|)
    ensures TableOk(Built(ws).dataChunkLast, |Built(ws).dataChunk|)
  {
    BuiltTables(ws);
    TablesAscend(ws, Built(ws));
  }

  /** The last entries name the ends of the buffers exactly when the totals fit 16 bits. */
  lemma TablesEndIff(ws: seq<Write>)
    requires Legal(ws) && ws != []
    ensures var tx := Built(ws);
            && |tx.accountChunkLast| == |tx.dataChunkLast| == |ws|
            && (Fits(ws) <==> tx.accountChunkLast[|ws| - 1] == |tx.accountChunk|
                              && tx.dataChunkLast[|ws| - 1] == |tx.dataChunk|)
  {
    BuiltTables(ws);
    EndsIff(ws, Built(ws));
  }

  lemma EndsIff(ws: seq<Write>, tx: Transaction)
    requires Tables(ws, tx) && ws != []
    ensures Fits(ws) <==> tx.accountChunkLast[|ws| - 1] == |tx.accountChunk|
                          && tx.dataChunkLast[|ws| - 1] == |tx.dataChunk|
  {
    assert ws[..|ws| - 1 + 1] == ws;
  }

  // ---- inner counts ---------------------------------------------------------------------

  ghost function Sum(bs: seq<Byte>): nat {
    if bs == [] then 0 else Sum(bs[..|bs| - 1]) + bs[|bs| - 1]
  }

  /** Each count is the number of inner writers, modulo the size of a byte. */
  ghost predicate CountsAre(ws: seq<Write>, tx: Transaction) {
    && |tx.l1Inner| == TopLevels(ws)
    && forall o :: 0 <= o < |tx.l1Inner| ==> tx.l1Inner[o] == InnersOf(ws, o) % 256
  }

  lemma InnerCountStep(init: seq<Write>, w: Write, before: Transaction, tx: Transaction)
    requires Grown(before, tx, w) && CountsAre(init, before)
    requires InnersOf(init, TopLevels(init)) == 0
    ensures CountsAre(init + [w], tx)
  {
    assert (init + [w])[..|init|] == init;
    forall o: nat | o < |tx.l1Inner|
      ensures tx.l1Inner[o] == InnersOf(init + [w], o) % 256
    {
      InnersOfStep(init, w, o);
    }
  }

  lemma InnersOfStep(init: seq<Write>, w: Write, o: nat)
    ensures InnersOf(init + [w], o) == InnersOf(init, o) + if w.kind == Nested(o) then 1 else 0
  {
    assert (init + [w])[..|init|] == init;
  }

  lemma InnerCountNext(ws: seq<Write>, before: Transaction, tx: Transaction)
    requires ws != [] && Grown(before, tx, ws[|ws| - 1]) && CountsAre(ws[..|ws| - 1], before)
    requires InnersOf(ws[..|ws| - 1], TopLevels(ws[..|ws| - 1])) == 0
    ensures CountsAre(ws, tx)
  {
    InnerCountStep(ws[..|ws| - 1], ws[|ws| - 1], before, tx);
    assert ws[..|ws| - 1] + [ws[|ws| - 1]] == ws;
  }

  /** Every outer instruction's count is the number of inner writers for it, cut to a byte. */
  lemma {:induction false} InnerCounts(ws: seq<Write>)
    requires Legal(ws)
    ensures CountsAre(ws, Built(ws))
  {
    if ws != [] {
      var init := ws[..|ws| - 1];
      InnerCounts(init);
      BuiltStep(ws);
      NoInnersYet(init, TopLevels(init));
      InnerCountNext(ws, Built(init), Built(ws));
    }
  }

  lemma {:induction false} NoInnersYet(ws: seq<Write>, o: nat)
    requires Legal(ws) && o >= TopLevels(ws)
    ensures InnersOf(ws, o) == 0
  {
    if ws != [] {
      NoInnersYet(ws[..|ws| - 1], o);
    }
  }

  /** The inner writers of the first `n` outer instructions, counted without wrapping. */
  ghost function InnersUpTo(ws: seq<Write>, n: nat): nat {
    if n == 0 then 0 else InnersUpTo(ws, n - 1) + InnersOf(ws, n - 1)
  }

  lemma {:induction false} InnersAdd(ws: seq<Write>, n: nat)
    requires ws != []
    ensures InnersUpTo(ws, n) == InnersUpTo(ws[..|ws| - 1], n)
                                 + match ws[|ws| - 1].kind
                                   case TopLevel => 0
                                   case Nested(o) => if o < n then 1 else 0
  {
    if n > 0 {
      InnersAdd(ws, n - 1);
    }
  }

  lemma {:induction false} InnersComplete(ws: seq<Write>, n: nat)
    requires Legal(ws) && n >= TopLevels(ws)
    ensures InnersUpTo(ws, n) == |ws| - TopLevels(ws)
  {
    if ws == [] {
      InnersNone(n);
    } else {
      InnersAdd(ws, n);
      InnersComplete(ws[..|ws| - 1], n);
    }
  }

  lemma {:induction false} InnersNone(n: nat)
    ensures InnersUpTo([], n) == 0
  {
    if n > 0 {
      InnersNone(n - 1);
    }
  }

  lemma {:induction false} SumOfCounts(bs: seq<Byte>, ws: seq<Write>)
    requires forall o :: 0 <= o < |bs| ==> bs[o] == InnersOf(ws, o) % 256
    ensures Sum(bs) <= InnersUpTo(ws, |bs|)
    ensures Sum(bs) == InnersUpTo(ws, |bs|) <==> forall o :: 0 <= o < |bs| ==> InnersOf(ws, o) < 256
  {
    if bs != [] {
      var n, init := |bs| - 1, bs[..|bs| - 1];
      SumOfCounts(init, ws);
      assert Sum(bs) == Sum(init) + InnersOf(ws, n) % 256;
      assert InnersUpTo(ws, |bs|) == InnersUpTo(ws, n) + InnersOf(ws, n);
      if InnersOf(ws, n) < 256 && forall o :: 0 <= o < n ==> InnersOf(ws, o) < 256 {
        assert Sum(bs) == InnersUpTo(ws, |bs|);
      } else {
        assert Sum(bs) < InnersUpTo(ws, |bs|);
      }
    }
  }

  /** The per-outer counts add up to the number of inner instructions exactly when no outer
      instruction has more than 255. */
  lemma CountsSumIff(ws: seq<Write>)
    requires Legal(ws)
    ensures Sum(Built(ws).l1Inner) == |Built(ws).inner| <==> forall o :: 0 <= o < TopLevels(ws) ==> InnersOf(ws, o) < 256
  {
    var tx := Built(ws);
    InnerCounts(ws);
    SumOfCounts(tx.l1Inner, ws);
    InnersComplete(ws, TopLevels(ws));
    BuiltCounts(ws);
  }

  // ---- the account list -----------------------------------------------------------------

  /** The accounts that closing writers ever look at: the first writer's, as far as the
      first table entry reaches. */
  ghost function Seen(ws: seq<Write>): seq<U64> {
    if ws == [] then [] else ws[0].accounts[..|ws[0].accounts| % SIZE16]
  }

  /** The same for the instruction data. */
  ghost function SeenData(ws: seq<Write>): seq<Byte> {
    if ws == [] then [] else ws[0].data[..|ws[0].data| % SIZE16]
  }

  lemma FirstChunk(ws: seq<Write>, tx: Transaction)
    requires Tables(ws, tx) && ws != []
    ensures tx.accountChunkLast[0] <= |tx.accountChunk|
    ensures tx.accountChunk[..tx.accountChunkLast[0]] == Seen(ws)
  {
    var first := ws[..0 + 1];
    AccountsPrefix(ws, 1);
    assert first[..0] == [];
    assert AllAccounts(first) == ws[0].accounts;
  }

  lemma FirstDataChunk(ws: seq<Write>, tx: Transaction)
    requires Tables(ws, tx) && ws != []
    ensures tx.dataChunkLast[0] <= |tx.dataChunk|
    ensures tx.dataChunk[..tx.dataChunkLast[0]] == SeenData(ws)
  {
    var first := ws[..0 + 1];
    DataPrefix(ws, 1);
    assert first[..0] == [];
    assert AllData(first) == ws[0].data;
  }

  /** After every completed writer the list is strictly ascending and has the accounts of
      the first writer's chunk, no more and no fewer. */
  lemma {:induction false} AccountList(ws: seq<Write>)
    requires Legal(ws)
    ensures StrictlyAscending(Built(ws).account)
    ensures Members(Built(ws).account) == Members(Seen(ws))
  {
    if ws != [] {
      var init := ws[..|ws| - 1];
      AccountList(init);
      BuiltStep(ws);
      BuiltTables(ws);
      FirstChunk(ws, Built(ws));
      InsertAllCorrect(Built(init).account, Seen(ws));
      assert init != [] ==> Seen(init) == Seen(ws);
    }
  }

  /** One writer adds exactly the accounts of the chunk range that closing it resolves. */
  lemma ClosingAdds(tx: Transaction, ix: IxIndex)
    requires StrictlyAscending(tx.account)
    ensures StrictlyAscending(Close(tx, ix).account)
    ensures Members(Close(tx, ix).account)
            == Members(tx.account) + match OwnedAccounts(tx, ix)
                                     case None => {}
                                     case Some(accounts) => Members(accounts)
  {
    match OwnedAccounts(tx, ix)
    case None =>
    case Some(accounts) => InsertAllCorrect(tx.account, accounts);
  }

  /** The list is meant to hold every account the transaction touches.  It does exactly when
      every account written is among those of the first chunk. */
  lemma AccountListCompleteIff(ws: seq<Write>)
    requires Legal(ws)
    ensures Members(Built(ws).account) == Members(Built(ws).accountChunk)
            <==> forall k, x :: 0 <= k < |ws| && x in ws[k].accounts ==> x in Seen(ws)
  {
    AccountList(ws);
    BuiltTables(ws);
    CompleteIff(ws, Built(ws));
  }

  lemma CompleteIff(ws: seq<Write>, tx: Transaction)
    requires Tables(ws, tx) && Members(tx.account) == Members(Seen(ws))
    ensures Members(tx.account) == Members(tx.accountChunk)
            <==> forall k, x :: 0 <= k < |ws| && x in ws[k].accounts ==> x in Seen(ws)
  {
    forall x: U64
      ensures x in AllAccounts(ws) <==> exists k :: 0 <= k < |ws| && x in ws[k].accounts
    {
      AllAccountsFrom(ws, x);
    }
    assert forall x :: x in Seen(ws) ==> x in ws[0].accounts;
    if forall k, x :: 0 <= k < |ws| && x in ws[k].accounts ==> x in Seen(ws) {
      assert Members(tx.account) == Members(tx.accountChunk);
    } else {
      var k, x :| 0 <= k < |ws| && x in ws[k].accounts && x !in Seen(ws);
      assert x in Members(tx.accountChunk) && x !in Members(tx.account);
    }
  }

  lemma {:induction false} AllAccountsFrom(ws: seq<Write>, x: U64)
    ensures x in AllAccounts(ws) <==> exists k :: 0 <= k < |ws| && x in ws[k].accounts
  {
    if ws != [] {
      var init, n := ws[..|ws| - 1], |ws| - 1;
      AllAccountsFrom(init, x);
      assert forall k :: 0 <= k < n ==> ws[k] == init[k];
      if x in AllAccounts(init) {
        var k :| 0 <= k < n && x in init[k].accounts;
        assert x in ws[k].accounts;
      }
    }
  }

  // ---- reading back ---------------------------------------------------------------------

  lemma {:induction false} IndexBound(ws: seq<Write>, k: nat)
    requires k < |ws|
    ensures TopLevels(ws[..k]) <= k
    ensures ws[k].kind.TopLevel? ==> TopLevels(ws[..k]) < TopLevels(ws)
    ensures ws[k].kind.Nested? ==> k - TopLevels(ws[..k]) < |ws| - TopLevels(ws)
  {
    var init := ws[..|ws| - 1];
    TopLevelsBound(ws[..k]);
    if k < |ws| - 1 {
      IndexBound(init, k);
      assert init[..k] == ws[..k];
    }
  }

  /** Every writer's program is stored in its own instruction, with both chunk indices zero. */
  ghost predicate AllStored(ws: seq<Write>, tx: Transaction) {
    && |tx.outer| == TopLevels(ws) && |tx.inner| == |ws| - TopLevels(ws)
    && forall k :: 0 <= k < |ws| ==> OwnedIx(tx, IndexOf(ws, k)) == Some(Stored(ws[k]))
  }

  lemma StaysStored(before: Transaction, tx: Transaction, w: Write, ix: IxIndex)
    requires Grown(before, tx, w) && OwnedIx(before, ix).Some?
    ensures OwnedIx(tx, ix) == OwnedIx(before, ix)
  {
  }

  lemma LastStored(before: Transaction, tx: Transaction, w: Write)
    requires Grown(before, tx, w)
    ensures OwnedIx(tx, NextIndex(before, w.kind)) == Some(Stored(w))
  {
  }

  lemma IndexKept(init: seq<Write>, w: Write, k: nat)
    requires k < |init|
    ensures IndexOf(init + [w], k) == IndexOf(init, k)
  {
    assert (init + [w])[..k] == init[..k];
  }

  lemma IndexLast(init: seq<Write>, w: Write, before: Transaction)
    requires |before.outer| == TopLevels(init) && |before.inner| == |init| - TopLevels(init)
    ensures IndexOf(init + [w], |init|) == NextIndex(before, w.kind)
  {
    assert (init + [w])[..|init|] == init;
  }

  lemma StoredStep(init: seq<Write>, w: Write, before: Transaction, tx: Transaction)
    requires Grown(before, tx, w) && AllStored(init, before)
    ensures AllStored(init + [w], tx)
  {
    var ws := init + [w];
    assert ws[..|init|] == init;
    forall k: nat | k < |ws|
      ensures OwnedIx(tx, IndexOf(ws, k)) == Some(Stored(ws[k]))
    {
      if k < |init| {
        IndexKept(init, w, k);
        StaysStored(before, tx, w, IndexOf(init, k));
      } else {
        IndexLast(init, w, before);
        LastStored(before, tx, w);
      }
    }
  }

  lemma StoredNext(ws: seq<Write>, before: Transaction, tx: Transaction)
    requires ws != [] && Grown(before, tx, ws[|ws| - 1]) && AllStored(ws[..|ws| - 1], before)
    ensures AllStored(ws, tx)
  {
    StoredStep(ws[..|ws| - 1], ws[|ws| - 1], before, tx);
    assert ws[..|ws| - 1] + [ws[|ws| - 1]] == ws;
  }

  lemma {:induction false} BuiltStored(ws: seq<Write>)
    requires Legal(ws)
    ensures AllStored(ws, Built(ws))
  {
    if ws != [] {
      var init := ws[..|ws| - 1];
      BuiltStored(init);
      BuiltStep(ws);
      StoredNext(ws, Built(init), Built(ws));
    }
  }

  /** Every instruction's accessors return the first writer's chunks, cut at the first table
      entries, because the stored chunk index is never set.  So they return its own exactly
      when those are the same. */
  lemma ReadsOwnChunkIff(ws: seq<Write>, k: nat)
    requires Legal(ws) && k < |ws|
    ensures OwnedAccounts(Built(ws), IndexOf(ws, k)) == Some(Seen(ws))
    ensures OwnedData(Built(ws), IndexOf(ws, k)) == Some(SeenData(ws))
    ensures OwnedAccounts(Built(ws), IndexOf(ws, k)) == Some(ws[k].accounts)
            <==> ws[k].accounts == ws[0].accounts[..|ws[0].accounts| % SIZE16]
    ensures OwnedData(Built(ws), IndexOf(ws, k)) == Some(ws[k].data)
            <==> ws[k].data == ws[0].data[..|ws[0].data| % SIZE16]
  {
    BuiltStored(ws);
    BuiltTables(ws);
    StoredReads(ws, Built(ws), k);
  }

  lemma StoredReads(ws: seq<Write>, tx: Transaction, k: nat)
    requires AllStored(ws, tx) && Tables(ws, tx) && k < |ws|
    ensures OwnedAccounts(tx, IndexOf(ws, k)) == Some(Seen(ws))
    ensures OwnedData(tx, IndexOf(ws, k)) == Some(SeenData(ws))
  {
    FirstChunk(ws, tx);
    FirstDataChunk(ws, tx);
    assert OwnedIx(tx, IndexOf(ws, k)) == Some(Stored(ws[k]));
  }

  lemma StoredAt(ws: seq<Write>, tx: Transaction, k: nat)
    requires AllStored(ws, tx) && k < |ws|
    ensures var tops := TopLevels(ws[..k]);
            && tops <= k && |tx.outer| == TopLevels(ws) && |tx.inner| == |ws| - TopLevels(ws)
            && (ws[k].kind.TopLevel? ==> tops < |tx.outer|)
            && (ws[k].kind.Nested? ==> k - tops < |tx.inner|)
            && var x := if ws[k].kind.TopLevel? then tx.outer[tops] else tx.inner[k - tops];
            && x.program == (if ws[k].program.Some? then ws[k].program.value else 0)
            && x.dataChunk == 0 && x.accountChunk == 0
  {
    IndexBound(ws, k);
    assert OwnedIx(tx, IndexOf(ws, k)) == Some(Stored(ws[k]));
  }

  /** The instruction of the `k`-th writer is the next outer one, counting the outer writers
      before it, or the next inner one; it has the program set, or none, and zero indices. */
  lemma ProgramStored(ws: seq<Write>, k: nat)
    requires Legal(ws) && k < |ws|
    ensures var tx, tops := Built(ws), TopLevels(ws[..k]);
            && tops <= k && |tx.outer| == TopLevels(ws) && |tx.inner| == |ws| - TopLevels(ws)
            && (ws[k].kind.TopLevel? ==> tops < |tx.outer|)
            && (ws[k].kind.Nested? ==> k - tops < |tx.inner|)
            && var x := if ws[k].kind.TopLevel? then tx.outer[tops] else tx.inner[k - tops];
            && x.program == (if ws[k].program.Some? then ws[k].program.value else 0)
            && x.dataChunk == 0 && x.accountChunk == 0
  {
    BuiltStored(ws);
    StoredAt(ws, Built(ws), k);
  }

  // ---- runs that fail -------------------------------------------------------------------

  lemma OneWriter(v: Write)
    ensures v.kind.TopLevel? ==> Legal([v])
    ensures AllAccounts([v]) == v.accounts && AllData([v]) == v.data
  {
    assert [v][..|[v]| - 1] == [];
    assert AllAccounts([]) == [] && AllData([]) == [];
  }

  lemma TwoWriters(v: Write, w: Write)
    requires v.kind.TopLevel? && w.kind.TopLevel?
    ensures Legal([v, w])
    ensures AllAccounts([v, w]) == v.accounts + w.accounts && AllData([v, w]) == v.data + w.data
  {
    OneWriter(v);
    assert [v, w][..|[v, w]| - 1] == [v];
  }

  /** A second instruction with an account of its own: the list misses it, and its accessor
      returns the first instruction's account instead. */
  lemma AccountListCanMiss() returns (ws: seq<Write>)
    ensures Legal(ws) && Fits(ws) && |ws| == 2 && ws[1].accounts == [9]
    ensures 9 in Built(ws).accountChunk && 9 !in Built(ws).account
    ensures OwnedAccounts(Built(ws), IndexOf(ws, 1)) == Some([7])
  {
    ws := [Write(TopLevel, None, [7], []), Write(TopLevel, None, [9], [])];
    TwoWriters(ws[0], ws[1]);
    BuiltTables(ws);
    AccountList(ws);
    assert 9 !in Members(Seen(ws));
    ReadsOwnChunkIff(ws, 1);
  }

  lemma NoMembers(xs: seq<U64>)
    ensures Members(xs) == {} <==> xs == []
  {
    if xs != [] {
      assert xs[0] in Members(xs);
    }
  }

  /** One writer with 65536 accounts: its table entry is zero, and nothing it wrote is
      listed or read back. */
  lemma TablesCanWrap(accounts: seq<U64>)
    requires |accounts| == SIZE16
    ensures var ws := [Write(TopLevel, None, accounts, [])];
            && Legal(ws)
            && Built(ws).accountChunk == accounts && Built(ws).accountChunkLast == [0]
            && Built(ws).account == []
            && OwnedAccounts(Built(ws), IndexOf(ws, 0)) == Some([])
  {
    var ws := [Write(TopLevel, None, accounts, [])];
    assert ws[..0] == [] && ws[..0 + 1] == ws;
    BuiltTables(ws);
    AccountList(ws);
    assert Members(Seen(ws)) == {};
    NoMembers(Built(ws).account);
    ReadsOwnChunkIff(ws, 0);
  }

  lemma {:induction false} NestedRun(n: nat) returns (ws: seq<Write>)
    ensures Legal(ws) && |ws| == 1 + n && TopLevels(ws) == 1 && InnersOf(ws, 0) == n
  {
    if n == 0 {
      ws := [Write(TopLevel, None, [], [])];
      assert ws[..0] == [];
    } else {
      var init := NestedRun(n - 1);
      ws := init + [Write(Nested(0), None, [], [])];
      assert ws[..|ws| - 1] == init;
    }
  }

  /** 256 inner instructions of one outer instruction are counted as none. */
  lemma CountsCanWrap() returns (ws: seq<Write>)
    ensures Legal(ws) && |Built(ws).inner| == 256 && Built(ws).l1Inner == [0]
  {
    ws := NestedRun(256);
    InnerCounts(ws);
    BuiltCounts(ws);
  }

  // ---- onto the wire --------------------------------------------------------------------

  /** Lengths that the 32-bit header fields can express. */
  ghost predicate HeaderFits(ws: seq<Write>) {
    |ws| < SIZE32 && |AllAccounts(ws)| < SIZE32 && |AllData(ws)| < SIZE32
  }

  /** Whatever was built within the limits of the header can be serialised; the parsed view
      reads every instruction as before, and shows every chunk that fits its table. */
  lemma BuiltSurvivesTheWire(ws: seq<Write>, pad: nat -> Quad, more: seq<Byte>, base: nat, k: nat)
    requires Legal(ws) && HeaderFits(ws) && k < |ws| && base % 8 == 0
    ensures var data := Encode(Built(ws), pad) + more;
            && Parse(data, base).Ok?
            && InBounds(data, Parse(data, base).value)
            && Agree(data, Parse(data, base).value, Built(ws), IndexOf(ws, k))
            && var tx := Contents(data, Parse(data, base).value);
            Fits(ws[..k + 1]) ==>
              && Chunk(tx.accountChunkLast, tx.accountChunk, k) == Some(ws[k].accounts)
              && Chunk(tx.dataChunkLast, tx.dataChunk, k) == Some(ws[k].data)
  {
    BuiltWellFormed(ws);
    if Fits(ws[..k + 1]) {
      ChunkIsOwn(ws, k);
    }
    ReadersSurviveTheWire(Built(ws), pad, more, base, IndexOf(ws, k));
  }

  lemma BuiltWellFormed(ws: seq<Write>)
    requires Legal(ws) && HeaderFits(ws)
    ensures WellFormed(Built(ws))
  {
    BuiltShaped(ws);
    BuiltCounts(ws);
    BuiltTables(ws);
    TopLevelsBound(ws);
    AccountList(ws);
    SeenShort(ws);
    AscendingIsShort(Built(ws).account, Seen(ws));
  }

  lemma SeenShort(ws: seq<Write>)
    ensures |Seen(ws)| < SIZE16
  {
  }

  lemma AscendingIsShort(xs: seq<U64>, ys: seq<U64>)
    requires StrictlyAscending(xs) && Members(xs) == Members(ys)
    ensures |xs| <= |ys|
  {
    AscendingCount(xs);
    MembersCount(ys);
  }

  lemma {:induction false} AscendingCount(xs: seq<U64>)
    requires StrictlyAscending(xs)
    ensures |Members(xs)| == |xs|
  {
    if xs != [] {
      var init, last := xs[..|xs| - 1], xs[|xs| - 1];
      AscendingCount(init);
      assert xs == init + [last];
      assert Members(xs) == Members(init) + {last} && last !in Members(init);
    }
  }

  lemma {:induction false} MembersCount(xs: seq<U64>)
    ensures |Members(xs)| <= |xs|
  {
    if xs != [] {
      var init, last := xs[..|xs| - 1], xs[|xs| - 1];
      MembersCount(init);
      assert xs == init + [last];
      assert Members(xs) == Members(init) + {last};
    }
  }
}
