/**
 The transaction and its instruction writer as the mutable objects they are: each method
 updates the fields in place and is tied to the function of the same step.
 */
module BuilderObjects {
  import opened Options
  import opened Bytes
  import opened Wire
  import opened WireReaders
  import opened Builder
  import opened BuilderRuns

  /** What every transaction built through writers satisfies. */
  ghost predicate Sane(tx: Transaction) {
    && Shaped(tx)
    && (|tx.accountChunkLast| > 0 ==> tx.accountChunkLast[0] <= |tx.accountChunk|)
    && StrictlyAscending(tx.account)
  }

  class CatscopeTransaction {
    var signature: Signature
    var index: U64
    var dataChunkLast: seq<U16>
    var dataChunk: seq<Byte>
    var accountChunkLast: seq<U16>
    var accountChunk: seq<U64>
    var outer: seq<Instruction>
    var l1Inner: seq<Byte>
    var inner: seq<Instruction>
    var account: seq<U64>

    function Value(): Transaction
      reads this
    {
      Transaction(signature, index, dataChunkLast, dataChunk, accountChunkLast, accountChunk,
                  outer, l1Inner, inner, account)
    }

    constructor ()
      ensures Value() == Empty() && Sane(Value())
    {
      signature, index := seq(64, _ => 0), 0;
      dataChunkLast, dataChunk, accountChunkLast, accountChunk := [], [], [], [];
      outer, l1Inner, inner, account := [], [], [], [];
    }

    method AppendOuter() returns (w: InstructionWrite)
      requires Sane(Value())
      modifies this
      ensures w.Valid() && Value() == Append(old(Value()), TopLevel)
      ensures fresh(w) && w.Opened(this, NextIndex(old(Value()), TopLevel), old(Value()))
    {
      var i := Outer(|outer|);
      outer := outer + [BLANK];
      l1Inner := l1Inner + [0];
      var accountChunkI := |accountChunkLast|;
      accountChunkLast := accountChunkLast + [0];
      var dataChunkI := |dataChunkLast|;
      dataChunkLast := dataChunkLast + [0];
      w := new InstructionWrite(this, i, accountChunkI, dataChunkI);
    }

    /** Panics, here `None`, when there is no such outer instruction. */
    method AppendInner(outerIdx: nat) returns (w: Option<InstructionWrite>)
      requires Sane(Value())
      modifies this
      ensures w.Some? <==> outerIdx < old(|outer|)
      ensures w.None? ==> Value() == old(Value())
      ensures w.Some? ==>
                && CanAppend(old(Value()), Nested(outerIdx))
                && Value() == Append(old(Value()), Nested(outerIdx))
                && w.value.Valid() && fresh(w.value) && w.value.Opened(this, NextIndex(old(Value()), Nested(outerIdx)), old(Value()))
    {
      if outerIdx >= |l1Inner| {
        return None;
      }
      l1Inner := l1Inner[outerIdx := (l1Inner[outerIdx] as int + 1) % 256];
      var i := Inner(|inner|);
      inner := inner + [BLANK];
      var accountChunkI := |accountChunkLast|;
      accountChunkLast := accountChunkLast + [0];
      var dataChunkI := |dataChunkLast|;
      dataChunkLast := dataChunkLast + [0];
      var writer := new InstructionWrite(this, i, accountChunkI, dataChunkI);
      w := Some(writer);
    }

    /** Each account of a chunk in turn. */
    method InsertAccounts(accounts: seq<U64>)
      requires StrictlyAscending(account)
      modifies this`account
      ensures account == InsertAll(old(account), accounts)
    {
      ghost var list := account;
      for j := 0 to |accounts|
        invariant account == InsertAll(list, accounts[..j])
      {
        InsertAllCorrect(list, accounts[..j]);
        InsertAccount(accounts[j]);
        InsertOneMore(list, accounts, j);
      }
      assert accounts[..|accounts|] == accounts;
    }

    /** Search for the account, and insert it where it belongs unless it is there. */
    method InsertAccount(accountId: U64)
      requires StrictlyAscending(account)
      modifies this`account
      ensures account == Insert(old(account), accountId)
    {
      var found, at := BinarySearch(account, accountId);
      if !found {
        account := account[..at] + [accountId] + account[at..];
      }
    }
  }

  /** The writer borrows the transaction exclusively until it is dropped. */
  class InstructionWrite {
    const tx: CatscopeTransaction
    const i: IxIndex
    const accountChunkI: nat
    const dataChunkI: nat
    var accountSet: bool
    var dataSet: bool

    /** Just handed out for the instruction at `at`, on a transaction that was `before`. */
    ghost predicate Opened(t: CatscopeTransaction, at: IxIndex, before: Transaction)
      reads this
    {
      && tx == t && i == at && !accountSet && !dataSet
      && accountChunkI == |before.accountChunkLast| && dataChunkI == |before.dataChunkLast|
    }

    ghost predicate Valid()
      reads this, tx
    {
      && Sane(tx.Value())
      && OwnedIx(tx.Value(), i).Some?
      && accountChunkI < |tx.accountChunkLast|
      && dataChunkI < |tx.dataChunkLast|
    }

    constructor (t: CatscopeTransaction, at: IxIndex, accountAt: nat, dataAt: nat)
      ensures tx == t && i == at && accountChunkI == accountAt && dataChunkI == dataAt
      ensures !accountSet && !dataSet
    {
      tx, i, accountChunkI, dataChunkI := t, at, accountAt, dataAt;
      accountSet, dataSet := false, false;
    }

    method Program(programId: U64)
      requires Valid()
      modifies tx
      ensures Valid() && tx.Value() == SetProgram(old(tx.Value()), i, programId)
    {
      match i
      case Outer(k) => tx.outer := tx.outer[k := tx.outer[k].(program := programId)];
      case Inner(k) => tx.inner := tx.inner[k := tx.inner[k].(program := programId)];
    }

    /** Allocates room for `fill` and lets the caller fill it; false is the failed assertion
        of a second call. */
    method Account(fill: seq<U64>) returns (ok: bool)
      requires Valid()
      modifies this, tx
      ensures ok == !old(accountSet) && dataSet == old(dataSet)
      ensures !ok ==> tx.Value() == old(tx.Value()) && accountSet == old(accountSet)
      ensures ok ==> Valid() && accountSet && tx.Value() == SetAccounts(old(tx.Value()), accountChunkI, fill)
    {
      if accountSet {
        return false;
      }
      accountSet := true;
      var start := |tx.accountChunk|;
      var finish := start + |fill|;
      var zeroes: seq<U64> := seq(|fill|, _ => 0);
      tx.accountChunk := tx.accountChunk + zeroes;
      tx.accountChunkLast := tx.accountChunkLast[accountChunkI := finish % SIZE16];
      tx.accountChunk := tx.accountChunk[..start] + fill;
      ok := true;
    }

    method Data(fill: seq<Byte>) returns (ok: bool)
      requires Valid()
      modifies this, tx
      ensures ok == !old(dataSet) && accountSet == old(accountSet)
      ensures !ok ==> tx.Value() == old(tx.Value()) && dataSet == old(dataSet)
      ensures ok ==> Valid() && dataSet && tx.Value() == SetData(old(tx.Value()), dataChunkI, fill)
    {
      if dataSet {
        return false;
      }
      dataSet := true;
      var start := |tx.dataChunk|;
      var finish := start + |fill|;
      var zeroes: seq<Byte> := seq(|fill|, _ => 0);
      tx.dataChunk := tx.dataChunk + zeroes;
      tx.dataChunkLast := tx.dataChunkLast[dataChunkI := finish % SIZE16];
      tx.dataChunk := tx.dataChunk[..start] + fill;
      ok := true;
    }

    /** Closing fails when a chunk was never set; otherwise each account of the range that
        the stored instruction names is searched for, and inserted where it belongs. */
    method Drop() returns (ok: bool)
      requires Valid()
      modifies tx
      ensures Valid() && ok == old(accountSet && dataSet)
      ensures tx.Value() == if ok then Close(old(tx.Value()), i) else old(tx.Value())
    {
      if !accountSet || !dataSet {
        return false;
      }
      var ix := OwnedIx(tx.Value(), i).value;
      var range := ChunkRange(tx.accountChunkLast, ix.accountChunk);
      var (start, finish) := range.value;
      assert (start == 0 && finish == 0) || 0 < finish;
      InsertAllCorrect(tx.account, tx.accountChunk[start..finish]);
      tx.InsertAccounts(tx.accountChunk[start..finish]);
      ok := true;
    }
  }

  /** The library's search of a sorted slice: the place of `x`, or where it would go. */
  method BinarySearch(xs: seq<U64>, x: U64) returns (found: bool, at: nat)
    requires StrictlyAscending(xs)
    ensures found <==> x in xs
    ensures at == Rank(xs, x)
    ensures found ==> at < |xs| && xs[at] == x
  {
    var lo, hi := 0, |xs|;
    while lo < hi
      invariant 0 <= lo <= hi <= |xs|
      invariant forall i :: 0 <= i < lo ==> xs[i] < x
      invariant forall i :: hi <= i < |xs| ==> xs[i] >= x
    {
      var mid := (lo + hi) / 2;
      if xs[mid] < x {
        lo := mid + 1;
      } else {
        hi := mid;
      }
    }
    at, found := lo, lo < |xs| && xs[lo] == x;
    RankUnique(xs, x, at);
  }

  lemma {:induction false} RankUnique(xs: seq<U64>, x: U64, at: nat)
    requires at <= |xs|
    requires forall i :: 0 <= i < at ==> xs[i] < x
    requires forall i :: at <= i < |xs| ==> xs[i] >= x
    ensures at == Rank(xs, x)
  {
    if at > 0 {
      assert xs[0] < x;
      RankUnique(xs[1..], x, at - 1);
    }
  }

  /** A writer dropped as soon as it is handed out fails, leaving a blank instruction. */
  method DropUnused(tx: CatscopeTransaction) returns (ok: bool)
    requires Sane(tx.Value())
    modifies tx
    ensures !ok && tx.Value() == Append(old(tx.Value()), TopLevel)
  {
    var w := tx.AppendOuter();
    ok := w.Drop();
  }

  // ---- any use of a writer --------------------------------------------------------------

  /** What a caller may do with a writer, any number of times in any order. */
  datatype Use = NameProgram(program: U64) | FillAccounts(accounts: seq<U64>) | FillData(data: seq<Byte>)

  /** The calls so far; only the last program counts, and each chunk can be filled once. */
  datatype Filled = Filled(program: Option<U64>, accounts: Option<seq<U64>>, data: Option<seq<Byte>>)

  /** `None` is the failed assertion of a second call. */
  function OneMore(f: Filled, use: Use): Option<Filled> {
    match use
    case NameProgram(program) => Some(f.(program := Some(program)))
    case FillAccounts(accounts) => if f.accounts.Some? then None else Some(f.(accounts := Some(accounts)))
    case FillData(data) => if f.data.Some? then None else Some(f.(data := Some(data)))
  }

  function After(uses: seq<Use>): Option<Filled> {
    if uses == [] then Some(Filled(None, None, None))
    else
      match After(uses[..|uses| - 1])
      case None => None
      case Some(f) => OneMore(f, uses[|uses| - 1])
  }

  /** What was handed to the calls of each kind, in order. */
  ghost function Programs(uses: seq<Use>): seq<U64> {
    if uses == [] then []
    else
      Programs(uses[..|uses| - 1])
      + match uses[|uses| - 1]
        case NameProgram(program) => [program]
        case _ => []
  }

  ghost function AccountFills(uses: seq<Use>): seq<seq<U64>> {
    if uses == [] then []
    else
      AccountFills(uses[..|uses| - 1])
      + match uses[|uses| - 1]
        case FillAccounts(accounts) => [accounts]
        case _ => []
  }

  ghost function DataFills(uses: seq<Use>): seq<seq<Byte>> {
    if uses == [] then []
    else
      DataFills(uses[..|uses| - 1])
      + match uses[|uses| - 1]
        case FillData(data) => [data]
        case _ => []
  }

  ghost function Last<T>(xs: seq<T>): Option<T> { if xs == [] then None else Some(xs[|xs| - 1]) }

  /** Neither chunk may be filled twice; the last program set counts. */
  lemma {:induction false} AfterCounts(uses: seq<Use>)
    ensures After(uses) == if |AccountFills(uses)| <= 1 && |DataFills(uses)| <= 1
                           then Some(Filled(Last(Programs(uses)), Last(AccountFills(uses)), Last(DataFills(uses))))
                           else None
  {
    if uses != [] {
      AfterCounts(uses[..|uses| - 1]);
    }
  }

  lemma {:induction false} FailureStays(uses: seq<Use>, n: nat)
    requires n <= |uses| && After(uses[..n]) == None
    ensures After(uses) == None
  {
    if n < |uses| {
      assert uses[..|uses| - 1][..n] == uses[..n];
      FailureStays(uses[..|uses| - 1], n);
    } else {
      assert uses[..n] == uses;
    }
  }

  /** The transaction with the new instruction at `ix` and table place `k` filled in so far. */
  function Partial(tx: Transaction, ix: IxIndex, k: nat, f: Filled): Transaction
    requires OwnedIx(tx, ix).Some? && k < |tx.accountChunkLast| && k < |tx.dataChunkLast|
  {
    var t1 := if f.program.Some? then SetProgram(tx, ix, f.program.value) else tx;
    var t2 := if f.accounts.Some? then SetAccounts(t1, k, f.accounts.value) else t1;
    if f.data.Some? then SetData(t2, k, f.data.value) else t2
  }

  lemma PartialStep(tx: Transaction, ix: IxIndex, k: nat, f: Filled, program: U64)
    requires OwnedIx(tx, ix).Some? && k < |tx.accountChunkLast| && k < |tx.dataChunkLast|
    ensures OwnedIx(Partial(tx, ix, k, f), ix).Some?
    ensures SetProgram(Partial(tx, ix, k, f), ix, program) == Partial(tx, ix, k, f.(program := Some(program)))
  {
    if f.program.Some? {
      ProgramTwice(tx, ix, f.program.value, program);
    }
  }

  lemma ProgramTwice(tx: Transaction, ix: IxIndex, p: U64, q: U64)
    requires OwnedIx(tx, ix).Some?
    ensures SetProgram(SetProgram(tx, ix, p), ix, q) == SetProgram(tx, ix, q)
  {
    var t, u := SetProgram(SetProgram(tx, ix, p), ix, q), SetProgram(tx, ix, q);
    assert t.outer == u.outer && t.inner == u.inner;
  }

  /** The writer has been used as `f` says, since its instruction was appended. */
  ghost predicate UsedAs(w: InstructionWrite, blank: Transaction, f: Filled)
    reads w, w.tx
  {
    && w.Valid()
    && OwnedIx(blank, w.i).Some?
    && w.accountChunkI == w.dataChunkI == |blank.accountChunkLast| - 1 == |blank.dataChunkLast| - 1
    && w.accountSet == f.accounts.Some? && w.dataSet == f.data.Some?
    && w.tx.Value() == Partial(blank, w.i, w.accountChunkI, f)
  }

  method UseOnce(w: InstructionWrite, use: Use, ghost blank: Transaction, ghost f: Filled) returns (ok: bool)
    requires UsedAs(w, blank, f)
    modifies w, w.tx
    ensures ok == OneMore(f, use).Some?
    ensures ok ==> UsedAs(w, blank, OneMore(f, use).value)
  {
    match use
    case NameProgram(program) =>
      PartialStep(blank, w.i, w.accountChunkI, f, program);
      w.Program(program);
      ok := true;
    case FillAccounts(accounts) => ok := w.Account(accounts);
    case FillData(data) => ok := w.Data(data);
  }

  method UseAll(w: InstructionWrite, uses: seq<Use>, ghost blank: Transaction) returns (ok: bool)
    requires UsedAs(w, blank, Filled(None, None, None))
    modifies w, w.tx
    ensures ok == After(uses).Some?
    ensures ok ==> UsedAs(w, blank, After(uses).value)
  {
    for n := 0 to |uses|
      invariant After(uses[..n]).Some? && UsedAs(w, blank, After(uses[..n]).value)
    {
      assert uses[..n + 1][..n] == uses[..n];
      ok := UseOnce(w, uses[n], blank, After(uses[..n]).value);
      if !ok {
        FailureStays(uses, n + 1);
        return;
      }
    }
    assert uses[..|uses|] == uses;
    ok := true;
  }

  /** Either way of handing out a writer. */
  method Open(tx: CatscopeTransaction, kind: Kind) returns (w: Option<InstructionWrite>)
    requires Sane(tx.Value())
    modifies tx
    ensures w.Some? <==> CanAppend(old(tx.Value()), kind)
    ensures w.None? ==> tx.Value() == old(tx.Value())
    ensures w.Some? ==>
              && CanAppend(old(tx.Value()), kind) && tx.Value() == Append(old(tx.Value()), kind)
              && w.value.Valid() && fresh(w.value)
              && w.value.Opened(tx, NextIndex(old(tx.Value()), kind), old(tx.Value()))
  {
    match kind
    case TopLevel =>
      var outer := tx.AppendOuter();
      w := Some(outer);
    case Nested(o) =>
      w := tx.AppendInner(o);
  }

  /** A writer used in any way from append to drop: it fails exactly when there is no such
      outer instruction or a chunk was not filled exactly once; otherwise it does what
      `Complete` says of the last program set and the chunks filled, whatever the order. */
  method UseWriter(tx: CatscopeTransaction, kind: Kind, uses: seq<Use>) returns (ok: bool)
    requires Sane(tx.Value())
    modifies tx
    ensures ok <==> && CanAppend(old(tx.Value()), kind)
                    && |AccountFills(uses)| == 1 && |DataFills(uses)| == 1
    ensures ok ==> && Sane(tx.Value())
                   && tx.Value() == Complete(old(tx.Value()), Write(kind, Last(Programs(uses)),
                                                                    AccountFills(uses)[0], DataFills(uses)[0]))
    ensures !CanAppend(old(tx.Value()), kind) ==> tx.Value() == old(tx.Value())
  {
    var handed := Open(tx, kind);
    if handed.None? {
      return false;
    }
    var w := handed.value;
    AfterCounts(uses);
    ok := UseAll(w, uses, tx.Value());
    if ok {
      ok := w.Drop();
    }
  }
}
