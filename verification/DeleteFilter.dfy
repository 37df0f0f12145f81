/** The delete-notification filter of src/read.rs: per account, at most one deletion in a row. */
module DeleteFilter {
  import opened Bytes

  datatype AccountHeader = AccountHeader(accountId: U64, lamports: U64) {
    predicate Live() { lamports > 0 }
  }

  datatype Status = NotSent | Sent | DeleteSent

  function StatusOf(m: map<U64, Status>, id: U64): Status { if id in m then m[id] else NotSent }

  class AccountDeleteNotifier {
    var statuses: map<U64, Status>

    constructor ()
      ensures statuses == map[]
    {
      statuses := map[];
    }

    method CheckSend(header: AccountHeader) returns (ok: bool)
      modifies this
      ensures ok == Accepts(old(statuses), header)
      ensures statuses == Next(old(statuses), header)
    {
      if header.accountId !in statuses {
        statuses := statuses[header.accountId := NotSent];
      }
      var entry := statuses[header.accountId];
      if 0 < header.lamports {
        statuses := statuses[header.accountId := Sent];
        return true;
      }
      match entry
      case NotSent =>
        statuses := statuses[header.accountId := DeleteSent];
        ok := true;
      case Sent =>
        statuses := statuses[header.accountId := DeleteSent];
        ok := true;
      case DeleteSent =>
        ok := false;
    }

    /** A whole trace through one notifier: what it lets through is `Filter` of the trace. */
    method Run(trace: seq<AccountHeader>) returns (sent: seq<AccountHeader>)
      requires statuses == map[]
      modifies this
      ensures statuses == After(trace) && sent == Filter(trace)
    {
      sent := [];
      for i := 0 to |trace|
        invariant statuses == After(trace[..i]) && sent == Filter(trace[..i])
      {
        assert trace[..i + 1][..i] == trace[..i];
        var ok := CheckSend(trace[i]);
        if ok {
          sent := sent + [trace[i]];
        }
      }
      assert trace[..|trace|] == trace;
    }
  }

  function Accepts(m: map<U64, Status>, h: AccountHeader): bool {
    h.Live() || StatusOf(m, h.accountId) != DeleteSent
  }

  function Next(m: map<U64, Status>, h: AccountHeader): map<U64, Status> {
    m[h.accountId := if h.Live() then Sent else DeleteSent]
  }

  /** The notifier's map after a trace, from a fresh notifier. */
  function After(trace: seq<AccountHeader>): map<U64, Status> {
    if trace == [] then map[] else Next(After(trace[..|trace| - 1]), trace[|trace| - 1])
  }

  /** The headers the notifier accepts. */
  function Filter(trace: seq<AccountHeader>): seq<AccountHeader> {
    if trace == [] then []
    else
      var init, h := trace[..|trace| - 1], trace[|trace| - 1];
      Filter(init) + if Accepts(After(init), h) then [h] else []
  }

  /** The trace of one account. */
  function Of(trace: seq<AccountHeader>, id: U64): seq<AccountHeader> {
    if trace == [] then []
    else
      var init, h := trace[..|trace| - 1], trace[|trace| - 1];
      Of(init, id) + if h.accountId == id then [h] else []
  }

  /** The reference: drop a dead header that directly follows a dead one. */
  function Squeeze(hs: seq<AccountHeader>): seq<AccountHeader> {
    if hs == [] then []
    else
      var init, h := hs[..|hs| - 1], hs[|hs| - 1];
      Squeeze(init) + if !h.Live() && init != [] && !init[|init| - 1].Live() then [] else [h]
  }

  /** The state of an account is determined by its own last header. */
  lemma {:induction false} StatusIsLast(trace: seq<AccountHeader>, id: U64)
    ensures StatusOf(After(trace), id)
            == if Of(trace, id) == [] then NotSent
               else if Of(trace, id)[|Of(trace, id)| - 1].Live() then Sent else DeleteSent
  {
    if trace != [] {
      StatusIsLast(trace[..|trace| - 1], id);
    }
  }

  /** A header is suppressed exactly when it is dead and the previous header of the same
      account was dead too. */
  lemma SuppressedIff(trace: seq<AccountHeader>, h: AccountHeader)
    ensures !Accepts(After(trace), h)
            <==> h.lamports == 0 && Of(trace, h.accountId) != []
                 && Of(trace, h.accountId)[|Of(trace, h.accountId)| - 1].lamports == 0
  {
    StatusIsLast(trace, h.accountId);
  }

  lemma OfAppend(trace: seq<AccountHeader>, h: AccountHeader, id: U64)
    ensures Of(trace + [h], id) == Of(trace, id) + if h.accountId == id then [h] else []
  {
    assert (trace + [h])[..|trace|] == trace;
  }

  /** Accounts do not affect each other: what passes of one account, in any interleaving,
      is its own trace with repeated deletions squeezed out. */
  lemma {:induction false} AccountsIndependent(trace: seq<AccountHeader>, id: U64)
    ensures Of(Filter(trace), id) == Squeeze(Of(trace, id))
  {
    if trace != [] {
      var init, h := trace[..|trace| - 1], trace[|trace| - 1];
      AccountsIndependent(init, id);
      var mine := Of(init, id);
      if h.accountId != id {
        assert Of(trace, id) == mine;
        OfAppend(Filter(init), h, id);
        assert Filter(trace) == Filter(init) || Filter(trace) == Filter(init) + [h];
      } else {
        SuppressedIff(init, h);
        OfAppend(Filter(init), h, id);
        assert Of(trace, id) == mine + [h] && (mine + [h])[..|mine|] == mine;
        if Accepts(After(init), h) {
          assert Filter(trace) == Filter(init) + [h];
          assert Squeeze(mine + [h]) == Squeeze(mine) + [h];
        } else {
          assert Filter(trace) == Filter(init);
          assert Squeeze(mine + [h]) == Squeeze(mine);
        }
      }
    }
  }

  /** What passes for an account ends with the liveness that was received last. */
  lemma {:induction false} LastLiveness(hs: seq<AccountHeader>)
    requires hs != []
    ensures Squeeze(hs) != []
    ensures Squeeze(hs)[|Squeeze(hs)| - 1].Live() == hs[|hs| - 1].Live()
  {
    if |hs| > 1 {
      LastLiveness(hs[..|hs| - 1]);
    }
  }

  lemma LastAcceptedIsCurrent(trace: seq<AccountHeader>, id: U64)
    requires Of(trace, id) != []
    ensures Of(Filter(trace), id) != []
    ensures Of(Filter(trace), id)[|Of(Filter(trace), id)| - 1].lamports == 0
            <==> Of(trace, id)[|Of(trace, id)| - 1].lamports == 0
  {
    AccountsIndependent(trace, id);
    LastLiveness(Of(trace, id));
  }

  /** Filtering what was filtered changes nothing. */
  lemma {:induction false} Idempotent(trace: seq<AccountHeader>)
    ensures Filter(Filter(trace)) == Filter(trace)
  {
    if trace != [] {
      var init, h := trace[..|trace| - 1], trace[|trace| - 1];
      Idempotent(init);
      if Accepts(After(init), h) {
        var kept := Filter(init);
        SuppressedIff(init, h);
        SuppressedIff(kept, h);
        if Of(kept, h.accountId) != [] {
          SameLast(init, h.accountId);
        }
        assert Accepts(After(kept), h);
        assert Filter(trace) == kept + [h] && (kept + [h])[..|kept|] == kept;
      } else {
        assert Filter(trace) == Filter(init);
      }
    }
  }

  lemma {:induction false} SameLast(trace: seq<AccountHeader>, id: U64)
    requires Of(Filter(trace), id) != []
    ensures Of(trace, id) != []
    ensures Of(Filter(trace), id)[|Of(Filter(trace), id)| - 1].Live() == Of(trace, id)[|Of(trace, id)| - 1].Live()
  {
    AccountsIndependent(trace, id);
    if Of(trace, id) != [] {
      LastAcceptedIsCurrent(trace, id);
    }
  }

  lemma {:induction false} SqueezeNoRepeat(hs: seq<AccountHeader>, i: nat)
    requires 0 < i < |Squeeze(hs)|
    ensures Squeeze(hs)[i].Live() || Squeeze(hs)[i - 1].Live()
  {
    var init, h := hs[..|hs| - 1], hs[|hs| - 1];
    if i < |Squeeze(init)| {
      SqueezeNoRepeat(init, i);
    } else {
      LastLiveness(init);
    }
  }

  /** Of one account, no deletion that is passed on directly follows another. */
  lemma NoRepeatedDeletion(trace: seq<AccountHeader>, id: U64, i: nat)
    requires 0 < i < |Of(Filter(trace), id)|
    ensures Of(Filter(trace), id)[i].lamports > 0 || Of(Filter(trace), id)[i - 1].lamports > 0
  {
    AccountsIndependent(trace, id);
    SqueezeNoRepeat(Of(trace, id), i);
  }
}
