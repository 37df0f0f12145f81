/** Sums over a sequence, and how they change when one entry is replaced. */
module Sums {

  ghost function Bag<T, K>(s: seq<T>, f: T -> multiset<K>): multiset<K> {
    if s == [] then multiset{} else f(s[0]) + Bag(s[1..], f)
  }

  ghost function Total<T>(s: seq<T>, f: T -> nat): nat {
    if s == [] then 0 else f(s[0]) + Total(s[1..], f)
  }

  /** Replacing an entry by one that weighs `d` more makes the bag weigh `d` more. */
  lemma {:induction false} BagGains<T, K>(s: seq<T>, f: T -> multiset<K>, i: nat, x: T, d: multiset<K>)
    requires i < |s| && f(x) == f(s[i]) + d
    ensures Bag(s[i := x], f) == Bag(s, f) + d
  {
    var u := s[i := x];
    if i == 0 {
      assert u[1..] == s[1..];
    } else {
      assert u[1..] == s[1..][i - 1 := x];
      BagGains(s[1..], f, i - 1, x, d);
    }
  }

  lemma BagLoses<T, K>(s: seq<T>, f: T -> multiset<K>, i: nat, x: T, d: multiset<K>)
    requires i < |s| && f(s[i]) == f(x) + d
    ensures Bag(s, f) == Bag(s[i := x], f) + d
  {
    var u := s[i := x];
    BagGains(u, f, i, s[i], d);
    assert u[i := s[i]] == s;
  }

  lemma {:induction false} BagContains<T, K>(s: seq<T>, f: T -> multiset<K>, i: nat)
    requires i < |s|
    ensures f(s[i]) <= Bag(s, f)
  {
    if i > 0 {
      BagContains(s[1..], f, i - 1);
    }
  }

  /** Anything in the bag comes from some entry. */
  lemma {:induction false} BagSource<T, K>(s: seq<T>, f: T -> multiset<K>, k: K) returns (i: nat)
    requires k in Bag(s, f)
    ensures i < |s| && k in f(s[i])
  {
    if k in f(s[0]) {
      i := 0;
    } else {
      var j := BagSource(s[1..], f, k);
      i := j + 1;
    }
  }

  lemma {:induction false} BagEmpty<T, K>(s: seq<T>, f: T -> multiset<K>)
    requires forall i :: 0 <= i < |s| ==> f(s[i]) == multiset{}
    ensures Bag(s, f) == multiset{}
  {
    if s != [] {
      BagEmpty(s[1..], f);
    }
  }

  lemma {:induction false} TotalUpdate<T>(s: seq<T>, f: T -> nat, i: nat, x: T)
    requires i < |s|
    ensures Total(s[i := x], f) + f(s[i]) == Total(s, f) + f(x)
  {
    if i == 0 {
      assert s[i := x][1..] == s[1..];
    } else {
      assert s[i := x][1..] == s[1..][i - 1 := x];
      TotalUpdate(s[1..], f, i - 1, x);
    }
  }

  lemma {:induction false} TotalNone<T>(s: seq<T>, f: T -> nat)
    requires forall i :: 0 <= i < |s| ==> f(s[i]) == 0
    ensures Total(s, f) == 0
  {
    if s != [] {
      TotalNone(s[1..], f);
    }
  }

  lemma {:induction false} TotalOfOnes<T>(s: seq<T>, f: T -> nat)
    requires forall i :: 0 <= i < |s| ==> f(s[i]) <= 1
    ensures Total(s, f) <= |s|
    ensures (forall i :: 0 <= i < |s| ==> f(s[i]) == 1) ==> Total(s, f) == |s|
  {
    if s != [] {
      TotalOfOnes(s[1..], f);
    }
  }
}
