/** A customer owns an ordered collection of accounts that only grows, by
    appending. Accounts are found by scanning that collection for an account
    number; when two accounts share a number the first one wins. */
module Customers {
  import opened Accounts

  datatype Option<T> = None | Some(value: T)

  /** The account numbers of a collection of accounts, in collection order.
      Account numbers are `const`, so this reads no mutable state. */
  function Numbers(accounts: seq<Account>): seq<int> {
    seq(|accounts|, i requires 0 <= i < |accounts| => accounts[i].accountNo)
  }

  /** The position of the first occurrence of `n` in `s`, if there is one. */
  function FirstIndex(s: seq<int>, n: int): (r: Option<nat>)
    ensures r.None? <==> n !in s
    ensures r.Some? ==> r.value < |s| && s[r.value] == n
    ensures r.Some? ==> forall j :: 0 <= j < r.value ==> s[j] != n
  {
    if s == [] then None
    else if s[0] == n then Some(0)
    else match FirstIndex(s[1..], n)
      case None => None
      case Some(k) => Some(k + 1)
  }

  /** Appending an account extends the list of numbers by its number. */
  lemma NumbersAppend(accounts: seq<Account>, acc: Account)
    ensures Numbers(accounts + [acc]) == Numbers(accounts) + [acc.accountNo]
  {
  }

  /** Appending never shadows an earlier match: after an append, a number
      that was already present is still found at the same position, and a
      number that was absent is found only at the appended position. */
  lemma {:induction false} FirstIndexAppend(s: seq<int>, x: int, n: int)
    ensures FirstIndex(s + [x], n)
         == if n in s then FirstIndex(s, n) else if x == n then Some(|s|) else None
  {
    if s == [] {
      assert s + [x] == [x];
    } else {
      assert (s + [x])[0] == s[0];
      assert (s + [x])[1..] == s[1..] + [x];
      if s[0] != n {
        FirstIndexAppend(s[1..], x, n);
        assert n in s <==> n in s[1..];
      }
    }
  }

  /** A result that meets the three conditions of `FirstIndex` is the result
      of `FirstIndex`: the first match is unique. */
  lemma FirstIndexUnique(s: seq<int>, n: int, k: nat)
    requires k < |s| && s[k] == n
    requires forall j :: 0 <= j < k ==> s[j] != n
    ensures FirstIndex(s, n) == Some(k)
  {
  }

  /** A customer and its accounts. The display-only name is not modelled. */
  class Customer {
    var accounts: seq<Account>

    /** A customer with no accounts yet. */
    constructor ()
      ensures accounts == []
    {
      accounts := [];
    }

    /** Appends an account; there is no check that its number is new. */
    method AddAccount(acc: Account)
      modifies this
      ensures accounts == old(accounts) + [acc]
      ensures Numbers(accounts) == Numbers(old(accounts)) + [acc.accountNo]
    {
      NumbersAppend(accounts, acc);
      accounts := accounts + [acc];
    }
  }
}
